/**
 * The `ExternalStore` of the tearing-comparison demo: one number, a set of
 * listeners, an assign-then-notify setter, a subscribe that hands back an
 * unsubscribe closure, and the snapshot reader given to
 * `useSyncExternalStore`.
 */
module TearingComparison {
  import opened Listeners

  class ExternalStore {
    var data: int
    var listeners: set<ListenerId>
    /** Every listener call made by `SetData`, with the value it could read. */
    ghost var log: seq<Notification<int>>

    /** A new store holds `1` and has no listeners. */
    constructor ()
      ensures data == 1 && listeners == {} && log == []
    {
      data := 1;
      listeners := {};
      log := [];
    }

    /** `getData`. */
    function GetData(): int
      reads this
    {
      data
    }

    /** `getSnapshot`: the read `useSyncExternalStore` performs. */
    function GetSnapshot(): int
      reads this
    {
      data
    }

    /**
     * `setData(newData)`: assign, then call every current listener exactly
     * once, each seeing the new value.  There is no equality check, so
     * setting the value already held still notifies.
     */
    method SetData(newData: int)
      modifies this
      ensures GetSnapshot() == newData && GetData() == newData
      ensures listeners == old(listeners)
      ensures |log| >= |old(log)| && log[..|old(log)|] == old(log)
      ensures NotifiesEachOnce(log[|old(log)|..], listeners, newData)
    {
      data := newData;
      var fired := NotifyAll(listeners, data);
      log := log + fired;
      assert log[|old(log)|..] == fired;
    }

    /**
     * `subscribe(callback)`: add the callback (a second add of the same
     * callback changes nothing) and return the closure that deletes it.
     */
    method Subscribe(callback: ListenerId) returns (unsubscribe: Unsubscribe)
      modifies this
      ensures listeners == old(listeners) + {callback}
      ensures data == old(data) && log == old(log)
      ensures unsubscribe == Unsubscribe(this, callback)
    {
      listeners := listeners + {callback};
      unsubscribe := Unsubscribe(this, callback);
    }
  }

  /** The closure `() => this.listeners.delete(callback)`. */
  datatype Unsubscribe = Unsubscribe(store: ExternalStore, callback: ListenerId)

  /**
   * Calling the closure: removes exactly its callback, touches nothing
   * else, and returns `Set.delete`'s answer, whether it was present.
   */
  method Invoke(u: Unsubscribe) returns (deleted: bool)
    modifies u.store
    ensures u.store.listeners == old(u.store.listeners) - {u.callback}
    ensures deleted == (u.callback in old(u.store.listeners))
    ensures u.store.data == old(u.store.data) && u.store.log == old(u.store.log)
  {
    deleted := u.callback in u.store.listeners;
    u.store.listeners := u.store.listeners - {u.callback};
  }

  /**
   * Subscribing then calling the handle twice: the first call removes the
   * callback, the second finds nothing to remove, and the other listeners
   * are as before.
   */
  method UnsubscribeTwice(store: ExternalStore, callback: ListenerId) returns (first: bool, second: bool)
    modifies store
    ensures first && !second
    ensures store.listeners == old(store.listeners) - {callback}
    ensures store.data == old(store.data)
  {
    var u := store.Subscribe(callback);
    first := Invoke(u);
    second := Invoke(u);
  }
}
