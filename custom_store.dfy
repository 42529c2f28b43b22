/**
 * The hand-rolled store of the custom-store demo: a mutable record holding
 * the current state and the set of listeners, and the two counter updates
 * that replace the state and then call every listener.
 */
module CustomStore {
  import opened Counter
  import opened Listeners

  /**
   * `Store<T>`: `state` is replaced wholesale by the updates; `listeners`
   * is added to and deleted from by subscribing components.  The ghost
   * `log` records every listener call made through the store.
   */
  class Store<T> {
    var state: T
    var listeners: set<ListenerId>
    ghost var log: seq<Notification<T>>

    /** `createStore(initial)`. */
    constructor (initial: T)
      ensures state == initial
      ensures listeners == {}
      ensures log == []
    {
      state := initial;
      listeners := {};
      log := [];
    }
  }

  /**
   * `incrementA(store)`: the new state has `countA` one higher, the same
   * `countB` and a recomputed total; then each listener is called once,
   * seeing the new state.
   */
  method IncrementA(store: Store<CounterState>)
    modifies store
    ensures store.state == StepA(old(store.state))
    ensures store.listeners == old(store.listeners)
    ensures |store.log| >= |old(store.log)| && store.log[..|old(store.log)|] == old(store.log)
    ensures NotifiesEachOnce(store.log[|old(store.log)|..], store.listeners, store.state)
  {
    var newCountA := store.state.countA + 1;
    store.state := store.state.(countA := newCountA, totalCount := newCountA + store.state.countB);
    var fired := NotifyAll(store.listeners, store.state);
    store.log := store.log + fired;
    assert store.log[|old(store.log)|..] == fired;
  }

  /** `incrementB(store)`: the mirror image of `IncrementA`. */
  method IncrementB(store: Store<CounterState>)
    modifies store
    ensures store.state == StepB(old(store.state))
    ensures store.listeners == old(store.listeners)
    ensures |store.log| >= |old(store.log)| && store.log[..|old(store.log)|] == old(store.log)
    ensures NotifiesEachOnce(store.log[|old(store.log)|..], store.listeners, store.state)
  {
    var newCountB := store.state.countB + 1;
    store.state := store.state.(countB := newCountB, totalCount := store.state.countA + newCountB);
    var fired := NotifyAll(store.listeners, store.state);
    store.log := store.log + fired;
    assert store.log[|old(store.log)|..] == fired;
  }

  /**
   * The provider's store starts at `{0, 0, 0}`; A, B, A then leaves it at
   * `{2, 1, 3}`.  A single registered listener is the only one called, three
   * times, seeing `{1, 0, 1}`, `{1, 1, 2}` and `{2, 1, 3}` in turn.
   */
  method ProviderScenario(listener: ListenerId) returns (final: CounterState, ghost calls: seq<Notification<CounterState>>)
    ensures final == CounterState(2, 1, 3)
    ensures Called(calls) == [listener, listener, listener]
    ensures multiset(Called(calls))[listener] == 3
    ensures [calls[0].seen, calls[1].seen, calls[2].seen] == [CounterState(1, 0, 1), CounterState(1, 1, 2), final]
  {
    var store := new Store(Zero);
    store.listeners := store.listeners + {listener};
    IncrementA(store);
    OnlyListener(store.log, listener, store.state);
    IncrementB(store);
    OnlyListener(store.log[1..], listener, store.state);
    IncrementA(store);
    OnlyListener(store.log[2..], listener, store.state);
    assert store.log == [Notification(listener, CounterState(1, 0, 1)), Notification(listener, CounterState(1, 1, 2)), Notification(listener, CounterState(2, 1, 3))];
    final := store.state;
    calls := store.log;
  }
}
