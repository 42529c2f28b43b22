/**
 * Listener registries.  A listener is a zero-argument callback; the model
 * keeps only its identity, which is what a JavaScript `Set` of callbacks
 * compares.  Calling every member of the set is recorded as a sequence of
 * notifications, each remembering the store value the listener could read
 * at the moment it was called.
 */
module Listeners {

  type ListenerId = nat

  datatype Notification<T> = Notification(listener: ListenerId, seen: T)

  /** The listeners called, in call order. */
  function Called<T>(fired: seq<Notification<T>>): (ids: seq<ListenerId>)
    ensures |ids| == |fired|
    ensures forall i | 0 <= i < |fired| :: ids[i] == fired[i].listener
  {
    if fired == [] then [] else Called(fired[..|fired| - 1]) + [fired[|fired| - 1].listener]
  }

  /**
   * `fired` calls every member of `listeners` exactly once, and nothing
   * else, and every call observes `current`.
   */
  ghost predicate NotifiesEachOnce<T>(fired: seq<Notification<T>>, listeners: set<ListenerId>, current: T) {
    && multiset(Called(fired)) == multiset(listeners)
    && forall i | 0 <= i < |fired| :: fired[i].seen == current
  }

  /** Exactly-once, spelled out per listener. */
  lemma EachListenerOnce<T>(fired: seq<Notification<T>>, listeners: set<ListenerId>, current: T, l: ListenerId)
    requires NotifiesEachOnce(fired, listeners, current)
    ensures multiset(Called(fired))[l] == if l in listeners then 1 else 0
    ensures |fired| == |listeners|
  {
    assert |multiset(Called(fired))| == |Called(fired)|;
    assert |multiset(listeners)| == |listeners|;
  }

  /** With a single registered listener, notifying makes exactly one call, to it. */
  lemma OnlyListener<T>(fired: seq<Notification<T>>, l: ListenerId, current: T)
    requires NotifiesEachOnce(fired, {l}, current)
    ensures fired == [Notification(l, current)]
  {
    EachListenerOnce(fired, {l}, current, l);
    assert Called(fired)[0] in multiset(Called(fired));
  }

  /** Appending one call appends its listener. */
  lemma CalledAppend<T>(fired: seq<Notification<T>>, n: Notification<T>)
    ensures Called(fired + [n]) == Called(fired) + [n.listener]
  {
    assert (fired + [n])[..|fired|] == fired;
  }

  /** Taking one listener out of a set takes it out of its multiset. */
  lemma MultisetRemove(pending: set<ListenerId>, l: ListenerId)
    requires l in pending
    ensures multiset(pending) == multiset(pending - {l}) + multiset{l}
  {
    assert pending == (pending - {l}) + {l};
  }

  /** Calling one pending listener moves it from the pending set to the calls made. */
  lemma NotifyStep<T>(fired: seq<Notification<T>>, pending: set<ListenerId>, listeners: set<ListenerId>, n: Notification<T>)
    requires n.listener in pending
    requires multiset(Called(fired)) + multiset(pending) == multiset(listeners)
    requires forall i | 0 <= i < |fired| :: fired[i].seen == n.seen
    ensures multiset(Called(fired + [n])) + multiset(pending - {n.listener}) == multiset(listeners)
    ensures forall i | 0 <= i < |fired + [n]| :: (fired + [n])[i].seen == n.seen
  {
    CalledAppend(fired, n);
    MultisetRemove(pending, n.listener);
  }

  /**
   * `listeners.forEach(l => l())`: call every registered listener once.
   * The callbacks' own effects are not modelled, so the value they can read
   * is the `current` one throughout.
   */
  method NotifyAll<T>(listeners: set<ListenerId>, current: T) returns (fired: seq<Notification<T>>)
    ensures multiset(Called(fired)) == multiset(listeners)
    ensures forall i | 0 <= i < |fired| :: fired[i].seen == current
  {
    fired := [];
    var pending := listeners;
    while pending != {}
      invariant multiset(Called(fired)) + multiset(pending) == multiset(listeners)
      invariant forall i | 0 <= i < |fired| :: fired[i].seen == current
      decreases pending
    {
      var l :| l in pending;
      var n := Notification(l, current);
      NotifyStep(fired, pending, listeners, n);
      fired := fired + [n];
      pending := pending - {l};
    }
    assert multiset(pending) == multiset{};
  }
}
