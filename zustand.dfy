/**
 * The Zustand demo's store.  Its state object carries the three counters
 * and the two action functions; each action calls `set` with an updater
 * that returns a partial state, which Zustand shallow-merges into the
 * current one.
 */
module ZustandCounter {
  import opened Counter
  import CounterReducer

  datatype Option<T> = None | Some(value: T)

  /** Identity of an action closure stored in the state object. */
  type ActionRef = nat

  datatype StoreState = StoreState(
    countA: int,
    countB: int,
    totalCount: int,
    incrementA: ActionRef,
    incrementB: ActionRef)

  /** An object literal returned by an updater: absent keys are `None`. */
  datatype Partial = Partial(countA: Option<int>, countB: Option<int>, totalCount: Option<int>)

  /** The counter part of the state. */
  function Counts(s: StoreState): CounterState {
    CounterState(s.countA, s.countB, s.totalCount)
  }

  /** Value of a key after the merge: the partial's if present, else the old one. */
  function Pick(p: Option<int>, current: int): int {
    if p.Some? then p.value else current
  }

  /** `set(partial)`: a shallow merge, keys of the partial win. */
  function Merge(s: StoreState, p: Partial): (t: StoreState)
    ensures t.incrementA == s.incrementA && t.incrementB == s.incrementB
    ensures p.countA.Some? ==> t.countA == p.countA.value
    ensures p.countB.Some? ==> t.countB == p.countB.value
    ensures p.totalCount.Some? ==> t.totalCount == p.totalCount.value
    ensures p.countA.None? ==> t.countA == s.countA
    ensures p.countB.None? ==> t.countB == s.countB
    ensures p.totalCount.None? ==> t.totalCount == s.totalCount
  {
    s.(countA := Pick(p.countA, s.countA),
       countB := Pick(p.countB, s.countB),
       totalCount := Pick(p.totalCount, s.totalCount))
  }

  /** The object passed to `create`: all counters at zero, plus the actions. */
  function InitialState(incrementA: ActionRef, incrementB: ActionRef): (s: StoreState)
    ensures Counts(s) == Zero
    ensures s.incrementA == incrementA && s.incrementB == incrementB
  {
    StoreState(0, 0, 0, incrementA, incrementB)
  }

  /** The updater `incrementA` hands to `set`. */
  function IncrementAUpdater(state: StoreState): (p: Partial)
    ensures p.countB.None?
    ensures p.countA.Some? && p.countA.value == state.countA + 1
    ensures p.totalCount.Some? && p.totalCount.value == p.countA.value + state.countB
  {
    var newCountA := state.countA + 1;
    Partial(Some(newCountA), None, Some(newCountA + state.countB))
  }

  /** The updater `incrementB` hands to `set`. */
  function IncrementBUpdater(state: StoreState): (p: Partial)
    ensures p.countA.None?
    ensures p.countB.Some? && p.countB.value == state.countB + 1
    ensures p.totalCount.Some? && p.totalCount.value == state.countA + p.countB.value
  {
    var newCountB := state.countB + 1;
    Partial(None, Some(newCountB), Some(state.countA + newCountB))
  }

  /** Calling `incrementA()`: merge the updater's partial into the state. */
  function IncrementA(state: StoreState): (next: StoreState)
    ensures IsStepA(Counts(state), Counts(next))
    ensures next.incrementA == state.incrementA && next.incrementB == state.incrementB
  {
    Merge(state, IncrementAUpdater(state))
  }

  /** Calling `incrementB()`: merge the updater's partial into the state. */
  function IncrementB(state: StoreState): (next: StoreState)
    ensures IsStepB(Counts(state), Counts(next))
    ensures next.incrementA == state.incrementA && next.incrementB == state.incrementB
  {
    Merge(state, IncrementBUpdater(state))
  }

  /**
   * The Zustand actions, the reducer and the custom store all compute the
   * same next counters from the same current counters.
   */
  lemma AgreesWithReducerAndStore(state: StoreState)
    ensures Counts(IncrementA(state)) == CounterReducer.Reduce(Counts(state), CounterReducer.IncrementA) == StepA(Counts(state))
    ensures Counts(IncrementB(state)) == CounterReducer.Reduce(Counts(state), CounterReducer.IncrementB) == StepB(Counts(state))
  {
    StepsMeanSteps(Counts(state), Counts(IncrementA(state)));
    StepsMeanSteps(Counts(state), Counts(IncrementB(state)));
    CounterReducer.ReduceAgreesWithStore(Counts(state));
  }
}
