/**
 * The context+reducer demo: `counterReducer` is a pure function from the
 * current state and a dispatched action to the next state.
 */
module CounterReducer {
  import opened Counter

  /**
   * The dispatched action.  The typed union has only the two increments;
   * `Other` stands for any other `type` string, which the reducer's
   * `default` branch handles.
   */
  datatype CounterAction = IncrementA | IncrementB | Other(actionType: OtherType)

  /** A `type` string that neither increment case of the `switch` matches. */
  type OtherType = t: string | t != "INCREMENT_A" && t != "INCREMENT_B" witness ""

  /** `initialState`. */
  const InitialState := Zero

  /** `initialState` is `{0, 0, 0}` and satisfies the counter invariant. */
  lemma InitialStateConsistent()
    ensures InitialState.countA == 0 && InitialState.countB == 0 && InitialState.totalCount == 0
    ensures Consistent(InitialState)
  {
  }

  /** `counterReducer(state, action)`. */
  function Reduce(state: CounterState, action: CounterAction): (next: CounterState)
    ensures action.IncrementA? ==> IsStepA(state, next)
    ensures action.IncrementB? ==> IsStepB(state, next)
    ensures action.Other? ==> next == state
  {
    match action
    case IncrementA =>
      var newCountA := state.countA + 1;
      state.(countA := newCountA, totalCount := newCountA + state.countB)
    case IncrementB =>
      var newCountB := state.countB + 1;
      state.(countB := newCountB, totalCount := state.countA + newCountB)
    case Other(_) =>
      state
  }

  /** The reducer computes the same successor as the custom store's updates. */
  lemma ReduceAgreesWithStore(state: CounterState)
    ensures Reduce(state, IncrementA) == StepA(state)
    ensures Reduce(state, IncrementB) == StepB(state)
  {
    StepsMeanSteps(state, Reduce(state, IncrementA));
    StepsMeanSteps(state, Reduce(state, IncrementB));
  }

  /** The state after dispatching `actions` in order, starting from `state`. */
  function DispatchAll(state: CounterState, actions: seq<CounterAction>): CounterState
    decreases |actions|
  {
    if actions == [] then state
    else DispatchAll(Reduce(state, actions[0]), actions[1..])
  }

  /**
   * Dispatching any sequence of actions adds the number of `IncrementA`s to
   * `countA` and the number of `IncrementB`s to `countB`.  The total is
   * recomputed as their sum by the first increment; with no increment at
   * all it is left as it was.
   */
  lemma {:induction false} DispatchAllCounts(state: CounterState, actions: seq<CounterAction>)
    ensures DispatchAll(state, actions) == CounterState(
      state.countA + multiset(actions)[IncrementA],
      state.countB + multiset(actions)[IncrementB],
      if multiset(actions)[IncrementA] + multiset(actions)[IncrementB] == 0 then state.totalCount
      else state.countA + state.countB + multiset(actions)[IncrementA] + multiset(actions)[IncrementB])
    decreases |actions|
  {
    if actions != [] {
      DispatchAllCounts(Reduce(state, actions[0]), actions[1..]);
      assert actions == [actions[0]] + actions[1..];
      assert multiset(actions) == multiset{actions[0]} + multiset(actions[1..]);
    }
  }

  /** From `initialState`, every sequence of dispatches keeps the invariant. */
  lemma DispatchAllConsistent(actions: seq<CounterAction>)
    ensures Consistent(DispatchAll(InitialState, actions))
  {
    DispatchAllCounts(InitialState, actions);
  }

  /**
   * Only how many increments of each kind were dispatched matters, not
   * their order: any reordering reaches the same state, from any state.
   */
  lemma DispatchOrderIrrelevant(state: CounterState, actions: seq<CounterAction>, reordered: seq<CounterAction>)
    requires multiset(actions) == multiset(reordered)
    ensures DispatchAll(state, actions) == DispatchAll(state, reordered)
  {
    DispatchAllCounts(state, actions);
    DispatchAllCounts(state, reordered);
  }
}
