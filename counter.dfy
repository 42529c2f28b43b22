/**
 * The counter state shared by the custom-store, context+reducer and Zustand
 * demos: two independent counters and their running total.  The transitions
 * are stated once here, as relations between a state and its successor; each
 * demo's own update code is proved to implement them.
 */
module Counter {

  datatype CounterState = CounterState(countA: int, countB: int, totalCount: int)

  /** The state every provider starts from: `{ countA: 0, countB: 0, totalCount: 0 }`. */
  const Zero := CounterState(0, 0, 0)

  /** The demos' invariant: the total is the sum of the two counters. */
  predicate Consistent(s: CounterState) {
    s.totalCount == s.countA + s.countB
  }

  /** `t` is what "increment A" must produce from `s`. */
  predicate IsStepA(s: CounterState, t: CounterState) {
    t.countA == s.countA + 1 && t.countB == s.countB && Consistent(t)
  }

  /** `t` is what "increment B" must produce from `s`. */
  predicate IsStepB(s: CounterState, t: CounterState) {
    t.countA == s.countA && t.countB == s.countB + 1 && Consistent(t)
  }

  /** The reference "increment A": bump `countA`, recompute the total. */
  function StepA(s: CounterState): CounterState {
    CounterState(s.countA + 1, s.countB, s.countA + 1 + s.countB)
  }

  /** The reference "increment B": bump `countB`, recompute the total. */
  function StepB(s: CounterState): CounterState {
    CounterState(s.countA, s.countB + 1, s.countA + s.countB + 1)
  }

  /**
   * The reference steps are exactly the step relations: they satisfy them,
   * and nothing else does, so any two implementations agree.
   */
  lemma StepsMeanSteps(s: CounterState, t: CounterState)
    ensures IsStepA(s, t) <==> t == StepA(s)
    ensures IsStepB(s, t) <==> t == StepB(s)
  {
  }

  /** The two increments commute, whatever the starting state. */
  lemma StepsCommute(s: CounterState)
    ensures StepA(StepB(s)) == StepB(StepA(s))
  {
  }

  /** From the initial state, A then B then A gives `{2, 1, 3}`. */
  lemma ExampleRun()
    ensures StepA(StepB(StepA(Zero))) == CounterState(2, 1, 3)
  {
  }
}
