/**
 * The MobX demo's `CounterStore`: an observable object with a counter, a
 * loading flag, a derived parity, and an asynchronous increment that
 * completes after a delay.
 */
module MobxCounter {

  /** A multiple of `b` leaves no Euclidean remainder. */
  lemma MultipleHasNoRemainder(k: int, b: int)
    requires b > 0
    ensures (b * k) % b == 0
  {
    var d, m := (b * k) / b, (b * k) % b;
    // `m` is a multiple of `b` in `[0, b)`, so the quotient can only be `k`.
    assert b * (k - d) == m;
    if k - d >= 1 {
      assert false;
    } else if k - d <= -1 {
      assert false;
    }
  }

  /** Taking off the remainder leaves a multiple of `b`, whichever its sign. */
  lemma WithoutRemainderIsMultiple(n: int, b: int)
    requires b > 0
    ensures (n - n % b) % b == 0
    ensures (-(n - n % b)) % b == 0
  {
    var q := n / b;
    assert n - n % b == b * q;
    assert -(n - n % b) == b * -q;
    MultipleHasNoRemainder(q, b);
    MultipleHasNoRemainder(-q, b);
  }

  /**
   * JavaScript's `%`, which truncates toward zero (`-3 % 2 === -1`): the
   * remainder differs from `a` by a multiple of `b`, is smaller than `b`
   * in magnitude and takes the sign of `a`.  These together fix it.
   */
  function JsRemainder(a: int, b: int): (r: int)
    requires b > 0
    ensures (a - r) % b == 0
    ensures -b < r < b
    ensures a >= 0 ==> 0 <= r && r == a % b
    ensures a < 0 ==> r <= 0
  {
    if a >= 0 then
      WithoutRemainderIsMultiple(a, b);
      a % b
    else
      WithoutRemainderIsMultiple(-a, b);
      -((-a) % b)
  }

  /** The `isEven` getter on a given value: `value % 2 === 0`. */
  predicate IsEvenValue(value: int) {
    JsRemainder(value, 2) == 0
  }

  /**
   * `isEven` means divisibility by two, for negative values too, even
   * though JavaScript's remainder differs from the Euclidean one there.
   */
  lemma IsEvenMeansDivisible(value: int)
    ensures IsEvenValue(value) <==> value % 2 == 0
  {
  }

  /** Each increment flips `isEven`. */
  lemma IncrementFlipsParity(value: int)
    ensures IsEvenValue(value + 1) <==> !IsEvenValue(value)
  {
    IsEvenMeansDivisible(value);
    IsEvenMeansDivisible(value + 1);
  }

  class CounterStore {
    var value: int
    var loading: bool
    /** Calls of `incrementLater` that are waiting at their `await`. */
    ghost var pending: nat

    /** `value = 0; loading = false`. */
    constructor ()
      ensures value == 0 && !loading && pending == 0
    {
      value := 0;
      loading := false;
      pending := 0;
    }

    /** The `isEven` getter. */
    predicate IsEven()
      reads this
    {
      IsEvenValue(value)
    }

    /** `increment()`: `value++`, nothing else. */
    method Increment()
      modifies this
      ensures value == old(value) + 1
      ensures loading == old(loading) && pending == old(pending)
      ensures IsEven() <==> !old(IsEven())
    {
      IncrementFlipsParity(value);
      value := value + 1;
    }

    /** `reset()`: `value = 0`; calling it again changes nothing. */
    method Reset()
      modifies this
      ensures value == 0 && IsEven()
      ensures loading == old(loading) && pending == old(pending)
    {
      value := 0;
    }

    /** `incrementLater()` up to its `await`: raise the loading flag. */
    method IncrementLaterStart()
      modifies this
      ensures loading
      ensures value == old(value)
      ensures pending == old(pending) + 1
    {
      loading := true;
      pending := pending + 1;
    }

    /**
     * `incrementLater()` after its `await`.  If the awaited promise
     * settled normally the `try` block runs `value++`; on either exit path
     * the `finally` block clears the loading flag.
     */
    method IncrementLaterFinish(awaitRejected: bool)
      requires pending > 0
      modifies this
      ensures !loading
      ensures value == old(value) + (if awaitRejected then 0 else 1)
      ensures pending == old(pending) - 1
    {
      if !awaitRejected {
        value := value + 1;
      }
      loading := false;
      pending := pending - 1;
    }

    /**
     * A whole `incrementLater()` with nothing else happening during the
     * delay: loading while it waits, then one more and not loading.
     */
    method IncrementLater()
      modifies this
      ensures value == old(value) + 1
      ensures !loading
      ensures pending == old(pending)
    {
      IncrementLaterStart();
      assert loading;
      IncrementLaterFinish(false);
    }
  }

  /**
   * Two overlapping `incrementLater()` calls: when the first finishes its
   * `finally` clears `loading` although the second is still waiting.
   */
  method OverlappingIncrementLater() returns (loadingWhileSecondPending: bool, ghost stillPending: nat)
    ensures !loadingWhileSecondPending && stillPending == 1
  {
    var store := new CounterStore();
    store.IncrementLaterStart();
    store.IncrementLaterStart();
    store.IncrementLaterFinish(false);
    loadingWhileSecondPending := store.loading;
    stillPending := store.pending;
  }
}
