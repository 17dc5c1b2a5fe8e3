/** The axis smoother `update(old, new, max_delta=0.3)`, over the reals. */
module Smoother {

  /** The default step bound of `update`. */
  const MaxDelta: real := 0.3

  function Abs(x: real): real { if x < 0.0 then -x else x }

  function Max(a: real, b: real): real { if a < b then b else a }

  /** `x` lies on the closed segment between `a` and `b`. */
  predicate Between(a: real, x: real, b: real) { (a <= x <= b) || (b <= x <= a) }

  /**
   * One bounded step from `prev` toward `target`: the target itself when it
   * is within `maxDelta`, otherwise exactly `maxDelta` closer to it.
   */
  function Update(prev: real, target: real, maxDelta: real): (r: real)
    ensures 0.0 <= maxDelta ==> Between(prev, r, target)
    ensures 0.0 <= maxDelta ==> (r == target <==> Abs(prev - target) <= maxDelta)
    ensures 0.0 <= maxDelta ==> Abs(r - target) == Max(0.0, Abs(prev - target) - maxDelta)
    ensures 0.0 <= maxDelta ==> Abs(r - prev) <= maxDelta
  {
    if Abs(prev - target) <= maxDelta then
      target
    else if prev < target then
      prev + maxDelta
    else
      prev - maxDelta
  }

  /** Inputs in [-1, 1] give an output in [-1, 1]. */
  lemma UpdateStaysInUnitRange(prev: real, target: real, maxDelta: real)
    requires -1.0 <= prev <= 1.0 && -1.0 <= target <= 1.0 && 0.0 <= maxDelta
    ensures -1.0 <= Update(prev, target, maxDelta) <= 1.0
  {
  }

  /** `n` consecutive events that all carry the same target. */
  function Iterate(prev: real, target: real, maxDelta: real, n: nat): real
    decreases n
  {
    if n == 0 then prev else Iterate(Update(prev, target, maxDelta), target, maxDelta, n - 1)
  }

  /** A held reading is reached after ceil(|prev - target| / maxDelta) events, and then kept. */
  lemma {:induction false} Converges(prev: real, target: real, maxDelta: real, n: nat)
    requires 0.0 < maxDelta
    requires Abs(prev - target) <= n as real * maxDelta
    ensures Iterate(prev, target, maxDelta, n) == target
    decreases n
  {
    if n > 0 {
      var next := Update(prev, target, maxDelta);
      assert Abs(next - target) <= (n - 1) as real * maxDelta;
      Converges(next, target, maxDelta, n - 1);
    }
  }
}
