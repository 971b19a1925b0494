/**
 * The functional behaviour of the constant-time comparison that
 * `secureCompare` hands the two digests to. Its timing behaviour is not
 * modelled; only the value it returns.
 */
module Subtle {

  /** ConstantTimeByteEq: 1 when the bytes are equal, 0 otherwise, by the borrow out of `x ^ y - 1`. */
  function ConstantTimeByteEq(x: bv8, y: bv8): (r: int)
    ensures r == (if x == y then 1 else 0)
  {
    (((x ^ y) as bv32 - 1) >> 31) as int
  }

  /** The accumulator `v |= x[i] ^ y[i]` after every index has been visited. */
  function OrOfXors(x: seq<bv8>, y: seq<bv8>): bv8
    requires |x| == |y|
  {
    if |x| == 0 then 0 else OrOfXors(x[..|x| - 1], y[..|y| - 1]) | (x[|x| - 1] ^ y[|y| - 1])
  }

  /** The accumulator stays zero exactly when no byte differs. */
  lemma {:induction false} OrOfXorsZero(x: seq<bv8>, y: seq<bv8>)
    requires |x| == |y|
    ensures OrOfXors(x, y) == 0 <==> x == y
  {
    if |x| > 0 {
      var n := |x| - 1;
      OrOfXorsZero(x[..n], y[..n]);
      assert x == x[..n] + [x[n]] && y == y[..n] + [y[n]];
      if x == y {
        assert x[..n] == y[..n];
      }
    }
  }

  /** ConstantTimeCompare: 1 exactly when the two byte strings are equal, 0 otherwise. */
  function ConstantTimeCompare(x: seq<bv8>, y: seq<bv8>): (r: int)
    ensures r == (if x == y then 1 else 0)
  {
    if |x| != |y| then 0
    else
      OrOfXorsZero(x, y);
      ConstantTimeByteEq(OrOfXors(x, y), 0)
  }
}
