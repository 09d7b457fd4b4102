/** Types and unsigned arithmetic shared by every part of the model. */
module Wrappers {
  datatype Option<+T> = None | Some(value: T)

  type Byte = bv8

  const U64_MAX: nat := 0xFFFF_FFFF_FFFF_FFFF

  /** The value a 64-bit unsigned expression has. */
  function Wrap64(x: int): (r: nat)
    ensures r <= U64_MAX
    ensures 0 <= x <= U64_MAX ==> r == x
  {
    x % (U64_MAX + 1)
  }

  /** Only the sum counts, however often it wraps on the way. */
  lemma {:induction false} WrapOfSum(x: int, y: int)
    ensures Wrap64(x + Wrap64(y)) == Wrap64(x + y)
  {
    var m := U64_MAX + 1;
    var q := y / m;
    assert y == q * m + Wrap64(y);
    WrapShift(x + Wrap64(y), q);
  }

  lemma {:induction false} WrapShift(x: int, q: int)
    ensures Wrap64(x + q * (U64_MAX + 1)) == Wrap64(x)
    decreases if q < 0 then -q else q
  {
    if q > 0 {
      WrapShift(x + (U64_MAX + 1), q - 1);
    } else if q < 0 {
      WrapShift(x - (U64_MAX + 1), q + 1);
    }
  }

  /** Element `i` taken out. */
  function Without<T>(s: seq<T>, i: nat): (r: seq<T>)
    requires i < |s|
    ensures |r| == |s| - 1
  {
    s[..i] + s[i + 1..]
  }
}
