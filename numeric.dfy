/**
  Numeric helpers shared by the two PID controllers: the C++ conversion from
  `double` to an integral type (truncation toward zero), the two clamps as the
  sources write them (they test the bounds in different orders), and unsigned
  32-bit subtraction.
 */
module Numeric {

  /** `n` is `r` with its fractional part dropped, i.e. rounded toward zero. */
  ghost predicate TruncatesTo(r: real, n: int) {
    if r >= 0.0 then n as real <= r < n as real + 1.0
    else n as real - 1.0 < r <= n as real
  }

  function Abs(r: real): (a: real)
    ensures a >= 0.0 && (a == r || a == -r)
  {
    if r >= 0.0 then r else -r
  }

  /** `static_cast<Write_T>(r)` for an integral `Write_T`: truncation toward zero. */
  function Trunc(r: real): (n: int)
    ensures TruncatesTo(r, n)
  {
    if r >= 0.0 then r.Floor else -((-r).Floor)
  }

  /** Truncation never grows the magnitude, loses less than one, and keeps the sign. */
  lemma TruncTowardZero(r: real)
    ensures Abs(Trunc(r) as real) <= Abs(r) < Abs(Trunc(r) as real) + 1.0
    ensures r >= 0.0 ==> Trunc(r) >= 0
    ensures r <= 0.0 ==> Trunc(r) <= 0
  {
  }

  /** Unlike the floor, truncation is symmetric about zero. */
  lemma TruncOdd(r: real)
    ensures Trunc(-r) == -Trunc(r)
  {
  }

  /** Only one integer truncates a given real: `TruncatesTo` is a specification of `Trunc`. */
  lemma TruncatesToUnique(r: real, n: int, m: int)
    requires TruncatesTo(r, n) && TruncatesTo(r, m)
    ensures n == m
  {
  }

  /**
    The clamp of pid_action.h: the upper bound is tested first, so with
    inverted bounds every value above `hi` becomes `hi` and every other one `lo`.
   */
  function ClampUpperFirst(x: int, lo: int, hi: int): (r: int)
    ensures lo <= hi ==> lo <= r <= hi
    ensures lo <= hi ==> (r == x <==> lo <= x <= hi)
    ensures lo <= hi && x > hi ==> r == hi
    ensures lo <= hi && x < lo ==> r == lo
    ensures hi < lo ==> r == (if x > hi then hi else lo)
  {
    if x > hi then hi else if x < lo then lo else x
  }

  /**
    The clamp of PID.cpp: the lower bound is tested first, so with inverted
    bounds every value below `lo` becomes `lo` and every other one `hi`.
   */
  function ClampLowerFirst(x: real, lo: real, hi: real): (r: real)
    ensures lo <= hi ==> lo <= r <= hi
    ensures lo <= hi ==> (r == x <==> lo <= x <= hi)
    ensures lo <= hi && x < lo ==> r == lo
    ensures lo <= hi && x > hi ==> r == hi
    ensures hi < lo ==> r == (if x < lo then lo else hi)
  {
    if x < lo then lo else if x > hi then hi else x
  }

  /** With ordered bounds the two clamps agree: the order of the tests matters only for inverted bounds. */
  lemma ClampsAgree(x: int, lo: int, hi: int)
    requires lo <= hi
    ensures ClampUpperFirst(x, lo, hi) as real == ClampLowerFirst(x as real, lo as real, hi as real)
  {
  }

  const TwoTo32: int := 0x1_0000_0000

  /** `uint32_t` */
  type U32 = n: int | 0 <= n < TwoTo32

  /** `a - b` on `uint32_t`: the difference modulo 2^32. */
  function WrappingSub(a: U32, b: U32): (r: U32)
    ensures (b + r) % TwoTo32 == a
    ensures r == 0 <==> a == b
  {
    (a - b) % TwoTo32
  }
}
