/**
  Fixed-width integer helpers shared by every module of the firmware model.

  The firmware is C on a 32-bit microcontroller: `uint8_t`, `uint16_t`,
  `uint32_t` and `int8_t` values, a millisecond tick counter that wraps at
  2^32, and `/` that truncates toward zero. Dafny's `int` is unbounded and its
  `/` is Euclidean, so each of these behaviours is written out here once.
 */
module Ints {

  const U32: int := 0x1_0000_0000
  const I32Half: int := 0x8000_0000

  type u8 = x: int | 0 <= x < 0x100
  type u16 = x: int | 0 <= x < 0x1_0000
  type u32 = x: int | 0 <= x < 0x1_0000_0000
  type i8 = x: int | -128 <= x < 128

  datatype Option<T> = None | Some(value: T)

  function Min(a: int, b: int): int { if a <= b then a else b }
  function Max(a: int, b: int): int { if a <= b then b else a }
  function Abs(x: int): nat { if x < 0 then -x else x }

  /** Two clamps applied in the order the C code applies them (low bound first). */
  function Clamp(v: int, lo: int, hi: int): (r: int)
    ensures lo <= hi ==> lo <= r <= hi
    ensures lo <= v <= hi ==> r == v
    ensures lo <= hi && v < lo ==> r == lo
    ensures lo <= hi && v > hi ==> r == hi
  {
    var a := if v < lo then lo else v;
    if a > hi then hi else a
  }

  /** The `(int8_t)` conversion: two's-complement truncation to 8 bits. */
  function ToI8(x: int): (r: i8)
    ensures -128 <= x < 128 ==> r == x
  {
    if -128 <= x < 128 then x else ((x + 128) % 256) - 128
  }

  /** The truncation keeps the value's low 8 bits: the result differs from `x` by a multiple of 256. */
  lemma ToI8Congruent(x: int)
    ensures (ToI8(x) - x) % 256 == 0
  {
  }

  /** The `(int32_t)` conversion of a `uint32_t`. */
  function ToI32(x: u32): (r: int)
    ensures -I32Half <= r < I32Half
    ensures (r - x) % U32 == 0
    ensures r >= 0 <==> x < I32Half
  {
    if x < I32Half then x else x - U32
  }

  /** `uint32_t` addition: wraps at 2^32. */
  function Add32(a: u32, b: u32): (r: u32)
    ensures (r - a - b) % U32 == 0
    ensures a + b < U32 ==> r == a + b
  {
    (a + b) % U32
  }

  /** `uint32_t` subtraction `a - b`: the elapsed time from `b` to `a` on a wrapping clock. */
  function Sub32(a: u32, b: u32): (r: u32)
    ensures Add32(b, r) == a
    ensures a >= b ==> r == a - b
  {
    if a >= b then a - b else a - b + U32
  }

  /** C integer division, which truncates toward zero (Dafny's `/` is Euclidean). */
  function TruncDiv(a: int, b: int): (r: int)
    requires b > 0
    ensures a >= 0 ==> r == a / b
    ensures a < 0 ==> r == -((-a) / b)
  {
    if a >= 0 then a / b else -((-a) / b)
  }

  /** `lo | hi << 8`. */
  function DecodeLE16(lo: u8, hi: u8): (r: u16)
    ensures r % 256 == lo && r / 256 == hi
  {
    lo + hi * 256
  }

  /** Decoding is one-to-one: a 16-bit value splits back into the two bytes. */
  lemma DecodeLE16RoundTrip(v: u16)
    ensures DecodeLE16(v % 256, v / 256) == v
  {
  }

  /** The periodic-task test every dispatcher of the firmware uses: `(now - last) >= period` in uint32. */
  predicate Due(now: u32, last: u32, period: int)
  {
    Sub32(now, last) >= period
  }

  /**
    The elapsed time from `last` to `last + d` (mod 2^32) is `d` again, so a
    task stamped at `last` is not due before a full period has passed and is
    due once it has, across any single wrap of the tick counter.
   */
  lemma {:induction false} DueAfterExactly(last: u32, d: u32, period: int)
    ensures Sub32(Add32(last, d), last) == d
    ensures Due(Add32(last, d), last, period) <==> d >= period
  {
    var now := Add32(last, d);
    if last + d < U32 {
      assert now == last + d;
    } else {
      assert now == last + d - U32;
    }
  }

  /**
    Two stamps `a` and `b` milliseconds after the same `t` (mod 2^32) lie
    `b - a` apart on the wrapping clock.
   */
  lemma {:induction false} ElapsedBetween(t: u32, a: nat, b: nat)
    requires a <= b < U32
    ensures Sub32(Add32(t, b), Add32(t, a)) == b - a
  {
    var x := Add32(t, a);
    var y := Add32(t, b);
    assert Add32(x, b - a) == y by {
      if t + a < U32 {
        assert x == t + a;
      } else {
        assert x == t + a - U32;
        assert (x + (b - a)) % U32 == (t + b - U32) % U32 == (t + b) % U32;
      }
    }
    DueAfterExactly(x, b - a, 0);
  }

  /**
    An expiry stamped `until = start + dwell` (mod 2^32) and tested with the
    signed difference `(int32_t)(now - until) >= 0` expires exactly when the
    time elapsed since `start` has reached `dwell`, as long as both are below
    2^31 (a dwell is a `uint16_t`, so this always holds for it).
   */
  lemma {:induction false} SignedExpiry(start: u32, dwell: u32, e: u32)
    requires dwell < I32Half && e < I32Half
    ensures ToI32(Sub32(Add32(start, e), Add32(start, dwell))) >= 0 <==> e >= dwell
  {
    var now := Add32(start, e);
    var until := Add32(start, dwell);
    DueAfterExactly(start, e, 0);
    DueAfterExactly(start, dwell, 0);
    var d := Sub32(now, until);
    // now - until == e - dwell (mod 2^32); pin down the representative.
    assert (d - (e - dwell)) % U32 == 0 by {
      assert (now - start - e) % U32 == 0;
      assert (until - start - dwell) % U32 == 0;
      assert (d + until - now) % U32 == 0;
      ModSum(now - start - e, until - start - dwell, d + until - now);
      assert d - (e - dwell) == (d + until - now) - (until - start - dwell) + (now - start - e);
    }
    if e >= dwell {
      ModEq(d, e - dwell);
    } else {
      assert (d - (e - dwell + U32)) % U32 == 0;
      ModEq(d, e - dwell + U32);
    }
  }

  lemma ModSum(a: int, b: int, c: int)
    requires a % U32 == 0 && b % U32 == 0 && c % U32 == 0
    ensures (c - b + a) % U32 == 0
  {
    var ka, kb, kc := a / U32, b / U32, c / U32;
    assert c - b + a == (kc - kb + ka) * U32;
  }

  /** A value already in [0, 2^32) is its own residue. */
  lemma ModSmall(x: int)
    requires 0 <= x < U32
    ensures x % U32 == x
  {
  }

  /** Two representatives in [0, 2^32) of the same residue are equal. */
  lemma ModEq(d: int, x: int)
    requires 0 <= d < U32 && 0 <= x < U32
    requires (d - x) % U32 == 0
    ensures d == x
  {
  }
}
