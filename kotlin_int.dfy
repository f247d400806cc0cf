/** Kotlin's 32-bit `Int`, whose `++` wraps around from `Int.MAX_VALUE` to `Int.MIN_VALUE`. */
module KotlinInt {

  const MinValue: int := -0x8000_0000
  const MaxValue: int := 0x7fff_ffff
  const Modulus: int := 0x1_0000_0000

  newtype int32 = x: int | -0x8000_0000 <= x < 0x8000_0000

  /** The two's-complement reading of an unbounded integer: the unique `int32` congruent to `x`. */
  function Wrap(x: int): (r: int32)
    ensures MinValue <= r as int <= MaxValue
    ensures r as int == x - Modulus * ((x - MinValue) / Modulus)
  {
    ((x - MinValue) % Modulus + MinValue) as int32
  }

  /** `x++` on a Kotlin `Int`. */
  function Inc(x: int32): (r: int32)
    ensures x as int < MaxValue ==> r as int == x as int + 1
    ensures x as int == MaxValue ==> r as int == MinValue
    ensures r == Wrap(x as int + 1)
  {
    if x as int == MaxValue then MinValue as int32 else x + 1
  }

  /** The value after `k` increments starting from `c`. */
  function Advance(c: int32, k: nat): int32
  {
    if k == 0 then c else Inc(Advance(c, k - 1))
  }

  /** Two integers that differ by a multiple of 2^32 have the same wrapped value. */
  lemma WrapShift(x: int, q: int)
    ensures Wrap(x + Modulus * q) == Wrap(x)
  {
    var a, b := Wrap(x + Modulus * q), Wrap(x);
    var d := (x + Modulus * q - MinValue) / Modulus - (x - MinValue) / Modulus - q;
    assert a as int - b as int == -Modulus * d;
  }

  /** A value already in range wraps to itself. */
  lemma WrapInRange(x: int)
    requires MinValue <= x <= MaxValue
    ensures Wrap(x) as int == x
  {
    var d := (x - MinValue) / Modulus;
    assert Wrap(x) as int == x - Modulus * d;
  }

  /** `k` increments add `k` modulo 2^32. */
  lemma {:induction false} AdvanceIsWrap(c: int32, k: nat)
    ensures Advance(c, k) == Wrap(c as int + k)
  {
    if k == 0 {
      WrapInRange(c as int);
    } else {
      AdvanceIsWrap(c, k - 1);
      var p := Advance(c, k - 1);
      var q := (c as int + k - 1 - MinValue) / Modulus;
      assert p as int + 1 == c as int + k + Modulus * (-q);
      WrapShift(c as int + k, -q);
    }
  }

  /** Starting from 0, the counter equals the number of increments until it first overflows. */
  lemma {:induction false} AdvanceFromZero(k: nat)
    requires k <= MaxValue
    ensures Advance(0, k) as int == k
  {
    if k > 0 {
      AdvanceFromZero(k - 1);
    }
  }

  /** Fewer than 2^32 increments in sequence never bring the counter back to a value it held before. */
  lemma AdvanceDistinct(c: int32, i: nat, j: nat)
    requires i < j < i + Modulus
    ensures Advance(c, i) != Advance(c, j)
  {
    AdvanceIsWrap(c, i);
    AdvanceIsWrap(c, j);
    var qi := (c as int + i - MinValue) / Modulus;
    var qj := (c as int + j - MinValue) / Modulus;
    assert Advance(c, i) == Advance(c, j) ==> j - i == Modulus * (qj - qi);
  }
}
