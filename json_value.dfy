/** JSON documents as the ledger stores them: a value produced by `json.loads`.
    Objects are maps, so two objects with the same members in a different
    insertion order are the same value, as Python dictionaries compare. */
module JsonValue {

  /** A binary floating-point number, `mantissa * 2^exponent`. */
  datatype Binary = Binary(mantissa: int, exponent: int)

  /** Python's `float`, finite values only: a binary number in lowest terms
      (odd mantissa, or the zero `0 * 2^0`), so each number has one form. */
  type Float = b: Binary | b.mantissa % 2 == 1 || b == Binary(0, 0) witness Binary(0, 0)

  /** `2^e` for any integer `e`. */
  function Pow2(e: int): (p: real)
    ensures p > 0.0
    decreases if e < 0 then -e else e
  {
    if e == 0 then 1.0 else if e > 0 then 2.0 * Pow2(e - 1) else Pow2(e + 1) / 2.0
  }

  /** The number a float denotes. */
  function Value(f: Float): real {
    f.mantissa as real * Pow2(f.exponent)
  }

  function Pow2Nat(n: nat): (p: nat)
    ensures p >= 1
  {
    if n == 0 then 1 else 2 * Pow2Nat(n - 1)
  }

  lemma {:induction false} Pow2Add(x: int, n: nat)
    ensures Pow2(x + n) == Pow2(x) * Pow2Nat(n) as real
  {
    if n > 0 {
      Pow2Add(x, n - 1);
      var y := x + n;
      assert Pow2(y) == 2.0 * Pow2(y - 1) by {
        if y <= 0 { assert Pow2(y - 1) == Pow2(y) / 2.0; }
      }
    }
  }

  lemma Cancel(x: real, y: real, p: real)
    requires p > 0.0 && x * p == y * p
    ensures x == y
  {
  }

  /** The integer a float's mantissa must equal when its value is that of
      another float with an exponent `d` higher. */
  lemma ScaledMantissa(ma: int, mb: int, pa: real, pb: real, d: nat)
    requires pa > 0.0 && pb == pa * Pow2Nat(d) as real && ma as real * pa == mb as real * pb
    ensures ma == mb * Pow2Nat(d)
  {
    var pd := Pow2Nat(d);
    var k := mb * pd;
    assert (mb * pd) as real == mb as real * pd as real;
    assert mb as real * (pa * pd as real) == k as real * pa;
    Cancel(ma as real, k as real, pa);
  }

  /** A multiple of a positive power of two is even, and zero only for a zero factor. */
  lemma EvenMultiple(ma: int, mb: int, d: nat)
    requires d > 0 && ma == mb * Pow2Nat(d)
    ensures ma % 2 == 0 && (ma == 0 ==> mb == 0)
  {
    var q := Pow2Nat(d - 1);
    assert ma == 2 * (mb * q);
    if ma == 0 {
      assert mb * q == 0;
    }
  }

  lemma SameValueOrdered(a: Float, b: Float)
    requires a.exponent <= b.exponent && Value(a) == Value(b)
    ensures a == b
  {
    var d: nat := b.exponent - a.exponent;
    Pow2Add(a.exponent, d);
    assert a.exponent + d == b.exponent;
    ScaledMantissa(a.mantissa, b.mantissa, Pow2(a.exponent), Pow2(b.exponent), d);
    if d > 0 {
      EvenMultiple(a.mantissa, b.mantissa, d);
      assert false;
    }
  }

  /** Each number has one float form: two floats with the same value are equal. */
  lemma ValueInjective(a: Float, b: Float)
    requires Value(a) == Value(b)
    ensures a == b
  {
    if a.exponent <= b.exponent { SameValueOrdered(a, b); } else { SameValueOrdered(b, a); }
  }

  /** `json.loads` reads "26" as the int 26 and "26.0" as the float 26.0, and
      `json.dumps` writes them back differently, so they are different values. */
  datatype Json =
    | JNull
    | JBool(b: bool)
    | JInt(i: int)
    | JNum(n: Float)
    | JStr(s: string)
    | JArr(items: seq<Json>)
    | JObj(fields: map<string, Json>)
}
