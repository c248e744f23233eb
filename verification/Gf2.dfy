/**
 * Polynomials over GF(2) as bit strings, the leading coefficient first, and division by
 * x^16 + x^12 + x^5 + 1. The remainder is computed by Horner's rule, and shown to be the one of division.
 */
module Gf2 {
  type Bits = seq<bool>

  function Zeros(n: nat): (z: Bits)
    ensures |z| == n && forall i :: 0 <= i < n ==> !z[i]
  {
    seq(n, _ => false)
  }

  /** Addition. */
  function Xor(a: Bits, b: Bits): (c: Bits)
    requires |a| == |b|
    ensures |c| == |a| && forall i :: 0 <= i < |a| ==> c[i] == (a[i] != b[i])
  {
    seq(|a|, i requires 0 <= i < |a| => a[i] != b[i])
  }

  /** Schoolbook multiplication; the product has |q| + |d| - 1 coefficients. */
  function Mul(q: Bits, d: Bits): (product: Bits)
    requires |d| >= 1
    ensures |product| == |q| + |d| - 1
  {
    if q == [] then Zeros(|d| - 1)
    else
      var rest := Mul(q[..|q| - 1], d) + [false];
      if q[|q| - 1] then Xor(rest, Zeros(|q| - 1) + d) else rest
  }

  /** x^12 + x^5 + 1, the generator without its leading term. */
  function Low(): (low: Bits)
    ensures |low| == 16 && low[15]
  {
    [false, false, false, true, false, false, false, false, false, false, true, false, false, false, false, true]
  }

  function Generator(): (g: Bits)
    ensures |g| == 17
  {
    [true] + Low()
  }

  /** Multiplication by x modulo the generator. */
  function Shift(r: Bits): (s: Bits)
    requires |r| == 16
    ensures |s| == 16
  {
    if r[0] then Xor(r[1..] + [false], Low()) else r[1..] + [false]
  }

  function Unit(b: bool): (u: Bits)
    ensures |u| == 16
  {
    Zeros(15) + [b]
  }

  /** The remainder, by Horner's rule: p x + b leaves x times what p leaves, plus b. */
  function Rem(p: Bits): (r: Bits)
    ensures |r| == 16
  {
    if p == [] then Zeros(16) else Xor(Shift(Rem(p[..|p| - 1])), Unit(p[|p| - 1]))
  }

  // ---- Linearity ----

  lemma XorZeros(a: Bits)
    ensures Xor(a, Zeros(|a|)) == a && Xor(Zeros(|a|), a) == a && Xor(a, a) == Zeros(|a|)
  {
  }

  lemma ShiftLinear(a: Bits, b: Bits)
    requires |a| == 16 && |b| == 16
    ensures Shift(Xor(a, b)) == Xor(Shift(a), Shift(b))
  {
    var s := Shift(Xor(a, b));
    var t := Xor(Shift(a), Shift(b));
    forall i | 0 <= i < 16 ensures s[i] == t[i] {
      if i < 15 {
        assert Xor(a, b)[1..][i] == (a[1..][i] != b[1..][i]);
      }
    }
  }

  lemma RemAppend(p: Bits, b: bool)
    ensures Rem(p + [b]) == Xor(Shift(Rem(p)), Unit(b))
  {
    assert (p + [b])[..|p|] == p;
  }

  lemma LastBit(p: Bits)
    requires p != []
    ensures p == p[..|p| - 1] + [p[|p| - 1]]
  {
  }

  lemma XorAppend(a: Bits, b: Bits, x: bool, y: bool)
    requires |a| == |b|
    ensures Xor(a + [x], b + [y]) == Xor(a, b) + [x != y]
  {
  }

  lemma XorUnits(a: Bits, b: Bits, x: bool, y: bool)
    requires |a| == 16 && |b| == 16
    ensures Xor(Xor(a, b), Unit(x != y)) == Xor(Xor(a, Unit(x)), Xor(b, Unit(y)))
  {
  }

  lemma RemLinearStep(a: Bits, b: Bits, x: bool, y: bool)
    requires |a| == |b| && Rem(Xor(a, b)) == Xor(Rem(a), Rem(b))
    ensures Rem(Xor(a + [x], b + [y])) == Xor(Rem(a + [x]), Rem(b + [y]))
  {
    XorAppend(a, b, x, y);
    RemAppend(Xor(a, b), x != y);
    RemAppend(a, x);
    RemAppend(b, y);
    ShiftLinear(Rem(a), Rem(b));
    XorUnits(Shift(Rem(a)), Shift(Rem(b)), x, y);
  }

  lemma {:induction false} RemLinear(a: Bits, b: Bits)
    requires |a| == |b|
    ensures Rem(Xor(a, b)) == Xor(Rem(a), Rem(b))
    decreases |a|
  {
    if a == [] {
      XorZeros(Zeros(16));
    } else {
      LastBit(a);
      LastBit(b);
      RemLinear(a[..|a| - 1], b[..|b| - 1]);
      RemLinearStep(a[..|a| - 1], b[..|b| - 1], a[|a| - 1], b[|b| - 1]);
    }
  }

  lemma {:induction false} RemZeros(n: nat)
    ensures Rem(Zeros(n)) == Zeros(16)
  {
    if n > 0 {
      assert Zeros(n)[..n - 1] == Zeros(n - 1);
      RemZeros(n - 1);
      assert Shift(Zeros(16)) == Zeros(16);
    }
  }

  lemma RemTimesX(p: Bits)
    ensures Rem(p + [false]) == Shift(Rem(p))
  {
    RemAppend(p, false);
    XorZeros(Shift(Rem(p)));
    assert Unit(false) == Zeros(16);
  }

  lemma RemPaddedStep(n: nat, p: Bits, b: bool)
    requires Rem(Zeros(n) + p) == Rem(p)
    ensures Rem(Zeros(n) + (p + [b])) == Rem(p + [b])
  {
    PaddedAppend(n, p, b);
    RemAppend(Zeros(n) + p, b);
    RemAppend(p, b);
  }

  lemma PaddedAppend(n: nat, p: Bits, b: bool)
    ensures Zeros(n) + (p + [b]) == Zeros(n) + p + [b]
  {
  }

  /** Leading zeros do not matter. */
  lemma {:induction false} RemPadded(n: nat, p: Bits)
    ensures Rem(Zeros(n) + p) == Rem(p)
    decreases |p|
  {
    if p == [] {
      assert Zeros(n) + p == Zeros(n);
      RemZeros(n);
    } else {
      LastBit(p);
      RemPadded(n, p[..|p| - 1]);
      RemPaddedStep(n, p[..|p| - 1], p[|p| - 1]);
    }
  }

  /** A polynomial of degree below 16 is its own remainder. */
  lemma {:induction false} RemSmall(p: Bits)
    requires |p| <= 16
    ensures Rem(p) == Zeros(16 - |p|) + p
  {
    if p == [] {
      assert Zeros(16) + p == Zeros(16);
    } else {
      var (p', b) := (p[..|p| - 1], p[|p| - 1]);
      LastBit(p);
      RemSmall(p');
      RemAppend(p', b);
      SmallStep(p', b);
    }
  }

  lemma SmallStep(p: Bits, b: bool)
    requires |p| <= 15
    ensures Xor(Shift(Zeros(16 - |p|) + p), Unit(b)) == Zeros(15 - |p|) + (p + [b])
  {
    var r := Zeros(16 - |p|) + p;
    assert !r[0];
    assert Shift(r) == Zeros(15 - |p|) + p + [false];
  }

  lemma ShiftTopBit()
    ensures Shift([true] + Zeros(15)) == Low()
  {
    var top := [true] + Zeros(15);
    assert top[1..] + [false] == Zeros(16);
    XorZeros(Low());
  }

  lemma RemPower16()
    ensures Rem([true] + Zeros(16)) == Low()
  {
    var top := [true] + Zeros(15);
    assert Rem(top) == top by {
      RemSmall(top);
      assert Zeros(0) + top == top;
    }
    assert [true] + Zeros(16) == top + [false];
    RemTimesX(top);
    ShiftTopBit();
  }

  lemma RemGenerator()
    ensures Rem(Generator()) == Zeros(16)
  {
    var g := Generator();
    var tail := Zeros(1) + Low();
    assert g == Xor([true] + Zeros(16), tail);
    RemLinear([true] + Zeros(16), tail);
    RemPower16();
    RemPadded(1, Low());
    RemSmall(Low());
    assert Zeros(0) + Low() == Low();
    XorZeros(Low());
  }

  lemma {:induction false} RemMultiple(q: Bits)
    ensures Rem(Mul(q, Generator())) == Zeros(16)
  {
    var g := Generator();
    if q == [] {
      RemZeros(16);
    } else {
      var rest := Mul(q[..|q| - 1], g);
      RemMultiple(q[..|q| - 1]);
      RemTimesX(rest);
      assert Shift(Zeros(16)) == Zeros(16);
      if q[|q| - 1] {
        RemLinear(rest + [false], Zeros(|q| - 1) + g);
        RemPadded(|q| - 1, g);
        RemGenerator();
        XorZeros(Zeros(16));
      }
    }
  }

  // ---- Division ----

  /** p == q g + r, all written with |p| + 16 coefficients. */
  predicate Divides(p: Bits, q: Bits, r: Bits) {
    |q| == |p| && |r| == 16 && Zeros(16) + p == Xor(Mul(q, Generator()), Zeros(|p|) + r)
  }

  /** The quotient that Horner's rule passes by. */
  function Quotient(p: Bits): (q: Bits)
    ensures |q| == |p|
  {
    if p == [] then [] else Quotient(p[..|p| - 1]) + [Rem(p[..|p| - 1])[0]]
  }

  lemma DivisionStep(p: Bits, b: bool, q: Bits, r: Bits)
    requires Divides(p, q, r)
    ensures Divides(p + [b], q + [r[0]], Xor(Shift(r), Unit(b)))
  {
    var g := Generator();
    var n := |p|;
    var rest := Mul(q, g) + [false];
    var q' := q + [r[0]];
    var r' := Xor(Shift(r), Unit(b));
    assert q'[..n] == q;
    var product := Mul(q', g);
    assert product == if r[0] then Xor(rest, Zeros(n) + g) else rest;
    assert Zeros(16) + (p + [b]) == Zeros(16) + p + [b];
    ShiftAligned(Mul(q, g), r, b, n);
  }

  /** Adding the remainder, shifted and brought below the generator again. */
  lemma ShiftAligned(m: Bits, r: Bits, b: bool, n: nat)
    requires |m| == n + 16 && |r| == 16
    ensures var rest := m + [false];
      Xor(m, Zeros(n) + r) + [b]
        == Xor(if r[0] then Xor(rest, Zeros(n) + Generator()) else rest, Zeros(n + 1) + Xor(Shift(r), Unit(b)))
  {
    var rest := m + [false];
    var left := Xor(m, Zeros(n) + r) + [b];
    var low := Xor(Shift(r), Unit(b));
    if r[0] {
      var right := Xor(Xor(rest, Zeros(n) + Generator()), Zeros(n + 1) + low);
      forall i | 0 <= i < n + 17 ensures left[i] == right[i] {}
    } else {
      var right := Xor(rest, Zeros(n + 1) + low);
      forall i | 0 <= i < n + 17 ensures left[i] == right[i] {}
    }
  }

  lemma {:induction false} DivisionExists(p: Bits)
    ensures Divides(p, Quotient(p), Rem(p))
  {
    if p == [] {
      assert Zeros(16) + p == Zeros(16) && Zeros(0) + Zeros(16) == Zeros(16);
      XorZeros(Zeros(16));
    } else {
      DivisionExists(p[..|p| - 1]);
      DivisionStep(p[..|p| - 1], p[|p| - 1], Quotient(p[..|p| - 1]), Rem(p[..|p| - 1]));
      assert p == p[..|p| - 1] + [p[|p| - 1]];
    }
  }

  /** Horner's rule gives the remainder of polynomial division, and there is no other. */
  lemma RemIsTheRemainder(p: Bits, r: Bits)
    requires |r| == 16
    ensures r == Rem(p) <==> exists q :: Divides(p, q, r)
  {
    DivisionExists(p);
    if q :| Divides(p, q, r) {
      RemPadded(16, p);
      RemLinear(Mul(q, Generator()), Zeros(|p|) + r);
      RemMultiple(q);
      RemPadded(|p|, r);
      RemSmall(r);
      assert Zeros(0) + r == r;
      XorZeros(r);
    }
  }

  /** The generator has a constant term, so multiplying by x keeps the leading bit, at the end. */
  lemma ShiftKeepsTop(r: Bits)
    requires |r| == 16
    ensures Shift(r)[15] == r[0]
  {
  }

  /** ... and so loses nothing. */
  lemma ShiftZero(r: Bits)
    requires |r| == 16 && Shift(r) == Zeros(16)
    ensures r == Zeros(16)
  {
    ShiftKeepsTop(r);
    assert r[1..] + [false] == Shift(r);
    forall i | 0 <= i < 16 ensures !r[i] {
      assert i > 0 ==> Shift(r)[i - 1] == r[i];
    }
  }

  lemma {:induction false} RemTimesPower(p: Bits, n: nat)
    ensures Rem(p + Zeros(n)) == Zeros(16) <==> Rem(p) == Zeros(16)
  {
    if n == 0 {
      assert p + Zeros(0) == p;
    } else {
      var q := p + Zeros(n - 1);
      assert p + Zeros(n) == q + [false];
      RemTimesX(q);
      RemTimesPower(p, n - 1);
      ShiftOnlyZero(Rem(q));
    }
  }

  lemma ShiftOnlyZero(r: Bits)
    requires |r| == 16
    ensures Shift(r) == Zeros(16) <==> r == Zeros(16)
  {
    assert Shift(Zeros(16)) == Zeros(16);
    if Shift(r) == Zeros(16) {
      ShiftZero(r);
    }
  }

  lemma RemShort(before: nat, burst: Bits)
    requires |burst| <= 16
    ensures Rem(Zeros(before) + burst) == Zeros(16 - |burst|) + burst
  {
    RemPadded(before, burst);
    RemSmall(burst);
  }

  predicate AllZero(p: Bits) {
    forall i :: 0 <= i < |p| ==> !p[i]
  }

  lemma PaddedNonZero(n: nat, burst: Bits)
    requires !AllZero(burst)
    ensures Zeros(n) + burst != Zeros(n + |burst|)
  {
    var i :| 0 <= i < |burst| && burst[i];
    assert (Zeros(n) + burst)[n + i];
  }

  lemma ShortRemains(before: nat, burst: Bits)
    requires |burst| <= 16 && !AllZero(burst)
    ensures Rem(Zeros(before) + burst) != Zeros(16)
  {
    RemShort(before, burst);
    PaddedNonZero(16 - |burst|, burst);
  }

  /** A burst of at most sixteen bits is never a multiple of the generator. */
  lemma BurstRemains(before: nat, burst: Bits, after: nat)
    requires |burst| <= 16 && !AllZero(burst)
    ensures Rem(Zeros(before) + burst + Zeros(after)) != Zeros(16)
  {
    ShortRemains(before, burst);
    RemTimesPower(Zeros(before) + burst, after);
  }
}
