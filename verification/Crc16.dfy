/** The checksum of a KHQR payload, and what it is: the remainder of polynomial division over GF(2). */
module Crc16 {
  import opened Gf2

  /** One turn of the inner loop. */
  function Turn(crc: bv16): bv16 {
    if crc & 0x8000 != 0 then (crc << 1) ^ 0x1021 else crc << 1
  }

  function Turns(crc: bv16, n: nat): bv16 {
    if n == 0 then crc else Turn(Turns(crc, n - 1))
  }

  function Added(crc: bv16, b: bv8): bv16 {
    crc ^ Byte(b)
  }

  function Absorb(crc: bv16, b: bv8): bv16 {
    Turns(Added(crc, b), 8)
  }

  function Crc(data: seq<bv8>): bv16 {
    if data == [] then 0xFFFF else Absorb(Crc(data[..|data| - 1]), data[|data| - 1])
  }

  method Crc16Ccitt(data: seq<bv8>) returns (crc: bv16)
    ensures crc == Crc(data)
  {
    crc := 0xFFFF;
    for i := 0 to |data|
      invariant crc == Crc(data[..i])
    {
      assert data[..i + 1][..i] == data[..i];
      crc := AddByte(crc, data[i]);
      ghost var start := crc;
      for k := 0 to 8
        invariant crc == Turns(start, k)
      {
        crc := TurnOnce(crc);
      }
    }
    assert data[..|data|] == data;
  }

  method AddByte(start: bv16, b: bv8) returns (crc: bv16)
    ensures crc == Added(start, b)
  {
    crc := start ^ Byte(b);
  }

  method TurnOnce(start: bv16) returns (crc: bv16)
    ensures crc == Turn(start)
  {
    if start & 0x8000 != 0 {
      crc := (start << 1) ^ 0x1021;
    } else {
      crc := start << 1;
    }
  }

  // ---- Registers and bytes as polynomials ----

  function Twice(r: bv16): bv16 {
    r << 1
  }

  /** Bit i of a register, the leading one first. */
  predicate Has(r: bv16, i: nat)
    decreases i
  {
    if i == 0 then r & 0x8000 != 0 else Has(Twice(r), i - 1)
  }

  function Bits16(r: bv16): (s: Bits)
    ensures |s| == 16
  {
    seq(16, i requires 0 <= i < 16 => Has(r, i))
  }

  function Byte(b: bv8): bv16 {
    (b as bv16) << 8
  }

  function Bits8(b: bv8): (s: Bits)
    ensures |s| == 8
  {
    Bits16(Byte(b))[..8]
  }

  predicate IsXor(x: bv16, r: bv16, s: bv16) {
    x == r ^ s
  }

  lemma XorShift(x: bv16, r: bv16, s: bv16)
    requires IsXor(x, r, s)
    ensures IsXor(Twice(x), Twice(r), Twice(s))
  {
  }

  lemma XorTop(x: bv16, r: bv16, s: bv16)
    requires IsXor(x, r, s)
    ensures Has(x, 0) == (Has(r, 0) != Has(s, 0))
  {
  }

  /** The leading bits add up after i doublings. */
  predicate XorAfter(x: bv16, r: bv16, s: bv16, i: nat)
    decreases i
  {
    if i == 0 then Has(x, 0) == (Has(r, 0) != Has(s, 0)) else XorAfter(Twice(x), Twice(r), Twice(s), i - 1)
  }

  lemma {:induction false} XorAlways(x: bv16, r: bv16, s: bv16, i: nat)
    requires IsXor(x, r, s)
    ensures XorAfter(x, r, s, i)
    decreases i
  {
    if i == 0 {
      XorTop(x, r, s);
    } else {
      XorShift(x, r, s);
      XorAlways(Twice(x), Twice(r), Twice(s), i - 1);
    }
  }

  lemma {:induction false} XorAfterHas(x: bv16, r: bv16, s: bv16, i: nat)
    requires XorAfter(x, r, s, i)
    ensures Has(x, i) == (Has(r, i) != Has(s, i))
    decreases i
  {
    if i > 0 {
      XorAfterHas(Twice(x), Twice(r), Twice(s), i - 1);
    }
  }

  lemma HasXor(x: bv16, r: bv16, s: bv16, i: nat)
    requires IsXor(x, r, s)
    ensures Has(x, i) == (Has(r, i) != Has(s, i))
  {
    XorAlways(x, r, s, i);
    XorAfterHas(x, r, s, i);
  }

  lemma BitsOfXor(x: bv16, r: bv16, s: bv16)
    requires IsXor(x, r, s)
    ensures Bits16(x) == Xor(Bits16(r), Bits16(s))
  {
    forall i | 0 <= i < 16 ensures Bits16(x)[i] == (Bits16(r)[i] != Bits16(s)[i]) {
      HasXor(x, r, s, i);
    }
  }

  lemma {:induction false} HasNone(i: nat)
    ensures !Has(0, i)
    decreases i
  {
    if i > 0 {
      assert Twice(0) == 0;
      HasNone(i - 1);
    }
  }

  lemma ShiftTwice(r: bv16)
    ensures Twice(Twice(Twice(Twice(r)))) == r << 4
    ensures r << 4 << 4 == r << 8
    ensures r << 8 << 8 == 0
  {
  }

  lemma HasFour(r: bv16, i: nat)
    ensures Has(r, i + 4) == Has(r << 4, i)
  {
    ShiftTwice(r);
    assert Has(r, i + 4) == Has(Twice(r), i + 3);
    assert Has(Twice(r), i + 3) == Has(Twice(Twice(r)), i + 2);
    assert Has(Twice(Twice(r)), i + 2) == Has(Twice(Twice(Twice(r))), i + 1);
  }

  lemma HasEight(r: bv16, i: nat)
    ensures Has(r, i + 8) == Has(r << 8, i)
  {
    HasFour(r, i + 4);
    HasFour(r << 4, i);
    ShiftTwice(r);
  }

  /** There is nothing below the last bit. */
  lemma HasSixteen(r: bv16)
    ensures !Has(r, 16)
  {
    HasEight(r, 8);
    HasEight(r << 8, 0);
    ShiftTwice(r);
    HasNone(0);
  }

  predicate Tapped(i: nat) {
    i == 3 || i == 10 || i == 15
  }

  lemma TapsOf1021(i: nat)
    requires i < 16
    ensures Has(0x1021, i) == Tapped(i)
  {
    if i < 8 {
      if i == 0 {} else if i == 1 {} else if i == 2 {} else if i == 3 {} else if i == 4 {} else if i == 5 {} else if i == 6 {} else {
        assert i == 7;
      }
    } else {
      HasEight(0x1021, i - 8);
      assert (0x1021 as bv16) << 8 == 0x2100;
      if i == 8 {} else if i == 9 {} else if i == 10 {} else if i == 11 {} else if i == 12 {} else if i == 13 {} else if i == 14 {} else {
        assert i == 15;
      }
    }
  }

  lemma HasTurn(r: bv16, i: nat)
    requires i < 16
    ensures Has(Turn(r), i) == ((i < 15 && Has(r, i + 1)) != (Tapped(i) && Has(r, 0)))
  {
    assert Has(Twice(r), i) == Has(r, i + 1);
    if r & 0x8000 != 0 {
      HasXor(Turn(r), Twice(r), 0x1021, i);
    }
    TapsOf1021(i);
    HasSixteen(r);
  }

  lemma ShiftByBits(s: Bits, t: Bits)
    requires |s| == 16 && |t| == 16
    requires forall i :: 0 <= i < 16 ==> t[i] == ((i < 15 && s[i + 1]) != (Tapped(i) && s[0]))
    ensures t == Shift(s)
  {
  }

  /** A turn of the loop multiplies by x. */
  lemma BitsOfTurn(r: bv16)
    ensures Bits16(Turn(r)) == Shift(Bits16(r))
  {
    var (s, t) := (Bits16(r), Bits16(Turn(r)));
    forall i | 0 <= i < 16 ensures t[i] == ((i < 15 && s[i + 1]) != (Tapped(i) && s[0])) {
      HasTurn(r, i);
    }
    ShiftByBits(s, t);
  }

  /** A byte stands in the upper half of its register. */
  lemma BitsOfByte(b: bv8)
    ensures Bits16(Byte(b)) == Bits8(b) + Zeros(8)
  {
    forall i | 8 <= i < 16 ensures !Bits16(Byte(b))[i] {
      HasEight(Byte(b), i - 8);
      ByteHigh(b);
      HasNone(i - 8);
    }
  }

  lemma ByteHigh(b: bv8)
    ensures Byte(b) << 8 == 0
  {
  }

  lemma BitsOfAdded(r: bv16, b: bv8)
    ensures Bits16(Added(r, b)) == Xor(Bits16(r), Bits8(b) + Zeros(8))
  {
    BitsOfXor(Added(r, b), r, Byte(b));
    BitsOfByte(b);
  }

  // ---- A register with no bits is zero ----

  function Mask(i: nat): bv16 {
    if i == 0 then 0x8000 else Mask(i - 1) >> 1
  }

  lemma ShiftMask(r: bv16, m: bv16)
    ensures (Twice(r) & m != 0) == (r & (m >> 1) != 0)
  {
  }

  lemma {:induction false} HasMask(r: bv16, i: nat)
    ensures Has(r, i) == (r & Mask(i) != 0)
    decreases i
  {
    if i > 0 {
      HasMask(Twice(r), i - 1);
      ShiftMask(r, Mask(i - 1));
    }
  }

  lemma Masks()
    ensures Mask(0) == 0x8000 && Mask(1) == 0x4000 && Mask(2) == 0x2000 && Mask(3) == 0x1000
    ensures Mask(4) == 0x0800 && Mask(5) == 0x0400 && Mask(6) == 0x0200 && Mask(7) == 0x0100
  {
  }

  lemma NoHighBits(b: bv8, r: bv16)
    requires r == Byte(b)
    requires r & 0x8000 == 0 && r & 0x4000 == 0 && r & 0x2000 == 0 && r & 0x1000 == 0
    requires r & 0x0800 == 0 && r & 0x0400 == 0 && r & 0x0200 == 0 && r & 0x0100 == 0
    ensures b == 0
  {
  }

  lemma ByteZero(b: bv8)
    requires forall i :: 0 <= i < 8 ==> !Has(Byte(b), i)
    ensures b == 0
  {
    var r := Byte(b);
    Masks();
    HasMask(r, 0); HasMask(r, 1); HasMask(r, 2); HasMask(r, 3);
    HasMask(r, 4); HasMask(r, 5); HasMask(r, 6); HasMask(r, 7);
    NoHighBits(b, r);
  }

  lemma ByteXor(a: bv8, b: bv8)
    ensures Byte(a ^ b) == Byte(a) ^ Byte(b)
    ensures a ^ b == 0 ==> a == b
  {
  }

  lemma ByteFromBits(a: bv8, b: bv8)
    requires Bits8(a) == Bits8(b)
    ensures a == b
  {
    ByteXor(a, b);
    var x := Byte(a ^ b);
    forall i | 0 <= i < 8 ensures !Has(x, i) {
      assert Bits8(a)[i] == Bits8(b)[i];
      HasXor(x, Byte(a), Byte(b), i);
    }
    ByteZero(a ^ b);
  }

  // ---- The checksum is a remainder ----

  /** The bits of a message, in the order they are processed. */
  function Message(data: seq<bv8>): (m: Bits)
    ensures |m| == 8 * |data|
  {
    if data == [] then [] else Message(data[..|data| - 1]) + Bits8(data[|data| - 1])
  }

  function Ones(n: nat): (o: Bits)
    ensures |o| == n
  {
    seq(n, _ => true)
  }

  /** The message times x^16, with the initial value FFFF added to its first sixteen coefficients. */
  function Dividend(data: seq<bv8>): (d: Bits)
    ensures |d| == 8 * |data| + 16
  {
    Xor(Ones(16) + Zeros(8 * |data|), Message(data) + Zeros(16))
  }

  function Shifts(r: Bits, n: nat): (s: Bits)
    requires |r| == 16
    ensures |s| == 16
  {
    if n == 0 then r else Shift(Shifts(r, n - 1))
  }

  lemma {:induction false} BitsOfTurns(r: bv16, n: nat)
    ensures Bits16(Turns(r, n)) == Shifts(Bits16(r), n)
    decreases n
  {
    if n > 0 {
      BitsOfTurns(r, n - 1);
      BitsOfTurn(Turns(r, n - 1));
    }
  }

  lemma {:induction false} ShiftsLinear(a: Bits, b: Bits, n: nat)
    requires |a| == 16 && |b| == 16
    ensures Shifts(Xor(a, b), n) == Xor(Shifts(a, n), Shifts(b, n))
    decreases n
  {
    if n > 0 {
      ShiftsLinear(a, b, n - 1);
      ShiftLinear(Shifts(a, n - 1), Shifts(b, n - 1));
    }
  }

  lemma ZerosNext(p: Bits, n: nat)
    ensures p + Zeros(n + 1) == p + Zeros(n) + [false]
  {
  }

  lemma {:induction false} RemShifts(p: Bits, n: nat)
    ensures Rem(p + Zeros(n)) == Shifts(Rem(p), n)
    decreases n
  {
    if n == 0 {
      assert p + Zeros(0) == p;
    } else {
      ZerosNext(p, n - 1);
      RemShifts(p, n - 1);
      RemTimesX(p + Zeros(n - 1));
    }
  }

  /** One more byte: everything so far times x^8, plus the byte times x^16. */
  lemma DividendNext(data: seq<bv8>, b: bv8)
    ensures Dividend(data + [b]) == Xor(Dividend(data) + Zeros(8), Zeros(8 * |data|) + Bits8(b) + Zeros(16))
  {
    assert (data + [b])[..|data|] == data;
    assert Message(data + [b]) == Message(data) + Bits8(b);
    var n := 8 * |data|;
    var left := Dividend(data + [b]);
    var right := Xor(Dividend(data) + Zeros(8), Zeros(n) + Bits8(b) + Zeros(16));
    forall i | 0 <= i < n + 24 ensures left[i] == right[i] {
      assert left[i] == ((Ones(16) + Zeros(n + 8))[i] != (Message(data) + Bits8(b) + Zeros(16))[i]);
    }
  }

  lemma RemOfByte(n: nat, b: bv8)
    ensures Rem(Zeros(n) + Bits8(b) + Zeros(16)) == Shifts(Bits8(b) + Zeros(8), 8)
  {
    var p := Zeros(n) + (Bits8(b) + Zeros(8));
    assert Zeros(n) + Bits8(b) + Zeros(16) == p + Zeros(8);
    RemShifts(p, 8);
    RemShort(n, Bits8(b) + Zeros(8));
    assert Zeros(0) + (Bits8(b) + Zeros(8)) == Bits8(b) + Zeros(8);
  }

  lemma AbsorbStep(data: seq<bv8>, b: bv8, crc: bv16)
    requires Bits16(crc) == Rem(Dividend(data))
    ensures Bits16(Absorb(crc, b)) == Rem(Dividend(data + [b]))
  {
    var byte := Bits8(b) + Zeros(8);
    BitsOfAdded(crc, b);
    BitsOfTurns(Added(crc, b), 8);
    ShiftsLinear(Bits16(crc), byte, 8);
    DividendNext(data, b);
    RemLinear(Dividend(data) + Zeros(8), Zeros(8 * |data|) + Bits8(b) + Zeros(16));
    RemShifts(Dividend(data), 8);
    RemOfByte(8 * |data|, b);
  }

  lemma InitialValue()
    ensures Bits16(0xFFFF) == Ones(16)
  {
    forall i | 0 <= i < 16 ensures Has(0xFFFF, i) {
      OnesHave(i);
    }
  }

  lemma OnesHave(i: nat)
    requires i < 16
    ensures Has(0xFFFF, i)
  {
    if i < 8 {
      if i == 0 {} else if i == 1 {} else if i == 2 {} else if i == 3 {} else if i == 4 {} else if i == 5 {} else if i == 6 {} else {
        assert i == 7;
      }
    } else {
      HasEight(0xFFFF, i - 8);
      assert (0xFFFF as bv16) << 8 == 0xFF00;
      if i == 8 {} else if i == 9 {} else if i == 10 {} else if i == 11 {} else if i == 12 {} else if i == 13 {} else if i == 14 {} else {
        assert i == 15;
      }
    }
  }

  /** The loop computes the remainder of dividing by x^16 + x^12 + x^5 + 1, for every byte string. */
  lemma {:induction false} CrcIsRem(data: seq<bv8>)
    ensures Bits16(Crc(data)) == Rem(Dividend(data))
  {
    if data == [] {
      InitialValue();
      assert Message(data) + Zeros(16) == Zeros(16) && Ones(16) + Zeros(0) == Ones(16);
      XorZeros(Ones(16));
      RemSmall(Ones(16));
      assert Zeros(0) + Ones(16) == Ones(16);
    } else {
      var init := data[..|data| - 1];
      CrcIsRem(init);
      AbsorbStep(init, data[|data| - 1], Crc(init));
      assert data == init + [data[|data| - 1]];
    }
  }

  /** ... so it is the one string of sixteen bits that division leaves. */
  lemma CrcIsTheRemainder(data: seq<bv8>, r: Bits)
    requires |r| == 16
    ensures r == Bits16(Crc(data)) <==> exists q :: Divides(Dividend(data), q, r)
  {
    CrcIsRem(data);
    RemIsTheRemainder(Dividend(data), r);
  }

  // ---- What the checksum detects ----

  lemma {:induction false} MessageInjective(a: seq<bv8>, b: seq<bv8>)
    requires |a| == |b| && Message(a) == Message(b)
    ensures a == b
  {
    if a != [] {
      var (a', b') := (a[..|a| - 1], b[..|b| - 1]);
      var (x, y) := (a[|a| - 1], b[|b| - 1]);
      assert Message(a)[..8 * |a'|] == Message(a') && Message(b)[..8 * |b'|] == Message(b');
      assert Message(a)[8 * |a'|..] == Bits8(x) && Message(b)[8 * |b'|..] == Bits8(y);
      MessageInjective(a', b');
      ByteFromBits(x, y);
      assert a == a' + [x] && b == b' + [y];
    }
  }

  /** The two payloads differ at most in the sixteen bits from position i on. */
  ghost predicate DifferWithin(a: seq<bv8>, b: seq<bv8>, i: nat) {
    |a| == |b| && forall k :: 0 <= k < 8 * |a| && !(i <= k < i + 16) ==> Message(a)[k] == Message(b)[k]
  }

  lemma DifferenceRemains(a: seq<bv8>, b: seq<bv8>)
    requires |a| == |b|
    ensures Xor(Dividend(a), Dividend(b)) == Xor(Message(a), Message(b)) + Zeros(16)
  {
    var left := Xor(Dividend(a), Dividend(b));
    var right := Xor(Message(a), Message(b)) + Zeros(16);
    forall k | 0 <= k < |left| ensures left[k] == right[k] {
      var mask := (Ones(16) + Zeros(8 * |a|))[k];
      assert Dividend(a)[k] == (mask != (Message(a) + Zeros(16))[k]);
      assert Dividend(b)[k] == (mask != (Message(b) + Zeros(16))[k]);
    }
  }

  /** A difference confined to a window is that window between zeros. */
  lemma WindowBetweenZeros(d: Bits, i: nat, j: nat)
    requires i <= j <= |d| && forall k :: 0 <= k < |d| && !(i <= k < j) ==> !d[k]
    ensures d == Zeros(i) + d[i..j] + Zeros(|d| - j)
    ensures AllZero(d[i..j]) ==> d == Zeros(|d|)
  {
  }

  lemma SameMessages(a: Bits, b: Bits)
    requires |a| == |b| && Xor(a, b) == Zeros(|a|)
    ensures a == b
  {
    forall k | 0 <= k < |a| ensures a[k] == b[k] {
      assert !Xor(a, b)[k];
    }
  }

  /** A bit string that is zero but for a window of at most sixteen bits is not a multiple of the generator. */
  lemma WindowRemains(d: Bits, i: nat, j: nat)
    requires i <= j <= |d| && j - i <= 16 && forall k :: 0 <= k < |d| && !(i <= k < j) ==> !d[k]
    requires d != Zeros(|d|)
    ensures Rem(d + Zeros(16)) != Zeros(16)
  {
    WindowBetweenZeros(d, i, j);
    BurstRemains(i, d[i..j], |d| - j + 16);
    WindowPadded(i, d[i..j], |d| - j);
  }

  lemma WindowPadded(i: nat, burst: Bits, n: nat)
    ensures Zeros(i) + burst + Zeros(n) + Zeros(16) == Zeros(i) + burst + Zeros(n + 16)
  {
  }

  lemma DifferenceNotDivisible(a: seq<bv8>, b: seq<bv8>, i: nat)
    requires DifferWithin(a, b, i) && a != b
    ensures Rem(Xor(Message(a), Message(b)) + Zeros(16)) != Zeros(16)
  {
    var d := Xor(Message(a), Message(b));
    if d == Zeros(|d|) {
      SameMessages(Message(a), Message(b));
      MessageInjective(a, b);
    }
    WindowRemains(d, if i < |d| then i else |d|, if i + 16 < |d| then i + 16 else |d|);
  }

  lemma SameCrcDivides(a: seq<bv8>, b: seq<bv8>)
    requires |a| == |b| && Crc(a) == Crc(b)
    ensures Rem(Xor(Message(a), Message(b)) + Zeros(16)) == Zeros(16)
  {
    DifferenceRemains(a, b);
    RemLinear(Dividend(a), Dividend(b));
    CrcIsRem(a);
    CrcIsRem(b);
    XorZeros(Rem(Dividend(a)));
  }

  /** Two payloads of equal length that differ only within sixteen bits have different checksums. */
  lemma BurstDetected(a: seq<bv8>, b: seq<bv8>, i: nat)
    requires DifferWithin(a, b, i)
    ensures Crc(a) == Crc(b) <==> a == b
  {
    if a != b {
      DifferenceNotDivisible(a, b, i);
      if Crc(a) == Crc(b) {
        SameCrcDivides(a, b);
      }
    }
  }
}
