/** The text URC-year-number of a registration number, which staff may also type at check-in. */
module RegistrationNumber {
  import opened Wrappers
  import opened Tables
  import opened Decimal
  import opened CreateInvariant

  const PREFIX := "URC-"
  const WIDTH := 6

  /** fmt.Sprintf("URC-%d-%06d", year, value) */
  function Print(number: Number): string {
    PREFIX + Digits(number.year) + "-" + Padded(number.value, WIDTH)
  }

  /** The digits at the head of a text. */
  function DigitsAhead(s: string): (n: nat)
    ensures n <= |s| && AllDigits(s[..n]) && (n < |s| ==> !IsDigit(s[n]))
  {
    if s == "" || !IsDigit(s[0]) then 0
    else
      var n := DigitsAhead(s[1..]);
      assert s[..n + 1] == [s[0]] + s[1..][..n];
      n + 1
  }

  function Parse(text: string): Option<Number> {
    if |text| < 4 || text[..4] != PREFIX then None
    else
      var rest := text[4..];
      var n := DigitsAhead(rest);
      if n == 0 || n == |rest| || rest[n] != '-' || n + 1 == |rest| || !AllDigits(rest[n + 1..]) then None
      else Some(Number(Value(rest[..n]), Value(rest[n + 1..])))
  }

  lemma {:induction false} DigitsAheadOf(digits: string, tail: string)
    requires AllDigits(digits) && (tail != "" ==> !IsDigit(tail[0]))
    ensures DigitsAhead(digits + tail) == |digits|
    decreases |digits|
  {
    if digits == "" {
      assert digits + tail == tail;
    } else {
      assert (digits + tail)[1..] == digits[1..] + tail;
      DigitsAheadOf(digits[1..], tail);
    }
  }

  /** The text gives back year and number, also past six digits. */
  lemma RoundTrip(number: Number)
    ensures Parse(Print(number)) == Some(number)
  {
    var (year, value) := (Digits(number.year), Padded(number.value, WIDTH));
    var tail := "-" + value;
    var text := Print(number);
    assert text[..4] == PREFIX && text[4..] == year + tail;
    DigitsAheadOf(year, tail);
    assert (year + tail)[..|year|] == year && (year + tail)[|year| + 1..] == value;
    ValueOfDigits(number.year);
    ValueOfPadded(number.value, WIDTH);
  }

  lemma Injective(a: Number, b: Number)
    ensures Print(a) == Print(b) <==> a == b
  {
    RoundTrip(a);
    RoundTrip(b);
  }

  /** No two registrations carry the same text. */
  lemma TextsDistinct(db: Db, q: Id, r: Id)
    requires NumbersDistinct(db) && q in db.registrations && r in db.registrations
    ensures Print(db.registrations[q].number) == Print(db.registrations[r].number) <==> q == r
  {
    Injective(db.registrations[q].number, db.registrations[r].number);
  }
}
