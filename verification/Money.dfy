/**
 * The amount of a payment, through the printed QR code, the provider's JSON number and back to cents. A
 * floating-point result is any real within the relative error of one correct rounding.
 */
module Money {
  import opened Wrappers
  import opened Tables
  import opened Decimal

  /** Half a unit in the last place of a double, relative to the value. */
  const ROUNDING := 1.0 / 9007199254740992.0

  /** 2^50: the amounts, in the smallest unit, for which the trip is exact. */
  const BOUND := 1125899906842624

  /** v may be what a floating-point operation with the exact non-negative result x returns. */
  predicate Rounded(v: real, x: real) {
    x - x * ROUNDING <= v <= x + x * ROUNDING
  }

  /** int(v) of a non-negative v. */
  function Truncated(v: real): int {
    v.Floor
  }

  // ---- Printing ----

  function CentsText(cents: nat): string {
    Digits(cents / 100) + "." + Padded(cents % 100, 2)
  }

  /** fmt.Sprintf("%.2f", v): the nearest multiple of a hundredth. */
  function FixedTwo(v: real): string
    requires v >= 0.0
  {
    CentsText((v * 100.0 + 0.5).Floor)
  }

  lemma FloorIs(v: real, n: int)
    requires n as real <= v < (n + 1) as real
    ensures v.Floor == n
  {
  }

  /** Up to the bound, dividing by 100 in floating point and printing two decimals shows the cents exactly. */
  lemma PrintsCents(cents: nat, v: real)
    requires cents <= BOUND && v >= 0.0 && Rounded(v, cents as real / 100.0)
    ensures FixedTwo(v) == CentsText(cents)
  {
    var c := cents as real;
    assert -0.25 < v * 100.0 - c < 0.25;
    FloorIs(v * 100.0 + 0.5, cents);
  }

  /** The amount a text denotes: a whole number, or one with two decimals. */
  function ReadDecimal(text: string): Option<real> {
    if text != "" && AllDigits(text) then Some(Value(text) as real)
    else if |text| < 4 || text[|text| - 3] != '.' || !AllDigits(text[..|text| - 3]) || !AllDigits(text[|text| - 2..]) then None
    else Some(Value(text[..|text| - 3]) as real + Value(text[|text| - 2..]) as real / 100.0)
  }

  lemma ReadsCents(cents: nat)
    ensures ReadDecimal(CentsText(cents)) == Some(cents as real / 100.0)
  {
    var (whole, rest) := (Digits(cents / 100), Padded(cents % 100, 2));
    var text := CentsText(cents);
    TwoDigits(cents % 100);
    ValueOfDigits(cents / 100);
    ValueOfPadded(cents % 100, 2);
    assert text[..|text| - 3] == whole && text[|text| - 2..] == rest && text[|text| - 3] == '.';
    assert cents == 100 * (cents / 100) + cents % 100;
  }

  // ---- Reading the provider's number ----

  /** int(amount*100 + 0.5), or int(amount + 0.5) for riel, with its floating-point roundings. */
  ghost predicate ReadsAs(currency: Currency, amount: real, cents: int) {
    if currency.KHR? then RoundsTo(amount, cents)
    else exists product :: Rounded(product, amount * 100.0) && RoundsTo(product, cents)
  }

  /** int(v + 0.5) */
  ghost predicate RoundsTo(v: real, n: int) {
    exists sum :: Rounded(sum, v + 0.5) && n == Truncated(sum)
  }

  /** The exact value of an amount in its major unit. */
  function Major(currency: Currency, cents: nat): real {
    if currency.KHR? then cents as real else cents as real / 100.0
  }

  lemma DollarsReadBack(cents: nat, amount: real, product: real, sum: real)
    requires cents <= BOUND && Rounded(amount, cents as real / 100.0)
    requires Rounded(product, amount * 100.0) && Rounded(sum, product + 0.5)
    ensures Truncated(sum) == cents
  {
    var c := cents as real;
    assert c - 0.13 <= amount * 100.0 <= c + 0.13;
    assert c - 0.26 <= product <= c + 0.26;
    assert c + 0.1 <= sum <= c + 0.9;
    FloorIs(sum, cents);
  }

  lemma RielReadBack(cents: nat, amount: real, sum: real)
    requires cents <= BOUND && Rounded(amount, cents as real) && Rounded(sum, amount + 0.5)
    ensures Truncated(sum) == cents
  {
    var c := cents as real;
    assert c - 0.13 <= amount <= c + 0.13;
    assert c + 0.1 <= sum <= c + 0.9;
    FloorIs(sum, cents);
  }

  /** Whatever the roundings, the number the provider sends for an amount is read as exactly that amount. */
  lemma MoneySurvives(currency: Currency, cents: nat, amount: real, read: int)
    requires cents <= BOUND && Rounded(amount, Major(currency, cents)) && ReadsAs(currency, amount, read)
    ensures read == cents
  {
    if currency.KHR? {
      var sum :| Rounded(sum, amount + 0.5) && read == Truncated(sum);
      RielReadBack(cents, amount, sum);
    } else {
      var product :| Rounded(product, amount * 100.0) && RoundsTo(product, read);
      var sum :| Rounded(sum, product + 0.5) && read == Truncated(sum);
      DollarsReadBack(cents, amount, product, sum);
    }
  }

  /** ToUpper of an ASCII text. */
  function Upper(s: string): (u: string)
    ensures |u| == |s|
  {
    seq(|s|, i requires 0 <= i < |s| => if 'a' <= s[i] <= 'z' then s[i] - 'a' + 'A' else s[i])
  }

  /** normalizeBakongCurrency; None stands for any currency the payments table does not hold. */
  function Normalized(text: string): Option<Currency> {
    var u := Upper(text);
    if u == "840" || u == "USD" then Some(USD) else if u == "116" || u == "KHR" then Some(KHR) else None
  }

  /** The numeric code of tag 53. */
  function NumericCode(currency: Currency): string {
    if currency.USD? then "840" else "116"
  }
}
