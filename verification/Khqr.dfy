/** The merchant-presented KHQR payload: what is printed, and that a reader gets it all back. */
module Khqr {
  import opened Wrappers
  import opened Decimal
  import opened Tlv
  import opened Crc16
  import opened Money
  import opened Tables

  /** Strings are byte strings: a character stands for one byte. */
  function Bytes(s: string): (b: seq<bv8>)
    ensures |b| == |s|
  {
    seq(|s|, i requires 0 <= i < |s| => (s[i] as int % 256) as bv8)
  }

  // ---- Cleaning ----

  predicate Is(c: char, code: int) {
    c as int == code
  }

  predicate Space1(c: char) {
    9 <= c as int <= 13 || Is(c, 32)
  }

  predicate Space2(s: string)
    requires |s| == 2
  {
    Is(s[0], 0xC2) && (Is(s[1], 0x85) || Is(s[1], 0xA0))
  }

  predicate Space3(s: string)
    requires |s| == 3
  {
    || (Is(s[0], 0xE1) && Is(s[1], 0x9A) && Is(s[2], 0x80))
    || (Is(s[0], 0xE2) && Is(s[1], 0x80)
        && (0x80 <= s[2] as int <= 0x8A || Is(s[2], 0xA8) || Is(s[2], 0xA9) || Is(s[2], 0xAF)))
    || (Is(s[0], 0xE2) && Is(s[1], 0x81) && Is(s[2], 0x9F))
    || (Is(s[0], 0xE3) && Is(s[1], 0x80) && Is(s[2], 0x80))
  }

  /** The bytes of the white-space character that the text begins with, or 0. */
  function SpaceAhead(s: string): (n: nat)
    ensures n <= |s|
  {
    if |s| >= 1 && Space1(s[0]) then 1
    else if |s| >= 2 && Space2(s[..2]) then 2
    else if |s| >= 3 && Space3(s[..3]) then 3
    else 0
  }

  function SpaceBehind(s: string): (n: nat)
    ensures n <= |s|
  {
    if |s| >= 1 && Space1(s[|s| - 1]) then 1
    else if |s| >= 2 && Space2(s[|s| - 2..]) then 2
    else if |s| >= 3 && Space3(s[|s| - 3..]) then 3
    else 0
  }

  function TrimLeft(s: string): string {
    if SpaceAhead(s) == 0 then s else TrimLeft(s[SpaceAhead(s)..])
  }

  function TrimRight(s: string): string {
    if SpaceBehind(s) == 0 then s else TrimRight(s[..|s| - SpaceBehind(s)])
  }

  /** strings.TrimSpace, then at most max bytes. */
  function Clean(s: string, max: nat): string {
    var t := TrimRight(TrimLeft(s));
    if |t| <= max then t else t[..max]
  }

  /** Trimming on the left leaves the end of the text, from the first character that is not white space on. */
  lemma {:induction false} TrimmedLeft(s: string)
    ensures SpaceAhead(TrimLeft(s)) == 0 && |TrimLeft(s)| <= |s| && TrimLeft(s) == s[|s| - |TrimLeft(s)|..]
    decreases |s|
  {
    if SpaceAhead(s) != 0 {
      TrimmedLeft(s[SpaceAhead(s)..]);
    }
  }

  lemma {:induction false} TrimmedRight(s: string)
    ensures SpaceBehind(TrimRight(s)) == 0 && TrimRight(s) <= s
    decreases |s|
  {
    if SpaceBehind(s) != 0 {
      TrimmedRight(s[..|s| - SpaceBehind(s)]);
    }
  }

  /** What is left is a prefix of the text without its leading white space; uncut, it does not end in white space either. */
  lemma CleanIsPrefix(s: string, max: nat)
    ensures |Clean(s, max)| <= max && Clean(s, max) <= TrimLeft(s)
    ensures |TrimRight(TrimLeft(s))| <= max ==> SpaceBehind(Clean(s, max)) == 0
  {
    TrimmedRight(TrimLeft(s));
  }

  // ---- The payload ----

  datatype Merchant = Merchant(
    accountId: string, merchantId: string, acquiringBank: string, merchantName: string, merchantCity: string,
    mcc: string, storeLabel: string, terminalLabel: string)

  datatype KhqrError = IncompleteIdentity | AmountNotPositive | UnsupportedCurrency

  function Default(value: string, fallback: string): string {
    if value == "" then fallback else value
  }

  function IntText(n: int): string {
    if n < 0 then "-" + Digits(-n) else Digits(n)
  }

  /** The values as they are printed; an optional label that is set is printed even when nothing is left of it. */
  datatype Fields = Fields(
    accountId: string, merchantId: string, acquiringBank: string, mcc: string, name: string, city: string,
    reference: string, store: Option<string>, terminal: Option<string>)
  {
    predicate Bounded() {
      && |accountId| <= 32 && |merchantId| <= 32 && |acquiringBank| <= 32 && |name| <= 25 && |city| <= 15 && |reference| <= 25
      && (store.Some? ==> |store.value| <= 25) && (terminal.Some? ==> |terminal.value| <= 25) && |mcc| > 0
    }

    function IdentityLength(): nat {
      |accountId| + |merchantId| + |acquiringBank|
    }
  }

  function Label(value: string): Option<string> {
    if value == "" then None else Some(Clean(value, 25))
  }

  function Cleaned(m: Merchant, reference: string): Fields {
    Fields(Clean(m.accountId, 32), Clean(m.merchantId, 32), Clean(m.acquiringBank, 32), Default(m.mcc, "5999"),
      Clean(m.merchantName, 25), Clean(Default(m.merchantCity, "PHNOM PENH"), 15), Clean(reference, 25),
      Label(m.storeLabel), Label(m.terminalLabel))
  }

  lemma CleanedBounded(m: Merchant, reference: string)
    ensures Cleaned(m, reference).Bounded()
  {
    CleanIsPrefix(m.accountId, 32);
    CleanIsPrefix(m.merchantId, 32);
    CleanIsPrefix(m.acquiringBank, 32);
    CleanIsPrefix(m.merchantName, 25);
    CleanIsPrefix(Default(m.merchantCity, "PHNOM PENH"), 15);
    CleanIsPrefix(reference, 25);
    CleanIsPrefix(m.storeLabel, 25);
    CleanIsPrefix(m.terminalLabel, 25);
  }

  /** Template 30. */
  function Account(f: Fields): seq<Object> {
    [Object("00", f.accountId), Object("01", f.merchantId), Object("02", f.acquiringBank)]
  }

  function Optionally(tag: string, value: Option<string>): seq<Object> {
    if value.Some? then [Object(tag, value.value)] else []
  }

  /** Template 62. */
  function Additional(f: Fields): seq<Object> {
    [Object("01", f.reference)] + Optionally("03", f.store) + Optionally("07", f.terminal)
  }

  /** Template 99. */
  function Timestamp(unixMilli: int): seq<Object> {
    [Object("00", IntText(unixMilli))]
  }

  /** The objects up to the merchant's category. */
  function Opening(f: Fields): seq<Object> {
    [Object("00", "01"), Object("01", "12"), Object("30", PrintAll(Account(f))), Object("52", f.mcc)]
  }

  function Transaction(currency: Currency, amount: string): seq<Object> {
    [Object("53", NumericCode(currency)), Object("54", amount)]
  }

  function Place(f: Fields): seq<Object> {
    [Object("58", "KH"), Object("59", f.name), Object("60", f.city)]
  }

  function Closing(f: Fields, unixMilli: int): seq<Object> {
    [Object("62", PrintAll(Additional(f))), Object("99", PrintAll(Timestamp(unixMilli)))]
  }

  function TopLevel(f: Fields, currency: Currency, amount: string, unixMilli: int): seq<Object> {
    Opening(f) + Transaction(currency, amount) + Place(f) + Closing(f, unixMilli)
  }

  function Nibble(n: bv4): char {
    if n == 0 then '0' else if n == 1 then '1' else if n == 2 then '2' else if n == 3 then '3'
    else if n == 4 then '4' else if n == 5 then '5' else if n == 6 then '6' else if n == 7 then '7'
    else if n == 8 then '8' else if n == 9 then '9' else if n == 10 then 'A' else if n == 11 then 'B'
    else if n == 12 then 'C' else if n == 13 then 'D' else if n == 14 then 'E' else 'F'
  }

  /** %04X */
  function Hex4(v: bv16): (s: string)
    ensures |s| == 4
  {
    [Nibble(((v >> 12) & 0xF) as bv4), Nibble(((v >> 8) & 0xF) as bv4), Nibble(((v >> 4) & 0xF) as bv4), Nibble((v & 0xF) as bv4)]
  }

  /** Everything before the checksum's value, its identifier and length included. */
  function Body(objects: seq<Object>): string {
    PrintAll(objects) + "6304"
  }

  function Payload(objects: seq<Object>): string {
    Body(objects) + Hex4(Crc(Bytes(Body(objects))))
  }

  /** The amount of tag 54; quotient is the double that dividing the cents by 100 gives. */
  function AmountText(currency: Currency, amountCents: int, quotient: real): string
    requires amountCents > 0 && quotient >= 0.0
  {
    if currency.KHR? then Digits(amountCents) else FixedTwo(quotient)
  }

  function ParseCurrency(currency: string): Option<Currency> {
    if Upper(currency) == "USD" then Some(USD) else if Upper(currency) == "KHR" then Some(KHR) else None
  }

  function Refusal(m: Merchant, currency: string, amountCents: int): Option<KhqrError> {
    if m.accountId == "" || m.merchantId == "" || m.acquiringBank == "" || m.merchantName == "" then Some(IncompleteIdentity)
    else if amountCents <= 0 then Some(AmountNotPositive)
    else if ParseCurrency(currency).None? then Some(UnsupportedCurrency)
    else None
  }

  lemma PrintOneMore(objects: seq<Object>, o: Object)
    ensures PrintAll(objects + [o]) == PrintAll(objects) + Print(o)
  {
    PrintAppended(objects, [o]);
    PrintCons(o, []);
    assert [o] + [] == [o] && PrintAll([]) == "";
  }

  method GenerateMerchantKhqr(m: Merchant, reference: string, currency: string, amountCents: int, quotient: real, unixMilli: int)
    returns (result: Result<string, KhqrError>)
    requires quotient >= 0.0
    ensures match result
      case Err(error) => Refusal(m, currency, amountCents) == Some(error)
      case Ok(payload) =>
        && Refusal(m, currency, amountCents).None?
        && var c := ParseCurrency(currency).value;
           payload == Payload(TopLevel(Cleaned(m, reference), c, AmountText(c, amountCents, quotient), unixMilli))
  {
    if m.accountId == "" || m.merchantId == "" || m.acquiringBank == "" || m.merchantName == "" {
      return Err(IncompleteIdentity);
    }
    if amountCents <= 0 {
      return Err(AmountNotPositive);
    }
    var parsed := ParseCurrency(currency);
    if parsed.None? {
      return Err(UnsupportedCurrency);
    }
    var c := parsed.value;
    var amount := AmountText(c, amountCents, quotient);
    var fields := Cleaned(m, reference);
    var additional := AdditionalText(fields);
    var objects := Opening(fields) + Transaction(c, AmountText(c, amountCents, quotient)) + Place(fields)
      + [Object("62", additional), Object("99", PrintAll(Timestamp(unixMilli)))];
    var payload := WithChecksum(PrintAll(objects));
    result := Ok(payload);
  }

  method WithChecksum(text: string) returns (payload: string)
    ensures payload == text + "6304" + Hex4(Crc(Bytes(text + "6304")))
  {
    payload := text + "6304";
    var crc := Crc16Ccitt(Bytes(payload));
    payload := payload + Hex4(crc);
  }

  /** Template 62 is appended to as the optional labels are there. */
  method AdditionalText(f: Fields) returns (additional: string)
    ensures additional == PrintAll(Additional(f))
  {
    AdditionalIs(f);
    additional := Print(Object("01", f.reference));
    if f.store.Some? {
      additional := additional + Print(Object("03", f.store.value));
    }
    if f.terminal.Some? {
      additional := additional + Print(Object("07", f.terminal.value));
    }
  }

  function OptionalText(tag: string, value: Option<string>): string {
    if value.Some? then Print(Object(tag, value.value)) else ""
  }

  lemma PrintOptional(objects: seq<Object>, tag: string, value: Option<string>)
    ensures PrintAll(objects + Optionally(tag, value)) == PrintAll(objects) + OptionalText(tag, value)
  {
    if value.Some? {
      PrintOneMore(objects, Object(tag, value.value));
    } else {
      assert objects + Optionally(tag, value) == objects;
    }
  }

  lemma AdditionalIs(f: Fields)
    ensures PrintAll(Additional(f)) == Print(Object("01", f.reference)) + OptionalText("03", f.store) + OptionalText("07", f.terminal)
  {
    var first := [Object("01", f.reference)];
    PrintOneMore([], Object("01", f.reference));
    assert [] + first == first && PrintAll([]) == "";
    PrintOptional(first, "03", f.store);
    PrintOptional(first + Optionally("03", f.store), "07", f.terminal);
  }

  // ---- Reading it back ----

  /** The last four characters are the checksum of everything before them. */
  predicate CrcValid(payload: string) {
    |payload| >= 4 && payload[|payload| - 4..] == Hex4(Crc(Bytes(payload[..|payload| - 4])))
  }

  lemma ChecksumObject(crc: string)
    requires |crc| == 4
    ensures Print(Object("63", crc)) == "6304" + crc
  {
    assert Padded(4, 2) == ZeroDigits(1) + Digits(4);
  }

  lemma PayloadIsObjects(objects: seq<Object>, crc: string)
    requires crc == Hex4(Crc(Bytes(Body(objects))))
    ensures Payload(objects) == PrintAll(objects + [Object("63", crc)])
    ensures CrcValid(Payload(objects)) && Payload(objects)[|Payload(objects)| - 4..] == crc
  {
    PrintOneMore(objects, Object("63", crc));
    ChecksumObject(crc);
    assert PrintAll(objects) + ("6304" + crc) == Body(objects) + crc;
    assert Payload(objects)[..|Payload(objects)| - 4] == Body(objects);
  }

  lemma ShortAppended(a: seq<Object>, b: seq<Object>)
    ensures Short(a + b) <==> Short(a) && Short(b)
    ensures Tagged(a) && Tagged(b) ==> Tagged(a + b)
  {
    if Short(a + b) {
      forall i | 0 <= i < |a| ensures |a[i].value| <= 99 {
        assert (a + b)[i] == a[i];
      }
      forall i | 0 <= i < |b| ensures |b[i].value| <= 99 {
        assert (a + b)[|a| + i] == b[i];
      }
    }
  }

  /** A reader of a payload gets its objects back, checksum included, exactly when every value is short. */
  lemma ObjectsRoundTrip(objects: seq<Object>)
    requires Tagged(objects)
    ensures var payload := Payload(objects);
      && CrcValid(payload)
      && (Parse(payload) == Some(objects + [Object("63", payload[|payload| - 4..])]) <==> Short(objects))
  {
    var crc := Hex4(Crc(Bytes(Body(objects))));
    PayloadIsObjects(objects, crc);
    ShortAppended(objects, [Object("63", crc)]);
    RoundTrip(objects + [Object("63", crc)]);
  }

  // ---- Which fields fit ----

  lemma PrintLength(o: Object)
    requires |o.tag| == 2 && |o.value| <= 99
    ensures |Print(o)| == 4 + |o.value|
  {
    TwoDigits(|o.value|);
  }

  lemma AccountLength(f: Fields)
    requires f.Bounded()
    ensures |PrintAll(Account(f))| == 12 + f.IdentityLength()
  {
    var (a, b, c) := (Object("00", f.accountId), Object("01", f.merchantId), Object("02", f.acquiringBank));
    PrintOneMore([], a);
    assert [] + [a] == [a] && PrintAll([]) == "";
    PrintOneMore([a], b);
    assert [a] + [b] == [a, b];
    PrintOneMore([a, b], c);
    assert [a, b] + [c] == Account(f);
    PrintLength(a);
    PrintLength(b);
    PrintLength(c);
  }

  lemma OptionalLength(tag: string, value: Option<string>)
    requires |tag| == 2 && (value.Some? ==> |value.value| <= 25)
    ensures |OptionalText(tag, value)| <= 29
  {
    if value.Some? {
      PrintLength(Object(tag, value.value));
    }
  }

  lemma AdditionalLength(f: Fields)
    requires f.Bounded()
    ensures |PrintAll(Additional(f))| <= 87
  {
    AdditionalIs(f);
    PrintLength(Object("01", f.reference));
    OptionalLength("03", f.store);
    OptionalLength("07", f.terminal);
  }

  lemma TimestampLength(unixMilli: int)
    ensures |PrintAll(Timestamp(unixMilli))| <= 99 <==> |IntText(unixMilli)| <= 95
  {
    var o := Object("00", IntText(unixMilli));
    PrintOneMore([], o);
    assert [] + [o] == Timestamp(unixMilli) && PrintAll([]) == "";
    TwoDigits(|o.value|);
  }

  /** The fields that must be short for their two-digit lengths. */
  predicate FieldsFit(f: Fields, amount: string, unixMilli: int) {
    f.IdentityLength() <= 87 && |f.mcc| <= 99 && |amount| <= 99 && |IntText(unixMilli)| <= 95
  }

  lemma OpeningFits(f: Fields)
    requires f.Bounded()
    ensures Short(Opening(f)) <==> f.IdentityLength() <= 87 && |f.mcc| <= 99
    ensures Tagged(Opening(f))
  {
    AccountLength(f);
    var o := Opening(f);
    assert o[2].value == PrintAll(Account(f)) && o[3].value == f.mcc;
  }

  lemma MiddleFits(f: Fields, currency: Currency, amount: string)
    requires f.Bounded()
    ensures Short(Transaction(currency, amount)) <==> |amount| <= 99
    ensures Short(Place(f)) && Tagged(Place(f)) && Tagged(Transaction(currency, amount))
  {
    assert Transaction(currency, amount)[1].value == amount;
  }

  lemma ClosingFits(f: Fields, unixMilli: int)
    requires f.Bounded()
    ensures Short(Closing(f, unixMilli)) <==> |IntText(unixMilli)| <= 95
    ensures Tagged(Closing(f, unixMilli))
  {
    AdditionalLength(f);
    TimestampLength(unixMilli);
    var c := Closing(f, unixMilli);
    assert c[0].value == PrintAll(Additional(f)) && c[1].value == PrintAll(Timestamp(unixMilli));
  }

  lemma FitIsShort(f: Fields, currency: Currency, amount: string, unixMilli: int)
    requires f.Bounded()
    ensures Short(TopLevel(f, currency, amount, unixMilli)) <==> FieldsFit(f, amount, unixMilli)
    ensures Tagged(TopLevel(f, currency, amount, unixMilli))
  {
    var (a, b, c, d) := (Opening(f), Transaction(currency, amount), Place(f), Closing(f, unixMilli));
    OpeningFits(f);
    MiddleFits(f, currency, amount);
    ClosingFits(f, unixMilli);
    ShortAppended(a, b);
    ShortAppended(a + b, c);
    ShortAppended(a + b + c, d);
  }

  /**
   * A reader of the payload gets back every object, checksum included, exactly when the fields fit; the
   * checksum is always accepted.
   */
  lemma KhqrRoundTrip(m: Merchant, reference: string, currency: Currency, amount: string, unixMilli: int)
    ensures var f := Cleaned(m, reference);
            var objects := TopLevel(f, currency, amount, unixMilli);
            var payload := Payload(objects);
      && CrcValid(payload)
      && (Parse(payload) == Some(objects + [Object("63", payload[|payload| - 4..])]) <==> FieldsFit(f, amount, unixMilli))
  {
    CleanedBounded(m, reference);
    FitIsShort(Cleaned(m, reference), currency, amount, unixMilli);
    ObjectsRoundTrip(TopLevel(Cleaned(m, reference), currency, amount, unixMilli));
  }

  lemma AdditionalShort(f: Fields)
    requires f.Bounded()
    ensures Short(Additional(f)) && Tagged(Additional(f))
  {
    var first := [Object("01", f.reference)];
    ShortAppended(first, Optionally("03", f.store));
    ShortAppended(first + Optionally("03", f.store), Optionally("07", f.terminal));
  }

  /** The templates nested in it can always be read, and hold the cleaned fields. */
  lemma TemplatesRoundTrip(m: Merchant, reference: string, unixMilli: int)
    ensures var f := Cleaned(m, reference);
      && Parse(PrintAll(Account(f))) == Some(Account(f))
      && Parse(PrintAll(Additional(f))) == Some(Additional(f))
    ensures |IntText(unixMilli)| <= 99 <==> Parse(PrintAll(Timestamp(unixMilli))) == Some(Timestamp(unixMilli))
  {
    var f := Cleaned(m, reference);
    CleanedBounded(m, reference);
    TemplatesRead(f);
    RoundTrip(Timestamp(unixMilli));
    assert Timestamp(unixMilli)[0].value == IntText(unixMilli);
  }

  lemma TemplatesRead(f: Fields)
    requires f.Bounded()
    ensures Parse(PrintAll(Account(f))) == Some(Account(f))
    ensures Parse(PrintAll(Additional(f))) == Some(Additional(f))
  {
    RoundTrip(Account(f));
    AdditionalShort(f);
    RoundTrip(Additional(f));
  }

  // ---- Amounts and instants of 64 bits always fit ----

  function Power10(k: nat): nat {
    if k == 0 then 1 else 10 * Power10(k - 1)
  }

  lemma {:induction false} DigitsLength(n: nat, k: nat)
    requires k >= 1 && n < Power10(k)
    ensures |Digits(n)| <= k
    decreases k
  {
    if n >= 10 {
      assert k > 1;
      DigitsLength(n / 10, k - 1);
    }
  }

  const INT64 := 9223372036854775808

  lemma NineteenDigits(n: nat)
    requires n <= INT64
    ensures |Digits(n)| <= 19
  {
    assert Power10(5) == 100000;
    assert Power10(10) == 100000 * Power10(5);
    assert Power10(15) == 100000 * Power10(10);
    assert Power10(19) == 10000 * Power10(15);
    DigitsLength(n, 19);
  }

  /** float64(amountCents)/100: the conversion and the division each round. */
  predicate Quotient(amountCents: nat, cents: real, quotient: real) {
    Rounded(cents, amountCents as real) && Rounded(quotient, cents / 100.0)
  }

  lemma AmountFits(currency: Currency, amountCents: int, cents: real, quotient: real)
    requires 0 < amountCents < INT64 && quotient >= 0.0 && Quotient(amountCents, cents, quotient)
    ensures |AmountText(currency, amountCents, quotient)| <= 99
  {
    if currency.KHR? {
      NineteenDigits(amountCents);
    } else {
      var printed := (quotient * 100.0 + 0.5).Floor;
      assert quotient * 100.0 <= 2.0 * amountCents as real;
      NineteenDigits(printed / 100);
      TwoDigits(printed % 100);
    }
  }

  /** For amounts and instants of the program's own types, only the merchant's identity and category can be too long. */
  lemma OnlyTheMerchantMatters(m: Merchant, reference: string, currency: Currency, amountCents: int, cents: real, quotient: real, unixMilli: int)
    requires 0 < amountCents < INT64 && quotient >= 0.0 && -INT64 <= unixMilli < INT64 && Quotient(amountCents, cents, quotient)
    ensures var f := Cleaned(m, reference);
            var objects := TopLevel(f, currency, AmountText(currency, amountCents, quotient), unixMilli);
            var payload := Payload(objects);
      Parse(payload) == Some(objects + [Object("63", payload[|payload| - 4..])]) <==> f.IdentityLength() <= 87 && |f.mcc| <= 99
  {
    AmountFits(currency, amountCents, cents, quotient);
    NineteenDigits(if unixMilli < 0 then -unixMilli else unixMilli);
    KhqrRoundTrip(m, reference, currency, AmountText(currency, amountCents, quotient), unixMilli);
  }

  // ---- Damaged payloads ----

  lemma NibbleInjective(a: bv4, b: bv4)
    requires Nibble(a) == Nibble(b)
    ensures a == b
  {
  }

  lemma FourNibbles(v: bv16, w: bv16)
    requires ((v >> 12) & 0xF) as bv4 == ((w >> 12) & 0xF) as bv4 && ((v >> 8) & 0xF) as bv4 == ((w >> 8) & 0xF) as bv4
    requires ((v >> 4) & 0xF) as bv4 == ((w >> 4) & 0xF) as bv4 && (v & 0xF) as bv4 == (w & 0xF) as bv4
    ensures v == w
  {
  }

  lemma Hex4Injective(v: bv16, w: bv16)
    requires Hex4(v) == Hex4(w)
    ensures v == w
  {
    var (s, t) := (Hex4(v), Hex4(w));
    assert s[0] == t[0] && s[1] == t[1] && s[2] == t[2] && s[3] == t[3];
    NibbleInjective(((v >> 12) & 0xF) as bv4, ((w >> 12) & 0xF) as bv4);
    NibbleInjective(((v >> 8) & 0xF) as bv4, ((w >> 8) & 0xF) as bv4);
    NibbleInjective(((v >> 4) & 0xF) as bv4, ((w >> 4) & 0xF) as bv4);
    NibbleInjective((v & 0xF) as bv4, (w & 0xF) as bv4);
    FourNibbles(v, w);
  }

  /** A scanned payload damaged only within sixteen bits before its checksum is accepted exactly when it is undamaged. */
  lemma DamageRejected(sent: string, scanned: string, i: nat)
    requires CrcValid(sent) && |scanned| == |sent| && scanned[|sent| - 4..] == sent[|sent| - 4..]
    requires DifferWithin(Bytes(sent[..|sent| - 4]), Bytes(scanned[..|sent| - 4]), i)
    ensures CrcValid(scanned) <==> Bytes(scanned[..|sent| - 4]) == Bytes(sent[..|sent| - 4])
  {
    var (a, b) := (Bytes(sent[..|sent| - 4]), Bytes(scanned[..|sent| - 4]));
    BurstDetected(a, b, i);
    if CrcValid(scanned) {
      Hex4Injective(Crc(a), Crc(b));
    }
  }
}
