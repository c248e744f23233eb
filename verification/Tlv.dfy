/** Data objects: a two-character identifier, a two-digit length and a value. */
module Tlv {
  import opened Wrappers
  import opened Decimal

  datatype Object = Object(tag: string, value: string)

  /** fmt.Sprintf("%s%02d%s", tag, len(value), value); the length of a long value has more than two digits. */
  function Print(o: Object): string {
    o.tag + Padded(|o.value|, 2) + o.value
  }

  function PrintAll(objects: seq<Object>): string {
    if objects == [] then "" else Print(objects[0]) + PrintAll(objects[1..])
  }

  /** A reader of data objects, as the specification of the format asks for it. */
  function Parse(s: string): Option<seq<Object>>
    decreases |s|
  {
    if s == "" then Some([])
    else if |s| < 4 || !AllDigits(s[2..4]) then None
    else
      var n := Value(s[2..4]);
      if 4 + n > |s| then None
      else match Parse(s[4 + n..])
        case None => None
        case Some(rest) => Some([Object(s[..2], s[4..4 + n])] + rest)
  }

  predicate Tagged(objects: seq<Object>) {
    forall i :: 0 <= i < |objects| ==> |objects[i].tag| == 2
  }

  /** Every value fits its two-digit length. */
  predicate Short(objects: seq<Object>) {
    forall i :: 0 <= i < |objects| ==> |objects[i].value| <= 99
  }

  lemma ParsePrinted(o: Object, tail: string)
    requires |o.tag| == 2 && |o.value| <= 99
    ensures Parse(Print(o) + tail) == match Parse(tail) case None => None case Some(rest) => Some([o] + rest)
  {
    var length := Padded(|o.value|, 2);
    var s := Print(o) + tail;
    TwoDigits(|o.value|);
    ValueOfPadded(|o.value|, 2);
    assert s[..2] == o.tag && s[2..4] == length;
    assert s[4..4 + |o.value|] == o.value && s[4 + |o.value|..] == tail;
  }

  lemma {:induction false} ParsePrintedAll(objects: seq<Object>)
    requires Tagged(objects) && Short(objects)
    ensures Parse(PrintAll(objects)) == Some(objects)
  {
    if objects != [] {
      ParsePrintedAll(objects[1..]);
      ParsePrinted(objects[0], PrintAll(objects[1..]));
      assert objects == [objects[0]] + objects[1..];
    }
  }

  lemma TwoDigitValue(s: string)
    requires |s| == 2 && AllDigits(s)
    ensures Value(s) <= 99
  {
    assert Value(s[..1]) == 10 * Value(s[..1][..0]) + DigitValue(s[0]);
  }

  lemma {:induction false} ParsedShort(s: string)
    requires Parse(s).Some?
    ensures Short(Parse(s).value)
    decreases |s|
  {
    if s != "" {
      TwoDigitValue(s[2..4]);
      ParsedShort(s[4 + Value(s[2..4])..]);
    }
  }

  /** Printing and parsing undo each other exactly when every value has at most 99 bytes. */
  lemma RoundTrip(objects: seq<Object>)
    requires Tagged(objects)
    ensures Parse(PrintAll(objects)) == Some(objects) <==> Short(objects)
  {
    if Short(objects) {
      ParsePrintedAll(objects);
    }
    if Parse(PrintAll(objects)) == Some(objects) {
      ParsedShort(PrintAll(objects));
    }
  }

  lemma PrintCons(o: Object, rest: seq<Object>)
    ensures PrintAll([o] + rest) == Print(o) + PrintAll(rest)
  {
    assert ([o] + rest)[1..] == rest;
  }

  lemma {:induction false} PrintAppended(a: seq<Object>, b: seq<Object>)
    ensures PrintAll(a + b) == PrintAll(a) + PrintAll(b)
  {
    if a == [] {
      assert a + b == b && PrintAll(a) == "";
    } else {
      var (o, rest) := (a[0], a[1..]);
      calc {
        PrintAll(a + b);
        { assert a + b == [o] + (rest + b); PrintCons(o, rest + b); }
        Print(o) + PrintAll(rest + b);
        { PrintAppended(rest, b); }
        Print(o) + PrintAll(rest) + PrintAll(b);
        { assert a == [o] + rest; PrintCons(o, rest); }
        PrintAll(a) + PrintAll(b);
      }
    }
  }
}
