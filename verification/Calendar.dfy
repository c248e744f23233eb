/** The event calendar file: escaping of TEXT values (section 3.3.11 of RFC 5545) and the file's lines. */
module Calendar {
  import opened Wrappers
  import Decimal

  // ---- The rewrites, one after the other ----

  /** value.replace(/c/g, t) for a single character c. */
  function Replaced(s: string, c: char, t: string): string {
    if s == "" then "" else (if s[0] == c then t else [s[0]]) + Replaced(s[1..], c, t)
  }

  /** value.replace(/\r?\n/g, t) */
  function LinesReplaced(s: string, t: string): string {
    if s == "" then ""
    else if s[0] == '\n' then t + LinesReplaced(s[1..], t)
    else if s[0] == '\r' && |s| > 1 && s[1] == '\n' then t + LinesReplaced(s[2..], t)
    else [s[0]] + LinesReplaced(s[1..], t)
  }

  /** The four replacements of escapeCalendarText. */
  function EscapeText(value: string): string {
    Replaced(Replaced(LinesReplaced(Replaced(value, '\\', "\\\\"), "\\n"), ',', "\\,"), ';', "\\;")
  }

  // ---- One pass ----

  /** How many characters a line break at the head takes, or 0. */
  function Break(s: string): (n: nat)
    ensures n <= |s| && n <= 2
  {
    if s != "" && s[0] == '\n' then 1
    else if |s| > 1 && s[0] == '\r' && s[1] == '\n' then 2
    else 0
  }

  function Escaped(c: char): string {
    if c == '\\' then "\\\\" else if c == ',' then "\\," else if c == ';' then "\\;" else [c]
  }

  /** The escaper that reads the value once, from left to right. */
  function EscapeOnce(s: string): string {
    if s == "" then ""
    else if Break(s) > 0 then "\\n" + EscapeOnce(s[Break(s)..])
    else Escaped(s[0]) + EscapeOnce(s[1..])
  }

  lemma {:induction false} ReplacedAppend(a: string, b: string, c: char, t: string)
    ensures Replaced(a + b, c, t) == Replaced(a, c, t) + Replaced(b, c, t)
  {
    if a == "" {
      assert a + b == b;
    } else {
      ReplacedAppend(a[1..], b, c, t);
      assert (a + b)[1..] == a[1..] + b;
      var head := if a[0] == c then t else [a[0]];
      assert head + (Replaced(a[1..], c, t) + Replaced(b, c, t)) == head + Replaced(a[1..], c, t) + Replaced(b, c, t);
    }
  }

  /** The last two rewrites. */
  function Punctuated(s: string): string {
    Replaced(Replaced(s, ',', "\\,"), ';', "\\;")
  }

  lemma PunctuatedAppend(a: string, b: string)
    ensures Punctuated(a + b) == Punctuated(a) + Punctuated(b)
  {
    ReplacedAppend(a, b, ',', "\\,");
    ReplacedAppend(Replaced(a, ',', "\\,"), Replaced(b, ',', "\\,"), ';', "\\;");
  }

  lemma ReplacedOne(d: char, c: char, t: string)
    ensures Replaced([d], c, t) == if d == c then t else [d]
  {
    assert [d][1..] == "";
  }

  lemma PunctuatedOne(c: char)
    requires c != '\\'
    ensures Punctuated([c]) == Escaped(c)
  {
    ReplacedOne(c, ',', "\\,");
    ReplacedOne(c, ';', "\\;");
    if c == ',' {
      PunctuatedPair('\\', ',');
    }
  }

  lemma PunctuatedPair(a: char, b: char)
    ensures Replaced([a, b], ';', "\\;") == (if a == ';' then "\\;" else [a]) + (if b == ';' then "\\;" else [b])
  {
    assert [a, b] == [a] + [b];
    ReplacedAppend([a], [b], ';', "\\;");
    ReplacedOne(a, ';', "\\;");
    ReplacedOne(b, ';', "\\;");
  }

  lemma PunctuatedKeeps(a: char, b: char)
    requires a != ',' && a != ';' && b != ',' && b != ';'
    ensures Punctuated([a, b]) == [a, b]
  {
    assert [a, b] == [a] + [b];
    PunctuatedAppend([a], [b]);
    ReplacedOne(a, ',', "\\,");
    ReplacedOne(b, ',', "\\,");
    ReplacedOne(a, ';', "\\;");
    ReplacedOne(b, ';', "\\;");
  }

  /** The first two rewrites. */
  function Lined(s: string): string {
    LinesReplaced(Replaced(s, '\\', "\\\\"), "\\n")
  }

  lemma LinedBackslash(s: string)
    requires s != "" && s[0] == '\\'
    ensures Lined(s) == "\\\\" + Lined(s[1..])
  {
    var u := Replaced(s[1..], '\\', "\\\\");
    var t := Replaced(s, '\\', "\\\\");
    assert t == "\\\\" + u;
    assert t[1..] == "\\" + u && t[1..][1..] == u;
    var rest := LinesReplaced(u, "\\n");
    assert LinesReplaced(t[1..], "\\n") == "\\" + rest;
    assert "\\" + ("\\" + rest) == "\\\\" + rest;
  }

  lemma LinedBreak(s: string)
    requires Break(s) > 0
    ensures Lined(s) == "\\n" + Lined(s[Break(s)..])
  {
    var t := Replaced(s, '\\', "\\\\");
    var u := Replaced(s[1..], '\\', "\\\\");
    assert t[1..] == u;
    if Break(s) == 2 {
      assert u[0] == s[1] && s[1..][1..] == s[2..];
      assert u[1..] == Replaced(s[2..], '\\', "\\\\");
      assert t[2..] == u[1..];
    }
  }

  lemma LinedOther(s: string)
    requires s != "" && s[0] != '\\' && Break(s) == 0
    ensures Lined(s) == [s[0]] + Lined(s[1..])
  {
    var t := Replaced(s, '\\', "\\\\");
    assert t[1..] == Replaced(s[1..], '\\', "\\\\");
    if |s| > 1 {
      assert t[1] == s[1];
    }
  }

  /** The four rewrites are one pass from left to right. */
  lemma {:induction false} OnePassSuffices(s: string)
    ensures EscapeText(s) == EscapeOnce(s)
    decreases |s|
  {
    if s == "" {
    } else if Break(s) > 0 {
      var rest := s[Break(s)..];
      OnePassSuffices(rest);
      LinedBreak(s);
      PunctuatedAppend("\\n", Lined(rest));
      PunctuatedKeeps('\\', 'n');
    } else {
      OnePassSuffices(s[1..]);
      if s[0] == '\\' {
        LinedBackslash(s);
        PunctuatedAppend("\\\\", Lined(s[1..]));
        PunctuatedKeeps('\\', '\\');
      } else {
        LinedOther(s);
        PunctuatedAppend([s[0]], Lined(s[1..]));
        PunctuatedOne(s[0]);
      }
    }
  }

  // ---- Reading a value back ----

  /** The reader of TEXT values. */
  function Unescape(s: string): string {
    if s == "" then ""
    else if s[0] == '\\' && |s| > 1 then
      (if s[1] == 'n' || s[1] == 'N' then "\n" else [s[1]]) + Unescape(s[2..])
    else [s[0]] + Unescape(s[1..])
  }

  /** Every CRLF turned into LF. */
  function Normalized(s: string): string {
    if s == "" then ""
    else if Break(s) > 0 then "\n" + Normalized(s[Break(s)..])
    else [s[0]] + Normalized(s[1..])
  }

  lemma UnescapePair(c: char, rest: string)
    ensures Unescape(['\\', c] + rest) == (if c == 'n' || c == 'N' then "\n" else [c]) + Unescape(rest)
  {
    assert (['\\', c] + rest)[2..] == rest;
  }

  lemma UnescapeOne(c: char, rest: string)
    requires c != '\\'
    ensures Unescape([c] + rest) == [c] + Unescape(rest)
  {
    assert ([c] + rest)[1..] == rest;
  }

  /** Unescaping gives back the value, with each CRLF turned into LF. */
  lemma {:induction false} TextRoundTrip(s: string)
    ensures Unescape(EscapeText(s)) == Normalized(s)
    decreases |s|
  {
    OnePassSuffices(s);
    if s != "" {
      var n := if Break(s) > 0 then Break(s) else 1;
      TextRoundTrip(s[n..]);
      OnePassSuffices(s[n..]);
      var rest := EscapeOnce(s[n..]);
      if Break(s) > 0 {
        UnescapePair('n', rest);
      } else if s[0] == '\\' || s[0] == ',' || s[0] == ';' {
        UnescapePair(s[0], rest);
      } else {
        UnescapeOne(s[0], rest);
      }
    }
  }

  predicate NoLf(s: string) {
    forall i :: 0 <= i < |s| ==> s[i] != '\n'
  }

  /** An escaped value stays on its line. */
  lemma {:induction false} EscapedNoLf(s: string)
    ensures NoLf(EscapeText(s))
    decreases |s|
  {
    OnePassSuffices(s);
    if s != "" {
      var n := if Break(s) > 0 then Break(s) else 1;
      EscapedNoLf(s[n..]);
      OnePassSuffices(s[n..]);
    }
  }

  // ---- Lines ----

  const CRLF := "\r\n"

  /** lines.join("\r\n") */
  function Join(lines: seq<string>): string {
    if lines == [] then "" else if |lines| == 1 then lines[0] else lines[0] + CRLF + Join(lines[1..])
  }

  /** text.split("\r\n") */
  function Split(text: string): (lines: seq<string>)
    ensures |lines| >= 1
  {
    if text == "" then [""]
    else if |text| > 1 && text[0] == '\r' && text[1] == '\n' then [""] + Split(text[2..])
    else
      var rest := Split(text[1..]);
      [[text[0]] + rest[0]] + rest[1..]
  }

  predicate HasCrlf(s: string) {
    exists i :: 0 <= i < |s| - 1 && s[i] == '\r' && s[i + 1] == '\n'
  }

  lemma HeadAdded(c: char, line: string)
    ensures HasCrlf([c] + line) ==> HasCrlf(line) || (c == '\r' && line != "" && line[0] == '\n')
  {
    var s := [c] + line;
    if HasCrlf(s) {
      var i :| 0 <= i < |s| - 1 && s[i] == '\r' && s[i + 1] == '\n';
      if i > 0 {
        assert line[i - 1] == '\r' && line[i - 1 + 1] == '\n';
      }
    }
  }

  lemma {:induction false} SplitNoCrlf(text: string)
    ensures forall i :: 0 <= i < |Split(text)| ==> !HasCrlf(Split(text)[i])
    decreases |text|
  {
    if text != "" {
      if |text| > 1 && text[0] == '\r' && text[1] == '\n' {
        SplitNoCrlf(text[2..]);
      } else {
        SplitNoCrlf(text[1..]);
        FirstLine(text[1..]);
        HeadAdded(text[0], Split(text[1..])[0]);
      }
    }
  }

  /** The first line is the beginning of the text. */
  lemma {:induction false} FirstLine(text: string)
    ensures Split(text)[0] <= text
    decreases |text|
  {
    if text != "" && !(|text| > 1 && text[0] == '\r' && text[1] == '\n') {
      FirstLine(text[1..]);
    }
  }

  lemma {:induction false} SplitLine(line: string, rest: string)
    requires !HasCrlf(line)
    ensures Split(line + CRLF + rest) == [line] + Split(rest)
    decreases |line|
  {
    var text := line + CRLF + rest;
    if line == "" {
      assert text == CRLF + rest;
      assert text[2..] == rest;
    } else {
      assert text[1..] == line[1..] + CRLF + rest;
      assert !HasCrlf(line[1..]) by { TailNoCrlf(line); }
      SplitLine(line[1..], rest);
      assert text[0] == '\r' && text[1] == '\n' ==> HasCrlf(line) by { HeadCrlf(line, rest); }
      assert [line[0]] + line[1..] == line;
    }
  }

  lemma TailNoCrlf(line: string)
    requires line != ""
    ensures HasCrlf(line[1..]) ==> HasCrlf(line)
  {
    if HasCrlf(line[1..]) {
      var i :| 0 <= i < |line| - 2 && line[1..][i] == '\r' && line[1..][i + 1] == '\n';
      assert line[i + 1] == '\r' && line[i + 1 + 1] == '\n';
    }
  }

  lemma HeadCrlf(line: string, rest: string)
    requires line != ""
    ensures var text := line + CRLF + rest;
      text[0] == '\r' && text[1] == '\n' ==> HasCrlf(line)
  {
    if |line| == 1 {
      assert (line + CRLF)[1] == '\r';
    }
  }

  lemma {:induction false} SplitWhole(line: string)
    requires !HasCrlf(line)
    ensures Split(line) == [line]
    decreases |line|
  {
    if line != "" {
      TailNoCrlf(line);
      SplitWhole(line[1..]);
      assert [line[0]] + line[1..] == line;
    }
  }

  lemma {:induction false} SplitJoined(lines: seq<string>)
    requires lines != [] && forall i :: 0 <= i < |lines| ==> !HasCrlf(lines[i])
    ensures Split(Join(lines)) == lines
  {
    if |lines| == 1 {
      SplitWhole(lines[0]);
    } else {
      SplitJoined(lines[1..]);
      SplitLine(lines[0], Join(lines[1..]));
      assert [lines[0]] + lines[1..] == lines;
    }
  }

  /** Joining and splitting undo each other exactly when no line holds the separator. */
  lemma JoinRoundTrip(lines: seq<string>)
    requires lines != []
    ensures Split(Join(lines)) == lines <==> forall i :: 0 <= i < |lines| ==> !HasCrlf(lines[i])
  {
    if forall i :: 0 <= i < |lines| ==> !HasCrlf(lines[i]) {
      SplitJoined(lines);
    }
    SplitNoCrlf(Join(lines));
  }

  // ---- The file ----

  /** trimmedDescription is the description without surrounding white space. */
  datatype Event = Event(id: string, name: string, trimmedDescription: string, date: string, startTime: string, location: string)

  predicate DigitsAt(s: string, i: nat, n: nat) {
    i + n <= |s| && forall k :: i <= k < i + n ==> Decimal.IsDigit(s[k])
  }

  /** YYYYMMDD from a text that begins YYYY-MM-DD, or the empty text. */
  function CompactDate(value: string): string {
    if DigitsAt(value, 0, 4) && DigitsAt(value, 5, 2) && DigitsAt(value, 8, 2) && value[4] == '-' && value[7] == '-'
      then value[..4] + value[5..7] + value[8..10]
    else ""
  }

  predicate TimeAt(s: string, i: nat) {
    DigitsAt(s, i, 2) && DigitsAt(s, i + 3, 2) && s[i + 2] == ':'
  }

  function TimeText(s: string, i: nat): string
    requires TimeAt(s, i)
  {
    s[i..i + 2] + s[i + 3..i + 5] + if DigitsAt(s, i + 6, 2) && s[i + 5] == ':' then s[i + 6..i + 8] else "00"
  }

  /** The time after the first T, from position i on, that is followed by one. */
  function TimeAfterT(s: string, i: nat): string
    decreases |s| - i
  {
    if i >= |s| then "060000"
    else if s[i] == 'T' && TimeAt(s, i + 1) then TimeText(s, i + 1)
    else TimeAfterT(s, i + 1)
  }

  /** HHMMSS at the beginning of the text or after a T; six in the morning when there is none. */
  function CompactTime(value: string): string {
    if TimeAt(value, 0) then TimeText(value, 0) else TimeAfterT(value, 0)
  }

  function Description(e: Event, url: string): string {
    if e.trimmedDescription == "" then "Event details: " + url else e.trimmedDescription + "\n\n" + "Event details: " + url
  }

  function Header(): seq<string> {
    ["BEGIN:VCALENDAR", "VERSION:2.0", "PRODID:-//Unity Runn Club//Race Calendar//EN", "CALSCALE:GREGORIAN",
     "METHOD:PUBLISH", "BEGIN:VEVENT"]
  }

  function Properties(e: Event, url: string, stamp: string): seq<string> {
    ["UID:" + EscapeText(e.id) + "@unityrunn.club", "DTSTAMP:" + stamp,
     "DTSTART;TZID=Asia/Phnom_Penh:" + CompactDate(e.date) + "T" + CompactTime(e.startTime), "DURATION:PT3H",
     "SUMMARY:" + EscapeText(e.name), "DESCRIPTION:" + EscapeText(Description(e, url)), "LOCATION:" + EscapeText(e.location),
     "URL:" + url]
  }

  /** The property lines; the last, empty one ends the file with a separator. */
  function PropertyLines(e: Event, url: string, stamp: string): seq<string> {
    Header() + Properties(e, url, stamp) + ["END:VEVENT", "END:VCALENDAR", ""]
  }

  datatype CalendarError = InvalidDate

  /** stamp is the formatted instant of the download. */
  function BuildEventCalendar(e: Event, url: string, stamp: string): Result<string, CalendarError> {
    if CompactDate(e.date) == "" then Err(InvalidDate) else Ok(Join(PropertyLines(e, url, stamp)))
  }

  lemma NoLfAppend(a: string, b: string)
    requires NoLf(a) && NoLf(b)
    ensures NoLf(a + b)
  {
  }

  lemma NoLfNoCrlf(s: string)
    requires NoLf(s)
    ensures !HasCrlf(s)
  {
  }

  lemma TimeNoLf(s: string, i: nat)
    requires TimeAt(s, i)
    ensures NoLf(TimeText(s, i))
  {
    var t := TimeText(s, i);
    forall k | 0 <= k < |t| ensures t[k] != '\n' {
      assert k < 2 ==> t[k] == s[i + k];
      assert 2 <= k < 4 ==> t[k] == s[i + 1 + k];
    }
  }

  lemma {:induction false} TimeAfterTNoLf(s: string, i: nat)
    ensures NoLf(TimeAfterT(s, i))
    decreases |s| - i
  {
    if i < |s| {
      if s[i] == 'T' && TimeAt(s, i + 1) {
        TimeNoLf(s, i + 1);
      } else {
        TimeAfterTNoLf(s, i + 1);
      }
    }
  }

  lemma StartNoLf(e: Event)
    ensures NoLf("DTSTART;TZID=Asia/Phnom_Penh:" + CompactDate(e.date) + "T" + CompactTime(e.startTime))
  {
    var date := CompactDate(e.date);
    if date != "" {
      forall k | 0 <= k < |date| ensures date[k] != '\n' {
        assert k < 4 ==> date[k] == e.date[k];
        assert 4 <= k < 6 ==> date[k] == e.date[k + 1];
        assert 6 <= k ==> date[k] == e.date[k + 2];
      }
    }
    if TimeAt(e.startTime, 0) {
      TimeNoLf(e.startTime, 0);
    } else {
      TimeAfterTNoLf(e.startTime, 0);
    }
    NoLfAppend("DTSTART;TZID=Asia/Phnom_Penh:", date);
    NoLfAppend("DTSTART;TZID=Asia/Phnom_Penh:" + date, "T");
    NoLfAppend("DTSTART;TZID=Asia/Phnom_Penh:" + date + "T", CompactTime(e.startTime));
  }

  lemma TextNoLf(name: string, value: string, suffix: string)
    requires NoLf(name) && NoLf(suffix)
    ensures NoLf(name + EscapeText(value)) && NoLf(name + EscapeText(value) + suffix)
  {
    EscapedNoLf(value);
    NoLfAppend(name, EscapeText(value));
    NoLfAppend(name + EscapeText(value), suffix);
  }

  predicate AllNoLf(lines: seq<string>) {
    forall i :: 0 <= i < |lines| ==> NoLf(lines[i])
  }

  lemma FixedNoLf()
    ensures AllNoLf(Header()) && AllNoLf(["END:VEVENT", "END:VCALENDAR", ""])
  {
    ProductNoLf();
    assert NoLf(Header()[0]) && NoLf(Header()[1]) && NoLf(Header()[3]) && NoLf(Header()[4]) && NoLf(Header()[5]);
  }

  lemma ProductNoLf()
    ensures NoLf(Header()[2])
  {
    assert '\n' !in "PRODID:-//Unity Runn Club//Race Calendar//EN";
  }

  /** Every property but the URL. */
  lemma PropertiesNoLf(e: Event, url: string, stamp: string)
    requires NoLf(stamp)
    ensures |Properties(e, url, stamp)| == 8 && AllNoLf(Properties(e, url, stamp)[..7])
  {
    TextNoLf("UID:", e.id, "@unityrunn.club");
    TextNoLf("SUMMARY:", e.name, "");
    TextNoLf("DESCRIPTION:", Description(e, url), "");
    TextNoLf("LOCATION:", e.location, "");
    StartNoLf(e);
    NoLfAppend("DTSTAMP:", stamp);
  }

  const URL_LINE := 13

  lemma LinesNoLf(e: Event, url: string, stamp: string, i: nat)
    requires NoLf(stamp) && i < |PropertyLines(e, url, stamp)| && i != URL_LINE
    ensures !HasCrlf(PropertyLines(e, url, stamp)[i])
  {
    var line := PropertyLines(e, url, stamp)[i];
    FixedNoLf();
    PropertiesNoLf(e, url, stamp);
    if i < 6 {
      assert line == Header()[i];
    } else if i < URL_LINE {
      assert line == Properties(e, url, stamp)[..7][i - 6];
    } else {
      assert line == ["END:VEVENT", "END:VCALENDAR", ""][i - 14];
    }
    NoLfNoCrlf(line);
  }

  lemma UrlLine(url: string)
    ensures HasCrlf("URL:" + url) <==> HasCrlf(url)
  {
    var line := "URL:" + url;
    if HasCrlf(url) {
      var i :| 0 <= i < |url| - 1 && url[i] == '\r' && url[i + 1] == '\n';
      assert line[i + 4] == '\r' && line[i + 5] == '\n';
    }
    if HasCrlf(line) {
      var i :| 0 <= i < |line| - 1 && line[i] == '\r' && line[i + 1] == '\n';
      assert url[i - 4] == '\r' && url[i - 3] == '\n';
    }
  }

  /** Splitting the file at its separators gives back exactly its property lines, if and only if the event's URL contains none. */
  lemma FileSplitsIntoLines(e: Event, url: string, stamp: string)
    requires NoLf(stamp) && BuildEventCalendar(e, url, stamp).Ok?
    ensures Split(BuildEventCalendar(e, url, stamp).value) == PropertyLines(e, url, stamp) <==> !HasCrlf(url)
  {
    var lines := PropertyLines(e, url, stamp);
    assert |Properties(e, url, stamp)| == 8 && lines[URL_LINE] == "URL:" + url;
    UrlLine(url);
    forall i: nat | i < |lines| && i != URL_LINE ensures !HasCrlf(lines[i]) {
      LinesNoLf(e, url, stamp, i);
    }
    JoinRoundTrip(lines);
  }

  /** A calendar that reads a line's TEXT value back gets the event's name, description and place. */
  lemma CalendarRoundTrip(e: Event, url: string, stamp: string)
    requires !HasCrlf(url) && NoLf(stamp) && BuildEventCalendar(e, url, stamp).Ok?
    ensures var lines := Split(BuildEventCalendar(e, url, stamp).value);
      && |lines| == 17
      && |lines[10]| >= 8 && Unescape(lines[10][8..]) == Normalized(e.name)
      && |lines[11]| >= 12 && Unescape(lines[11][12..]) == Normalized(Description(e, url))
      && |lines[12]| >= 9 && Unescape(lines[12][9..]) == Normalized(e.location)
  {
    FileSplitsIntoLines(e, url, stamp);
    var lines := PropertyLines(e, url, stamp);
    assert lines[10] == "SUMMARY:" + EscapeText(e.name);
    assert lines[11] == "DESCRIPTION:" + EscapeText(Description(e, url));
    assert lines[12] == "LOCATION:" + EscapeText(e.location);
    ValueOf("SUMMARY:", e.name, 8);
    ValueOf("DESCRIPTION:", Description(e, url), 12);
    ValueOf("LOCATION:", e.location, 9);
  }

  lemma ValueOf(name: string, value: string, n: nat)
    requires |name| == n
    ensures Unescape((name + EscapeText(value))[n..]) == Normalized(value)
  {
    assert (name + EscapeText(value))[n..] == EscapeText(value);
    TextRoundTrip(value);
  }
}
