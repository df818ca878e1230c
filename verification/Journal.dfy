/** The update journal's text format (mdm-client/.../UpdateJournalCodec.kt): one event per line,
    fields separated by tabs, with the separators escaped in the text. */
module Journal {
  import opened PushJobs
  import opened Blanks

  const MAX_EVENTS: nat := 80
  const LONG_LIMIT := 0x8000_0000_0000_0000

  datatype Entry = Entry(timestamp: int, event: string, detail: string)

  predicate Long(n: int) {
    -LONG_LIMIT <= n < LONG_LIMIT
  }

  // ---- Escaping ----

  function EscapeChar(c: char): string {
    if c == '\\' then ['\\', '\\']
    else if c == '\n' then ['\\', 'n']
    else if c == '\r' then ['\\', 'r']
    else if c == '\t' then ['\\', 't']
    else [c]
  }

  function Escape(s: string): string {
    if s == [] then [] else EscapeChar(s[0]) + Escape(s[1..])
  }

  /** What the character after a backslash stands for. */
  function Unescaped(c: char): string {
    if c == '\\' then ['\\']
    else if c == 'n' then ['\n']
    else if c == 'r' then ['\r']
    else if c == 't' then ['\t']
    else ['\\', c]
  }

  function Unescape(s: string): string {
    if s == [] then []
    else if s[0] != '\\' || |s| == 1 then [s[0]] + Unescape(s[1..])
    else Unescaped(s[1]) + Unescape(s[2..])
  }

  lemma {:induction false} EscapeAppend(s: string, c: char)
    ensures Escape(s + [c]) == Escape(s) + EscapeChar(c)
  {
    hide EscapeChar;
    if s == [] {
      assert [c][1..] == [] && s + [c] == [c];
    } else {
      EscapeAppend(s[1..], c);
      assert (s + [c])[1..] == s[1..] + [c];
    }
  }

  method EscapeText(value: string) returns (out: string)
    ensures out == Escape(value)
  {
    out := [];
    for i := 0 to |value|
      invariant out == Escape(value[..i])
    {
      EscapeAppend(value[..i], value[i]);
      assert value[..i + 1] == value[..i] + [value[i]];
      out := out + EscapeChar(value[i]);
    }
    assert value[..|value|] == value;
  }

  lemma UnescapeStep(value: string, i: nat)
    requires i < |value|
    ensures value[i] != '\\' || i == |value| - 1 ==> Unescape(value[i..]) == [value[i]] + Unescape(value[i + 1..])
    ensures value[i] == '\\' && i < |value| - 1 ==>
      Unescape(value[i..]) == Unescaped(value[i + 1]) + Unescape(value[i + 2..])
  {
    hide Unescaped;
    var rest := value[i..];
    assert rest[1..] == value[i + 1..];
    if i < |value| - 1 {
      assert rest[2..] == value[i + 2..] && rest[1] == value[i + 1];
    }
  }

  method UnescapeText(value: string) returns (out: string)
    ensures out == Unescape(value)
  {
    hide Unescape, Unescaped;
    out := [];
    var i := 0;
    assert value[0..] == value;
    while i < |value|
      invariant i <= |value| && out + Unescape(value[i..]) == Unescape(value)
    {
      UnescapeStep(value, i);
      var c := value[i];
      if c != '\\' || i == |value| - 1 {
        out := out + [c];
        i := i + 1;
      } else {
        out := out + Unescaped(value[i + 1]);
        i := i + 2;
      }
    }
    UnescapeNothing(value[i..]);
  }

  lemma UnescapeNothing(s: string)
    requires s == []
    ensures Unescape(s) == []
  {
  }

  lemma {:induction false} UnescapeEscape(s: string)
    ensures Unescape(Escape(s)) == s
  {
    if s != [] {
      UnescapeEscape(s[1..]);
      var e, rest := EscapeChar(s[0]), Escape(s[1..]);
      assert (e + rest)[|e|..] == rest;
    }
  }

  predicate Plain(s: string) {
    forall i :: 0 <= i < |s| ==> s[i] != '\n' && s[i] != '\r' && s[i] != '\t'
  }

  lemma {:induction false} EscapedIsPlain(s: string)
    ensures Plain(Escape(s))
  {
    if s != [] {
      EscapedIsPlain(s[1..]);
    }
  }

  // ---- Numbers ----

  predicate Digit(c: char) {
    '0' <= c <= '9'
  }

  function DigitChar(n: nat): char
    requires n < 10
  {
    '0' + n as char
  }

  function Digits(n: nat): string {
    if n < 10 then [DigitChar(n)] else Digits(n / 10) + [DigitChar(n % 10)]
  }

  function Decimal(n: int): string {
    if n < 0 then ['-'] + Digits(-n) else Digits(n)
  }

  function DigitValue(c: char): nat
    requires Digit(c)
  {
    (c - '0') as nat
  }

  predicate AllDigits(s: string) {
    s != [] && forall i :: 0 <= i < |s| ==> Digit(s[i])
  }

  function Value(s: string): nat
    requires forall i :: 0 <= i < |s| ==> Digit(s[i])
  {
    if s == [] then 0 else 10 * Value(s[..|s| - 1]) + DigitValue(s[|s| - 1])
  }

  /** `toLongOrNull`. */
  function ToLong(s: string): Option<int> {
    if s == [] then None
    else
      var signed := s[0] == '-' || s[0] == '+';
      var digits := if signed then s[1..] else s;
      if !AllDigits(digits) then None
      else
        var v: int := Value(digits);
        var n := if s[0] == '-' then -v else v;
        if Long(n) then Some(n) else None
  }

  lemma {:induction false} DigitsRead(n: nat)
    ensures AllDigits(Digits(n)) && Value(Digits(n)) == n
  {
    if n >= 10 {
      DigitsRead(n / 10);
      assert Digits(n)[..|Digits(n)| - 1] == Digits(n / 10);
    } else {
      assert [DigitChar(n)][..0] == [];
    }
  }

  lemma DecimalRead(n: int)
    requires Long(n)
    ensures ToLong(Decimal(n)) == Some(n) && Plain(Decimal(n))
    ensures Decimal(n) != [] && (Digit(Decimal(n)[0]) || Decimal(n)[0] == '-')
  {
    hide Digits, Value;
    DigitsRead(if n < 0 then -n else n);
    if n < 0 {
      assert Decimal(n)[1..] == Digits(-n);
    } else {
      assert Digit(Digits(n)[0]);
    }
  }

  // ---- Lines and fields ----

  predicate Break(c: char) {
    c == '\n' || c == '\r'
  }

  predicate NoBreak(s: string) {
    forall i :: 0 <= i < |s| ==> !Break(s[i])
  }

  function FirstBreak(s: string): (k: nat)
    ensures k <= |s| && NoBreak(s[..k]) && (k < |s| ==> Break(s[k]))
  {
    if s == [] || Break(s[0]) then 0
    else
      var k := 1 + FirstBreak(s[1..]);
      assert forall i :: 0 < i < k ==> s[i] == s[1..][..k - 1][i - 1];
      k
  }

  /** `lineSequence`: a line ends at CR LF, LF or CR. */
  function Lines(s: string): seq<string>
    decreases |s|
  {
    var k := FirstBreak(s);
    if k == |s| then [s]
    else [s[..k]] + Lines(s[if s[k] == '\r' && k + 1 < |s| && s[k + 1] == '\n' then k + 2 else k + 1..])
  }

  function Join(lines: seq<string>): string {
    if lines == [] then [] else if |lines| == 1 then lines[0] else lines[0] + ['\n'] + Join(lines[1..])
  }

  lemma {:induction false} FirstBreakIs(s: string, k: nat)
    requires k <= |s| && NoBreak(s[..k]) && (k < |s| ==> Break(s[k]))
    ensures FirstBreak(s) == k
  {
    hide Break;
    if k > 0 {
      assert s[..k][0] == s[0] && s[1..][..k - 1] == s[..k][1..];
      FirstBreakIs(s[1..], k - 1);
    }
  }

  lemma {:induction false} JoinedLines(lines: seq<string>)
    requires lines != [] && forall i :: 0 <= i < |lines| ==> NoBreak(lines[i])
    ensures Lines(Join(lines)) == lines
  {
    var s, first := Join(lines), lines[0];
    assert NoBreak(first);
    if |lines| == 1 {
      assert s[..|s|] == s;
      FirstBreakIs(s, |s|);
    } else {
      assert s[..|first|] == first && s[|first|] == '\n' && s[|first| + 1..] == Join(lines[1..]);
      FirstBreakIs(s, |first|);
      JoinedLines(lines[1..]);
    }
  }

  lemma {:induction false} LinesHaveNoBreak(s: string, i: nat)
    requires i < |Lines(s)|
    ensures NoBreak(Lines(s)[i])
    decreases |s|
  {
    var k := FirstBreak(s);
    if k < |s| && i > 0 {
      LinesHaveNoBreak(s[if s[k] == '\r' && k + 1 < |s| && s[k + 1] == '\n' then k + 2 else k + 1..], i - 1);
    } else {
      assert s[..|s|] == s;
    }
  }

  function NonBlank(lines: seq<string>): seq<string> {
    if lines == [] then []
    else
      var front, last := NonBlank(lines[..|lines| - 1]), lines[|lines| - 1];
      if Blank(last) then front else front + [last]
  }

  /** The lines of a journal that count. */
  function Kept(raw: string): seq<string> {
    NonBlank(Lines(raw))
  }

  lemma {:induction false} NonBlankKeeps(lines: seq<string>)
    ensures forall l :: l in NonBlank(lines) ==> l in lines && !Blank(l)
  {
    hide Blank;
    if lines != [] {
      NonBlankKeeps(lines[..|lines| - 1]);
    }
  }

  lemma {:induction false} NonBlankOfNonBlank(lines: seq<string>)
    requires forall i :: 0 <= i < |lines| ==> !Blank(lines[i])
    ensures NonBlank(lines) == lines
  {
    hide Blank;
    if lines != [] {
      var front := lines[..|lines| - 1];
      assert forall i :: 0 <= i < |front| ==> front[i] == lines[i];
      NonBlankOfNonBlank(front);
    }
  }

  function FirstTab(s: string): (k: nat)
    ensures k <= |s| && (forall i :: 0 <= i < k ==> s[i] != '\t') && (k < |s| ==> s[k] == '\t')
  {
    if s == [] || s[0] == '\t' then 0 else 1 + FirstTab(s[1..])
  }

  function Fields(s: string): seq<string>
    decreases |s|
  {
    var k := FirstTab(s);
    if k == |s| then [s] else [s[..k]] + Fields(s[k + 1..])
  }

  lemma FieldsOfPlain(s: string)
    requires Plain(s)
    ensures Fields(s) == [s]
  {
    assert FirstTab(s) == |s|;
  }

  lemma FieldsSplit(first: string, rest: string)
    requires Plain(first)
    ensures Fields(first + ['\t'] + rest) == [first] + Fields(rest)
  {
    var s := first + ['\t'] + rest;
    assert s[|first|] == '\t' && (forall i :: 0 <= i < |first| ==> s[i] == first[i]);
    assert FirstTab(s) == |first|;
    assert s[..|first|] == first && s[|first| + 1..] == rest;
  }

  // ---- The codec ----

  function Line(e: Entry): string {
    Decimal(e.timestamp) + ['\t'] + (Escape(e.event) + ['\t'] + Escape(e.detail))
  }

  /** One line, or None when it is unreadable. */
  function ParseLine(line: string): Option<Entry> {
    var parts := Fields(line);
    if |parts| < 2 || ToLong(parts[0]).None? then None
    else Some(Entry(ToLong(parts[0]).value, Unescape(parts[1]), if |parts| >= 3 then Unescape(parts[2]) else []))
  }

  function ParseLines(lines: seq<string>): seq<Entry> {
    if lines == [] then []
    else
      var front, last := ParseLines(lines[..|lines| - 1]), ParseLine(lines[|lines| - 1]);
      if last.None? then front else front + [last.value]
  }

  function Parse(raw: string): seq<Entry> {
    ParseLines(Kept(raw))
  }

  function Newest<T>(s: seq<T>): seq<T> {
    if |s| <= MAX_EVENTS then s else s[|s| - MAX_EVENTS..]
  }

  function Appended(existing: string, e: Entry): string {
    Join(Newest(Kept(existing) + [Line(e)]))
  }

  /** `append`. */
  method Append(existing: string, e: Entry) returns (journal: string)
    ensures journal == Appended(existing, e)
  {
    var event := EscapeText(e.event);
    var detail := EscapeText(e.detail);
    var line := Decimal(e.timestamp) + ['\t'] + (event + ['\t'] + detail);
    var lines := Kept(existing) + [line];
    ghost var all := lines;
    ghost var dropped := 0;
    while |lines| > MAX_EVENTS
      invariant dropped <= |all| && lines == all[dropped..] && (dropped > 0 ==> |lines| >= MAX_EVENTS)
    {
      lines := lines[1..];
      dropped := dropped + 1;
    }
    assert lines == Newest(all);
    journal := Join(lines);
  }

  lemma LineShape(e: Entry)
    requires Long(e.timestamp)
    ensures ParseLine(Line(e)) == Some(e) && NoBreak(Line(e)) && !Blank(Line(e))
  {
    hide Decimal, Escape, Unescape, ToLong;
    var d, a, b := Decimal(e.timestamp), Escape(e.event), Escape(e.detail);
    DecimalRead(e.timestamp);
    EscapedIsPlain(e.event);
    EscapedIsPlain(e.detail);
    UnescapeEscape(e.event);
    UnescapeEscape(e.detail);
    FieldsSplit(d, a + ['\t'] + b);
    FieldsSplit(a, b);
    FieldsOfPlain(b);
    assert Line(e)[0] == d[0] && !Whitespace(d[0]);
  }

  /** What a line yields: nothing without a tab or with an unreadable time, otherwise the first
      three fields, the third empty if missing; further fields are ignored. */
  lemma LineYields(time: string, event: string, rest: string, detail: string, more: string)
    requires Plain(time) && Plain(event) && Plain(detail)
    ensures ParseLine(time) == None
    ensures ToLong(time) == None ==> ParseLine(time + ['\t'] + rest) == None
    ensures ToLong(time).Some? ==>
      && ParseLine(time + ['\t'] + event) == Some(Entry(ToLong(time).value, Unescape(event), []))
      && ParseLine(time + ['\t'] + (event + ['\t'] + (detail + ['\t'] + more)))
         == Some(Entry(ToLong(time).value, Unescape(event), Unescape(detail)))
  {
    hide ToLong, Unescape;
    FieldsOfPlain(time);
    FieldsOfPlain(event);
    FieldsSplit(time, rest);
    FieldsSplit(time, event);
    FieldsSplit(time, event + ['\t'] + (detail + ['\t'] + more));
    FieldsSplit(event, detail + ['\t'] + more);
    FieldsSplit(detail, more);
  }

  /** An escape the client does not write keeps both of its characters, also at the end. */
  lemma UnknownEscapesStay(c: char, rest: string)
    requires c != '\\' && c != 'n' && c != 'r' && c != 't'
    ensures Unescape(['\\', c] + rest) == ['\\', c] + Unescape(rest)
    ensures Unescape(['\\']) == ['\\']
  {
    assert (['\\', c] + rest)[2..] == rest;
    assert ['\\'][1..] == [];
  }

  /** Appending to any text, however damaged, adds one line and drops only the oldest. */
  lemma AppendKeeps(existing: string, e: Entry)
    requires Long(e.timestamp)
    ensures Kept(Appended(existing, e)) == Newest(Kept(existing) + [Line(e)])
  {
    hide Line, Lines, Blank, NoBreak;
    var lines := Newest(Kept(existing) + [Line(e)]);
    LineShape(e);
    NonBlankKeeps(Lines(existing));
    forall i | 0 <= i < |lines| ensures NoBreak(lines[i]) && !Blank(lines[i]) {
      assert lines[i] in Kept(existing) || lines[i] == Line(e);
      if lines[i] in Kept(existing) {
        var k :| 0 <= k < |Lines(existing)| && Lines(existing)[k] == lines[i];
        LinesHaveNoBreak(existing, k);
      }
    }
    JoinedLines(lines);
    NonBlankOfNonBlank(lines);
  }

  /** What is written can be read, whatever the file held before: a damaged line costs itself. */
  lemma AppendedIsRead(existing: string, e: Entry)
    requires Long(e.timestamp)
    ensures var lines := Kept(existing);
      Parse(Appended(existing, e))
        == ParseLines(if |lines| < MAX_EVENTS then lines else lines[|lines| - MAX_EVENTS + 1..]) + [e]
  {
    hide Line, Kept, ParseLine, Appended;
    AppendKeeps(existing, e);
    LineShape(e);
    var before := Kept(existing);
    var kept := if |before| < MAX_EVENTS then before else before[|before| - MAX_EVENTS + 1..];
    assert Newest(before + [Line(e)]) == kept + [Line(e)];
    assert (kept + [Line(e)])[..|kept|] == kept;
  }

  function Journalled(events: seq<Entry>): string {
    if events == [] then [] else Appended(Journalled(events[..|events| - 1]), events[|events| - 1])
  }

  function LinesOf(events: seq<Entry>): seq<string> {
    seq(|events|, i requires 0 <= i < |events| => Line(events[i]))
  }

  lemma {:induction false} ParseLinesOf(events: seq<Entry>)
    requires forall e :: e in events ==> Long(e.timestamp)
    ensures ParseLines(LinesOf(events)) == events
  {
    hide Line, ParseLine;
    if events != [] {
      var front := events[..|events| - 1];
      ParseLinesOf(front);
      LineShape(events[|events| - 1]);
      assert LinesOf(events)[..|events| - 1] == LinesOf(front);
    }
  }

  lemma {:induction false} JournalHolds(events: seq<Entry>)
    requires forall e :: e in events ==> Long(e.timestamp)
    ensures Kept(Journalled(events)) == LinesOf(Newest(events))
  {
    hide Line, Appended;
    if events == [] {
      EmptyJournal();
    } else {
      var front, e := events[..|events| - 1], events[|events| - 1];
      hide Kept;
      JournalHolds(front);
      AppendKeeps(Journalled(front), e);
      assert Newest(LinesOf(Newest(front)) + [Line(e)]) == LinesOf(Newest(events));
    }
  }

  lemma EmptyJournal()
    ensures Kept([]) == []
  {
    assert Lines([]) == [[]];
    assert Lines([])[..0] == [];
  }

  /** Whatever text the events carry, parsing the journal yields exactly the last 80, in order. */
  lemma RoundTrip(events: seq<Entry>)
    requires forall e :: e in events ==> Long(e.timestamp)
    ensures Parse(Journalled(events)) == Newest(events)
  {
    hide Journalled, Kept, ParseLines, LinesOf;
    JournalHolds(events);
    ParseLinesOf(Newest(events));
  }
}
