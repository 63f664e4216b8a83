/**
 The morning digest: the printer in compose_morning_digest
 (tradingagents/secretary/service.py) and the parser that reads its text back
 (cli/morning.py).
 */
module Digest {
  import opened Text

  // ----- Python's str.splitlines -----

  predicate OneLine(s: string) {
    forall c | c in s :: !IsBreak(c)
  }

  /** The lines of cur + s, where cur is the line read so far; "\r\n" is one break. */
  function SplitFrom(s: string, cur: string): seq<string> {
    if s == "" then if cur == "" then [] else [cur]
    else if s[0] == '\r' && |s| > 1 && s[1] == '\n' then [cur] + SplitFrom(s[2..], "")
    else if IsBreak(s[0]) then [cur] + SplitFrom(s[1..], "")
    else SplitFrom(s[1..], cur + [s[0]])
  }

  function SplitLines(s: string): seq<string> {
    SplitFrom(s, "")
  }

  // ----- printing -----

  datatype Section = Section(ticker: string, consensus: string, divergence: string, recommendation: string)

  const HEADING := "## "
  const CONSENSUS := "**Consensus:** "
  const DIVERGENCE := "**Divergence:** "
  const RECOMMENDATION := "**Recommendation:** "

  function Decimal(n: nat): string {
    if n < 10 then ["0123456789"[n]] else Decimal(n / 10) + ["0123456789"[n % 10]]
  }

  function Header(day: string, id: string, count: nat): seq<string> {
    ["# Morning Digest \U{2014} " + day, "_brief: `" + id + "` \U{B7} " + Decimal(count) + " ticker(s)_", ""]
  }

  function SectionLines(s: Section): seq<string> {
    [HEADING + s.ticker, "", CONSENSUS + s.consensus, "", DIVERGENCE + s.divergence, "",
     RECOMMENDATION + s.recommendation, ""]
  }

  function AllLines(sections: seq<Section>): seq<string> {
    if sections == [] then [] else SectionLines(sections[0]) + AllLines(sections[1..])
  }

  /** "\n".join */
  function Join(pieces: seq<string>): string {
    if pieces == [] then "" else if |pieces| == 1 then pieces[0] else pieces[0] + "\n" + Join(pieces[1..])
  }

  function Body(day: string, id: string, count: nat, sections: seq<Section>): string {
    Join(Header(day, id, count) + AllLines(sections))
  }

  /** The number a decimal numeral stands for. */
  function ValueOf(numeral: string): nat
    requires forall i | 0 <= i < |numeral| :: '0' <= numeral[i] <= '9'
  {
    if numeral == "" then 0 else 10 * ValueOf(numeral[..|numeral| - 1]) + (numeral[|numeral| - 1] - '0') as nat
  }

  lemma {:induction false} DecimalMeans(n: nat)
    ensures Decimal(n) != "" && (forall i | 0 <= i < |Decimal(n)| :: '0' <= Decimal(n)[i] <= '9') && ValueOf(Decimal(n)) == n
    ensures n > 0 ==> Decimal(n)[0] != '0'
  {
    if n >= 10 {
      DecimalMeans(n / 10);
      var last := "0123456789"[n % 10];
      DigitIs(n % 10);
      assert Decimal(n)[..|Decimal(n)| - 1] == Decimal(n / 10) && Decimal(n)[|Decimal(n)| - 1] == last;
    } else {
      DigitIs(n);
      assert Decimal(n)[..0] == "" && ValueOf("") == 0;
    }
  }

  lemma DigitIs(d: nat)
    requires d < 10
    ensures '0' <= "0123456789"[d] <= '9' && ("0123456789"[d] - '0') as nat == d
  {
  }

  /** The lines of a digest: three of its header, and eight for each section. */
  ghost predicate Prints(lines: seq<string>, day: string, id: string, count: nat, sections: seq<Section>) {
    && |lines| == 3 + 8 * |sections|
    && lines[0] == "# Morning Digest \U{2014} " + day && lines[2] == ""
    && lines[1] == "_brief: `" + id + "` \U{B7} " + Decimal(count) + " ticker(s)_"
    && forall k | 0 <= k < |sections| ::
         lines[3 + 8 * k..11 + 8 * k] == ["## " + sections[k].ticker, "", "**Consensus:** " + sections[k].consensus, "",
                                          "**Divergence:** " + sections[k].divergence, "",
                                          "**Recommendation:** " + sections[k].recommendation, ""]
  }

  lemma {:induction false} PrintsFrom(sections: seq<Section>)
    ensures |AllLines(sections)| == 8 * |sections|
    ensures forall k | 0 <= k < |sections| :: AllLines(sections)[8 * k..8 * k + 8] == SectionLines(sections[k])
  {
    if sections != [] {
      PrintsFrom(sections[1..]);
      forall k | 0 <= k < |sections|
        ensures AllLines(sections)[8 * k..8 * k + 8] == SectionLines(sections[k])
      {
        if k > 0 {
          assert sections[1..][k - 1] == sections[k];
          assert AllLines(sections)[8 * k..8 * k + 8] == AllLines(sections[1..])[8 * (k - 1)..8 * (k - 1) + 8];
        }
      }
    }
  }

  lemma PrintsAll(day: string, id: string, count: nat, sections: seq<Section>)
    ensures Prints(Header(day, id, count) + AllLines(sections), day, id, count, sections)
  {
    PrintsFrom(sections);
    var lines := Header(day, id, count) + AllLines(sections);
    forall k | 0 <= k < |sections|
      ensures lines[3 + 8 * k..11 + 8 * k] == SectionLines(sections[k])
    {
      assert lines[3 + 8 * k..11 + 8 * k] == AllLines(sections)[8 * k..8 * k + 8];
    }
  }

  method ComposeBody(day: string, id: string, count: nat, sections: seq<Section>) returns (body: string, ghost printed: seq<string>)
    ensures body == Body(day, id, count, sections)
    ensures body == Join(printed) && Prints(printed, day, id, count, sections)
  {
    var lines, rest := Header(day, id, count), sections;
    while rest != []
      invariant lines + AllLines(rest) == Header(day, id, count) + AllLines(sections)
      decreases |rest|
    {
      var s := rest[0];
      lines := lines + [HEADING + s.ticker, "", CONSENSUS + s.consensus, "", DIVERGENCE + s.divergence, "",
                        RECOMMENDATION + s.recommendation, ""];
      rest := rest[1..];
    }
    assert lines + AllLines(rest) == lines;
    printed := lines;
    PrintsAll(day, id, count, sections);
    body := Join(lines);
  }

  // ----- parsing -----

  /** A parsed section is a dictionary; so is `current`, which is empty before the first marker. */
  type Entry = map<string, string>

  datatype State = State(tickers: seq<Entry>, current: Entry)

  function Collected(st: State): seq<Entry> {
    if st.current == map[] then st.tickers else st.tickers + [st.current]
  }

  function Read(st: State, line: string): State {
    if HEADING <= line then
      State(Collected(st), map["ticker" := Strip(line[|HEADING|..]), "consensus" := "", "divergence" := "", "recommendation" := ""])
    else if CONSENSUS <= line then st.(current := st.current["consensus" := line[|CONSENSUS|..]])
    else if DIVERGENCE <= line then st.(current := st.current["divergence" := line[|DIVERGENCE|..]])
    else if RECOMMENDATION <= line then st.(current := st.current["recommendation" := line[|RECOMMENDATION|..]])
    else st
  }

  function ReadAll(st: State, lines: seq<string>): State
    decreases lines
  {
    if lines == [] then st else ReadAll(Read(st, lines[0]), lines[1..])
  }

  function Parsed(body: string): seq<Entry> {
    Collected(ReadAll(State([], map[]), SplitLines(body)))
  }

  method ParseTickersFromBody(body: string) returns (tickers: seq<Entry>)
    ensures tickers == Parsed(body)
  {
    tickers := [];
    var current: Entry, rest := map[], SplitLines(body);
    while rest != []
      invariant ReadAll(State(tickers, current), rest) == ReadAll(State([], map[]), SplitLines(body))
      decreases |rest|
    {
      var line := rest[0];
      if HEADING <= line {
        if current != map[] {
          tickers := tickers + [current];
        }
        current := map["ticker" := Strip(line[|HEADING|..]), "consensus" := "", "divergence" := "", "recommendation" := ""];
      } else if CONSENSUS <= line {
        current := current["consensus" := line[|CONSENSUS|..]];
      } else if DIVERGENCE <= line {
        current := current["divergence" := line[|DIVERGENCE|..]];
      } else if RECOMMENDATION <= line {
        current := current["recommendation" := line[|RECOMMENDATION|..]];
      }
      rest := rest[1..];
    }
    if current != map[] {
      tickers := tickers + [current];
    }
  }

  // ----- the lines of a printed text -----

  /** The lines a piece of text makes when a newline follows it. */
  function Broken(piece: string): seq<string> {
    SplitFrom(piece + "\n", "")
  }

  lemma {:induction false} SplitAfterNewline(x: string, r: string, cur: string)
    ensures SplitFrom(x + "\n" + r, cur) == SplitFrom(x + "\n", cur) + SplitFrom(r, "")
    decreases |x|
  {
    if x == "" {
      assert ("" + "\n" + r)[1..] == r && ("" + "\n")[1..] == "";
    } else if x[0] == '\r' && |x| == 1 {
      assert (x + "\n" + r)[2..] == r && (x + "\n")[2..] == "";
    } else if x[0] == '\r' && x[1] == '\n' {
      assert (x + "\n" + r)[2..] == x[2..] + "\n" + r && (x + "\n")[2..] == x[2..] + "\n";
      SplitAfterNewline(x[2..], r, "");
    } else {
      assert (x + "\n" + r)[1..] == x[1..] + "\n" + r && (x + "\n")[1..] == x[1..] + "\n";
      SplitAfterNewline(x[1..], r, if IsBreak(x[0]) then "" else cur + [x[0]]);
    }
  }

  function BrokenAll(pieces: seq<string>): seq<string> {
    if pieces == [] then [] else Broken(pieces[0]) + BrokenAll(pieces[1..])
  }

  lemma {:induction false} BrokenAllAppend(a: seq<string>, b: seq<string>)
    ensures BrokenAll(a + b) == BrokenAll(a) + BrokenAll(b)
  {
    if a == [] {
      assert a + b == b;
    } else {
      assert (a + b)[1..] == a[1..] + b;
      BrokenAllAppend(a[1..], b);
    }
  }

  /** A text that ends with an empty piece has the lines of its pieces, but for a last empty one. */
  lemma {:induction false} LinesOfJoin(pieces: seq<string>)
    requires pieces != [] && pieces[|pieces| - 1] == ""
    ensures SplitLines(Join(pieces)) + [""] == BrokenAll(pieces)
  {
    if |pieces| == 1 {
      OneLineStays("");
    } else {
      SplitAfterNewline(pieces[0], Join(pieces[1..]), "");
      LinesOfJoin(pieces[1..]);
    }
  }

  /** The line read so far goes in front of the first line. */
  lemma {:induction false} CarriesOver(s: string, cur: string)
    ensures |Broken(s)| > 0
    ensures SplitFrom(s + "\n", cur) == [cur + Broken(s)[0]] + Broken(s)[1..]
  {
    CarriesOn(s, cur, "");
    assert cur + "" == cur;
  }

  lemma {:induction false} CarriesOn(s: string, cur: string, more: string)
    ensures |SplitFrom(s + "\n", more)| > 0
    ensures SplitFrom(s + "\n", cur + more) == [cur + SplitFrom(s + "\n", more)[0]] + SplitFrom(s + "\n", more)[1..]
    decreases |s|
  {
    if s != "" && !IsBreak(s[0]) {
      assert (s + "\n")[1..] == s[1..] + "\n";
      assert (cur + more) + [s[0]] == cur + (more + [s[0]]);
      CarriesOn(s[1..], cur, more + [s[0]]);
    }
  }

  /** Text without breaks is read into the current line. */
  lemma {:induction false} ReadsOn(pre: string, s: string, cur: string)
    requires OneLine(pre)
    ensures SplitFrom(pre + s, cur) == SplitFrom(s, cur + pre)
    decreases |pre|
  {
    if pre == "" {
      assert pre + s == s && cur + pre == cur;
    } else {
      assert (pre + s)[1..] == pre[1..] + s;
      assert cur + [pre[0]] + pre[1..] == cur + pre;
      ReadsOn(pre[1..], s, cur + [pre[0]]);
    }
  }

  /** The characters that end a line: line feed, carriage return, vertical tab, form feed, three separators, NEL, LS and PS. */
  predicate EndsLine(c: char) {
    || c == '\n' || c == '\r' || c == '\U{0B}' || c == '\U{0C}' || c == '\U{1C}' || c == '\U{1D}' || c == '\U{1E}'
    || c == '\U{85}' || c == '\U{2028}' || c == '\U{2029}'
  }

  /** Exactly those break a text, and a carriage return with a line feed breaks it once. */
  lemma LinesEnd(x: string, c: char, y: string)
    requires y != "" && (forall i | 0 <= i < |x| :: !EndsLine(x[i])) && (forall i | 0 <= i < |y| :: !EndsLine(y[i]))
    ensures SplitLines(x + [c] + y) == if EndsLine(c) then [x, y] else [x + [c] + y]
    ensures SplitLines(x + "\r\n" + y) == [x, y]
  {
    assert x + [c] + y == x + ([c] + y) && x + "\r\n" + y == x + ("\r\n" + y);
    assert "" + x == x && ([c] + y)[1..] == y && ("\r\n" + y)[2..] == y;
    ReadsOn(x, [c] + y, "");
    ReadsOn(x, "\r\n" + y, "");
    assert y + "" == y && "" + y == y;
    ReadsOn(y, "", "");
    ReadsOn(y, "", x + [c]);
  }

  /** A marker stays in front of the first line of its field; the other lines follow. */
  lemma MarkedLines(marker: string, field: string)
    requires OneLine(marker)
    ensures |Broken(field)| > 0
    ensures Broken(marker + field) == [marker + Broken(field)[0]] + Broken(field)[1..]
  {
    assert (marker + field) + "\n" == marker + (field + "\n");
    ReadsOn(marker, field + "\n", "");
    assert "" + marker == marker;
    CarriesOver(field, marker);
  }

  lemma OneLineStays(s: string)
    requires OneLine(s)
    ensures Broken(s) == [s]
  {
    ReadsOn(s, "\n", "");
    assert "" + s == s;
  }

  // ----- the header and a section, as lines -----

  predicate Marked(line: string) {
    HEADING <= line || CONSENSUS <= line || DIVERGENCE <= line || RECOMMENDATION <= line
  }

  lemma {:induction false} DecimalIsOneLine(n: nat)
    ensures OneLine(Decimal(n))
  {
    if n >= 10 {
      DecimalIsOneLine(n / 10);
    }
  }

  lemma {:induction false} OneLinesStay(lines: seq<string>)
    requires forall line | line in lines :: OneLine(line)
    ensures BrokenAll(lines) == lines
  {
    if lines != [] {
      assert lines[0] in lines;
      OneLineStays(lines[0]);
      OneLinesStay(lines[1..]);
    }
  }

  lemma {:induction false} UnmarkedAreSkipped(st: State, lines: seq<string>)
    requires forall line | line in lines :: !Marked(line)
    ensures ReadAll(st, lines) == st
    decreases lines
  {
    if lines != [] {
      assert lines[0] in lines;
      UnmarkedAreSkipped(st, lines[1..]);
    }
  }

  /** The header's lines carry no marker. */
  lemma HeaderIsSkipped(st: State, day: string, id: string, count: nat)
    requires OneLine(day) && OneLine(id)
    ensures ReadAll(st, BrokenAll(Header(day, id, count))) == st
  {
    DecimalIsOneLine(count);
    var h := Header(day, id, count);
    assert h[0][1] == ' ' && h[1][0] == '_';
    OneLinesStay(h);
    UnmarkedAreSkipped(st, h);
  }

  lemma BrokenAllOne(piece: string)
    ensures BrokenAll([piece]) == Broken(piece)
  {
  }

  function First(field: string): string
    ensures |Broken(field)| > 0
  {
    CarriesOver(field, "");
    Broken(field)[0]
  }

  /** The continuation lines of a field. */
  function Rest(field: string): seq<string> {
    CarriesOver(field, "");
    Broken(field)[1..]
  }

  lemma {:induction false} ReadAllAppend(st: State, a: seq<string>, b: seq<string>)
    ensures ReadAll(st, a + b) == ReadAll(ReadAll(st, a), b)
    decreases a
  {
    if a == [] {
      assert a + b == b;
    } else {
      assert (a + b)[1..] == a[1..] + b;
      ReadAllAppend(Read(st, a[0]), a[1..], b);
    }
  }

  /** A marked field and the blank line after it. */
  function FieldLines(marker: string, field: string): seq<string> {
    [marker + First(field)] + Rest(field) + [""]
  }

  /** The lines of a printed section. */
  function SectionRead(s: Section): seq<string> {
    FieldLines(HEADING, s.ticker)
    + (FieldLines(CONSENSUS, s.consensus)
       + (FieldLines(DIVERGENCE, s.divergence) + FieldLines(RECOMMENDATION, s.recommendation)))
  }

  lemma SectionAsLines(s: Section)
    ensures BrokenAll(SectionLines(s)) == SectionRead(s)
  {
    MarkersAreOneLine();
    FourFieldsRead(HEADING, s.ticker, CONSENSUS, s.consensus, DIVERGENCE, s.divergence, RECOMMENDATION, s.recommendation);
  }

  lemma MarkersAreOneLine()
    ensures OneLine(HEADING) && OneLine(CONSENSUS) && OneLine(DIVERGENCE) && OneLine(RECOMMENDATION)
  {
  }

  lemma FourFieldsRead(m0: string, f0: string, m1: string, f1: string, m2: string, f2: string, m3: string, f3: string)
    requires OneLine(m0) && OneLine(m1) && OneLine(m2) && OneLine(m3)
    ensures BrokenAll([m0 + f0, "", m1 + f1, "", m2 + f2, "", m3 + f3, ""])
         == FieldLines(m0, f0) + (FieldLines(m1, f1) + (FieldLines(m2, f2) + FieldLines(m3, f3)))
  {
    FieldAsLines(m0, f0);
    FieldAsLines(m1, f1);
    FieldAsLines(m2, f2);
    FieldAsLines(m3, f3);
    FourFields(m0 + f0, m1 + f1, m2 + f2, m3 + f3);
  }

  lemma FourFields(h: string, c: string, d: string, r: string)
    ensures BrokenAll([h, "", c, "", d, "", r, ""])
         == BrokenAll([h, ""]) + (BrokenAll([c, ""]) + (BrokenAll([d, ""]) + BrokenAll([r, ""])))
  {
    assert [h, "", c, "", d, "", r, ""] == [h, ""] + ([c, ""] + ([d, ""] + [r, ""]));
    BrokenAllAppend([h, ""], [c, ""] + ([d, ""] + [r, ""]));
    BrokenAllAppend([c, ""], [d, ""] + [r, ""]);
    BrokenAllAppend([d, ""], [r, ""]);
  }

  lemma FieldAsLines(marker: string, field: string)
    requires OneLine(marker)
    ensures BrokenAll([marker + field, ""]) == FieldLines(marker, field)
  {
    MarkedLines(marker, field);
    OneLineStays("");
    BrokenAllOne("");
    assert [marker + field, ""][1..] == [""];
  }

  // ----- reading a section back -----

  function Headings(lines: seq<string>): nat {
    if lines == [] then 0 else (if HEADING <= lines[0] then 1 else 0) + Headings(lines[1..])
  }

  lemma {:induction false} HeadingsAppend(a: seq<string>, b: seq<string>)
    ensures Headings(a + b) == Headings(a) + Headings(b)
  {
    if a == [] {
      assert a + b == b;
    } else {
      assert (a + b)[1..] == a[1..] + b;
      HeadingsAppend(a[1..], b);
    }
  }

  /** Once a section is open, every heading closes one section and opens the next. */
  lemma {:induction false} EachHeadingIsASection(st: State, lines: seq<string>)
    requires st.current != map[]
    ensures ReadAll(st, lines).current != map[]
    ensures |Collected(ReadAll(st, lines))| == |Collected(st)| + Headings(lines)
    decreases lines
  {
    if lines != [] {
      assert "consensus" in Read(st, lines[0]).current || Read(st, lines[0]).current == st.current
        || "divergence" in Read(st, lines[0]).current || "recommendation" in Read(st, lines[0]).current;
      EachHeadingIsASection(Read(st, lines[0]), lines[1..]);
    }
  }

  const KEYS := {"consensus", "divergence", "recommendation"}
  const FIELDS := KEYS + {"ticker"}

  function MarkerOf(key: string): string {
    if key == "consensus" then CONSENSUS else if key == "divergence" then DIVERGENCE else RECOMMENDATION
  }

  function FieldOf(s: Section, key: string): string {
    if key == "consensus" then s.consensus else if key == "divergence" then s.divergence else s.recommendation
  }

  predicate Sets(line: string, key: string) {
    MarkerOf(key) <= line
  }

  /** The value of a key after these lines: what the last line that sets it carries. */
  function LastValue(lines: seq<string>, key: string, value: string): string {
    if lines == [] then value
    else LastValue(lines[1..], key, if Sets(lines[0], key) then lines[0][|MarkerOf(key)|..] else value)
  }

  lemma {:induction false} LastValueIs(lines: seq<string>, key: string, value: string, i: nat)
    requires i < |lines| && Sets(lines[i], key) && forall j | i < j < |lines| :: !Sets(lines[j], key)
    ensures LastValue(lines, key, value) == lines[i][|MarkerOf(key)|..]
  {
    var next := if Sets(lines[0], key) then lines[0][|MarkerOf(key)|..] else value;
    if i > 0 {
      LastValueIs(lines[1..], key, next, i - 1);
    } else {
      UnsetStays(lines[1..], key, next);
    }
  }

  lemma {:induction false} UnsetStays(lines: seq<string>, key: string, value: string)
    requires forall line | line in lines :: !Sets(line, key)
    ensures LastValue(lines, key, value) == value
  {
    if lines != [] {
      assert lines[0] in lines;
      UnsetStays(lines[1..], key, value);
    }
  }

  /** A line that is no heading sets the keys whose marker it starts with: at most one. */
  lemma LineIsRead(st: State, line: string, key: string)
    requires !(HEADING <= line) && st.current.Keys == FIELDS && key in KEYS
    ensures var t := Read(st, line);
            && t.tickers == st.tickers && t.current.Keys == FIELDS && t.current["ticker"] == st.current["ticker"]
            && t.current[key] == if Sets(line, key) then line[|MarkerOf(key)|..] else st.current[key]
  {
    assert CONSENSUS[2] == 'C' && DIVERGENCE[2] == 'D' && RECOMMENDATION[2] == 'R';
  }

  lemma {:induction false} LinesAreRead(st: State, lines: seq<string>)
    requires Headings(lines) == 0 && st.current.Keys == FIELDS
    ensures var t := ReadAll(st, lines);
            && t.tickers == st.tickers && t.current.Keys == FIELDS && t.current["ticker"] == st.current["ticker"]
            && forall key | key in KEYS :: t.current[key] == LastValue(lines, key, st.current[key])
    decreases lines
  {
    if lines != [] {
      forall key | key in KEYS
        ensures Read(st, lines[0]).current.Keys == FIELDS
        ensures Read(st, lines[0]).current[key] == if Sets(lines[0], key) then lines[0][|MarkerOf(key)|..] else st.current[key]
      {
        LineIsRead(st, lines[0], key);
      }
      LineIsRead(st, lines[0], "consensus");
      LinesAreRead(Read(st, lines[0]), lines[1..]);
    }
  }

  /** The lines of a printed section after its heading. */
  function Tail(s: Section): seq<string> {
    SectionRead(s)[1..]
  }

  /** What a section without stray headings is read as. */
  function Got(s: Section): Entry {
    map["ticker" := Strip(First(s.ticker)), "consensus" := LastValue(Tail(s), "consensus", ""),
        "divergence" := LastValue(Tail(s), "divergence", ""), "recommendation" := LastValue(Tail(s), "recommendation", "")]
  }

  /** The dictionary a section should be read back as. */
  function Entered(s: Section): Entry {
    map["ticker" := s.ticker, "consensus" := First(s.consensus), "divergence" := First(s.divergence),
        "recommendation" := First(s.recommendation)]
  }

  /**
   The ticker survives its line, no other line opens a section, and for each field the last
   line of the section that sets it carries the first line of the field.
   */
  ghost predicate Readable(s: Section) {
    && Strip(First(s.ticker)) == s.ticker
    && Headings(Tail(s)) == 0
    && forall key | key in KEYS :: LastValue(Tail(s), key, "") == First(FieldOf(s, key))
  }

  lemma GotIsEntered(s: Section)
    requires Headings(Tail(s)) == 0
    ensures Got(s) == Entered(s) <==> Readable(s)
  {
    if Got(s) == Entered(s) {
      assert Got(s)["ticker"] == Entered(s)["ticker"];
      assert forall key | key in KEYS :: Got(s)[key] == Entered(s)[key];
    }
  }

  lemma ReadAllOne(st: State, line: string)
    ensures ReadAll(st, [line]) == Read(st, line)
  {
  }

  lemma HeadingIsRead(st: State, text: string)
    ensures Read(st, HEADING + text)
         == State(Collected(st), map["ticker" := Strip(text), "consensus" := "", "divergence" := "", "recommendation" := ""])
  {
    assert (HEADING + text)[|HEADING|..] == text;
  }

  lemma SectionIsRead(st: State, s: Section)
    requires Headings(Tail(s)) == 0
    ensures ReadAll(st, SectionRead(s)) == State(Collected(st), Got(s))
  {
    var first := Read(st, HEADING + First(s.ticker));
    HeadingIsRead(st, First(s.ticker));
    assert SectionRead(s)[0] == HEADING + First(s.ticker);
    LinesAreRead(first, Tail(s));
    GotIs(ReadAll(first, Tail(s)).current, s);
  }

  lemma GotIs(e: Entry, s: Section)
    requires e.Keys == FIELDS && e["ticker"] == Strip(First(s.ticker))
    requires forall key | key in KEYS :: e[key] == LastValue(Tail(s), key, "")
    ensures e == Got(s)
  {
  }

  function Entries(sections: seq<Section>): seq<Entry> {
    if sections == [] then [] else [Entered(sections[0])] + Entries(sections[1..])
  }

  function Gots(sections: seq<Section>): seq<Entry> {
    if sections == [] then [] else [Got(sections[0])] + Gots(sections[1..])
  }

  lemma FirstSectionIsRead(st: State, sections: seq<Section>)
    requires sections != [] && Headings(Tail(sections[0])) == 0
    ensures ReadAll(st, BrokenAll(AllLines(sections)))
         == ReadAll(State(Collected(st), Got(sections[0])), BrokenAll(AllLines(sections[1..])))
  {
    var s, rest := sections[0], sections[1..];
    BrokenAllAppend(SectionLines(s), AllLines(rest));
    SectionAsLines(s);
    ReadAllAppend(st, SectionRead(s), BrokenAll(AllLines(rest)));
    SectionIsRead(st, s);
  }

  lemma CollectedNext(tickers: seq<Entry>, s: Section)
    ensures Collected(State(tickers, Got(s))) == tickers + [Got(s)]
  {
    assert "ticker" in Got(s);
  }

  lemma {:induction false} SectionsAreRead(st: State, sections: seq<Section>)
    requires forall s | s in sections :: Headings(Tail(s)) == 0
    ensures Collected(ReadAll(st, BrokenAll(AllLines(sections)))) == Collected(st) + Gots(sections)
    decreases sections
  {
    if sections == [] {
      assert Collected(st) + [] == Collected(st);
    } else {
      FirstSectionIsRead(st, sections);
      CollectedNext(Collected(st), sections[0]);
      SectionsAreRead(State(Collected(st), Got(sections[0])), sections[1..]);
      Regroup(Collected(st), Got(sections[0]), Gots(sections[1..]));
    }
  }

  lemma Regroup(before: seq<Entry>, e: Entry, after: seq<Entry>)
    ensures (before + [e]) + after == before + ([e] + after)
  {
  }

  lemma {:induction false} EndsWithEmpty(sections: seq<Section>)
    requires sections != []
    ensures var all := AllLines(sections); all != [] && all[|all| - 1] == ""
  {
    if |sections| > 1 {
      EndsWithEmpty(sections[1..]);
    }
  }

  /** What the parser makes of a printed body is what it makes of the lines of the sections. */
  lemma BodyAsLines(day: string, id: string, count: nat, sections: seq<Section>)
    requires OneLine(day) && OneLine(id)
    ensures Parsed(Body(day, id, count, sections)) == Collected(ReadAll(State([], map[]), BrokenAll(AllLines(sections))))
  {
    var start, h, all := State([], map[]), Header(day, id, count), AllLines(sections);
    if sections != [] {
      EndsWithEmpty(sections);
    }
    var lines := SplitLines(Join(h + all));
    LinesOfJoin(h + all);
    BlankAtTheEnd(start, lines);
    BrokenAllAppend(h, all);
    ReadAllAppend(start, BrokenAll(h), BrokenAll(all));
    HeaderIsSkipped(start, day, id, count);
  }

  lemma BlankAtTheEnd(st: State, lines: seq<string>)
    ensures ReadAll(st, lines + [""]) == ReadAll(st, lines)
  {
    ReadAllAppend(st, lines, [""]);
    ReadAllOne(ReadAll(st, lines), "");
  }

  // ----- how many sections come back -----

  /** Lines after the first that look like a heading: they can only be continuation lines. */
  function StrayHeadings(s: Section): nat {
    Headings(Tail(s))
  }

  function AllStrayHeadings(sections: seq<Section>): nat {
    if sections == [] then 0 else StrayHeadings(sections[0]) + AllStrayHeadings(sections[1..])
  }

  lemma SectionHeadings(s: Section)
    ensures Headings(SectionRead(s)) == 1 + StrayHeadings(s)
  {
    assert SectionRead(s)[0] == HEADING + First(s.ticker);
  }

  lemma {:induction false} AllHeadings(sections: seq<Section>)
    ensures Headings(BrokenAll(AllLines(sections))) == |sections| + AllStrayHeadings(sections)
    ensures sections != [] ==> BrokenAll(AllLines(sections)) != [] && HEADING <= BrokenAll(AllLines(sections))[0]
  {
    if sections != [] {
      var s, rest := sections[0], sections[1..];
      BrokenAllAppend(SectionLines(s), AllLines(rest));
      SectionAsLines(s);
      SectionHeadings(s);
      HeadingsAppend(SectionRead(s), BrokenAll(AllLines(rest)));
      AllHeadings(rest);
    }
  }

  /**
   For all fields: the parser returns one section too many for every continuation line
   that starts with "## ", so the tickers come back exactly when there is none.
   */
  lemma SectionsAreCounted(day: string, id: string, count: nat, sections: seq<Section>)
    requires OneLine(day) && OneLine(id)
    ensures |Parsed(Body(day, id, count, sections))| == |sections| + AllStrayHeadings(sections)
    ensures |Parsed(Body(day, id, count, sections))| == |sections| <==>
              forall s | s in sections :: StrayHeadings(s) == 0
  {
    var start, lines := State([], map[]), BrokenAll(AllLines(sections));
    BodyAsLines(day, id, count, sections);
    AllHeadings(sections);
    if sections != [] {
      var first := Read(start, lines[0]);
      assert "ticker" in first.current;
      EachHeadingIsASection(first, lines[1..]);
    }
    NoneStray(sections);
  }

  lemma {:induction false} NoneStray(sections: seq<Section>)
    ensures AllStrayHeadings(sections) == 0 <==> forall s | s in sections :: StrayHeadings(s) == 0
  {
    if sections != [] {
      NoneStray(sections[1..]);
      assert sections == [sections[0]] + sections[1..];
    }
  }

  // ----- what comes back -----

  lemma {:induction false} EntriesAt(sections: seq<Section>, i: nat)
    requires i < |sections|
    ensures |Entries(sections)| == |sections| == |Gots(sections)|
    ensures Entries(sections)[i] == Entered(sections[i]) && Gots(sections)[i] == Got(sections[i])
  {
    if i > 0 {
      EntriesAt(sections[1..], i - 1);
    } else if |sections| > 1 {
      EntriesAt(sections[1..], 0);
    }
  }

  lemma SameEntries(sections: seq<Section>)
    requires forall s | s in sections :: Headings(Tail(s)) == 0
    ensures Gots(sections) == Entries(sections) <==> forall s | s in sections :: Readable(s)
  {
    forall i | 0 <= i < |sections|
      ensures |Entries(sections)| == |sections| == |Gots(sections)|
      ensures Gots(sections)[i] == Entries(sections)[i] <==> Readable(sections[i])
    {
      assert sections[i] in sections;
      EntriesAt(sections, i);
      GotIsEntered(sections[i]);
    }
  }

  /**
   For all fields: parsing a printed digest gives the sections in order, each with its ticker
   and the first line of each field, exactly if every section is readable.
   */
  lemma ParseOfPrint(day: string, id: string, count: nat, sections: seq<Section>)
    requires OneLine(day) && OneLine(id)
    ensures Parsed(Body(day, id, count, sections)) == Entries(sections) <==> forall s | s in sections :: Readable(s)
  {
    var parsed := Parsed(Body(day, id, count, sections));
    if sections != [] {
      EntriesAt(sections, 0);
    }
    if parsed == Entries(sections) {
      SectionsAreCounted(day, id, count, sections);
    }
    if forall s | s in sections :: Headings(Tail(s)) == 0 {
      BodyAsLines(day, id, count, sections);
      SectionsAreRead(State([], map[]), sections);
      assert [] + Gots(sections) == Gots(sections);
      SameEntries(sections);
    }
  }

  /** A ticker that survives the heading line. */
  predicate Trimmed(s: string) {
    OneLine(s) && (s == "" || (!IsSpace(s[0]) && !IsSpace(s[|s| - 1])))
  }

  predicate SingleLines(s: Section) {
    Trimmed(s.ticker) && OneLine(s.consensus) && OneLine(s.divergence) && OneLine(s.recommendation)
  }

  /** The lines of such a section after its heading. */
  lemma SingleTail(s: Section)
    requires SingleLines(s)
    ensures Tail(s) == ["", CONSENSUS + s.consensus, "", DIVERGENCE + s.divergence, "", RECOMMENDATION + s.recommendation, ""]
    ensures First(s.ticker) == s.ticker
    ensures First(s.consensus) == s.consensus && First(s.divergence) == s.divergence && First(s.recommendation) == s.recommendation
  {
    OneLineStays(s.ticker);
    OneLineStays(s.consensus);
    OneLineStays(s.divergence);
    OneLineStays(s.recommendation);
  }

  lemma SingleIsReadable(s: Section)
    requires SingleLines(s)
    ensures Readable(s)
  {
    SingleHasNoHeadings(s);
    forall key | key in KEYS
      ensures LastValue(Tail(s), key, "") == First(FieldOf(s, key))
    {
      LastOfTail(s, key, if key == "consensus" then 1 else if key == "divergence" then 3 else 5);
    }
  }

  lemma SingleHasNoHeadings(s: Section)
    requires SingleLines(s)
    ensures Strip(First(s.ticker)) == s.ticker && Headings(Tail(s)) == 0
  {
    SingleTail(s);
    NoHeadings(Tail(s));
  }

  lemma {:induction false} NoHeadings(lines: seq<string>)
    requires forall line | line in lines :: line == "" || line[0] == '*'
    ensures Headings(lines) == 0
  {
    if lines != [] {
      assert lines[0] in lines;
      NoHeadings(lines[1..]);
    }
  }

  lemma LastOfTail(s: Section, key: string, i: nat)
    requires SingleLines(s) && key in KEYS
    requires i == if key == "consensus" then 1 else if key == "divergence" then 3 else 5
    ensures LastValue(Tail(s), key, "") == First(FieldOf(s, key))
  {
    SingleTail(s);
    var lines := Tail(s);
    assert CONSENSUS[2] == 'C' && DIVERGENCE[2] == 'D' && RECOMMENDATION[2] == 'R';
    assert lines[i] == MarkerOf(key) + FieldOf(s, key) && lines[i][|MarkerOf(key)|..] == FieldOf(s, key);
    assert lines[1][2] == 'C' && lines[3][2] == 'D' && lines[5][2] == 'R';
    LastValueIs(lines, key, "", i);
  }

  /** Single-line fields come back exactly. */
  lemma RoundTrip(day: string, id: string, count: nat, sections: seq<Section>, i: nat)
    requires OneLine(day) && OneLine(id) && i < |sections| && forall s | s in sections :: SingleLines(s)
    ensures var parsed := Parsed(Body(day, id, count, sections));
            && |parsed| == |sections|
            && parsed[i] == map["ticker" := sections[i].ticker, "consensus" := sections[i].consensus,
                                "divergence" := sections[i].divergence, "recommendation" := sections[i].recommendation]
  {
    forall s | s in sections
      ensures Readable(s)
    {
      SingleIsReadable(s);
    }
    ParseOfPrint(day, id, count, sections);
    EntriesAt(sections, i);
    SingleTail(sections[i]);
  }
}
