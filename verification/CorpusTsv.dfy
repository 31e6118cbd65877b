/** The frozen corpus TSV: its encoder and its strict parser
    (tools/dictionary/build_frozen_corpus.py:197-228, 309-337). Text is a sequence of code points;
    Unicode normalization is a parameter. */
module CorpusTsv {
  import opened Results
  import opened Sequences

  datatype Row = Row(id: string, reading: string, expected: string, category: string)

  /** The header line is the line of the column names. */
  const Header: Row := Row("id", "reading", "expected", "category")

  // ---------------------------------------------------------------- splitting text

  /** The characters `str.splitlines` breaks at. */
  predicate IsLineBreak(c: char) {
    '\n' <= c <= '\r' || '\U{1C}' <= c <= '\U{1E}' || c == '\U{85}' || c == '\U{2028}' || c == '\U{2029}'
  }

  predicate NoLineBreak(s: string) {
    forall k :: 0 <= k < |s| ==> !IsLineBreak(s[k])
  }

  /** `str.splitlines`: breaks are removed, a final break opens no further line. */
  function SplitLines(s: string): (lines: seq<string>)
    ensures s != "" <==> lines != []
  {
    if s == "" then []
    else if IsLineBreak(s[0]) then
      [""] + SplitLines(if s[0] == '\r' && |s| > 1 && s[1] == '\n' then s[2..] else s[1..])
    else if |s| == 1 then [s]
    else
      var rest := SplitLines(s[1..]);
      [[s[0]] + rest[0]] + rest[1..]
  }

  /** `str.split` on one character. */
  function Split(s: string, at: char): (parts: seq<string>)
    ensures parts != []
  {
    if s == "" then [""]
    else
      var rest := Split(s[1..], at);
      if s[0] == at then [""] + rest else [[s[0]] + rest[0]] + rest[1..]
  }

  function Count(s: string, c: char): nat {
    if s == "" then 0 else Count(s[1..], c) + if s[0] == c then 1 else 0
  }

  function Breaks(s: string): nat {
    if s == "" then 0 else Breaks(s[1..]) + if IsLineBreak(s[0]) then 1 else 0
  }

  lemma {:induction false} CountAppend(a: string, b: string, c: char)
    ensures Count(a + b, c) == Count(a, c) + Count(b, c)
  {
    if a == "" {
      assert a + b == b;
    } else {
      assert (a + b)[1..] == a[1..] + b;
      CountAppend(a[1..], b, c);
    }
  }

  lemma {:induction false} BreaksAppend(a: string, b: string)
    ensures Breaks(a + b) == Breaks(a) + Breaks(b)
  {
    if a == "" {
      assert a + b == b;
    } else {
      assert (a + b)[1..] == a[1..] + b;
      BreaksAppend(a[1..], b);
    }
  }

  lemma {:induction false} NoBreaks(s: string)
    ensures Breaks(s) == 0 <==> NoLineBreak(s)
  {
    if s != "" {
      NoBreaks(s[1..]);
      assert forall k :: 1 <= k < |s| ==> s[k] == s[1..][k - 1];
      assert NoLineBreak(s) <==> NoLineBreak(s[1..]) && !IsLineBreak(s[0]);
    }
  }

  lemma {:induction false} SplitJoins(s: string, at: char)
    ensures Joined(Split(s, at), at) == s && |Split(s, at)| == Count(s, at) + 1
    ensures forall k :: 0 <= k < |Split(s, at)| ==> at !in Split(s, at)[k]
  {
    if s != "" {
      SplitJoins(s[1..], at);
      var rest := Split(s[1..], at);
      assert s == [s[0]] + s[1..];
      assert ([""] + rest)[1..] == rest && ([[s[0]] + rest[0]] + rest[1..])[1..] == rest[1..];
      assert Joined(Split(s, at), at) == s;
    }
  }

  /** `sep.join`. */
  function Joined(parts: seq<string>, sep: char): string
    requires parts != []
  {
    if |parts| == 1 then parts[0] else parts[0] + [sep] + Joined(parts[1..], sep)
  }

  lemma {:induction false} JoinSplits(parts: seq<string>, sep: char)
    requires parts != [] && forall k :: 0 <= k < |parts| ==> sep !in parts[k]
    ensures Split(Joined(parts, sep), sep) == parts
  {
    if |parts| == 1 {
      SplitWhole(parts[0], sep);
    } else {
      JoinSplits(parts[1..], sep);
      SplitFirst(parts[0], Joined(parts[1..], sep), sep);
    }
  }

  lemma {:induction false} SplitWhole(s: string, sep: char)
    requires sep !in s
    ensures Split(s, sep) == [s]
  {
    if s != "" {
      SplitWhole(s[1..], sep);
      assert s == [s[0]] + s[1..];
    }
  }

  lemma {:induction false} SplitFirst(first: string, rest: string, sep: char)
    requires sep !in first
    ensures Split(first + [sep] + rest, sep) == [first] + Split(rest, sep)
  {
    var s := first + [sep] + rest;
    if first == "" {
      assert s[1..] == rest;
    } else {
      assert s[1..] == first[1..] + [sep] + rest;
      SplitFirst(first[1..], rest, sep);
      assert first == [first[0]] + first[1..];
    }
  }

  // ------------------------------------------------------------------------- lines

  /** Every line closed by LF. */
  function Unlines(lines: seq<string>): string {
    if lines == [] then "" else lines[0] + "\n" + Unlines(lines[1..])
  }

  lemma {:induction false} SplitLinesFirst(line: string, rest: string)
    requires NoLineBreak(line)
    ensures SplitLines(line + "\n" + rest) == [line] + SplitLines(rest)
  {
    var s := line + "\n" + rest;
    if line == "" {
      assert s[1..] == rest;
    } else {
      assert s[1..] == line[1..] + "\n" + rest;
      SplitLinesFirst(line[1..], rest);
      assert line == [line[0]] + line[1..];
    }
  }

  lemma {:induction false} SplitLinesUnlines(lines: seq<string>)
    requires forall k :: 0 <= k < |lines| ==> NoLineBreak(lines[k])
    ensures SplitLines(Unlines(lines)) == lines
  {
    if lines != [] {
      SplitLinesUnlines(lines[1..]);
      SplitLinesFirst(lines[0], Unlines(lines[1..]));
    }
  }

  lemma {:induction false} LinesHaveNoBreak(s: string)
    ensures forall k :: 0 <= k < |SplitLines(s)| ==> NoLineBreak(SplitLines(s)[k])
    decreases |s|
  {
    if s != "" && IsLineBreak(s[0]) {
      LinesHaveNoBreak(if s[0] == '\r' && |s| > 1 && s[1] == '\n' then s[2..] else s[1..]);
    } else if |s| > 1 {
      LinesHaveNoBreak(s[1..]);
    }
  }

  predicate EndsWithLF(s: string) {
    s != "" && s[|s| - 1] == '\n'
  }

  predicate OnlyLF(s: string) {
    forall k :: 0 <= k < |s| && IsLineBreak(s[k]) ==> s[k] == '\n'
  }

  /** What splitting does at the front of a text without CR that is closed by LF. */
  lemma {:induction false} SplitStep(s: string)
    requires '\r' !in s && EndsWithLF(s)
    ensures '\r' !in s[1..] && (s[1..] == "" || EndsWithLF(s[1..]))
    ensures IsLineBreak(s[0]) ==> SplitLines(s) == [""] + SplitLines(s[1..])
    ensures !IsLineBreak(s[0]) ==>
      var lines := SplitLines(s[1..]);
      s[1..] != "" && lines != [] && SplitLines(s) == [[s[0]] + lines[0]] + lines[1..]
  {
    assert IsLineBreak('\n');
  }

  /** A closed text without CR has as many lines as breaks, and its lines hold its other characters. */
  lemma {:induction false} LinesAreBreaks(s: string)
    requires '\r' !in s && (s == "" || EndsWithLF(s))
    ensures |SplitLines(s)| == Breaks(s)
    ensures OnlyLF(s) ==> Unlines(SplitLines(s)) == s
  {
    if s != "" {
      SplitStep(s);
      LinesAreBreaks(s[1..]);
      assert Breaks(s) == Breaks(s[1..]) + if IsLineBreak(s[0]) then 1 else 0;
      if OnlyLF(s) {
        assert OnlyLF(s[1..]);
        Rejoined(s, SplitLines(s[1..]));
      }
    }
  }

  lemma {:induction false} Rejoined(s: string, lines: seq<string>)
    requires s != "" && Unlines(lines) == s[1..]
    ensures s[0] == '\n' ==> Unlines([""] + lines) == s
    ensures lines != [] ==> Unlines([[s[0]] + lines[0]] + lines[1..]) == s
  {
    assert s == [s[0]] + s[1..];
    assert ([""] + lines)[1..] == lines;
    if lines != [] {
      assert ([[s[0]] + lines[0]] + lines[1..])[1..] == lines[1..];
    }
  }

  function CountAll(lines: seq<string>, c: char): nat {
    if lines == [] then 0 else Count(lines[0], c) + CountAll(lines[1..], c)
  }

  lemma {:induction false} CountInLines(s: string, c: char)
    requires !IsLineBreak(c)
    ensures CountAll(SplitLines(s), c) == Count(s, c)
    decreases |s|
  {
    if s != "" && IsLineBreak(s[0]) {
      var rest := if s[0] == '\r' && |s| > 1 && s[1] == '\n' then s[2..] else s[1..];
      CountInLines(rest, c);
      if rest != s[1..] { assert s[1..][1..] == s[2..]; }
    } else if |s| > 1 {
      CountInLines(s[1..], c);
      var rest := SplitLines(s[1..]);
      assert ([s[0]] + rest[0])[1..] == rest[0];
    }
  }

  lemma {:induction false} CountEqual(lines: seq<string>, c: char, n: nat)
    requires forall k :: 0 <= k < |lines| ==> Count(lines[k], c) == n
    ensures CountAll(lines, c) == n * |lines|
  {
    if lines != [] {
      CountEqual(lines[1..], c, n);
    }
  }

  // ------------------------------------------------------------------------ fields

  /** General category Cc. */
  predicate IsControl(c: char) {
    c < ' ' || '\U{7F}' <= c <= '\U{9F}'
  }

  function KanaToHiragana(c: char): char {
    if '\U{30A1}' <= c <= '\U{30F6}' || '\U{30FD}' <= c <= '\U{30FE}' then (c as int - 0x60) as char else c
  }

  function MapKana(s: string): (r: string)
    ensures |r| == |s| && forall k :: 0 <= k < |s| ==> r[k] == KanaToHiragana(s[k])
  {
    seq(|s|, k requires 0 <= k < |s| => KanaToHiragana(s[k]))
  }

  /** The reading transform: code points mapped between two normalizations. */
  method KatakanaToHiragana(value: string, nfc: string -> string) returns (r: string)
    ensures r == nfc(MapKana(nfc(value)))
  {
    var normalized, converted := nfc(value), "";
    for n := 0 to |normalized|
      invariant converted == MapKana(normalized[..n])
    {
      assert normalized[..n + 1] == normalized[..n] + [normalized[n]];
      converted := converted + [KanaToHiragana(normalized[n])];
    }
    assert normalized[..|normalized|] == normalized;
    r := nfc(converted);
  }

  predicate FieldOk(s: string, nfc: string -> string) {
    s != "" && s == nfc(s) && forall k :: 0 <= k < |s| ==> !IsControl(s[k])
  }

  predicate RowOk(row: Row, nfc: string -> string) {
    && FieldOk(row.id, nfc) && FieldOk(row.reading, nfc) && FieldOk(row.expected, nfc) && FieldOk(row.category, nfc)
    && "" !in Split(row.expected, '|') && NoRepeats(Split(row.expected, '|'))
    && nfc(MapKana(nfc(row.reading))) == row.reading
  }

  function Fields(row: Row): seq<string> {
    [row.id, row.reading, row.expected, row.category]
  }

  function Line(row: Row): string {
    row.id + "\t" + row.reading + "\t" + row.expected + "\t" + row.category
  }

  function Lines(rows: seq<Row>): (lines: seq<string>)
    ensures |lines| == |rows| && forall k :: 0 <= k < |rows| ==> lines[k] == Line(rows[k])
  {
    seq(|rows|, k requires 0 <= k < |rows| => Line(rows[k]))
  }

  function EncodeRows(rows: seq<Row>): string {
    Line(Header) + "\n" + Unlines(Lines(rows))
  }

  // ----------------------------------------------------------------------- parsing

  /** The text is a corpus file holding exactly these rows, one a line. */
  ghost predicate Holds(text: string, rows: seq<Row>, nfc: string -> string) {
    && '\r' !in text && EndsWithLF(text)
    && var lines := SplitLines(text);
    && |lines| == |rows| + 1 && lines[0] == Line(Header)
    && forall k :: 0 <= k < |rows| ==> Split(lines[k + 1], '\t') == Fields(rows[k]) && RowOk(rows[k], nfc)
  }

  lemma {:induction false} SameFields(a: Row, b: Row)
    ensures Fields(a) == Fields(b) ==> a == b
  {
    if Fields(a) == Fields(b) {
      assert Fields(a)[0] == Fields(b)[0] && Fields(a)[1] == Fields(b)[1]
        && Fields(a)[2] == Fields(b)[2] && Fields(a)[3] == Fields(b)[3];
    }
  }

  lemma {:induction false} RefusedLine(text: string, k: nat, nfc: string -> string)
    requires 0 < k < |SplitLines(text)|
    requires forall row :: Fields(row) == Split(SplitLines(text)[k], '\t') ==> !RowOk(row, nfc)
    ensures forall rows :: !Holds(text, rows, nfc)
  {
    forall rows ensures !Holds(text, rows, nfc) {
      HeldLine(text, rows, k - 1, nfc);
    }
  }

  lemma {:induction false} HeldLine(text: string, rows: seq<Row>, k: nat, nfc: string -> string)
    ensures Holds(text, rows, nfc) && k + 1 < |SplitLines(text)| ==>
      k < |rows| && Split(SplitLines(text)[k + 1], '\t') == Fields(rows[k]) && RowOk(rows[k], nfc)
  {
  }

  /** The strict parser: it succeeds on the texts that hold some rows, and returns those. */
  method ParseTsv(text: string, nfc: string -> string) returns (r: Result<seq<Row>>)
    ensures r.Ok? ==> Holds(text, r.value, nfc)
    ensures r.Err? ==> forall rows :: !Holds(text, rows, nfc)
  {
    hide SplitLines, Split, NoRepeats, FieldOk, MapKana;
    if '\r' in text { return Err("must use LF line endings"); }
    if !EndsWithLF(text) { return Err("must end with LF"); }
    var lines := SplitLines(text);
    if lines == [] || lines[0] != Line(Header) { return Err("must have the exact four-column TSV header"); }
    var rows: seq<Row> := [];
    for n := 1 to |lines|
      invariant |rows| == n - 1
      invariant forall k :: 0 <= k < |rows| ==> Split(lines[k + 1], '\t') == Fields(rows[k]) && RowOk(rows[k], nfc)
    {
      var fields := Split(lines[n], '\t');
      if |fields| != 4 {
        RefusedLine(text, n, nfc);
        return Err("must contain exactly four columns");
      }
      var row := Row(fields[0], fields[1], fields[2], fields[3]);
      var fieldsOk :=
        FieldOk(row.id, nfc) && FieldOk(row.reading, nfc) && FieldOk(row.expected, nfc) && FieldOk(row.category, nfc);
      var alternatives := Split(row.expected, '|');
      var reading := KatakanaToHiragana(row.reading, nfc);
      if !fieldsOk || "" in alternatives || !NoRepeats(alternatives) || reading != row.reading {
        forall other | Fields(other) == fields ensures !RowOk(other, nfc) {
          SameFields(other, row);
        }
        RefusedLine(text, n, nfc);
        return Err("bad field, alternative or reading");
      }
      rows := rows + [row];
    }
    r := Ok(rows);
  }

  // -------------------------------------------------------------------- round trips

  /** The line breaks that pass the field checks: they are separators, not control characters. */
  predicate Clean(row: Row) {
    forall f :: f in Fields(row) ==> '\U{2028}' !in f && '\U{2029}' !in f
  }

  lemma {:induction false} OneReading(text: string, a: seq<Row>, b: seq<Row>, nfc: string -> string)
    requires Holds(text, a, nfc) && Holds(text, b, nfc)
    ensures a == b
  {
    hide SplitLines, Split, RowOk;
    forall k | 0 <= k < |a| ensures a[k] == b[k] {
      assert Fields(a[k]) == Split(SplitLines(text)[k + 1], '\t') == Fields(b[k]);
      assert Fields(a[k])[0] == Fields(b[k])[0] && Fields(a[k])[1] == Fields(b[k])[1]
        && Fields(a[k])[2] == Fields(b[k])[2] && Fields(a[k])[3] == Fields(b[k])[3];
    }
  }

  lemma {:induction false} LineIsJoined(row: Row)
    ensures Joined(Fields(row), '\t') == Line(row)
  {
    var f := Fields(row);
    assert f[1..][1..] == f[2..] && f[2..][1..] == f[3..];
    assert Joined(f[3..], '\t') == row.category;
    assert Joined(f[2..], '\t') == row.expected + "\t" + row.category;
    assert Joined(f[1..], '\t') == row.reading + "\t" + (row.expected + "\t" + row.category);
    assert Joined(f, '\t') == row.id + "\t" + (row.reading + "\t" + (row.expected + "\t" + row.category));
  }

  lemma {:induction false} LineSplits(row: Row)
    requires forall k :: 0 <= k < 4 ==> '\t' !in Fields(row)[k]
    ensures Split(Line(row), '\t') == Fields(row)
    ensures Count(Line(row), '\t') == 3
  {
    LineIsJoined(row);
    JoinSplits(Fields(row), '\t');
    SplitJoins(Line(row), '\t');
  }

  lemma {:induction false} NoTabs(row: Row, nfc: string -> string)
    requires RowOk(row, nfc)
    ensures forall k :: 0 <= k < 4 ==> '\t' !in Fields(row)[k]
  {
    hide MapKana, Split;
  }

  lemma {:induction false} FieldBreaks(s: string, nfc: string -> string)
    requires FieldOk(s, nfc)
    ensures Breaks(s) == 0 <==> '\U{2028}' !in s && '\U{2029}' !in s
  {
    NoBreaks(s);
  }

  lemma {:induction false} LineBreaksOf(row: Row, nfc: string -> string)
    requires RowOk(row, nfc)
    ensures NoLineBreak(Line(row)) <==> Clean(row)
  {
    FieldBreaks(row.id, nfc);
    FieldBreaks(row.reading, nfc);
    FieldBreaks(row.expected, nfc);
    FieldBreaks(row.category, nfc);
    hide FieldOk, MapKana, Split;
    NoBreaks(Line(row));
    BreaksAppend(row.id + "\t" + row.reading + "\t" + row.expected + "\t", row.category);
    BreaksAppend(row.id + "\t" + row.reading + "\t" + row.expected, "\t");
    BreaksAppend(row.id + "\t" + row.reading + "\t", row.expected);
    BreaksAppend(row.id + "\t" + row.reading, "\t");
    BreaksAppend(row.id + "\t", row.reading);
    BreaksAppend(row.id, "\t");
    TabIsNoBreak();
    CleanFields(row);
    hide Breaks, NoLineBreak, Clean;
  }

  lemma {:induction false} TabIsNoBreak()
    ensures Breaks("\t") == 0
  {
  }

  lemma {:induction false} CleanFields(row: Row)
    ensures Clean(row) <==> forall k :: 0 <= k < 4 ==> '\U{2028}' !in Fields(row)[k] && '\U{2029}' !in Fields(row)[k]
  {
    var f := Fields(row);
    forall k | 0 <= k < 4 ensures f[k] in f {}
  }

  lemma {:induction false} EncodedEnds(lines: seq<string>)
    requires lines != []
    ensures EndsWithLF(Unlines(lines))
  {
    if |lines| > 1 { EncodedEnds(lines[1..]); }
  }

  lemma {:induction false} NoCharacter(lines: seq<string>, c: char)
    requires c != '\n' && forall k :: 0 <= k < |lines| ==> c !in lines[k]
    ensures c !in Unlines(lines)
  {
    if lines != [] { NoCharacter(lines[1..], c); }
  }

  lemma {:induction false} EncodedLines(rows: seq<Row>)
    ensures EncodeRows(rows) == Unlines([Line(Header)] + Lines(rows))
  {
    assert ([Line(Header)] + Lines(rows))[1..] == Lines(rows);
  }

  /** Parsing what was encoded gives the rows back. */
  lemma {:induction false} EncodedHolds(rows: seq<Row>, nfc: string -> string)
    requires forall row :: row in rows ==> RowOk(row, nfc) && Clean(row)
    ensures Holds(EncodeRows(rows), rows, nfc)
  {
    var lines := [Line(Header)] + Lines(rows);
    EncodedLines(rows);
    EncodedEnds(lines);
    forall k | 0 <= k < |lines| ensures NoLineBreak(lines[k]) && '\r' !in lines[k] {
      if k > 0 { LineBreaksOf(rows[k - 1], nfc); }
    }
    NoCharacter(lines, '\r');
    SplitLinesUnlines(lines);
    forall k | 0 <= k < |rows| ensures Split(lines[k + 1], '\t') == Fields(rows[k]) {
      NoTabs(rows[k], nfc);
      LineSplits(rows[k]);
    }
  }

  lemma {:induction false} BreaksInUnlines(lines: seq<string>)
    ensures Breaks(Unlines(lines)) >= |lines|
    ensures Breaks(Unlines(lines)) == |lines| ==> forall k :: 0 <= k < |lines| ==> NoLineBreak(lines[k])
  {
    if lines != [] {
      BreaksInUnlines(lines[1..]);
      BreaksAppend(lines[0] + "\n", Unlines(lines[1..]));
      BreaksAppend(lines[0], "\n");
      NoBreaks(lines[0]);
    }
  }

  lemma {:induction false} CountInUnlines(lines: seq<string>, c: char, n: nat)
    requires c != '\n' && forall k :: 0 <= k < |lines| ==> Count(lines[k], c) == n
    ensures Count(Unlines(lines), c) == n * |lines|
  {
    if lines != [] {
      CountInUnlines(lines[1..], c, n);
      CountAppend(lines[0] + "\n", Unlines(lines[1..]), c);
      CountAppend(lines[0], "\n", c);
      assert Count("\n", c) == 0;
      hide Count;
      assert n * |lines| == n + n * (|lines| - 1);
    }
  }

  /** A text the parser accepts has three tabs a line. */
  lemma {:induction false} AcceptedTabs(text: string, rows: seq<Row>, nfc: string -> string)
    requires Holds(text, rows, nfc)
    ensures Count(text, '\t') == 3 * Breaks(text) && Breaks(text) == |rows| + 1
  {
    hide SplitLines, Split, RowOk, Count, Breaks, CountAll, Line, Unlines;
    var lines := SplitLines(text);
    forall k | 0 <= k < |lines| ensures Count(lines[k], '\t') == 3 {
      if k == 0 {
        LineSplits(Header);
      } else {
        HeldLine(text, rows, k - 1, nfc);
        SplitJoins(lines[k], '\t');
      }
    }
    CountEqual(lines, '\t', 3);
    CountInLines(text, '\t');
    LinesAreBreaks(text);
  }

  /** Valid rows whose encoding parses at all hold no separator: such a row is cut into lines that
      cannot all have four columns. */
  lemma {:induction false} EncodedOnlyIfClean(rows: seq<Row>, parsed: seq<Row>, nfc: string -> string)
    requires forall row :: row in rows ==> RowOk(row, nfc)
    requires Holds(EncodeRows(rows), parsed, nfc)
    ensures forall row :: row in rows ==> Clean(row)
  {
    hide Holds, RowOk, Clean;
    var lines := [Line(Header)] + Lines(rows);
    EncodedLines(rows);
    forall k | 0 <= k < |lines| ensures Count(lines[k], '\t') == 3 {
      if k == 0 {
        LineSplits(Header);
      } else {
        assert lines[k] == Line(rows[k - 1]);
        NoTabs(rows[k - 1], nfc);
        LineSplits(rows[k - 1]);
      }
    }
    CountInUnlines(lines, '\t', 3);
    AcceptedTabs(EncodeRows(rows), parsed, nfc);
    BreaksInUnlines(lines);
    forall k | 0 <= k < |rows| ensures Clean(rows[k]) {
      assert lines[k + 1] == Line(rows[k]);
      LineBreaksOf(rows[k], nfc);
    }
  }

  /** The first round trip, exactly: encoded rows are read back if and only if every row passes the
      parser's own checks and holds neither U+2028 nor U+2029. */
  lemma {:induction false} EncodeThenParse(rows: seq<Row>, nfc: string -> string)
    ensures Holds(EncodeRows(rows), rows, nfc) <==> forall row :: row in rows ==> RowOk(row, nfc) && Clean(row)
  {
    if Holds(EncodeRows(rows), rows, nfc) {
      forall row | row in rows ensures RowOk(row, nfc) {
        var k :| 0 <= k < |rows| && rows[k] == row;
      }
      EncodedOnlyIfClean(rows, rows, nfc);
    }
    if forall row :: row in rows ==> RowOk(row, nfc) && Clean(row) {
      EncodedHolds(rows, nfc);
    }
  }

  /** The second round trip, exactly: encoding what was parsed restores the text if and only if LF is
      its only line break. */
  lemma {:induction false} ParseThenEncode(text: string, rows: seq<Row>, nfc: string -> string)
    requires Holds(text, rows, nfc)
    ensures EncodeRows(rows) == text <==> OnlyLF(text)
  {
    var lines := SplitLines(text);
    LinesHaveNoBreak(text);
    forall k | 0 <= k < |rows| ensures Line(rows[k]) == lines[k + 1] {
      SplitJoins(lines[k + 1], '\t');
      LineIsJoined(rows[k]);
    }
    assert [Line(Header)] + Lines(rows) == lines;
    EncodedLines(rows);
    OnlyLFUnlines(lines);
    LinesAreBreaks(text);
  }

  lemma {:induction false} OnlyLFUnlines(lines: seq<string>)
    requires forall k :: 0 <= k < |lines| ==> NoLineBreak(lines[k])
    ensures OnlyLF(Unlines(lines))
  {
    if lines != [] { OnlyLFUnlines(lines[1..]); }
  }

  /** A row that passes every check and is still lost: U+2028 is no control character, but a line break. */
  lemma {:induction false} SeparatorLosesRow(rows: seq<Row>)
    ensures var row, nfc := Row("1", "a", "b\U{2028}c", "d"), (s: string) => s;
      RowOk(row, nfc) && !Holds(EncodeRows([row]), rows, nfc)
  {
    var row, nfc := Row("1", "a", "b\U{2028}c", "d"), (s: string) => s;
    SplitWhole(row.expected, '|');
    assert MapKana("a") == "a";
    assert RowOk(row, nfc);
    assert row.expected in Fields(row) && row.expected[1] == '\U{2028}';
    assert !Clean(row) && [row][0] == row;
    hide Holds, RowOk, Clean;
    if Holds(EncodeRows([row]), rows, nfc) {
      EncodedOnlyIfClean([row], rows, nfc);
    }
  }
}
