/**
 * The CSV export: a header made of the first record's keys, then one line
 * per record made of that record's own values.  Every field is wrapped in
 * double quotes, fields are separated by commas and every line ends with a
 * newline.  Embedded quotes, commas and newlines are not escaped.
 */
module Csv {

  /**
   * One exported row: its (key, value) pairs in insertion order.  A
   * LinkedHashMap holds each key once; no lemma here depends on that.
   */
  type Record = seq<(string, string)>

  function Keys(r: Record): seq<string> {
    seq(|r|, i requires 0 <= i < |r| => r[i].0)
  }

  function Values(r: Record): seq<string> {
    seq(|r|, i requires 0 <= i < |r| => r[i].1)
  }

  function Quote(s: string): string {
    "\"" + s + "\""
  }

  function Quoted(fields: seq<string>): seq<string> {
    seq(|fields|, i requires 0 <= i < |fields| => Quote(fields[i]))
  }

  /** The parts separated by single `sep` characters. */
  function Join(parts: seq<string>, sep: char): string {
    if |parts| == 0 then ""
    else if |parts| == 1 then parts[0]
    else Join(parts[..|parts| - 1], sep) + [sep] + parts[|parts| - 1]
  }

  /** One line of output without its newline: the quoted fields, comma-separated. */
  function QuotedLine(fields: seq<string>): string {
    Join(Quoted(fields), ',')
  }

  /** Each row written as a quoted line followed by a newline. */
  function Render(rows: seq<seq<string>>): string {
    if rows == [] then ""
    else Render(rows[..|rows| - 1]) + QuotedLine(rows[|rows| - 1]) + "\n"
  }

  /** The rows of the export: the first record's keys, then every record's values. */
  function CsvRows(data: seq<Record>): (rows: seq<seq<string>>)
    requires |data| > 0
  {
    [Keys(data[0])] + seq(|data|, i requires 0 <= i < |data| => Values(data[i]))
  }

  /** The full text of the export. */
  function CsvText(data: seq<Record>): string
    requires |data| > 0
  {
    Render(CsvRows(data))
  }

  /** The buffered character sink the export writes to. */
  class PrintWriter {
    var written: string

    constructor ()
      ensures written == ""
    {
      written := "";
    }

    method Print(s: string)
      modifies this
      ensures written == old(written) + s
    {
      written := written + s;
    }
  }

  lemma QuotedLineSnoc(fields: seq<string>, f: string)
    ensures QuotedLine(fields + [f])
         == (if fields == [] then "" else QuotedLine(fields) + ",") + Quote(f)
  {
    var q := Quoted(fields + [f]);
    assert q[..|q| - 1] == Quoted(fields);
  }

  /** Writes one line: the quoted fields, comma-separated, then a newline. */
  method WriteLine(writer: PrintWriter, fields: seq<string>)
    modifies writer
    ensures writer.written == old(writer.written) + QuotedLine(fields) + "\n"
  {
    var j := 0;
    while j < |fields|
      invariant 0 <= j <= |fields|
      invariant writer.written == old(writer.written) + QuotedLine(fields[..j])
    {
      QuotedLineSnoc(fields[..j], fields[j]);
      assert fields[..j + 1] == fields[..j] + [fields[j]];
      if j > 0 {
        writer.Print(",");
      }
      writer.Print(Quote(fields[j]));
      j := j + 1;
    }
    assert fields[..j] == fields;
    writer.Print("\n");
  }

  lemma CsvRowsAt(data: seq<Record>)
    requires |data| > 0
    ensures |CsvRows(data)| == |data| + 1
    ensures CsvRows(data)[0] == Keys(data[0])
    ensures forall i :: 0 <= i < |data| ==> CsvRows(data)[i + 1] == Values(data[i])
  {
  }

  lemma RenderSnoc(rows: seq<seq<string>>, k: nat)
    requires k < |rows|
    ensures Render(rows[..k + 1]) == Render(rows[..k]) + QuotedLine(rows[k]) + "\n"
  {
    assert rows[..k + 1][..k] == rows[..k];
  }

  /** Appending the next rendered row extends the text rendered so far. */
  lemma WriteStep(start: string, rows: seq<seq<string>>, k: nat, w: string)
    requires k < |rows|
    requires w == start + Render(rows[..k])
    ensures w + QuotedLine(rows[k]) + "\n" == start + Render(rows[..k + 1])
  {
    RenderSnoc(rows, k);
  }

  /** Writes the header line, then one line per record, in record order. */
  method DoCsv(writer: PrintWriter, data: seq<Record>)
    requires |data| > 0
    modifies writer
    ensures writer.written == old(writer.written) + CsvText(data)
  {
    ghost var start := writer.written;
    ghost var rows := CsvRows(data);
    CsvRowsAt(data);
    assert start == start + Render(rows[..0]);
    WriteLine(writer, Keys(data[0]));
    WriteStep(start, rows, 0, start);
    var i := 0;
    while i < |data|
      invariant 0 <= i <= |data|
      invariant writer.written == start + Render(rows[..i + 1])
    {
      ghost var before := writer.written;
      WriteLine(writer, Values(data[i]));
      WriteStep(start, rows, i + 1, before);
      i := i + 1;
    }
    assert rows[..i + 1] == rows;
  }

  // Reading the export back.  This is a plain reader for fields that hold
  // no comma and no newline; it is not a full RFC 4180 parser.

  /** The last position of `c` in `s`, or -1 when `c` does not occur. */
  function LastIndex(s: string, c: char): (r: int)
    ensures -1 <= r < |s|
    ensures r >= 0 ==> s[r] == c
    ensures forall j :: r < j < |s| ==> s[j] != c
  {
    if s == [] then -1
    else if s[|s| - 1] == c then |s| - 1
    else LastIndex(s[..|s| - 1], c)
  }

  /** The pieces of `s` between the occurrences of `sep`. */
  function Split(s: string, sep: char): seq<string>
    decreases |s|
  {
    var i := LastIndex(s, sep);
    if i < 0 then [s] else Split(s[..i], sep) + [s[i + 1..]]
  }

  function Unquote(f: string): string {
    if |f| >= 2 && f[0] == '"' && f[|f| - 1] == '"' then f[1..|f| - 1] else f
  }

  /** The fields of one line; the empty line has none. */
  function ParseLine(line: string): seq<string> {
    if line == "" then []
    else
      var parts := Split(line, ',');
      seq(|parts|, i requires 0 <= i < |parts| => Unquote(parts[i]))
  }

  /** The newline-terminated lines of `s`. */
  function SplitLines(s: string): seq<string> {
    if s == [] then []
    else Split(if s[|s| - 1] == '\n' then s[..|s| - 1] else s, '\n')
  }

  function Parse(s: string): seq<seq<string>> {
    var lines := SplitLines(s);
    seq(|lines|, i requires 0 <= i < |lines| => ParseLine(lines[i]))
  }

  /** A field that needs no escaping: no quote, comma or newline. */
  predicate Plain(f: string) {
    '"' !in f && ',' !in f && '\n' !in f
  }

  /** No field of the table holds `c`. */
  predicate Avoids(rows: seq<seq<string>>, c: char) {
    forall i, j :: 0 <= i < |rows| && 0 <= j < |rows[i]| ==> c !in rows[i][j]
  }

  predicate AllPlain(rows: seq<seq<string>>) {
    Avoids(rows, '"') && Avoids(rows, ',') && Avoids(rows, '\n')
  }

  /** Splitting at the separator undoes joining with it, when no part holds it. */
  lemma {:induction false} SplitJoin(parts: seq<string>, sep: char)
    requires |parts| > 0
    requires forall k :: 0 <= k < |parts| ==> sep !in parts[k]
    ensures Split(Join(parts, sep), sep) == parts
  {
    var n := |parts|;
    if n == 1 {
      assert LastIndex(parts[0], sep) == -1;
    } else {
      var init := parts[..n - 1];
      var p := Join(init, sep);
      var s := p + [sep] + parts[n - 1];
      assert s == Join(parts, sep);
      assert LastIndex(s, sep) == |p| by {
        assert s[|p|] == sep;
        assert forall j :: |p| < j < |s| ==> s[j] == parts[n - 1][j - |p| - 1];
      }
      assert s[..|p|] == p;
      assert s[|p| + 1..] == parts[n - 1];
      SplitJoin(init, sep);
      assert init + [parts[n - 1]] == parts;
    }
  }

  /** A character that no part holds and that is not the separator is not in the join. */
  lemma {:induction false} JoinAvoids(parts: seq<string>, sep: char, c: char)
    requires c != sep
    requires forall k :: 0 <= k < |parts| ==> c !in parts[k]
    ensures c !in Join(parts, sep)
  {
    if |parts| > 1 {
      JoinAvoids(parts[..|parts| - 1], sep, c);
    }
  }

  lemma QuotedAvoids(fields: seq<string>, c: char)
    requires c != '"'
    requires forall k :: 0 <= k < |fields| ==> c !in fields[k]
    ensures forall k :: 0 <= k < |fields| ==> c !in Quoted(fields)[k]
  {
  }

  /** A non-empty field list gives a non-empty line. */
  lemma {:induction false} JoinNonEmpty(parts: seq<string>, sep: char)
    requires |parts| > 0 && |parts[|parts| - 1]| > 0
    ensures Join(parts, sep) != ""
  {
  }

  /** The plain reader gets the fields of a line back. */
  lemma ParseQuotedLine(fields: seq<string>)
    requires forall k :: 0 <= k < |fields| ==> Plain(fields[k])
    ensures ParseLine(QuotedLine(fields)) == fields
  {
    if fields != [] {
      var q := Quoted(fields);
      QuotedAvoids(fields, ',');
      JoinNonEmpty(q, ',');
      SplitJoin(q, ',');
    }
  }

  /** The rendered text is the newline-joined lines plus a final newline. */
  lemma {:induction false} RenderJoin(rows: seq<seq<string>>)
    requires |rows| > 0
    ensures Render(rows) == Join(seq(|rows|, i requires 0 <= i < |rows| => QuotedLine(rows[i])), '\n') + "\n"
  {
    var lines := seq(|rows|, i requires 0 <= i < |rows| => QuotedLine(rows[i]));
    if |rows| > 1 {
      var init := rows[..|rows| - 1];
      RenderJoin(init);
      assert lines[..|lines| - 1] == seq(|init|, i requires 0 <= i < |init| => QuotedLine(init[i]));
    }
  }

  /** Reading back a rendered table of plain fields gives the table. */
  lemma ParseRender(rows: seq<seq<string>>)
    requires AllPlain(rows)
    ensures Parse(Render(rows)) == rows
  {
    if rows != [] {
      var lines := seq(|rows|, i requires 0 <= i < |rows| => QuotedLine(rows[i]));
      RenderJoin(rows);
      var text := Render(rows);
      forall k | 0 <= k < |lines|
        ensures '\n' !in lines[k]
      {
        QuotedAvoids(rows[k], '\n');
        JoinAvoids(Quoted(rows[k]), ',', '\n');
      }
      SplitJoin(lines, '\n');
      assert text[..|text| - 1] == Join(lines, '\n');
      assert SplitLines(text) == lines;
      forall k | 0 <= k < |rows|
        ensures ParseLine(lines[k]) == rows[k]
      {
        ParseQuotedLine(rows[k]);
      }
    }
  }

  /**
   * Reading the export back gives one header row with the first record's
   * keys and then, in record order, one row per record holding exactly that
   * record's values.
   */
  lemma CsvRoundTrip(data: seq<Record>)
    requires |data| > 0
    requires forall k :: 0 <= k < |data[0]| ==> Plain(data[0][k].0)
    requires forall i, k :: 0 <= i < |data| && 0 <= k < |data[i]| ==> Plain(data[i][k].1)
    ensures var rows := Parse(CsvText(data));
      && |rows| == |data| + 1
      && rows[0] == Keys(data[0])
      && forall i :: 0 <= i < |data| ==> rows[i + 1] == Values(data[i]) && |rows[i + 1]| == |data[i]|
  {
    ParseRender(CsvRows(data));
  }

  function CountChar(s: string, c: char): nat {
    if s == [] then 0 else CountChar(s[..|s| - 1], c) + (if s[|s| - 1] == c then 1 else 0)
  }

  lemma {:induction false} CountConcat(a: string, b: string, c: char)
    ensures CountChar(a + b, c) == CountChar(a, c) + CountChar(b, c)
  {
    if b != [] {
      assert (a + b)[..|a + b| - 1] == a + b[..|b| - 1];
      assert (a + b)[|a + b| - 1] == b[|b| - 1];
      CountConcat(a, b[..|b| - 1], c);
    } else {
      assert a + b == a;
    }
  }

  /** When no field holds a newline, every row gives exactly one line. */
  lemma {:induction false} RenderLineCount(rows: seq<seq<string>>)
    requires Avoids(rows, '\n')
    ensures CountChar(Render(rows), '\n') == |rows|
  {
    if rows != [] {
      var init := rows[..|rows| - 1];
      var last := rows[|rows| - 1];
      RenderLineCount(init);
      QuotedAvoids(last, '\n');
      JoinAvoids(Quoted(last), ',', '\n');
      assert CountChar(QuotedLine(last), '\n') == 0 by {
        NoCount(QuotedLine(last), '\n');
      }
      CountConcat(Render(init), QuotedLine(last), '\n');
      CountConcat(Render(init) + QuotedLine(last), "\n", '\n');
    }
  }

  lemma {:induction false} NoCount(s: string, c: char)
    requires c !in s
    ensures CountChar(s, c) == 0
  {
    if s != [] {
      NoCount(s[..|s| - 1], c);
    }
  }

  /** For n records whose fields hold no newline, the export has n + 1 lines. */
  lemma CsvLineCount(data: seq<Record>)
    requires |data| > 0
    requires forall k :: 0 <= k < |data[0]| ==> '\n' !in data[0][k].0
    requires forall i, k :: 0 <= i < |data| && 0 <= k < |data[i]| ==> '\n' !in data[i][k].1
    ensures CountChar(CsvText(data), '\n') == |data| + 1
    ensures CsvText(data)[|CsvText(data)| - 1] == '\n'
  {
    var rows := CsvRows(data);
    assert Avoids(rows, '\n') by {
      forall i, j | 0 <= i < |rows| && 0 <= j < |rows[i]|
        ensures '\n' !in rows[i][j]
      {
        if i > 0 {
          assert rows[i] == Values(data[i - 1]);
        }
      }
    }
    RenderLineCount(rows);
  }

  /**
   * The keys of records after the first never reach the output: two lists
   * with the same first keys and the same values record by record give the
   * same text.
   */
  lemma HeaderIgnoresLaterKeys(d1: seq<Record>, d2: seq<Record>)
    requires |d1| == |d2| > 0
    requires Keys(d1[0]) == Keys(d2[0])
    requires forall i :: 0 <= i < |d1| ==> Values(d1[i]) == Values(d2[i])
    ensures CsvText(d1) == CsvText(d2)
  {
    assert CsvRows(d1) == CsvRows(d2);
  }

  lemma QuotedPair(x: string, y: string)
    ensures QuotedLine([x, y]) == Quote(x) + "," + Quote(y)
  {
    QuotedLineSnoc([x], y);
    assert [x] + [y] == [x, y];
  }

  lemma RenderThree(a: seq<string>, b: seq<string>, c: seq<string>)
    ensures Render([a, b, c]) == QuotedLine(a) + "\n" + QuotedLine(b) + "\n" + QuotedLine(c) + "\n"
  {
    var rows := [a, b, c];
    RenderSnoc(rows, 0);
    RenderSnoc(rows, 1);
    RenderSnoc(rows, 2);
    assert rows[..0] == [];
    assert rows[..3] == rows;
  }

  lemma TwoRecordRows(r0: Record, r1: Record)
    ensures CsvRows([r0, r1]) == [Keys(r0), Values(r0), Values(r1)]
  {
    CsvRowsAt([r0, r1]);
  }

  lemma PairKeysValues(a: (string, string), b: (string, string))
    ensures Keys([a, b]) == [a.0, b.0] && Values([a, b]) == [a.1, b.1]
  {
  }

  /**
   * Two records of two pairs each: the first record's keys, then each
   * record's values; the second record's keys do not occur.
   */
  lemma TwoByTwo(a: (string, string), b: (string, string), c: (string, string), d: (string, string))
    ensures CsvText([[a, b], [c, d]])
         == (Quote(a.0) + "," + Quote(b.0) + "\n")
          + (Quote(a.1) + "," + Quote(b.1) + "\n")
          + (Quote(c.1) + "," + Quote(d.1) + "\n")
  {
    TwoRecordRows([a, b], [c, d]);
    PairKeysValues(a, b);
    PairKeysValues(c, d);
    RenderThree([a.0, b.0], [a.1, b.1], [c.1, d.1]);
    QuotedPair(a.0, b.0);
    QuotedPair(a.1, b.1);
    QuotedPair(c.1, d.1);
  }

  /** The export of the two-record example, character for character. */
  lemma DoCsvExample()
    ensures CsvText([[("bb", "222"), ("aa", "111")], [("xx", "bbb"), ("zz", "ccc")]])
         == "\"bb\",\"aa\"\n\"222\",\"111\"\n\"bbb\",\"ccc\"\n"
  {
    TwoByTwo(("bb", "222"), ("aa", "111"), ("xx", "bbb"), ("zz", "ccc"));
    assert Quote("bb") + "," + Quote("aa") + "\n" == "\"bb\",\"aa\"\n";
    assert Quote("222") + "," + Quote("111") + "\n" == "\"222\",\"111\"\n";
    assert Quote("bbb") + "," + Quote("ccc") + "\n" == "\"bbb\",\"ccc\"\n";
    assert "\"bb\",\"aa\"\n" + "\"222\",\"111\"\n" + "\"bbb\",\"ccc\"\n"
        == "\"bb\",\"aa\"\n\"222\",\"111\"\n\"bbb\",\"ccc\"\n";
  }
}
