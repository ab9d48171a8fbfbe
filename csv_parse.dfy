/**
 * The CSV reader of the data-generation script: delimiter detection, the quote-aware
 * line parser, the row filter and decimal-separator normalisation.
 */
module CsvParse {
  import opened Text
  import opened Sequences

  type Row = seq<string>

  /** Number of occurrences of c in s. */
  function CountChar(s: string, c: char): nat {
    if s == [] then 0 else (if s[0] == c then 1 else 0) + CountChar(s[1..], c)
  }

  /** `detectDelimiter`: `;` only when the first line has strictly more of them than commas. */
  function DetectDelimiter(firstLine: string): (d: char)
    ensures d == ';' || d == ','
    ensures d == ';' <==> CountChar(firstLine, ';') > CountChar(firstLine, ',')
  {
    if CountChar(firstLine, ';') > CountChar(firstLine, ',') then ';' else ','
  }

  lemma {:induction false} CountCharAppend(a: string, b: string, c: char)
    ensures CountChar(a + b, c) == CountChar(a, c) + CountChar(b, c)
  {
    if a != [] {
      assert (a + b)[1..] == a[1..] + b;
      CountCharAppend(a[1..], b, c);
    } else {
      assert a + b == b;
    }
  }

  /** A header written with `;` and no commas, with at least two columns, is read back as `;`. */
  lemma {:induction false} DetectSemicolonHeader(cols: seq<string>)
    requires |cols| >= 2
    requires forall k :: 0 <= k < |cols| ==> ',' !in cols[k]
    ensures DetectDelimiter(Join(cols, [';'])) == ';'
  {
    JoinCounts(cols);
  }

  lemma {:induction false} JoinCounts(cols: seq<string>)
    requires |cols| >= 1
    requires forall k :: 0 <= k < |cols| ==> ',' !in cols[k]
    ensures CountChar(Join(cols, [';']), ',') == 0
    ensures CountChar(Join(cols, [';']), ';') >= |cols| - 1
  {
    NoCharCount(cols[0], ',');
    if |cols| > 1 {
      JoinCounts(cols[1..]);
      CountCharAppend(cols[0], [';'], ',');
      CountCharAppend(cols[0] + [';'], Join(cols[1..], [';']), ',');
      CountCharAppend(cols[0], [';'], ';');
      CountCharAppend(cols[0] + [';'], Join(cols[1..], [';']), ';');
    }
  }

  lemma {:induction false} NoCharCount(s: string, c: char)
    requires c !in s
    ensures CountChar(s, c) == 0
  {
    if s != [] {
      NoCharCount(s[1..], c);
    }
  }

  /**
   * The state machine `parseCsvLine` runs, from a given field buffer and quoting state:
   * a doubled quote inside quotes adds one quote, any other quote toggles quoting, a
   * delimiter outside quotes ends the field, and every other character is kept.
   */
  function Scan(s: string, d: char, cur: string, inQ: bool): (r: seq<string>)
    ensures |r| >= 1
    decreases |s|
  {
    if s == [] then [cur]
    else if s[0] == '"' then
      if inQ && |s| > 1 && s[1] == '"' then Scan(s[2..], d, cur + ['"'], inQ)
      else Scan(s[1..], d, cur, !inQ)
    else if s[0] == d && !inQ then [cur] + Scan(s[1..], d, [], inQ)
    else Scan(s[1..], d, cur + [s[0]], inQ)
  }

  function ParseLine(line: string, d: char): seq<string> {
    Scan(line, d, [], false)
  }

  /** `parseCsvLine`, walking the line with the index, the field buffer and the quote flag. */
  method ParseCsvLine(line: string, d: char) returns (result: seq<string>)
    ensures result == ParseLine(line, d)
  {
    result := [];
    var current: string := [];
    var inQuotes := false;
    var i := 0;
    while i < |line|
      invariant 0 <= i <= |line|
      invariant result + Scan(line[i..], d, current, inQuotes) == ParseLine(line, d)
    {
      var c := line[i];
      if c == '"' {
        if inQuotes && i + 1 < |line| && line[i + 1] == '"' {
          assert line[i..][2..] == line[i + 2..];
          current := current + ['"'];
          i := i + 1;
        } else {
          assert line[i..][1..] == line[i + 1..];
          inQuotes := !inQuotes;
        }
      } else if c == d && !inQuotes {
        assert line[i..][1..] == line[i + 1..];
        result := result + [current];
        current := [];
      } else {
        assert line[i..][1..] == line[i + 1..];
        current := current + [c];
      }
      i := i + 1;
    }
    assert line[i..] == [];
    result := result + [current];
  }

  /** Delimiters seen outside quotes, under the same quoting rules as `Scan`. */
  function DelimitersOutsideQuotes(s: string, d: char, inQ: bool): nat
    decreases |s|
  {
    if s == [] then 0
    else if s[0] == '"' then
      if inQ && |s| > 1 && s[1] == '"' then DelimitersOutsideQuotes(s[2..], d, inQ)
      else DelimitersOutsideQuotes(s[1..], d, !inQ)
    else if s[0] == d && !inQ then 1 + DelimitersOutsideQuotes(s[1..], d, inQ)
    else DelimitersOutsideQuotes(s[1..], d, inQ)
  }

  /** One more field than there are delimiters outside quotes. */
  lemma {:induction false} ScanFieldCount(s: string, d: char, cur: string, inQ: bool)
    ensures |Scan(s, d, cur, inQ)| == 1 + DelimitersOutsideQuotes(s, d, inQ)
    decreases |s|
  {
    if s == [] {
    } else if s[0] == '"' {
      if inQ && |s| > 1 && s[1] == '"' {
        ScanFieldCount(s[2..], d, cur + ['"'], inQ);
      } else {
        ScanFieldCount(s[1..], d, cur, !inQ);
      }
    } else if s[0] == d && !inQ {
      ScanFieldCount(s[1..], d, [], inQ);
    } else {
      ScanFieldCount(s[1..], d, cur + [s[0]], inQ);
    }
  }

  lemma ParseLineFieldCount(line: string, d: char)
    ensures |ParseLine(line, d)| == 1 + DelimitersOutsideQuotes(line, d, false)
  {
    ScanFieldCount(line, d, [], false);
  }

  /** Every quote of a field doubled, as a CSV writer escapes it. */
  function DoubleQuotes(f: string): (r: string)
    ensures |r| >= |f|
  {
    if f == [] then []
    else if f[0] == '"' then ['"', '"'] + DoubleQuotes(f[1..])
    else [f[0]] + DoubleQuotes(f[1..])
  }

  function Quote(f: string): string {
    ['"'] + DoubleQuotes(f) + ['"']
  }

  /** Every field quoted and the fields joined by the delimiter. */
  function Serialize(fields: seq<string>, d: char): string
    requires |fields| >= 1
  {
    if |fields| == 1 then Quote(fields[0])
    else Quote(fields[0]) + [d] + Serialize(fields[1..], d)
  }

  /** Inside quotes the escaped text reads back as the field, and the closing quote ends quoting. */
  lemma {:induction false} ScanQuotedBody(f: string, rest: string, d: char, cur: string)
    requires d != '"'
    requires rest == [] || rest[0] != '"'
    ensures Scan(DoubleQuotes(f) + ['"'] + rest, d, cur, true) == Scan(rest, d, cur + f, false)
    decreases |f|
  {
    var s := DoubleQuotes(f) + ['"'] + rest;
    if f == [] {
      assert s == ['"'] + rest;
      assert s[1..] == rest;
      assert cur + f == cur;
    } else if f[0] == '"' {
      assert s == ['"', '"'] + (DoubleQuotes(f[1..]) + ['"'] + rest);
      assert s[2..] == DoubleQuotes(f[1..]) + ['"'] + rest;
      ScanQuotedBody(f[1..], rest, d, cur + ['"']);
      assert cur + ['"'] + f[1..] == cur + f;
    } else {
      assert s == [f[0]] + (DoubleQuotes(f[1..]) + ['"'] + rest);
      assert s[1..] == DoubleQuotes(f[1..]) + ['"'] + rest;
      ScanQuotedBody(f[1..], rest, d, cur + [f[0]]);
      assert cur + [f[0]] + f[1..] == cur + f;
    }
  }

  /** Quoting every field and joining with the delimiter parses back to the same fields. */
  lemma {:induction false} ParseSerialize(fields: seq<string>, d: char)
    requires |fields| >= 1
    requires d != '"'
    ensures ParseLine(Serialize(fields, d), d) == fields
  {
    ScanSerialize(fields, d);
  }

  /** A quoted field followed by text that does not start with a quote reads back as the field. */
  lemma ScanQuoted(f: string, rest: string, d: char)
    requires d != '"'
    requires rest == [] || rest[0] != '"'
    ensures Scan(Quote(f) + rest, d, [], false) == Scan(rest, d, f, false)
  {
    var s := Quote(f) + rest;
    assert s[0] == '"';
    assert s[1..] == DoubleQuotes(f) + ['"'] + rest;
    ScanQuotedBody(f, rest, d, []);
    assert [] + f == f;
  }

  lemma {:induction false} ScanSerialize(fields: seq<string>, d: char)
    requires |fields| >= 1
    requires d != '"'
    ensures Scan(Serialize(fields, d), d, [], false) == fields
  {
    var f := fields[0];
    if |fields| == 1 {
      assert Quote(f) + [] == Quote(f);
      ScanQuoted(f, [], d);
      assert fields == [f];
    } else {
      var tail := Serialize(fields[1..], d);
      assert Serialize(fields, d) == Quote(f) + ([d] + tail);
      ScanQuoted(f, [d] + tail, d);
      assert ([d] + tail)[1..] == tail;
      ScanSerialize(fields[1..], d);
      assert fields == [f] + fields[1..];
    }
  }

  /** `content.split(/\r?\n/)`: split at line feeds, dropping a carriage return just before one. */
  function Lines(content: string): (r: seq<string>)
    ensures |r| >= 1
  {
    var pieces := Split(content, '\n');
    seq(|pieces|, i requires 0 <= i < |pieces| =>
      if i < |pieces| - 1 && pieces[i] != [] && pieces[i][|pieces[i]| - 1] == '\r'
      then pieces[i][..|pieces[i]| - 1] else pieces[i])
  }

  /** The lines kept by `filter(l => l.trim())`. */
  function NonBlankLines(content: string): (r: seq<string>)
    ensures forall i :: 0 <= i < |r| ==> Trim(r[i]) != []
  {
    Filter(Lines(content), l => Trim(l) != [])
  }

  /** Rows of the given lines whose field count equals `width`, in order. */
  function RowsOfWidth(lines: seq<string>, d: char, width: nat): (r: seq<Row>)
    ensures |r| <= |lines|
    ensures forall k :: 0 <= k < |r| ==> |r[k]| == width
  {
    if lines == [] then []
    else
      var row := ParseLine(lines[|lines| - 1], d);
      RowsOfWidth(lines[..|lines| - 1], d, width) + (if |row| == width then [row] else [])
  }

  lemma RowsOfWidthSnoc(lines: seq<string>, line: string, d: char, width: nat)
    ensures RowsOfWidth(lines + [line], d, width)
         == RowsOfWidth(lines, d, width) + (if |ParseLine(line, d)| == width then [ParseLine(line, d)] else [])
  {
    assert (lines + [line])[..|lines|] == lines;
  }

  /** What `parseCsvRows` returns: the later non-blank lines whose width is the header's. */
  function CsvRows(content: string): seq<Row> {
    var lines := NonBlankLines(content);
    if lines == [] then []
    else
      var d := DetectDelimiter(lines[0]);
      RowsOfWidth(lines[1..], d, |ParseLine(lines[0], d)|)
  }

  /** `parseCsvRows` */
  method ParseCsvRows(content: string) returns (rows: seq<Row>)
    ensures rows == CsvRows(content)
  {
    var lines := NonBlankLines(content);
    if |lines| == 0 {
      return [];
    }
    var d := DetectDelimiter(lines[0]);
    var headers := ParseCsvLine(lines[0], d);
    rows := KeepRowsOfWidth(lines[1..], d, |headers|);
  }

  /** The loop of `parseCsvRows` over the lines after the header. */
  method KeepRowsOfWidth(lines: seq<string>, d: char, width: nat) returns (rows: seq<Row>)
    ensures rows == RowsOfWidth(lines, d, width)
  {
    rows := [];
    var i := 0;
    while i < |lines|
      invariant 0 <= i <= |lines|
      invariant rows == RowsOfWidth(lines[..i], d, width)
    {
      var row := ParseCsvLine(lines[i], d);
      RowsOfWidthSnoc(lines[..i], lines[i], d, width);
      assert lines[..i] + [lines[i]] == lines[..i + 1];
      if |row| == width {
        rows := rows + [row];
      }
      i := i + 1;
    }
    assert lines[..i] == lines;
  }

  /** Every row has the header's width, and the header itself is never a row. */
  lemma CsvRowsShape(content: string)
    ensures var lines := NonBlankLines(content);
      lines != [] ==>
        var d := DetectDelimiter(lines[0]);
        && |CsvRows(content)| <= |lines| - 1
        && forall k :: 0 <= k < |CsvRows(content)| ==> |CsvRows(content)[k]| == |ParseLine(lines[0], d)|
  {
  }

  lemma AllSpaceSlice(s: string, i: nat, j: nat)
    requires AllSpace(s) && i <= j <= |s|
    ensures AllSpace(s[i..j])
  {
    var t := s[i..j];
    forall k | 0 <= k < |t| ensures IsSpace(t[k]) {
      assert t[k] == s[i + k];
    }
  }

  lemma {:induction false} SplitAllSpace(s: string, sep: char)
    requires AllSpace(s)
    ensures forall k :: 0 <= k < |Split(s, sep)| ==> AllSpace(Split(s, sep)[k])
    decreases |s|
  {
    var i := IndexOf(s, sep);
    if i != -1 {
      AllSpaceSlice(s, i + 1, |s|);
      assert s[i + 1..|s|] == s[i + 1..];
      SplitAllSpace(s[i + 1..], sep);
      AllSpaceSlice(s, 0, i);
      assert s[0..i] == s[..i];
    }
  }

  lemma LinesAllSpace(content: string)
    requires AllSpace(content)
    ensures forall i :: 0 <= i < |Lines(content)| ==> Trim(Lines(content)[i]) == []
  {
    var pieces := Split(content, '\n');
    SplitAllSpace(content, '\n');
    var lines := Lines(content);
    forall i | 0 <= i < |lines| ensures Trim(lines[i]) == [] {
      AllSpaceSlice(pieces[i], 0, |lines[i]|);
      assert lines[i] == pieces[i][0..|lines[i]|];
      TrimEmptyIffAllSpace(lines[i]);
    }
  }

  /** Blank content (nothing but whitespace, including no content at all) gives no rows. */
  lemma BlankContentNoRows(content: string)
    requires AllSpace(content)
    ensures CsvRows(content) == []
  {
    LinesAllSpace(content);
  }

  /** `normalizeDecimal`: blank gives `''`, otherwise only the first comma becomes a dot. */
  function NormalizeDecimal(value: string): (r: string)
    ensures Trim(value) == [] ==> r == []
    ensures Trim(value) != [] && ',' !in value ==> r == value
    ensures Trim(value) != [] && ',' in value ==>
      var i := IndexOf(value, ',');
      r == value[..i] + "." + value[i + 1..]
  {
    if value == [] || Trim(value) == [] then []
    else
      ReplaceFirstChar(value, ',', '.');
      ReplaceFirst(value, [','], ['.'])
  }

  /** Replacing a one-character pattern acts at its first position only. */
  lemma {:induction false} ReplaceFirstChar(s: string, c: char, e: char)
    ensures c !in s ==> ReplaceFirst(s, [c], [e]) == s
    ensures c in s ==> ReplaceFirst(s, [c], [e]) == s[..IndexOf(s, c)] + [e] + s[IndexOf(s, c) + 1..]
    decreases |s|
  {
    if s != [] {
      if s[0] == c {
        assert StartsWith(s, [c]);
      } else {
        assert !StartsWith(s, [c]);
        ReplaceFirstChar(s[1..], c, e);
        if c in s {
          assert c in s[1..];
          var i := IndexOf(s[1..], c);
          assert IndexOf(s, c) == i + 1;
          assert [s[0]] + s[1..][..i] == s[..i + 1];
          assert s[1..][i + 1..] == s[i + 2..];
        } else {
          assert s == [s[0]] + s[1..];
        }
      }
    }
  }
}
