/**
 * The second half of the data-generation script: the website and contract-category
 * lookup tables, fuzzy matching of a fund name to its contract category, the keyed
 * join of the returns and costs tables, and the order of the merged rows.
 */
module CsvMerge {
  import opened Wrappers
  import opened Text
  import opened Sequences
  import opened OrderedMaps
  import opened CsvParse

  const BOM: char := '\U{FEFF}'

  /** The file text without a leading byte-order mark. */
  function DropBom(content: string): (r: string)
    ensures content == [] || content[0] != BOM ==> r == content
    ensures content != [] && content[0] == BOM ==> r == content[1..]
  {
    if content != [] && content[0] == BOM then content[1..] else content
  }

  // ---------------------------------------------------------------------------
  // Websites: `TYPE|N.ALBO` to the site column.

  function FondiKey(row: Row): string
    requires |row| >= 2
  {
    Trim(row[0]) + "|" + Trim(row[1])
  }

  /** The map entry a row of the websites file contributes: rows with four or more columns only. */
  function FondiEntry(row: Row): seq<(string, string)> {
    if |row| >= 4 then [(FondiKey(row), Trim(row[3]))] else []
  }

  function FondiEntries(rows: seq<Row>): seq<(string, string)> {
    if rows == [] then [] else FondiEntries(rows[..|rows| - 1]) + FondiEntry(rows[|rows| - 1])
  }

  /** The websites map; a missing file (None) gives the empty map. */
  function FondiInfo(file: Option<string>): OrderedMap<string, string> {
    match file
    case None => []
    case Some(content) => SetAll([], FondiEntries(CsvRows(DropBom(content))))
  }

  /** `readFondiInfo`, with the file read replaced by its content (None when the file is missing). */
  method ReadFondiInfo(file: Option<string>) returns (m: OrderedMap<string, string>)
    ensures m == FondiInfo(file)
  {
    if file.None? {
      return [];
    }
    var rows := ParseCsvRows(DropBom(file.value));
    m := FondiFromRows(rows);
  }

  /** The `forEach` of `readFondiInfo`: each row of four or more columns sets its key. */
  method FondiFromRows(rows: seq<Row>) returns (m: OrderedMap<string, string>)
    ensures m == SetAll([], FondiEntries(rows))
  {
    m := [];
    var i := 0;
    while i < |rows|
      invariant 0 <= i <= |rows|
      invariant m == SetAll([], FondiEntries(rows[..i]))
    {
      var row := rows[i];
      FondiEntriesStep(rows, i);
      FondiEntryApplied(m, row);
      if |row| >= 4 {
        m := Set(m, FondiKey(row), Trim(row[3]));
      }
      i := i + 1;
    }
    assert rows[..i] == rows;
  }

  lemma FondiEntriesStep(rows: seq<Row>, i: nat)
    requires i < |rows|
    ensures SetAll([], FondiEntries(rows[..i + 1])) == SetAll(SetAll([], FondiEntries(rows[..i])), FondiEntry(rows[i]))
  {
    assert rows[..i + 1][..i] == rows[..i];
    SetAllAppend([], FondiEntries(rows[..i]), FondiEntry(rows[i]));
  }

  lemma FondiEntryApplied(m: OrderedMap<string, string>, row: Row)
    ensures SetAll(m, FondiEntry(row)) == if |row| >= 4 then Set(m, FondiKey(row), Trim(row[3])) else m
  {
    if |row| >= 4 {
      SetAllSingle(m, FondiKey(row), Trim(row[3]));
    }
  }

  /** The site of a row is what its key maps to, unless a later row repeats the key. */
  lemma {:induction false} FondiLookupLast(rows: seq<Row>, i: nat)
    requires i < |rows| && |rows[i]| >= 4
    requires forall j :: i < j < |rows| && |rows[j]| >= 4 ==> FondiKey(rows[j]) != FondiKey(rows[i])
    ensures Get(SetAll([], FondiEntries(rows)), FondiKey(rows[i])) == Some(Trim(rows[i][3]))
    decreases |rows|
  {
    var init := rows[..|rows| - 1];
    var last := rows[|rows| - 1];
    SetAllAppend([], FondiEntries(init), FondiEntry(last));
    if i == |rows| - 1 {
      FondiLookupAtLast(SetAll([], FondiEntries(init)), last);
    } else {
      assert init[i] == rows[i];
      FondiLookupLast(init, i);
      FondiLookupPastLast(SetAll([], FondiEntries(init)), last, FondiKey(rows[i]));
    }
  }

  /** A row with another key leaves a lookup as it was. */
  lemma FondiLookupPastLast(m: OrderedMap<string, string>, row: Row, key: string)
    requires |row| >= 4 ==> FondiKey(row) != key
    ensures Get(SetAll(m, FondiEntry(row)), key) == Get(m, key)
  {
    SetAllUntouched(m, FondiEntry(row), key);
  }

  lemma FondiLookupAtLast(m: OrderedMap<string, string>, row: Row)
    requires |row| >= 4
    ensures Get(SetAll(m, FondiEntry(row)), FondiKey(row)) == Some(Trim(row[3]))
  {
    SetAllSingle(m, FondiKey(row), Trim(row[3]));
  }

  /** A key no row produces is absent. */
  lemma {:induction false} FondiLookupMissing(rows: seq<Row>, key: string)
    requires forall j :: 0 <= j < |rows| && |rows[j]| >= 4 ==> FondiKey(rows[j]) != key
    ensures Get(SetAll([], FondiEntries(rows)), key) == None
    decreases |rows|
  {
    if rows != [] {
      var init := rows[..|rows| - 1];
      SetAllAppend([], FondiEntries(init), FondiEntry(rows[|rows| - 1]));
      FondiLookupMissing(init, key);
    }
  }

  // ---------------------------------------------------------------------------
  // Contract categories: three name variants of each fund to its category.

  /** `s` starts with the upper-case word w, compared case-insensitively when asked. */
  predicate HasWord(s: string, w: string, ignoreCase: bool) {
    |w| <= |s| && (if ignoreCase then ToUpper(s[..|w|]) == w else s[..|w|] == w)
  }

  const Fondo := "FONDO"
  const Pensione := "PENSIONE"

  /**
   * `replace(/^FONDO\s+PENSIONE\s+/, '')`, with the `i` flag when `ignoreCase`: the
   * prefix is removed together with all the whitespace that follows it; without a
   * complete match the text is unchanged.
   */
  function StripFondoPensione(s: string, ignoreCase: bool): (r: string)
    ensures |r| <= |s| && r == s[|s| - |r|..]
  {
    var n := WordLength(s, Fondo, ignoreCase);
    var m := if n == 0 then 0 else WordLength(s[n..], Pensione, ignoreCase);
    if m == 0 then s else s[n + m..]
  }

  /** How much a leading word `w` and the whitespace after it (at least one character) take up; 0 without a match. */
  function WordLength(s: string, w: string, ignoreCase: bool): (n: nat)
    ensures n <= |s|
  {
    if !HasWord(s, w, ignoreCase) then 0
    else
      var t := TrimStart(s[|w|..]);
      if |t| == |s| - |w| then 0 else |s| - |t|
  }

  lemma TrimStartOneSpace(x: string)
    requires x == [] || !IsSpace(x[0])
    ensures TrimStart(" " + x) == x
  {
    assert (" " + x)[1..] == x;
  }

  lemma HasWordPrefix(w: string, x: string, ignoreCase: bool)
    requires ToUpper(w) == w
    ensures HasWord(w + x, w, ignoreCase)
  {
    assert (w + x)[..|w|] == w;
  }

  /** A capital word, one space and a text not starting with whitespace: the word and the space are matched. */
  lemma WordLengthPrefix(w: string, y: string, ignoreCase: bool)
    requires ToUpper(w) == w
    requires y == [] || !IsSpace(y[0])
    ensures WordLength(w + " " + y, w, ignoreCase) == |w| + 1
  {
    var s := w + " " + y;
    assert s == w + (" " + y);
    HasWordPrefix(w, " " + y, ignoreCase);
    assert s[|w|..] == " " + y;
    TrimStartOneSpace(y);
  }

  /** The prefix and its whitespace come off, and nothing else. */
  lemma StripFondoPensionePrefix(x: string, ignoreCase: bool)
    requires x == [] || !IsSpace(x[0])
    ensures StripFondoPensione("FONDO PENSIONE " + x, ignoreCase) == x
  {
    var b := Pensione + " " + x;
    var s := Fondo + " " + b;
    assert "FONDO PENSIONE " + x == s;
    ToUpperNoLowercase(Fondo);
    ToUpperNoLowercase(Pensione);
    WordLengthPrefix(Fondo, b, ignoreCase);
    assert s[6..] == b;
    WordLengthPrefix(Pensione, x, ignoreCase);
    assert s[15..] == x;
  }

  /** The keys a row of the categories file sets: the name, the name without spaces, the name without the prefix. */
  function CategoryKeys(name: string): seq<string> {
    [ToUpper(name), ToUpper(RemoveSpaces(name)), ToUpper(StripFondoPensione(name, true))]
  }

  /** Every key paired with the same value. */
  function KeyedEntries(keys: seq<string>, v: string): (r: seq<(string, string)>)
    ensures |r| == |keys|
  {
    seq(|keys|, i requires 0 <= i < |keys| => (keys[i], v))
  }

  function CategoryEntry(row: Row): seq<(string, string)> {
    if |row| >= 3 then KeyedEntries(CategoryKeys(Trim(row[0])), Trim(row[1])) else []
  }

  function CategoryEntries(rows: seq<Row>): seq<(string, string)> {
    if rows == [] then [] else CategoryEntries(rows[..|rows| - 1]) + CategoryEntry(rows[|rows| - 1])
  }

  /**
   * The categories map. The rows returned by the parser already lack the header, and
   * the first of them is skipped once more, so the first fund never gets an entry.
   */
  function CategoryData(file: Option<string>): OrderedMap<string, string> {
    match file
    case None => []
    case Some(content) =>
      var rows := CsvRows(content);
      SetAll([], CategoryEntries(if rows == [] then [] else rows[1..]))
  }

  /** `readCategoryData`, with the file read replaced by its content (None when the file is missing). */
  method ReadCategoryData(file: Option<string>) returns (m: OrderedMap<string, string>)
    ensures m == CategoryData(file)
  {
    if file.None? {
      return [];
    }
    var all := ParseCsvRows(file.value);
    m := CategoriesFromRows(if all == [] then [] else all[1..]);
  }

  /** The `forEach` of `readCategoryData`: each row of three or more columns sets its three keys. */
  method CategoriesFromRows(rows: seq<Row>) returns (m: OrderedMap<string, string>)
    ensures m == SetAll([], CategoryEntries(rows))
  {
    m := [];
    var i := 0;
    while i < |rows|
      invariant 0 <= i <= |rows|
      invariant m == SetAll([], CategoryEntries(rows[..i]))
    {
      CategoryEntriesStep(rows, i);
      m := AddCategoryRow(m, rows[i]);
      i := i + 1;
    }
    assert rows[..i] == rows;
  }

  lemma CategoryEntriesStep(rows: seq<Row>, i: nat)
    requires i < |rows|
    ensures SetAll([], CategoryEntries(rows[..i + 1])) == SetAll(SetAll([], CategoryEntries(rows[..i])), CategoryEntry(rows[i]))
  {
    assert rows[..i + 1][..i] == rows[..i];
    SetAllAppend([], CategoryEntries(rows[..i]), CategoryEntry(rows[i]));
  }

  /** One row of `readCategoryData`: a row of three or more columns sets its three keys. */
  method AddCategoryRow(m0: OrderedMap<string, string>, row: Row) returns (m: OrderedMap<string, string>)
    ensures m == SetAll(m0, CategoryEntry(row))
  {
    if |row| >= 3 {
      m := SetKeys(m0, CategoryKeys(Trim(row[0])), Trim(row[1]));
    } else {
      m := m0;
    }
  }

  /** `keys.forEach(key => categoryMap.set(key, categoria))` */
  method SetKeys(m0: OrderedMap<string, string>, keys: seq<string>, v: string) returns (m: OrderedMap<string, string>)
    ensures m == SetAll(m0, KeyedEntries(keys, v))
  {
    m := m0;
    var k := 0;
    while k < |keys|
      invariant 0 <= k <= |keys|
      invariant m == SetAll(m0, KeyedEntries(keys[..k], v))
    {
      KeyedEntriesSnoc(keys, k, v);
      SetAllSnoc(m0, KeyedEntries(keys[..k], v), (keys[k], v));
      m := Set(m, keys[k], v);
      k := k + 1;
    }
    assert keys[..k] == keys;
  }

  lemma KeyedEntriesSnoc(keys: seq<string>, k: nat, v: string)
    requires k < |keys|
    ensures KeyedEntries(keys[..k + 1], v) == KeyedEntries(keys[..k], v) + [(keys[k], v)]
  {
    var a := KeyedEntries(keys[..k + 1], v);
    var b := KeyedEntries(keys[..k], v) + [(keys[k], v)];
    assert |a| == |b|;
    forall i | 0 <= i < |a| ensures a[i] == b[i] {
      assert keys[..k + 1][i] == keys[i];
    }
  }

  /** The first data row never reaches the map, whatever it holds. */
  lemma CategoryDataSkipsFirstRow(content: string, first: Row)
    requires CsvRows(content) != []
    ensures var rows := CsvRows(content);
      CategoryData(Some(content)) == SetAll([], CategoryEntries(([first] + rows[1..])[1..]))
  {
    var rows := CsvRows(content);
    assert ([first] + rows[1..])[1..] == rows[1..];
  }

  /** The last row of the file wins for each of its three keys. */
  lemma CategoryLookupLast(rows: seq<Row>, key: string)
    requires rows != [] && |rows[|rows| - 1]| >= 3
    requires key in CategoryKeys(Trim(rows[|rows| - 1][0]))
    ensures Get(SetAll([], CategoryEntries(rows)), key) == Some(Trim(rows[|rows| - 1][1]))
  {
    var last := rows[|rows| - 1];
    var before := SetAll([], CategoryEntries(rows[..|rows| - 1]));
    SetAllAppend([], CategoryEntries(rows[..|rows| - 1]), CategoryEntry(last));
    RowKeysLookup(before, CategoryKeys(Trim(last[0])), Trim(last[1]), key);
  }

  lemma {:induction false} RowKeysLookup(m: OrderedMap<string, string>, keys: seq<string>, v: string, key: string)
    requires key in keys
    ensures Get(SetAll(m, KeyedEntries(keys, v)), key) == Some(v)
    decreases |keys|
  {
    var e := KeyedEntries(keys, v);
    assert e[1..] == KeyedEntries(keys[1..], v);
    if key in keys[1..] {
      RowKeysLookup(Set(m, keys[0], v), keys[1..], v, key);
    } else {
      assert key == keys[0];
      SetAllUntouched(Set(m, keys[0], v), e[1..], key);
    }
  }

  // ---------------------------------------------------------------------------
  // Fuzzy matching of a fund name.

  /** The first entry, in map order, whose key is inside the name or holds the stripped name. */
  function FirstPartialMatch(entries: OrderedMap<string, string>, clean: string, stripped: string): (r: Option<string>)
    ensures r.Some? ==> exists i :: (0 <= i < |entries| && entries[i].1 == r.value
      && (Contains(clean, entries[i].0) || Contains(entries[i].0, stripped)))
    ensures r.None? <==> forall i :: 0 <= i < |entries| ==>
      !Contains(clean, entries[i].0) && !Contains(entries[i].0, stripped)
    ensures r.Some? ==> exists k :: (k, r.value) in entries
  {
    if entries == [] then None
    else if Contains(clean, entries[0].0) || Contains(entries[0].0, stripped) then Some(entries[0].1)
    else
      var r := FirstPartialMatch(entries[1..], clean, stripped);
      assert forall i :: 1 <= i < |entries| ==> entries[i] == entries[1..][i - 1];
      r
  }

  /**
   * `matchCategoryData`: an empty name gives null; otherwise the upper-cased trimmed
   * name is tried as it is, without whitespace, and without the `FONDO PENSIONE` prefix,
   * then the first partial match in map order.
   */
  function MatchCategoryData(fundName: string, m: OrderedMap<string, string>): (r: Option<string>)
    ensures fundName == [] ==> r == None
    ensures fundName != [] && Has(m, Trim(ToUpper(fundName))) ==> r == Get(m, Trim(ToUpper(fundName)))
    ensures r.Some? ==> exists k :: (k, r.value) in m
  {
    if fundName == [] then None
    else
      var clean := Trim(ToUpper(fundName));
      var noSpaces := RemoveSpaces(clean);
      var stripped := StripFondoPensione(clean, false);
      if Has(m, clean) then Get(m, clean)
      else if Has(m, noSpaces) then Get(m, noSpaces)
      else if Has(m, stripped) then Get(m, stripped)
      else FirstPartialMatch(m, clean, stripped)
  }

  /** When no lookup hits, the partial match takes the first entry that qualifies, in map order. */
  lemma MatchCategoryDataPartial(fundName: string, m: OrderedMap<string, string>, i: nat)
    requires fundName != []
    requires var clean := Trim(ToUpper(fundName));
      !Has(m, clean) && !Has(m, RemoveSpaces(clean)) && !Has(m, StripFondoPensione(clean, false))
    requires i < |m|
    requires var clean := Trim(ToUpper(fundName));
      Contains(clean, m[i].0) || Contains(m[i].0, StripFondoPensione(clean, false))
    requires forall j :: 0 <= j < i ==>
      var clean := Trim(ToUpper(fundName));
      !Contains(clean, m[j].0) && !Contains(m[j].0, StripFondoPensione(clean, false))
    ensures MatchCategoryData(fundName, m) == Some(m[i].1)
  {
    var clean := Trim(ToUpper(fundName));
    FirstPartialAt(m, clean, StripFondoPensione(clean, false), i);
  }

  lemma {:induction false} FirstPartialAt(entries: OrderedMap<string, string>, clean: string, stripped: string, i: nat)
    requires i < |entries|
    requires Contains(clean, entries[i].0) || Contains(entries[i].0, stripped)
    requires forall j :: 0 <= j < i ==> !Contains(clean, entries[j].0) && !Contains(entries[j].0, stripped)
    ensures FirstPartialMatch(entries, clean, stripped) == Some(entries[i].1)
    decreases i
  {
    if i > 0 {
      FirstPartialAt(entries[1..], clean, stripped, i - 1);
    }
  }

  /**
   * A name of blanks is truthy, trims to the empty string, and every key contains the
   * empty string: it gets the category of the first entry of the map.
   */
  lemma BlankNameTakesFirstEntry(fundName: string, m: OrderedMap<string, string>)
    requires fundName != [] && AllSpace(fundName)
    requires m != [] && !Has(m, [])
    ensures MatchCategoryData(fundName, m) == Some(m[0].1)
  {
    var up := ToUpper(fundName);
    assert AllSpace(up) by {
      forall j | 0 <= j < |up| ensures IsSpace(up[j]) {
        assert IsSpace(fundName[j]);
      }
    }
    TrimEmptyIffAllSpace(up);
    assert Trim(up) == [];
    assert RemoveSpaces([]) == [];
    assert StripFondoPensione([], false) == [];
    ContainsEmpty(m[0].0);
    FirstPartialAt(m, [], [], 0);
  }

  // ---------------------------------------------------------------------------
  // The join of the returns and costs tables.

  /** `row.slice(0, 5).join('|')`: the register entry, fund, company and sub-fund, untrimmed. */
  function RowKey(row: Row): string {
    Join(Slice(row, 0, 5), "|")
  }

  function KeyedRowEntries(rows: seq<Row>): seq<(string, Row)> {
    if rows == [] then [] else KeyedRowEntries(rows[..|rows| - 1]) + [(RowKey(rows[|rows| - 1]), rows[|rows| - 1])]
  }

  /** The rows of a table keyed by `RowKey`; a later row with the same key replaces an earlier one. */
  function KeyedRows(rows: seq<Row>): OrderedMap<string, Row> {
    SetAll([], KeyedRowEntries(rows))
  }

  /** The `forEach` that fills `rendimentiMap` or `costiMap`. */
  method KeyRows(rows: seq<Row>) returns (m: OrderedMap<string, Row>)
    ensures m == KeyedRows(rows)
  {
    m := [];
    var i := 0;
    while i < |rows|
      invariant 0 <= i <= |rows|
      invariant m == SetAll([], KeyedRowEntries(rows[..i]))
    {
      assert rows[..i + 1][..i] == rows[..i];
      SetAllSnoc([], KeyedRowEntries(rows[..i]), (RowKey(rows[i]), rows[i]));
      m := Set(m, RowKey(rows[i]), rows[i]);
      i := i + 1;
    }
    assert rows[..i] == rows;
  }

  /** `xs.map(v => v.trim())` */
  function TrimAll(xs: seq<string>): (r: seq<string>)
    ensures |r| == |xs|
    ensures forall i :: 0 <= i < |xs| ==> r[i] == Trim(xs[i])
  {
    if xs == [] then [] else [Trim(xs[0])] + TrimAll(xs[1..])
  }

  /** `xs.map(normalizeDecimal)` */
  function NormalizeAll(xs: seq<string>): (r: seq<string>)
    ensures |r| == |xs|
    ensures forall i :: 0 <= i < |xs| ==> r[i] == NormalizeDecimal(xs[i])
  {
    if xs == [] then [] else [NormalizeDecimal(xs[0])] + NormalizeAll(xs[1..])
  }

  /** The contract category column: matched by fund name for FPN rows only, `''` when none. */
  function ContractCategory(rend: Row, cats: OrderedMap<string, string>): (r: string)
    ensures r != [] ==> |rend| >= 1 && rend[0] == "FPN"
  {
    if |rend| >= 3 && rend[0] == "FPN" then MatchCategoryData(rend[2], cats).GetOr("") else ""
  }

  /** The website column: the site stored under `TYPE|N.ALBO`, `''` when none. */
  function Website(rend: Row, fondi: OrderedMap<string, string>): string
    requires |rend| >= 2
  {
    Get(fondi, FondiKey(rend)).GetOr("")
  }

  /**
   * One merged row: the six identifying columns trimmed, the five returns and four
   * cost indicators with a decimal point, the contract category and the website.
   * A row with a single column has no register number; the script then fails on
   * it, which is why `|rend| >= 2` is required.
   */
  function MergeRow(rend: Row, costi: Row, fondi: OrderedMap<string, string>, cats: OrderedMap<string, string>): (r: Row)
    requires |rend| >= 2
    ensures |r| >= 2 && r[1] == Trim(rend[1])
  {
    TrimAll(Slice(rend, 0, 6))
      + NormalizeAll(Slice(rend, 6, 11))
      + NormalizeAll(Slice(costi, 6, 10))
      + [ContractCategory(rend, cats), Website(rend, fondi)]
  }

  /**
   * Every row of the returns table whose key the costs table shares has a register
   * number column, so the join never reads a missing one.
   */
  ghost predicate WideWhereShared(rend: OrderedMap<string, Row>, costi: OrderedMap<string, Row>) {
    forall k {:trigger Get(rend, k)} :: k in Keys(rend) && Has(costi, k) ==> |Get(rend, k).value| >= 2
  }

  lemma WideEverywhere(rend: OrderedMap<string, Row>, costi: OrderedMap<string, Row>)
    requires forall e :: e in rend ==> |e.1| >= 2
    ensures WideWhereShared(rend, costi)
  {
    forall k | k in Keys(rend) && Has(costi, k) ensures |Get(rend, k).value| >= 2 {
      assert (k, Get(rend, k).value) in rend;
    }
  }

  /** The rows emitted in key order of the returns table, for keys the costs table has too. */
  function Merged(keys: seq<string>, rend: OrderedMap<string, Row>, costi: OrderedMap<string, Row>,
                  fondi: OrderedMap<string, string>, cats: OrderedMap<string, string>): seq<Row>
    requires forall k :: k in keys ==> k in Keys(rend)
    requires WideWhereShared(rend, costi)
  {
    if keys == [] then []
    else
      var k := keys[|keys| - 1];
      var before := Merged(keys[..|keys| - 1], rend, costi, fondi, cats);
      var r := Get(rend, k).value;
      match Get(costi, k)
      case None => before
      case Some(c) => before + [MergeRow(r, c, fondi, cats)]
  }

  // ---------------------------------------------------------------------------
  // Order of the merged rows.

  /** `parseInt(s, 10)`: leading blanks, an optional sign, the longest run of digits; None for NaN. */
  function ParseInt(s: string): (r: Option<int>) {
    var t := TrimStart(s);
    var signed := t != [] && (t[0] == '-' || t[0] == '+');
    var u := if signed then t[1..] else t;
    var n := DigitRun(u);
    if n == 0 then None
    else
      var v: int := DigitsValue(u[..n]);
      if t[0] == '-' then Some(-v) else Some(v)
  }

  predicate IsDigit(c: char) {
    '0' <= c <= '9'
  }

  /** The length of the run of digits at the front of s. */
  function DigitRun(s: string): (n: nat)
    ensures n <= |s|
    ensures forall i :: 0 <= i < n ==> IsDigit(s[i])
    ensures n < |s| ==> !IsDigit(s[n])
  {
    if s != [] && IsDigit(s[0]) then 1 + DigitRun(s[1..]) else 0
  }

  function DigitsValue(s: string): nat
    requires forall i :: 0 <= i < |s| ==> IsDigit(s[i])
  {
    if s == [] then 0
    else
      assert IsDigit(s[|s| - 1]);
      10 * DigitsValue(s[..|s| - 1]) + (s[|s| - 1] as int - '0' as int)
  }

  /** Reading back the decimal form of a number gives the number. */
  lemma ParseIntOfDecimal(n: nat)
    ensures ParseInt(NatToString(n)) == Some(n)
  {
    var s := NatToString(n);
    TrimStartOfDigits(s);
    DigitRunAll(s);
    assert s[..|s|] == s;
    DigitsValueOfDecimal(n);
  }

  lemma TrimStartOfDigits(s: string)
    requires s != [] && IsDigit(s[0])
    ensures TrimStart(s) == s
  {
    assert !IsSpace(s[0]);
    var t := TrimStart(s);
    TrimStartDropsSpaces(s);
  }

  lemma {:induction false} DigitRunAll(s: string)
    requires forall i :: 0 <= i < |s| ==> IsDigit(s[i])
    ensures DigitRun(s) == |s|
  {
    if s != [] {
      DigitRunAll(s[1..]);
    }
  }

  lemma {:induction false} DigitsValueOfDecimal(n: nat)
    ensures DigitsValue(NatToString(n)) == n
  {
    var s := NatToString(n);
    if n >= 10 {
      assert s[..|s| - 1] == NatToString(n / 10);
      DigitsValueOfDecimal(n / 10);
    }
  }

  /** `typeOrder[t] || 999` */
  function TypeRank(t: string): int {
    if t == "FPN" then 1 else if t == "FPA" then 2 else if t == "PIP" then 3 else 999
  }

  function Column(row: Row, i: nat): string {
    if i < |row| then row[i] else ""
  }

  /**
   * The comparator of the final sort: type rank first, then register number. When
   * either register number is NaN the difference is NaN, which the sort treats as 0.
   */
  function CompareRows(a: Row, b: Row): int {
    var ra := TypeRank(Column(a, 0));
    var rb := TypeRank(Column(b, 0));
    if ra != rb then ra - rb
    else match (ParseInt(Column(a, 1)), ParseInt(Column(b, 1)))
      case (Some(x), Some(y)) => x - y
      case _ => 0
  }

  predicate RowLe(a: Row, b: Row) {
    CompareRows(a, b) <= 0
  }

  /** With every register number readable, the comparator orders rows by (type rank, number). */
  lemma RowLeLexicographic(a: Row, b: Row)
    requires ParseInt(Column(a, 1)).Some? && ParseInt(Column(b, 1)).Some?
    ensures RowLe(a, b) <==>
      var ra := TypeRank(Column(a, 0));
      var rb := TypeRank(Column(b, 0));
      ra < rb || (ra == rb && ParseInt(Column(a, 1)).value <= ParseInt(Column(b, 1)).value)
  {
  }

  lemma RowLeTotalPreorder(rows: seq<Row>)
    requires forall r :: r in rows ==> ParseInt(Column(r, 1)).Some?
    ensures TotalPreorderOn(RowLe, rows)
  {
    forall a, b, c | a in rows && b in rows && c in rows && RowLe(a, b) && RowLe(b, c)
      ensures RowLe(a, c)
    {
      RowLeLexicographic(a, b);
      RowLeLexicographic(b, c);
      RowLeLexicographic(a, c);
    }
    forall a, b | a in rows && b in rows ensures RowLe(a, b) || RowLe(b, a) {
      RowLeLexicographic(a, b);
      RowLeLexicographic(b, a);
    }
  }

  /** The tables join without reading a missing register number. */
  ghost predicate Mergeable(rendRows: seq<Row>, costiRows: seq<Row>) {
    WideWhereShared(KeyedRows(rendRows), KeyedRows(costiRows))
  }

  /** The merged rows of two tables, before sorting. */
  function MergeTables(rendRows: seq<Row>, costiRows: seq<Row>,
                       fondi: OrderedMap<string, string>, cats: OrderedMap<string, string>): seq<Row>
    requires Mergeable(rendRows, costiRows)
  {
    var rend := KeyedRows(rendRows);
    Merged(Keys(rend), rend, KeyedRows(costiRows), fondi, cats)
  }

  /** The merged rows in the order of the final sort. */
  function MergedAndSorted(rendRows: seq<Row>, costiRows: seq<Row>,
                           fondi: OrderedMap<string, string>, cats: OrderedMap<string, string>): seq<Row>
    requires Mergeable(rendRows, costiRows)
  {
    Sort(MergeTables(rendRows, costiRows, fondi, cats), RowLe)
  }

  /** Tables whose returns rows all have a register number column always join. */
  lemma WideRowsMergeable(rendRows: seq<Row>, costiRows: seq<Row>)
    requires forall i :: 0 <= i < |rendRows| ==> |rendRows[i]| >= 2
    ensures Mergeable(rendRows, costiRows)
  {
    KeyedRowsWidth(rendRows);
    WideEverywhere(KeyedRows(rendRows), KeyedRows(costiRows));
  }

  lemma KeyedRowsWidth(rows: seq<Row>)
    requires forall i :: 0 <= i < |rows| ==> |rows[i]| >= 2
    ensures forall e :: e in KeyedRows(rows) ==> |e.1| >= 2
  {
    SetAllEntries([], KeyedRowEntries(rows));
    KeyedRowEntriesFrom(rows);
  }

  lemma {:induction false} KeyedRowEntriesFrom(rows: seq<Row>)
    ensures forall e :: e in KeyedRowEntries(rows) ==> e.1 in rows
  {
    if rows != [] {
      KeyedRowEntriesFrom(rows[..|rows| - 1]);
      forall e | e in KeyedRowEntries(rows) ensures e.1 in rows {
        if e in KeyedRowEntries(rows[..|rows| - 1]) {
          assert e.1 in rows[..|rows| - 1];
        }
      }
    }
  }

  /** What the script raises: `trim` of the missing register number of a short row. */
  datatype Thrown = TypeError

  /**
   * `readAndMap` after the file reads: both tables keyed, a merged row for each key of
   * the returns table that the costs table also has, then the sort. A short row of the
   * returns table whose key the costs table shares makes the script throw.
   */
  method ReadAndMap(rendRows: seq<Row>, costiRows: seq<Row>,
                    fondi: OrderedMap<string, string>, cats: OrderedMap<string, string>)
    returns (r: Result<seq<Row>, Thrown>)
    ensures r.Err? <==> !Mergeable(rendRows, costiRows)
    ensures r.Ok? ==> r.value == MergedAndSorted(rendRows, costiRows, fondi, cats)
  {
    var rend := KeyRows(rendRows);
    var costi := KeyRows(costiRows);
    var merged := MergeKeys(rend, costi, fondi, cats);
    if merged.Err? {
      return Err(merged.error);
    }
    r := Ok(Sort(merged.value, RowLe));
  }

  /** The `allKeys.forEach` loop: the merged rows in key order of the returns table. */
  method MergeKeys(rend: OrderedMap<string, Row>, costi: OrderedMap<string, Row>,
                   fondi: OrderedMap<string, string>, cats: OrderedMap<string, string>)
    returns (r: Result<seq<Row>, Thrown>)
    ensures r.Err? <==> !WideWhereShared(rend, costi)
    ensures r.Ok? ==> r.value == Merged(Keys(rend), rend, costi, fondi, cats)
  {
    var keys := Keys(rend);
    ghost var wide := WideWhereShared(rend, costi);
    var merged: seq<Row> := [];
    var i := 0;
    while i < |keys|
      invariant 0 <= i <= |keys|
      invariant WideUpTo(keys, i, rend, costi)
      invariant wide ==> merged == Merged(keys[..i], rend, costi, fondi, cats)
    {
      var k := keys[i];
      var rendRow := Get(rend, k);
      var costiRow := Get(costi, k);
      if costiRow.Some? && |rendRow.value| < 2 {
        ShortSharedRow(rend, costi, k);
        return Err(TypeError);
      }
      var next := merged;
      if costiRow.Some? {
        next := merged + [MergeRow(rendRow.value, costiRow.value, fondi, cats)];
      }
      MergeKeysStep(keys, i, rend, costi, fondi, cats, merged, next);
      merged := next;
      i := i + 1;
    }
    WideFromKeys(keys, rend, costi);
    assert keys[..i] == keys;
    r := Ok(merged);
  }

  /** One turn of the merge loop keeps both of its invariants. */
  lemma MergeKeysStep(keys: seq<string>, i: nat, rend: OrderedMap<string, Row>, costi: OrderedMap<string, Row>,
                      fondi: OrderedMap<string, string>, cats: OrderedMap<string, string>,
                      merged: seq<Row>, next: seq<Row>)
    requires keys == Keys(rend) && i < |keys|
    requires WideUpTo(keys, i, rend, costi)
    requires WideWhereShared(rend, costi) ==> merged == Merged(keys[..i], rend, costi, fondi, cats)
    requires Get(rend, keys[i]).Some? && (Has(costi, keys[i]) ==> |Get(rend, keys[i]).value| >= 2)
    requires next == match Get(costi, keys[i])
                     case None => merged
                     case Some(c) => merged + [MergeRow(Get(rend, keys[i]).value, c, fondi, cats)]
    ensures WideUpTo(keys, i + 1, rend, costi)
    ensures WideWhereShared(rend, costi) ==> next == Merged(keys[..i + 1], rend, costi, fondi, cats)
  {
    WideUpToStep(keys, i, rend, costi);
    if WideWhereShared(rend, costi) {
      MergedStep(keys, i, rend, costi, fondi, cats);
    }
  }

  /** A short row that the join reaches makes the tables not mergeable. */
  lemma ShortSharedRow(rend: OrderedMap<string, Row>, costi: OrderedMap<string, Row>, k: string)
    requires k in Keys(rend) && Has(costi, k) && |Get(rend, k).value| < 2
    ensures !WideWhereShared(rend, costi)
  {
  }

  /** The first `i` keys that the costs table shares have rows with a register number column. */
  ghost predicate WideUpTo(keys: seq<string>, i: nat, rend: OrderedMap<string, Row>, costi: OrderedMap<string, Row>)
    requires i <= |keys|
  {
    forall j :: 0 <= j < i && Has(costi, keys[j]) ==> Get(rend, keys[j]).Some? && |Get(rend, keys[j]).value| >= 2
  }

  lemma WideUpToStep(keys: seq<string>, i: nat, rend: OrderedMap<string, Row>, costi: OrderedMap<string, Row>)
    requires i < |keys| && WideUpTo(keys, i, rend, costi)
    requires Has(costi, keys[i]) ==> Get(rend, keys[i]).Some? && |Get(rend, keys[i]).value| >= 2
    ensures WideUpTo(keys, i + 1, rend, costi)
  {
  }

  /** Checking each key of the returns table in turn covers every row the join reaches. */
  lemma WideFromKeys(keys: seq<string>, rend: OrderedMap<string, Row>, costi: OrderedMap<string, Row>)
    requires keys == Keys(rend) && WideUpTo(keys, |keys|, rend, costi)
    ensures WideWhereShared(rend, costi)
  {
    forall k | k in Keys(rend) && Has(costi, k) ensures |Get(rend, k).value| >= 2 {
      var j :| 0 <= j < |keys| && keys[j] == k;
    }
  }

  /** One more key of the returns table adds its merged row when the costs table has the key. */
  lemma MergedStep(keys: seq<string>, i: nat, rend: OrderedMap<string, Row>, costi: OrderedMap<string, Row>,
                   fondi: OrderedMap<string, string>, cats: OrderedMap<string, string>)
    requires i < |keys|
    requires forall k :: k in keys ==> k in Keys(rend)
    requires WideWhereShared(rend, costi)
    ensures Get(rend, keys[i]).Some? && (Has(costi, keys[i]) ==> |Get(rend, keys[i]).value| >= 2)
    ensures Merged(keys[..i + 1], rend, costi, fondi, cats) ==
      Merged(keys[..i], rend, costi, fondi, cats) +
      (match Get(costi, keys[i])
       case None => []
       case Some(c) => [MergeRow(Get(rend, keys[i]).value, c, fondi, cats)])
  {
    assert keys[i] in keys;
    assert (keys[i], Get(rend, keys[i]).value) in rend;
    assert keys[..i + 1][..i] == keys[..i];
    assert keys[..i + 1][i] == keys[i];
  }

  /** A merged row has the 17 columns of the generated data when both source rows are complete. */
  lemma MergeRowColumns(rend: Row, costi: Row, fondi: OrderedMap<string, string>, cats: OrderedMap<string, string>)
    requires |rend| >= 11 && |costi| >= 10
    ensures var r := MergeRow(rend, costi, fondi, cats);
      && |r| == 17
      && r[..6] == TrimAll(rend[..6])
      && r[6..11] == NormalizeAll(rend[6..11])
      && r[11..15] == NormalizeAll(costi[6..10])
      && r[15] == ContractCategory(rend, cats)
      && r[16] == Get(fondi, Trim(rend[0]) + "|" + Trim(rend[1])).GetOr("")
  {
    var a := TrimAll(rend[..6]);
    var b := NormalizeAll(rend[6..11]);
    var c := NormalizeAll(costi[6..10]);
    var tail := [ContractCategory(rend, cats), Website(rend, fondi)];
    var r := MergeRow(rend, costi, fondi, cats);
    assert r == a + b + c + tail;
    assert |a| == 6 && |b| == 5 && |c| == 4;
    FourParts(a, b, c, tail);
  }

  lemma FourParts<T>(a: seq<T>, b: seq<T>, c: seq<T>, t: seq<T>)
    ensures var s := a + b + c + t;
      && s[..|a|] == a
      && s[|a|..|a| + |b|] == b
      && s[|a| + |b|..|a| + |b| + |c|] == c
      && s[|a| + |b| + |c|..] == t
  {
  }

  /** The contract category is filled in for FPN funds only. */
  lemma MergeRowContractOnlyFpn(rend: Row, costi: Row, fondi: OrderedMap<string, string>, cats: OrderedMap<string, string>)
    requires |rend| >= 11 && |costi| >= 10
    ensures var r := MergeRow(rend, costi, fondi, cats);
      r[15] != [] ==> r[0] == "FPN"
  {
    MergeRowColumns(rend, costi, fondi, cats);
    var r := MergeRow(rend, costi, fondi, cats);
    assert r[0] == r[..6][0] == Trim(rend[0]);
    assert Trim("FPN") == "FPN" by {
      TrimOfTrimmed("FPN");
    }
  }

  /** The keys of `keys`, in order, that the costs table also has. */
  function SharedKeys(keys: seq<string>, costi: OrderedMap<string, Row>): (r: seq<string>)
    ensures forall i :: 0 <= i < |r| ==> r[i] in keys && Has(costi, r[i])
    ensures forall k :: k in keys && Has(costi, k) ==> k in r
  {
    if keys == [] then []
    else
      var k := keys[|keys| - 1];
      var before := SharedKeys(keys[..|keys| - 1], costi);
      assert keys == keys[..|keys| - 1] + [k];
      if Has(costi, k) then before + [k] else before
  }

  /** The merged row of a key both tables have. */
  function MergeAt(k: string, rend: OrderedMap<string, Row>, costi: OrderedMap<string, Row>,
                   fondi: OrderedMap<string, string>, cats: OrderedMap<string, string>): Row
    requires k in Keys(rend) && Has(costi, k)
    requires WideWhereShared(rend, costi)
  {
    var r := Get(rend, k).value;
    assert (k, r) in rend;
    MergeRow(r, Get(costi, k).value, fondi, cats)
  }

  /** One more key of the returns table adds its merged row exactly when the costs table has the key. */
  lemma MergedSnoc(keys: seq<string>, rend: OrderedMap<string, Row>, costi: OrderedMap<string, Row>,
                   fondi: OrderedMap<string, string>, cats: OrderedMap<string, string>)
    requires keys != []
    requires forall k :: k in keys ==> k in Keys(rend)
    requires WideWhereShared(rend, costi)
    ensures var k := keys[|keys| - 1];
      var before := Merged(keys[..|keys| - 1], rend, costi, fondi, cats);
      Merged(keys, rend, costi, fondi, cats) == if Has(costi, k) then before + [MergeAt(k, rend, costi, fondi, cats)] else before
  {
    var k := keys[|keys| - 1];
    var r := Get(rend, k).value;
    assert (k, r) in rend;
    match Get(costi, k) {
      case None =>
      case Some(c) =>
        assert MergeAt(k, rend, costi, fondi, cats) == MergeRow(r, c, fondi, cats);
    }
  }

  /** The shared keys grow the same way. */
  lemma SharedKeysSnoc(keys: seq<string>, costi: OrderedMap<string, Row>)
    requires keys != []
    ensures var k := keys[|keys| - 1];
      var before := SharedKeys(keys[..|keys| - 1], costi);
      SharedKeys(keys, costi) == if Has(costi, k) then before + [k] else before
  {
  }

  /** The merged rows of the given shared keys, one per key, in their order. */
  function MergeAll(both: seq<string>, rend: OrderedMap<string, Row>, costi: OrderedMap<string, Row>,
                    fondi: OrderedMap<string, string>, cats: OrderedMap<string, string>): (r: seq<Row>)
    requires forall k :: k in both ==> k in Keys(rend) && Has(costi, k)
    requires WideWhereShared(rend, costi)
    ensures |r| == |both|
  {
    if both == [] then []
    else MergeAll(both[..|both| - 1], rend, costi, fondi, cats) + [MergeAt(both[|both| - 1], rend, costi, fondi, cats)]
  }

  /** The join emits one merged row per shared key, in the key order of the returns table. */
  lemma {:induction false} MergedKeys(keys: seq<string>, rend: OrderedMap<string, Row>, costi: OrderedMap<string, Row>,
                                      fondi: OrderedMap<string, string>, cats: OrderedMap<string, string>)
    requires forall k :: k in keys ==> k in Keys(rend)
    requires WideWhereShared(rend, costi)
    ensures Merged(keys, rend, costi, fondi, cats) == MergeAll(SharedKeys(keys, costi), rend, costi, fondi, cats)
  {
    if keys != [] {
      var init := keys[..|keys| - 1];
      var k := keys[|keys| - 1];
      assert forall j :: j in init ==> j in keys;
      MergedKeys(init, rend, costi, fondi, cats);
      MergedSnoc(keys, rend, costi, fondi, cats);
      SharedKeysSnoc(keys, costi);
      if Has(costi, k) {
        var both := SharedKeys(init, costi);
        assert (both + [k])[..|both|] == both;
      }
    }
  }

  /** The register-number column of the merged row of a key is the trimmed one of the returns table. */
  lemma MergeAtAlbo(k: string, rend: OrderedMap<string, Row>, costi: OrderedMap<string, Row>,
                    fondi: OrderedMap<string, string>, cats: OrderedMap<string, string>)
    requires k in Keys(rend) && Has(costi, k)
    requires WideWhereShared(rend, costi)
    ensures Get(rend, k).Some? && |Get(rend, k).value| >= 2
    ensures Column(MergeAt(k, rend, costi, fondi, cats), 1) == Trim(Get(rend, k).value[1])
  {
    var r := Get(rend, k).value;
    assert (k, r) in rend;
  }

  /** Every row the join reaches has a register number that `parseInt` reads. */
  ghost predicate SharedAlbosParse(rend: OrderedMap<string, Row>, costi: OrderedMap<string, Row>) {
    && WideWhereShared(rend, costi)
    && forall k {:trigger Get(rend, k)} :: k in Keys(rend) && Has(costi, k) ==> ParseInt(Trim(Get(rend, k).value[1])).Some?
  }

  /** Readable register numbers in the returns table stay readable in the merged rows. */
  lemma {:induction false} MergedAlbosParse(keys: seq<string>, rend: OrderedMap<string, Row>, costi: OrderedMap<string, Row>,
                                            fondi: OrderedMap<string, string>, cats: OrderedMap<string, string>)
    requires forall k :: k in keys ==> k in Keys(rend)
    requires SharedAlbosParse(rend, costi)
    ensures forall x :: x in Merged(keys, rend, costi, fondi, cats) ==> ParseInt(Column(x, 1)).Some?
  {
    if keys != [] {
      var init := keys[..|keys| - 1];
      var k := keys[|keys| - 1];
      assert forall j :: j in init ==> j in keys;
      MergedAlbosParse(init, rend, costi, fondi, cats);
      MergedSnoc(keys, rend, costi, fondi, cats);
      if Has(costi, k) {
        MergeAtAlbo(k, rend, costi, fondi, cats);
      }
    }
  }

  /**
   * The output is ordered by type (FPN, FPA, PIP, then the rest) and register number,
   * is a permutation of the merged rows, and rows the comparator ranks equal keep the
   * order of the returns table, provided every register number is a number.
   */
  lemma MergedAndSortedOrder(rendRows: seq<Row>, costiRows: seq<Row>,
                             fondi: OrderedMap<string, string>, cats: OrderedMap<string, string>)
    requires SharedAlbosParse(KeyedRows(rendRows), KeyedRows(costiRows))
    ensures var merged := MergeTables(rendRows, costiRows, fondi, cats);
      var out := MergedAndSorted(rendRows, costiRows, fondi, cats);
      && SortedBy(RowLe, out)
      && multiset(out) == multiset(merged)
      && forall x :: x in merged ==> Equivalents(out, x, RowLe) == Equivalents(merged, x, RowLe)
  {
    var merged := MergeTables(rendRows, costiRows, fondi, cats);
    MergeTablesPreorder(rendRows, costiRows, fondi, cats);
    SortSorted(merged, RowLe);
    forall x | x in merged ensures Equivalents(Sort(merged, RowLe), x, RowLe) == Equivalents(merged, x, RowLe) {
      TotalPreorderOnSub(RowLe, merged, [x] + merged);
      SortStable(merged, x, RowLe);
    }
  }

  /** With readable register numbers the comparator is a total preorder on the merged rows. */
  lemma MergeTablesPreorder(rendRows: seq<Row>, costiRows: seq<Row>,
                            fondi: OrderedMap<string, string>, cats: OrderedMap<string, string>)
    requires SharedAlbosParse(KeyedRows(rendRows), KeyedRows(costiRows))
    ensures TotalPreorderOn(RowLe, MergeTables(rendRows, costiRows, fondi, cats))
  {
    var rend := KeyedRows(rendRows);
    var costi := KeyedRows(costiRows);
    MergedAlbosParse(Keys(rend), rend, costi, fondi, cats);
    RowLeTotalPreorder(Merged(Keys(rend), rend, costi, fondi, cats));
  }
}
