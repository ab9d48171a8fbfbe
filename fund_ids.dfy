/**
 * The id scheme the generated data module applies to every merged row: an id built
 * from the register number and the sanitised sub-fund name, with a numeric suffix on
 * repeats of the same base id.
 */
module FundIds {
  import opened Text

  predicate IsIdChar(c: char) {
    'a' <= c <= 'z' || '0' <= c <= '9'
  }

  /** No two dashes stand next to each other. */
  ghost predicate NoDoubleDash(r: string) {
    forall i, j :: 0 <= i < j < |r| && j == i + 1 ==> !(r[i] == '-' && r[j] == '-')
  }

  /** `replace(/[^a-z0-9]+/g, '-')`: every maximal run of other characters becomes one dash. */
  function CollapseRuns(s: string, inRun: bool): (r: string)
    ensures forall i :: 0 <= i < |r| ==> IsIdChar(r[i]) || r[i] == '-'
    ensures NoDoubleDash(r)
    ensures inRun ==> r == [] || r[0] != '-'
  {
    if s == [] then []
    else if IsIdChar(s[0]) then [s[0]] + CollapseRuns(s[1..], false)
    else if inRun then CollapseRuns(s[1..], true)
    else ['-'] + CollapseRuns(s[1..], true)
  }

  /** The sanitised sub-fund name: lower case, runs of other characters as one dash, no dash at either end. */
  function Sanitize(comparto: string): (r: string)
    ensures forall i :: 0 <= i < |r| ==> IsIdChar(r[i]) || r[i] == '-'
    ensures r == [] || (r[0] != '-' && r[|r| - 1] != '-')
    ensures NoDoubleDash(r)
  {
    var collapsed := CollapseRuns(ToLower(comparto), false);
    StripDashesKeepsShape(collapsed);
    StripChar(collapsed, '-')
  }

  /** Stripping the dashes at the ends keeps a run of id characters and single dashes so. */
  lemma StripDashesKeepsShape(s: string)
    requires forall i :: 0 <= i < |s| ==> IsIdChar(s[i]) || s[i] == '-'
    requires NoDoubleDash(s)
    ensures var r := StripChar(s, '-');
      && (forall i :: 0 <= i < |r| ==> IsIdChar(r[i]) || r[i] == '-')
      && NoDoubleDash(r)
  {
    var t := StripLeading(s, '-');
    var r := StripTrailing(t, '-');
    var a := |s| - |t|;
    assert t == s[a..];
    assert r == t[..|r|];
    assert forall i :: 0 <= i < |r| ==> r[i] == s[a + i];
    forall i, j | 0 <= i < j < |r| && j == i + 1 ensures !(r[i] == '-' && r[j] == '-') {
      assert r[i] == s[a + i] && r[j] == s[a + j];
    }
  }

  /**
   * `generateId(albo, comparto, suffix)`: `albo-sanitised`, followed by `-suffix`
   * when a suffix is given (0 stands for none, which is also what a falsy suffix does).
   */
  function GenerateId(albo: string, comparto: string, suffix: nat): string {
    var base := albo + "-" + Sanitize(comparto);
    if suffix == 0 then base else WithSuffix(base, suffix)
  }

  function WithSuffix(base: string, n: nat): string {
    base + "-" + NatToString(n)
  }

  /**
   * The ids assigned to rows (register number, sub-fund name) as the generated module
   * does: the n-th row with a given base id gets that base id with suffix n (none for
   * the first), counting in `seen`.
   */
  function AssignIds(rows: seq<(string, string)>, seen: map<string, nat>): (ids: seq<string>)
    ensures |ids| == |rows|
  {
    if rows == [] then []
    else
      var base := GenerateId(rows[0].0, rows[0].1, 0);
      var count := (if base in seen then seen[base] else 0) + 1;
      var id := if count == 1 then base else GenerateId(rows[0].0, rows[0].1, count);
      [id] + AssignIds(rows[1..], seen[base := count])
  }

  /** A name made only of id characters comes through run-collapsing unchanged. */
  lemma {:induction false} CollapseIdChars(s: string, inRun: bool)
    requires forall i :: 0 <= i < |s| ==> IsIdChar(s[i])
    ensures CollapseRuns(s, inRun) == s
    decreases |s|
  {
    if s != [] {
      CollapseIdChars(s[1..], false);
    }
  }

  lemma SanitizeOneLetter()
    ensures Sanitize("a") == "a"
  {
    ToLowerNoCapitals("a");
    CollapseIdChars("a", false);
    StripCharUntouched("a", '-');
  }

  lemma SanitizeLetterSpaceDigit()
    ensures Sanitize("a 2") == "a-2"
  {
    assert ToLower("a 2") == "a 2";
    assert CollapseRuns("2", true) == "2";
    assert CollapseRuns(" 2", false) == "-2";
    assert CollapseRuns("a 2", false) == "a-2";
    assert StripLeading("a-2", '-') == "a-2";
    assert StripTrailing("a-2", '-') == "a-2";
  }

  /**
   * Two rows whose sub-fund names differ still share an id: the counter only sees base
   * ids, so the second row with a base id gets `base-2`, which is also the base id of a
   * sub-fund whose name sanitises to the first name followed by "-2".
   */
  lemma AssignIdsCollide(albo: string, comparto: string, other: string)
    requires Sanitize(other) == Sanitize(comparto) + "-2"
    ensures var ids := AssignIds([(albo, comparto), (albo, comparto), (albo, other)], map[]);
      ids[1] == ids[2]
  {
    var base := GenerateId(albo, comparto, 0);
    var second := GenerateId(albo, comparto, 2);
    SecondIdIsBaseId(albo, comparto, other);
    var last := AssignIds([(albo, other)], map[base := 2]);
    assert last == [second] by {
      LastRowId(albo, other, base, second);
    }
    var tail := AssignIds([(albo, comparto), (albo, other)], map[base := 1]);
    assert tail == [second] + last by {
      RepeatedRowId(albo, comparto, other, base, second);
    }
    assert AssignIds([(albo, comparto), (albo, comparto), (albo, other)], map[]) == [base] + tail by {
      var rows := [(albo, comparto), (albo, comparto), (albo, other)];
      assert rows[1..] == [(albo, comparto), (albo, other)];
      AssignIdsStep(rows, map[], base, 1, base);
    }
  }

  /** The second row of AssignIdsCollide repeats the first one's base id and gets suffix 2. */
  lemma RepeatedRowId(albo: string, comparto: string, other: string, base: string, second: string)
    requires base == GenerateId(albo, comparto, 0) && second == GenerateId(albo, comparto, 2)
    ensures AssignIds([(albo, comparto), (albo, other)], map[base := 1])
         == [second] + AssignIds([(albo, other)], map[base := 2])
  {
    var rows := [(albo, comparto), (albo, other)];
    assert rows[1..] == [(albo, other)];
    AssignIdsStep(rows, map[base := 1], base, 2, second);
    UpdateTwice(map[], base, 1, 2);
  }

  /** The third row of AssignIdsCollide: its base id was never counted, so it is used as it is. */
  lemma LastRowId(albo: string, other: string, base: string, second: string)
    requires second == GenerateId(albo, other, 0) == base + "-2"
    ensures AssignIds([(albo, other)], map[base := 2]) == [second]
  {
    assert second !in map[base := 2] by {
      assert |second| == |base| + 2;
    }
    AssignIdsStep([(albo, other)], map[base := 2], second, 1, second);
    assert [(albo, other)][1..] == [];
  }

  /** The second row's suffixed id is the third row's base id. */
  lemma SecondIdIsBaseId(albo: string, comparto: string, other: string)
    requires Sanitize(other) == Sanitize(comparto) + "-2"
    ensures GenerateId(albo, comparto, 2) == GenerateId(albo, other, 0) == GenerateId(albo, comparto, 0) + "-2"
  {
    assert NatToString(2) == "2";
    ConcatSuffix(albo, Sanitize(comparto), Sanitize(other));
  }

  lemma ConcatSuffix(albo: string, s: string, t: string)
    requires t == s + "-2"
    ensures albo + "-" + s + "-" + "2" == albo + "-" + t
  {
  }

  lemma UpdateTwice<K, V>(m: map<K, V>, k: K, a: V, b: V)
    ensures m[k := a][k := b] == m[k := b]
  {
  }

  /** One row of AssignIds: its id, then the ids of the rest with the count updated. */
  lemma AssignIdsStep(rows: seq<(string, string)>, seen: map<string, nat>, base: string, count: nat, id: string)
    requires rows != [] && base == GenerateId(rows[0].0, rows[0].1, 0)
    requires count == (if base in seen then seen[base] else 0) + 1
    requires id == if count == 1 then base else GenerateId(rows[0].0, rows[0].1, count)
    ensures AssignIds(rows, seen) == [id] + AssignIds(rows[1..], seen[base := count])
  {
  }

  /** The sub-fund names "a" and "a 2" meet the condition of AssignIdsCollide. */
  lemma CollidingNames()
    ensures Sanitize("a 2") == Sanitize("a") + "-2"
  {
    SanitizeOneLetter();
    SanitizeLetterSpaceDigit();
    DashTwo(Sanitize("a"), Sanitize("a 2"));
  }

  lemma DashTwo(x: string, y: string)
    requires x == "a" && y == "a-2"
    ensures y == x + "-2"
  {
  }

  // The corrected scheme: the suffix search skips every id already handed out.

  lemma {:induction false} NatToStringInjective(n: nat, m: nat)
    requires NatToString(n) == NatToString(m)
    ensures n == m
  {
    if n >= 10 && m >= 10 {
      var a := NatToString(n);
      assert a[|a| - 1] == DigitChar(n % 10);
      assert a[..|a| - 1] == NatToString(n / 10);
      assert a[..|a| - 1] == NatToString(m / 10);
      NatToStringInjective(n / 10, m / 10);
    }
  }

  lemma WithSuffixInjective(base: string, n: nat, m: nat)
    requires WithSuffix(base, n) == WithSuffix(base, m)
    ensures n == m
  {
    var k := |base| + 1;
    assert WithSuffix(base, n)[k..] == NatToString(n);
    assert WithSuffix(base, m)[k..] == NatToString(m);
    NatToStringInjective(n, m);
  }

  /** The suffixed ids 2 .. n-1 are n - 2 distinct strings. */
  lemma {:induction false} SuffixedCount(base: string, n: nat)
    requires n >= 2
    ensures |set k | 2 <= k < n :: WithSuffix(base, k)| == n - 2
    decreases n
  {
    if n > 2 {
      SuffixedCount(base, n - 1);
      var prev := set k | 2 <= k < n - 1 :: WithSuffix(base, k);
      var cur := set k | 2 <= k < n :: WithSuffix(base, k);
      assert cur == prev + {WithSuffix(base, n - 1)};
      if WithSuffix(base, n - 1) in prev {
        var k :| 2 <= k < n - 1 && WithSuffix(base, k) == WithSuffix(base, n - 1);
        WithSuffixInjective(base, k, n - 1);
      }
    }
  }

  lemma {:induction false} SubsetSize<T>(a: set<T>, b: set<T>)
    requires a <= b
    ensures |a| <= |b|
    decreases |b|
  {
    if a != {} {
      var x :| x in a;
      SubsetSize(a - {x}, b - {x});
    }
  }

  /** The first suffix from n on whose id is not yet used. */
  function FreeSuffix(base: string, used: set<string>, n: nat): (r: nat)
    requires n >= 2
    requires forall k :: 2 <= k < n ==> WithSuffix(base, k) in used
    ensures r >= n && WithSuffix(base, r) !in used
    decreases |used| + 2 - n
  {
    if WithSuffix(base, n) !in used then n
    else
      SuffixedCount(base, n + 1);
      SubsetSize(set k | 2 <= k < n + 1 :: WithSuffix(base, k), used);
      FreeSuffix(base, used, n + 1)
  }

  /**
   * Corrected assignment: a row keeps its base id when that id is still free, and
   * otherwise takes the smallest suffix from 2 on whose id is free.
   */
  function AssignUniqueIds(rows: seq<(string, string)>, used: set<string>): (ids: seq<string>)
    ensures |ids| == |rows|
    ensures forall i :: 0 <= i < |ids| ==> ids[i] !in used
    ensures forall i, j :: 0 <= i < j < |ids| ==> ids[i] != ids[j]
  {
    if rows == [] then []
    else
      var base := GenerateId(rows[0].0, rows[0].1, 0);
      var id := if base !in used then base else WithSuffix(base, FreeSuffix(base, used, 2));
      var rest := AssignUniqueIds(rows[1..], used + {id});
      [id] + rest
  }

  /** `id` is the row's base id or its base id with a suffix of at least 2. */
  ghost predicate ShapedId(row: (string, string), id: string) {
    id == GenerateId(row.0, row.1, 0) || exists n :: n >= 2 && id == GenerateId(row.0, row.1, n)
  }

  /** The first corrected id is shaped, and the rest are assigned with it marked as used. */
  lemma AssignUniqueIdsHead(rows: seq<(string, string)>, used: set<string>)
    requires rows != []
    ensures ShapedId(rows[0], AssignUniqueIds(rows, used)[0])
    ensures AssignUniqueIds(rows, used)[1..] == AssignUniqueIds(rows[1..], used + {AssignUniqueIds(rows, used)[0]})
  {
    var base := GenerateId(rows[0].0, rows[0].1, 0);
    if base in used {
      var n := FreeSuffix(base, used, 2);
      assert AssignUniqueIds(rows, used)[0] == GenerateId(rows[0].0, rows[0].1, n);
    }
  }

  /** Every corrected id is the row's base id or that base id with a suffix of at least 2. */
  lemma {:induction false} AssignUniqueIdsShape(rows: seq<(string, string)>, used: set<string>)
    ensures forall i :: 0 <= i < |rows| ==> ShapedId(rows[i], AssignUniqueIds(rows, used)[i])
  {
    if rows != [] {
      var ids := AssignUniqueIds(rows, used);
      AssignUniqueIdsHead(rows, used);
      AssignUniqueIdsShape(rows[1..], used + {ids[0]});
      forall i | 1 <= i < |rows| ensures ShapedId(rows[i], ids[i]) {
        assert ids[i] == ids[1..][i - 1];
        assert rows[1..][i - 1] == rows[i];
      }
    }
  }
}
