/**
 * `computeShortlist`: the funds a profile's horizon points to, scored by normalised cost
 * and ten-year return plus boosts for risk appetite, age, an existing contractual FPN and
 * its category, best first, at most `maxResults` of them.
 */
module FundShortlist {
  import opened Wrappers
  import opened Text
  import opened Sequences
  import opened FundTypes
  import opened FundLogicConfig

  /** The category strings a horizon band targets. */
  function TargetCategories(h: real): (r: seq<string>)
    ensures h <= 10.0 ==> r == ["GAR", "OBB", "MISTO PRUDENTE"]
    ensures 10.0 < h <= 20.0 ==> r == ["BIL", "OBB MISTO", "MISTO"]
    ensures h > 20.0 ==> r == ["AZN", "AZ", "CRESCITA", "BIL"]
  {
    if h <= 10.0 then ["GAR", "OBB", "MISTO PRUDENTE"]
    else if h <= 20.0 then ["BIL", "OBB MISTO", "MISTO"]
    else ["AZN", "AZ", "CRESCITA", "BIL"]
  }

  /** The lists written out in the shortlist are those of the configuration table. */
  lemma TargetCategoriesMatchConfig(h: real)
    ensures RuleCategories(HorizonCategoryRules, h) == Some(TargetCategories(h))
  {
    var rules := HorizonCategoryRules;
    assert rules[1..][1..] == [rules[2]];
    if h > 10.0 {
      assert RuleCategories(rules, h) == RuleCategories(rules[1..], h);
      if h > 20.0 {
        assert RuleCategories(rules[1..], h) == RuleCategories(rules[1..][1..], h);
      }
    }
  }

  /** `patterns.some(p => text.includes(p))` */
  predicate ContainsAny(text: string, patterns: seq<string>) {
    exists i :: 0 <= i < |patterns| && Contains(text, patterns[i])
  }

  function CategoryFilter(targets: seq<string>): Fund -> bool {
    (f: Fund) => ContainsAny(ToUpper(f.categoria), targets)
  }

  /** `(fund.type ?? '').toString().toUpperCase().trim() === 'FPN'` */
  predicate IsFpn(f: Fund) {
    Trim(ToUpper(f.fundType)) == "FPN"
  }

  /** A user who says there is no contractual FPN is shown no FPN fund. */
  function FpnFilter(p: UserProfile): Fund -> bool {
    (f: Fund) => !(p.hasFpn == Some(false) && IsFpn(f))
  }

  function FundCost(f: Fund): real {
    f.isc.isc35a.GetOr(MissingCost)
  }

  function FundReturn10(f: Fund): real {
    f.rendimenti.ultimi10Anni.GetOr(MissingReturns10y)
  }

  function MinOf(xs: seq<real>): (r: real)
    requires xs != []
    ensures r in xs && forall i :: 0 <= i < |xs| ==> r <= xs[i]
  {
    if |xs| == 1 then xs[0]
    else
      var m := MinOf(xs[1..]);
      assert forall i :: 1 <= i < |xs| ==> xs[i] == xs[1..][i - 1];
      if xs[0] <= m then xs[0] else m
  }

  function MaxOf(xs: seq<real>): (r: real)
    requires xs != []
    ensures r in xs && forall i :: 0 <= i < |xs| ==> xs[i] <= r
  {
    if |xs| == 1 then xs[0]
    else
      var m := MaxOf(xs[1..]);
      assert forall i :: 1 <= i < |xs| ==> xs[i] == xs[1..][i - 1];
      if xs[0] >= m then xs[0] else m
  }

  /** The ranges of cost and ten-year return over every fund, not only the candidates. */
  datatype Bounds = Bounds(minCost: real, maxCost: real, minR: real, maxR: real)

  function FundBounds(funds: seq<Fund>): (b: Bounds)
    requires funds != []
    ensures forall f :: f in funds ==> b.minCost <= FundCost(f) <= b.maxCost
    ensures forall f :: f in funds ==> b.minR <= FundReturn10(f) <= b.maxR
  {
    var costs := seq(|funds|, i requires 0 <= i < |funds| => FundCost(funds[i]));
    var rets := seq(|funds|, i requires 0 <= i < |funds| => FundReturn10(funds[i]));
    BoundsCover(funds, costs, FundCost);
    BoundsCover(funds, rets, FundReturn10);
    Bounds(MinOf(costs), MaxOf(costs), MinOf(rets), MaxOf(rets))
  }

  /** The minimum and maximum of a measure taken fund by fund bound that measure of every fund. */
  lemma BoundsCover(funds: seq<Fund>, xs: seq<real>, measure: Fund -> real)
    requires funds != [] && |xs| == |funds|
    requires forall i :: 0 <= i < |funds| ==> xs[i] == measure(funds[i])
    ensures forall f :: f in funds ==> MinOf(xs) <= measure(f) <= MaxOf(xs)
  {
    forall f | f in funds ensures MinOf(xs) <= measure(f) <= MaxOf(xs) {
      var i :| 0 <= i < |funds| && funds[i] == f;
      assert xs[i] == measure(f);
    }
  }

  /** `normalized(v, min, max)` */
  function Normalized(v: real, lo: real, hi: real): (r: real)
    ensures lo <= v <= hi ==> 0.0 <= r <= 1.0
  {
    if hi == lo then 0.5
    else
      var q := (v - lo) / (hi - lo);
      assert lo <= v <= hi ==> 0.0 <= q <= 1.0 by {
        if lo <= v <= hi {
          UnitQuotient(v - lo, hi - lo);
        }
      }
      q
  }

  lemma UnitQuotient(a: real, d: real)
    requires 0.0 <= a <= d && d > 0.0
    ensures 0.0 <= a / d <= 1.0
  {
    assert a / d * d == a;
  }

  predicate EquityLike(categoryUpper: string) {
    Contains(categoryUpper, "AZ") || Contains(categoryUpper, "CRESCITA")
  }

  predicate MixedLike(categoryUpper: string) {
    Contains(categoryUpper, "MISTO") || Contains(categoryUpper, "BIL")
      || Contains(categoryUpper, "OBB MISTO") || Contains(categoryUpper, "OBB")
  }

  function Appetite(p: UserProfile): real {
    RiskAppetite(p.riskPreference.GetOr(Medium))
  }

  function RiskAlignment(categoryUpper: string, p: UserProfile): real {
    if EquityLike(categoryUpper) then Appetite(p)
    else if MixedLike(categoryUpper) then 0.5
    else 1.0 - Appetite(p)
  }

  /** The risk boost, centred on 0. */
  function RiskBoost(categoryUpper: string, p: UserProfile): (r: real)
    ensures -RiskBoostMax <= r <= RiskBoostMax
    ensures MixedLike(categoryUpper) && !EquityLike(categoryUpper) ==> r == 0.0
  {
    (RiskAlignment(categoryUpper, p) - 0.5) * 2.0 * RiskBoostMax
  }

  function AgeBoost(categoryUpper: string, p: UserProfile): (r: real)
    ensures !EquityLike(categoryUpper) ==> r == 0.0
    ensures -AgeConservatism <= r <= AgeConservatism / 2.0
  {
    var penalty := if p.ageRange == Some(Over50) && EquityLike(categoryUpper) then AgeConservatism else 0.0;
    var bonus := if p.ageRange == Some(Under35) && EquityLike(categoryUpper) then AgeConservatism / 2.0 else 0.0;
    0.0 - penalty + bonus
  }

  function FpnBoost(f: Fund, p: UserProfile): real {
    if p.hasFpn == Some(true) && IsFpn(f) then HasFpnBoost else 0.0
  }

  function ContractualBoost(f: Fund, p: UserProfile): real {
    if Truthy(p.contractualFpnCategory) && f.categoria == p.contractualFpnCategory.value then ContractualCategoryBoost else 0.0
  }

  function CostScore(f: Fund, b: Bounds): real {
    1.0 - Normalized(FundCost(f), b.minCost, b.maxCost)
  }

  function ReturnScore(f: Fund, b: Bounds): real {
    Normalized(FundReturn10(f), b.minR, b.maxR)
  }

  function Score(f: Fund, p: UserProfile, b: Bounds): real {
    var cu := ToUpper(f.categoria);
    CostWeight * CostScore(f, b) + ReturnsWeight * ReturnScore(f, b)
      + RiskBoost(cu, p) + AgeBoost(cu, p) + FpnBoost(f, p) + ContractualBoost(f, p)
  }

  /** `(a, b) => b.score - a.score`, read as "a may precede b". */
  function ScoreOrder(p: UserProfile, b: Bounds): (Fund, Fund) -> bool {
    (f: Fund, g: Fund) => Score(g, p, b) - Score(f, p, b) <= 0.0
  }

  /** The funds that survive both filters. */
  function Candidates(funds: seq<Fund>, p: UserProfile, h: real): seq<Fund> {
    Filter(Filter(funds, CategoryFilter(TargetCategories(h))), FpnFilter(p))
  }

  /**
   * The shortlist. Sorting the funds by their score is sorting the `{fund, score}`
   * pairs by score and keeping the funds.
   */
  function ComputeShortlist(funds: seq<Fund>, p: UserProfile, maxResults: int): (r: seq<Fund>)
    ensures NoHorizon(p) ==> r == []
    ensures |r| <= |funds|
    ensures maxResults >= 0 ==> |r| <= maxResults
  {
    if NoHorizon(p) || funds == [] then []
    else
      var h := p.horizonYears.value;
      var b := FundBounds(funds);
      SliceTo(Sort(Candidates(funds, p, h), ScoreOrder(p, b)), maxResults)
  }

  /** With the default options at most five funds come back. */
  function ComputeShortlistDefault(funds: seq<Fund>, p: UserProfile): (r: seq<Fund>)
    ensures |r| <= 5
  {
    ComputeShortlist(funds, p, 5)
  }

  // ---------------------------------------------------------------------------
  // Properties.

  lemma PrefixMultiset<T>(s: seq<T>, k: nat)
    requires k <= |s|
    ensures multiset(s[..k]) <= multiset(s)
  {
    assert s == s[..k] + s[k..];
  }

  /**
   * Every result is an input fund (no fund more often than in the input), lies in a
   * targeted category, and is no FPN when the user has none.
   */
  lemma ShortlistMembers(funds: seq<Fund>, p: UserProfile, maxResults: int)
    requires !NoHorizon(p)
    ensures var r := ComputeShortlist(funds, p, maxResults);
      && multiset(r) <= multiset(funds)
      && (forall f :: f in r ==> ContainsAny(ToUpper(f.categoria), TargetCategories(p.horizonYears.value)))
      && (p.hasFpn == Some(false) ==> forall f :: f in r ==> !IsFpn(f))
  {
    if funds != [] {
      var h := p.horizonYears.value;
      var b := FundBounds(funds);
      var c := Candidates(funds, p, h);
      var sorted := Sort(c, ScoreOrder(p, b));
      var r := SliceTo(sorted, maxResults);
      PrefixMultiset(sorted, |r|);
      var byCategory := Filter(funds, CategoryFilter(TargetCategories(h)));
      assert multiset(c) <= multiset(byCategory) <= multiset(funds);
      forall f | f in r
        ensures ContainsAny(ToUpper(f.categoria), TargetCategories(h))
        ensures p.hasFpn == Some(false) ==> !IsFpn(f)
      {
        assert f in multiset(r);
        assert f in multiset(c);
        assert f in c;
        assert FpnFilter(p)(f);
        assert f in byCategory;
        assert CategoryFilter(TargetCategories(h))(f);
      }
    }
  }

  lemma ScoreOrderTotal(p: UserProfile, b: Bounds, s: seq<Fund>)
    ensures TotalPreorderOn(ScoreOrder(p, b), s)
  {
  }

  /** Results come best first: scores never increase along the list. */
  lemma ShortlistOrdered(funds: seq<Fund>, p: UserProfile, maxResults: int)
    requires funds != [] && !NoHorizon(p)
    ensures var r := ComputeShortlist(funds, p, maxResults);
      var b := FundBounds(funds);
      forall i, j :: 0 <= i < j < |r| ==> Score(r[i], p, b) >= Score(r[j], p, b)
  {
    var h := p.horizonYears.value;
    var b := FundBounds(funds);
    var c := Candidates(funds, p, h);
    ScoreOrderTotal(p, b, c);
    SortSorted(c, ScoreOrder(p, b));
    var sorted := Sort(c, ScoreOrder(p, b));
    var r := ComputeShortlist(funds, p, maxResults);
    assert r == SliceTo(sorted, maxResults);
    SortedByPrefix(ScoreOrder(p, b), sorted, |r|);
    ScoreOrderMeans(p, b, r);
  }

  /** A list sorted by the score order has non-increasing scores. */
  lemma ScoreOrderMeans(p: UserProfile, b: Bounds, r: seq<Fund>)
    requires SortedBy(ScoreOrder(p, b), r)
    ensures forall i, j :: 0 <= i < j < |r| ==> Score(r[i], p, b) >= Score(r[j], p, b)
  {
    forall i, j | 0 <= i < j < |r| ensures Score(r[i], p, b) >= Score(r[j], p, b) {
      assert ScoreOrder(p, b)(r[i], r[j]);
    }
  }

  /**
   * The shortlist is the best-scoring prefix of the sorted candidates: as many funds as
   * `slice(0, maxResults)` keeps, all candidates when there are fewer.
   */
  lemma ShortlistIsTopCandidates(funds: seq<Fund>, p: UserProfile, maxResults: int)
    requires funds != [] && !NoHorizon(p)
    ensures var c := Candidates(funds, p, p.horizonYears.value);
      var sorted := Sort(c, ScoreOrder(p, FundBounds(funds)));
      var r := ComputeShortlist(funds, p, maxResults);
      && r == sorted[..|r|]
      && SortedBy(ScoreOrder(p, FundBounds(funds)), sorted)
      && (maxResults >= 0 ==> |r| == if maxResults < |c| then maxResults else |c|)
      && (maxResults < 0 ==> |r| == if |c| + maxResults > 0 then |c| + maxResults else 0)
  {
    var c := Candidates(funds, p, p.horizonYears.value);
    var b := FundBounds(funds);
    ScoreOrderTotal(p, b, c);
    SortSorted(c, ScoreOrder(p, b));
  }

  /** A candidate left out of the shortlist scores no more than any fund in it. */
  lemma ShortlistBest(funds: seq<Fund>, p: UserProfile, maxResults: int)
    requires funds != [] && !NoHorizon(p)
    ensures var b := FundBounds(funds);
      var r := ComputeShortlist(funds, p, maxResults);
      forall g, f :: g in Candidates(funds, p, p.horizonYears.value) && g !in r && f in r ==>
        Score(g, p, b) <= Score(f, p, b)
  {
    var b := FundBounds(funds);
    var c := Candidates(funds, p, p.horizonYears.value);
    var sorted := Sort(c, ScoreOrder(p, b));
    ShortlistIsTopCandidates(funds, p, maxResults);
    var r := ComputeShortlist(funds, p, maxResults);
    forall g, f | g in c && g !in r && f in r ensures Score(g, p, b) <= Score(f, p, b) {
      assert g in multiset(sorted);
      SortedPrefixBefore(sorted, |r|, ScoreOrder(p, b), g);
      assert ScoreOrder(p, b)(f, g);
    }
  }

  /** The cost and return components of a fund's score lie in [0, 1]. */
  lemma ScoreComponentsInUnit(funds: seq<Fund>, f: Fund)
    requires f in funds
    ensures 0.0 <= CostScore(f, FundBounds(funds)) <= 1.0
    ensures 0.0 <= ReturnScore(f, FundBounds(funds)) <= 1.0
  {
  }

  /** An FPN fund scores exactly 0.18 more than the same fund of another type, for a user with an FPN. */
  lemma FpnBoostExact(f: Fund, t: string, p: UserProfile, b: Bounds)
    requires p.hasFpn == Some(true)
    requires IsFpn(f) && Trim(ToUpper(t)) != "FPN"
    ensures Score(f, p, b) == Score(f.(fundType := t), p, b) + HasFpnBoost
  {
  }
}
