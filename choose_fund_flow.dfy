/**
 * The "choose a fund" flow: a short questionnaire that edits the profile, and a
 * shortlist of at most five funds in the categories the horizon points to, cheapest
 * 35-year ISC first (a missing ISC counts as 999). Picking a fund shows its details.
 */
module ChooseFundFlow {
  import opened Wrappers
  import opened Text
  import opened Sequences
  import opened FundTypes
  import opened FundLogicConfig
  import opened FundShortlist
  import opened GuidedContext

  const ShortlistSize := 5

  /** `(a, b) => aCost - bCost`, read as "a may precede b". */
  function CostOrder(): (Fund, Fund) -> bool {
    (a: Fund, b: Fund) => FundCost(a) - FundCost(b) <= 0.0
  }

  /** The funds whose upper-cased category contains one of the targeted strings. */
  function Matching(funds: seq<Fund>, h: real): seq<Fund> {
    Filter(funds, CategoryFilter(TargetCategories(h)))
  }

  /** The shortlist: nothing without a horizon, else the five cheapest matching funds. */
  function ChooseShortlist(funds: seq<Fund>, p: UserProfile): (r: seq<Fund>)
    ensures NoHorizon(p) ==> r == []
    ensures |r| <= ShortlistSize
  {
    if NoHorizon(p) then []
    else SliceTo(Sort(Matching(funds, p.horizonYears.value), CostOrder()), ShortlistSize)
  }

  lemma CostOrderTotal(s: seq<Fund>)
    ensures TotalPreorderOn(CostOrder(), s)
  {
  }

  /** The shortlist is the first |r| funds of the matching funds sorted by cost. */
  lemma ShortlistIsPrefix(funds: seq<Fund>, p: UserProfile)
    requires !NoHorizon(p)
    ensures var sorted := Sort(Matching(funds, p.horizonYears.value), CostOrder());
      var r := ChooseShortlist(funds, p);
      && r == sorted[..|r|]
      && |r| == (if |sorted| < ShortlistSize then |sorted| else ShortlistSize)
      && SortedBy(CostOrder(), sorted)
  {
    var m := Matching(funds, p.horizonYears.value);
    CostOrderTotal(m);
    SortSorted(m, CostOrder());
  }

  /**
   * Every fund shown comes from the input, at most as often as there, and lies in a
   * targeted category; all matching funds are shown when there are at most five.
   */
  lemma ChooseShortlistMembers(funds: seq<Fund>, p: UserProfile)
    requires !NoHorizon(p)
    ensures var r := ChooseShortlist(funds, p);
      var m := Matching(funds, p.horizonYears.value);
      && multiset(r) <= multiset(funds)
      && (forall f :: f in r ==> ContainsAny(ToUpper(f.categoria), TargetCategories(p.horizonYears.value)))
      && (|m| <= ShortlistSize ==> multiset(r) == multiset(m))
  {
    var h := p.horizonYears.value;
    var m := Matching(funds, h);
    var sorted := Sort(m, CostOrder());
    var r := ChooseShortlist(funds, p);
    PrefixMultiset(sorted, |r|);
    if |m| <= ShortlistSize {
      assert r == sorted;
    }
    forall f | f in r ensures ContainsAny(ToUpper(f.categoria), TargetCategories(h)) {
      assert f in multiset(r);
      assert f in m;
      assert CategoryFilter(TargetCategories(h))(f);
    }
  }

  /** Costs never decrease along the shortlist. */
  lemma ChooseShortlistAscending(funds: seq<Fund>, p: UserProfile)
    requires !NoHorizon(p)
    ensures var r := ChooseShortlist(funds, p);
      forall i, j :: 0 <= i < j < |r| ==> FundCost(r[i]) <= FundCost(r[j])
  {
    var sorted := Sort(Matching(funds, p.horizonYears.value), CostOrder());
    ShortlistIsPrefix(funds, p);
    var r := ChooseShortlist(funds, p);
    forall i, j | 0 <= i < j < |r| ensures FundCost(r[i]) <= FundCost(r[j]) {
      assert r[i] == sorted[i] && r[j] == sorted[j];
      assert CostOrder()(sorted[i], sorted[j]);
    }
  }

  /** A matching fund left out of the shortlist costs at least as much as every fund in it. */
  lemma ChooseShortlistCheapest(funds: seq<Fund>, p: UserProfile, g: Fund)
    requires !NoHorizon(p)
    requires g in Matching(funds, p.horizonYears.value)
    requires g !in ChooseShortlist(funds, p)
    ensures forall f :: f in ChooseShortlist(funds, p) ==> FundCost(f) <= FundCost(g)
  {
    var sorted := Sort(Matching(funds, p.horizonYears.value), CostOrder());
    ShortlistIsPrefix(funds, p);
    var r := ChooseShortlist(funds, p);
    assert g in multiset(sorted);
    SortedPrefixBefore(sorted, |r|, CostOrder(), g);
  }

  /** A fund without an ISC is shown only after every fund with a known ISC below 999. */
  lemma MissingCostComesLast(funds: seq<Fund>, p: UserProfile, i: nat, j: nat)
    requires !NoHorizon(p)
    requires i < j < |ChooseShortlist(funds, p)|
    requires ChooseShortlist(funds, p)[i].isc.isc35a.None?
    ensures FundCost(ChooseShortlist(funds, p)[j]) >= MissingCost
  {
    ChooseShortlistAscending(funds, p);
  }

  // ---------------------------------------------------------------------------
  // The questionnaire.

  /** The value the FPN select shows for the profile's answer. */
  function HasFpnSelectValue(a: Option<bool>): (v: string)
    ensures v == "" <==> a.None?
    ensures v == "yes" <==> a == Some(true)
  {
    match a
    case None => ""
    case Some(b) => if b then "yes" else "no"
  }

  /** The answer a select value stands for: '' is "don't know", anything else is yes or not. */
  function HasFpnFromSelect(v: string): (a: Option<bool>)
    ensures a.None? <==> v == ""
    ensures a == Some(true) <==> v == "yes"
  {
    if v == "" then None else Some(v == "yes")
  }

  /** Reading back the value the select shows gives the answer again. */
  lemma HasFpnSelectRoundTrip(a: Option<bool>)
    ensures HasFpnFromSelect(HasFpnSelectValue(a)) == a
  {
  }

  /** The profile updater of the FPN select: only `hasFpn` changes. */
  function WithHasFpn(prev: UserProfile, v: string): (r: UserProfile)
    ensures r.hasFpn == HasFpnFromSelect(v)
    ensures r.(hasFpn := prev.hasFpn) == prev
  {
    prev.(hasFpn := HasFpnFromSelect(v))
  }

  /** Picking a shortlisted fund makes it the fund whose details are shown. */
  method HandleSelectFund(ctx: GuidedState, f: Fund)
    modifies ctx
    ensures ctx.selectedFundId == Some(f.id)
    ensures ctx.entryMode == old(ctx.entryMode) && ctx.profile == old(ctx.profile)
    ensures ctx.selectedFundIds == old(ctx.selectedFundIds)
  {
    ctx.SetSelectedFundId(Some(f.id));
  }
}
