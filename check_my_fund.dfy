/**
 * The "check my fund" flow: a search box that suggests funds by text, the choice of
 * one of them, and the x-ray card with its coherence gauge.
 */
module CheckMyFundFlow {
  import opened Wrappers
  import opened Text
  import opened Sequences
  import opened FundTypes
  import opened GuidedContext

  const MinSearchLength := 3
  const SuggestionCount := 8

  /** The term searched for: the input trimmed and lower-cased. */
  function SearchTerm(search: string): (t: string)
    ensures |t| == |Trim(search)| <= |search|
    ensures forall i :: 0 <= i < |t| ==> t[i] == LowerChar(Trim(search)[i])
  {
    var trimmed := Trim(search);
    ToLower(trimmed)
  }

  /** The text a fund is searched in: line, product and company, lower-cased. */
  function Haystack(f: Fund): string {
    ToLower(f.linea + " " + f.pip + " " + f.societa.GetOr(""))
  }

  /** `matchingFunds`: nothing below three characters, else the funds whose text holds the term. */
  function MatchingFunds(funds: seq<Fund>, search: string): (r: seq<Fund>)
    ensures |SearchTerm(search)| < MinSearchLength ==> r == []
    ensures |SearchTerm(search)| >= MinSearchLength ==>
      forall f :: f in r <==> f in funds && Contains(Haystack(f), SearchTerm(search))
    ensures multiset(r) <= multiset(funds)
  {
    var term := SearchTerm(search);
    if |term| < MinSearchLength then []
    else Filter(funds, (f: Fund) => Contains(Haystack(f), term))
  }

  /** The suggestion list: the first eight matches, in the order of the fund list. */
  function Suggestions(funds: seq<Fund>, search: string): (r: seq<Fund>)
    ensures |r| <= SuggestionCount
    ensures r <= MatchingFunds(funds, search)
    ensures |MatchingFunds(funds, search)| <= SuggestionCount ==> r == MatchingFunds(funds, search)
  {
    SliceTo(MatchingFunds(funds, search), SuggestionCount)
  }

  /** A text holding a term also holds every prefix of that term. */
  lemma {:induction false} ContainsPrefixOfTerm(h: string, term: string, prefix: string)
    requires Contains(h, term) && StartsWith(term, prefix)
    ensures Contains(h, prefix)
    decreases |h|
  {
    if StartsWith(h, term) {
      assert h[..|prefix|] == term[..|prefix|];
    } else {
      ContainsPrefixOfTerm(h[1..], term, prefix);
    }
  }

  /**
   * Typing more characters narrows the matches: once the shorter term is long enough,
   * every fund matching the longer term matches the shorter one too.
   */
  lemma NarrowingSearch(funds: seq<Fund>, shorter: string, longer: string)
    requires |SearchTerm(shorter)| >= MinSearchLength
    requires StartsWith(SearchTerm(longer), SearchTerm(shorter))
    ensures forall f :: f in MatchingFunds(funds, longer) ==> f in MatchingFunds(funds, shorter)
  {
    forall f | f in MatchingFunds(funds, longer) ensures f in MatchingFunds(funds, shorter) {
      ContainsPrefixOfTerm(Haystack(f), SearchTerm(longer), SearchTerm(shorter));
    }
  }

  /** The fund list never matters for a search shorter than three characters. */
  lemma ShortSearchSuggestsNothing(funds: seq<Fund>, search: string)
    requires |Trim(search)| < MinSearchLength
    ensures Suggestions(funds, search) == []
  {
  }

  /** The search box and the fund it picked. */
  class CheckState {
    var search: string
    var fund: Option<Fund>

    constructor()
      ensures search == "" && fund.None?
    {
      search := "";
      fund := None;
    }

    /** Typing in the box. */
    method SetSearch(s: string)
      modifies this
      ensures search == s && fund == old(fund)
    {
      search := s;
    }

    /**
     * `handleSelectFund`: the fund is shown, its id becomes the selected fund of the
     * guided state and the search box is emptied, which empties the suggestions.
     */
    method HandleSelectFund(ctx: GuidedState, selected: Fund)
      modifies this, ctx
      ensures fund == Some(selected) && search == ""
      ensures ctx.selectedFundId == Some(selected.id)
      ensures ctx.entryMode == old(ctx.entryMode) && ctx.profile == old(ctx.profile)
      ensures ctx.selectedFundIds == old(ctx.selectedFundIds)
      ensures forall funds :: Suggestions(funds, search) == []
    {
      fund := Some(selected);
      ctx.SetSelectedFundId(Some(selected.id));
      search := "";
    }
  }

  // ---------------------------------------------------------------------------
  // The x-ray card.

  /** The card's heading: the company, else the product for an FPN, else a placeholder. */
  function CompanyHeading(f: Fund): (r: string)
    ensures f.societa.Some? ==> r == f.societa.value
    ensures f.societa.None? && f.fundType == "FPN" ==> r == f.pip
    ensures f.societa.None? && f.fundType != "FPN" ==> r == "Compagnia non indicata"
  {
    match f.societa
    case Some(s) => s
    case None => if f.fundType == "FPN" then f.pip else "Compagnia non indicata"
  }

  /** The coherence row speaks of the score only when the horizon or the age is known. */
  predicate ShowsCoherence(p: UserProfile) {
    !NoHorizon(p) || p.ageRange.Some?
  }

  const InLineVerdict := " Sembra in linea con il tuo orizzonte."
  const ConsiderOthersVerdict := " Potresti valutare fondi più adatti al tuo orizzonte."

  function CoherenceVerdict(score: int): (r: string)
    ensures r == InLineVerdict <==> score >= 60
    ensures r == ConsiderOthersVerdict <==> score < 60
  {
    if score >= 60 then InLineVerdict else ConsiderOthersVerdict
  }

  // ---------------------------------------------------------------------------
  // The coherence gauge.

  /** `Math.max(0, Math.min(100, score))` */
  function Clamp(score: int): (r: int)
    ensures 0 <= r <= 100
    ensures 0 <= score <= 100 ==> r == score
    ensures score < 0 ==> r == 0
    ensures score > 100 ==> r == 100
  {
    var upper := if 100 < score then 100 else score;
    if 0 < upper then upper else 0
  }

  lemma ClampIdempotent(score: int)
    ensures Clamp(Clamp(score)) == Clamp(score)
  {
  }

  lemma ClampMonotone(a: int, b: int)
    requires a <= b
    ensures Clamp(a) <= Clamp(b)
  {
  }

  const GaugeGreen := "bg-emerald-500"
  const GaugeAmber := "bg-amber-400"
  const GaugeRed := "bg-red-500"

  /** The bar's colour: the one passed in, else green from 80, amber from 60, red below. */
  function GaugeColor(score: int, colorClass: Option<string>): (c: string)
    ensures colorClass.Some? ==> c == colorClass.value
    ensures colorClass.None? ==> (c == GaugeGreen <==> Clamp(score) >= 80)
    ensures colorClass.None? ==> (c == GaugeAmber <==> 60 <= Clamp(score) < 80)
    ensures colorClass.None? ==> (c == GaugeRed <==> Clamp(score) < 60)
  {
    var clamped := Clamp(score);
    var defaultColor := if clamped >= 80 then GaugeGreen else if clamped >= 60 then GaugeAmber else GaugeRed;
    colorClass.GetOr(defaultColor)
  }

  /** Scores beyond the ends are drawn like the ends themselves. */
  lemma GaugeSaturates(score: int, colorClass: Option<string>)
    ensures score > 100 ==> GaugeColor(score, colorClass) == GaugeColor(100, colorClass)
    ensures score < 0 ==> GaugeColor(score, colorClass) == GaugeColor(0, colorClass)
  {
  }
}
