/**
 * Labels and colour bands for costs, returns and coherence, and the coherence score
 * that compares the risk of a fund's category with the risk a user's horizon or age
 * asks for.
 */
module FundConfig {
  import opened Wrappers
  import opened FundTypes
  import opened FundLogicConfig

  const CostMissing := "Costo: dato non disponibile"
  const CostVeryCompetitive := "Costo: molto competitivo"
  const CostAverage := "Costo: nella media"
  const CostAboveAverage := "Costo: sopra la media"

  /** `costLabelFromIsc35`: the cost band of an ISC value. */
  function CostLabelFromIsc35(isc35: Option<real>): (r: string)
    ensures r == CostMissing <==> isc35.None?
    ensures r == CostVeryCompetitive <==> isc35.Some? && isc35.value <= VeryCompetitiveCost
    ensures r == CostAverage <==> isc35.Some? && VeryCompetitiveCost < isc35.value <= AverageCost
    ensures r == CostAboveAverage <==> isc35.Some? && isc35.value > AverageCost
  {
    if isc35.None? then CostMissing
    else if isc35.value <= VeryCompetitiveCost then CostVeryCompetitive
    else if isc35.value <= AverageCost then CostAverage
    else CostAboveAverage
  }

  /** `costLabelFromIsc10`: the ten-year ISC uses the same thresholds. */
  function CostLabelFromIsc10(isc10: Option<real>): string {
    CostLabelFromIsc35(isc10)
  }

  const PerfMissing := "Rendimenti: dato mancante"
  const PerfAboveAverage := "Rendimenti: sopra la media"
  const PerfInLine := "Rendimenti: in linea con fondi simili"
  const PerfBelowAverage := "Rendimenti: sotto la media recente"

  /** `perfLabelFromRendimento10y`: the band of a ten-year return. */
  function PerfLabelFromRendimento10y(r10: Option<real>): (r: string)
    ensures r == PerfMissing <==> r10.None?
    ensures r == PerfAboveAverage <==> r10.Some? && r10.value >= AboveAverageReturn
    ensures r == PerfInLine <==> r10.Some? && InLineReturn <= r10.value < AboveAverageReturn
    ensures r == PerfBelowAverage <==> r10.Some? && r10.value < InLineReturn
  {
    if r10.None? then PerfMissing
    else if r10.value >= AboveAverageReturn then PerfAboveAverage
    else if r10.value >= InLineReturn then PerfInLine
    else PerfBelowAverage
  }

  // ---------------------------------------------------------------------------
  // Coherence.

  /**
   * The risk a profile asks for: the horizon decides when it is given (zero included),
   * the age range only when it is not, and 50 when neither is known.
   */
  function IdealRisk(p: UserProfile): (r: int)
    ensures p.horizonYears.Some? ==> r == HorizonIdealRisk(p.horizonYears.value)
    ensures p.horizonYears.None? && p.ageRange.Some? ==> r == AgeFallbackRisk(p.ageRange.value)
    ensures p.horizonYears.None? && p.ageRange.None? ==> r == DefaultIdealRisk
  {
    if p.horizonYears.Some? then HorizonIdealRisk(p.horizonYears.value)
    else if p.ageRange.Some? then AgeFallbackRisk(p.ageRange.value)
    else DefaultIdealRisk
  }

  /** A category argument as the declared type allows it: absent, empty, or one of the six. */
  predicate KnownCategory(c: Option<string>) {
    c.None? || c.value == [] || c.value in FundCategories
  }

  function Abs(x: int): nat {
    if x < 0 then -x else x
  }

  /**
   * The coherence score: 50 without a category, else 100 minus the distance between
   * the category's risk and the ideal risk, floored at 0. Risks are whole numbers, so
   * the division by 100 and the multiplication by 100 followed by `Math.round` give
   * that distance back exactly.
   */
  function CoherenceScore(c: Option<string>, p: UserProfile): (r: int)
    requires KnownCategory(c)
    ensures 0 <= r <= 100
  {
    if c.None? || c.value == [] then 50
    else
      var distance := Abs(CategoryRiskScore(c.value).value - IdealRisk(p));
      if 100 - distance < 0 then 0 else 100 - distance
  }

  /** `computeCoherenceScore`, with its first-match loop over the horizon rules. */
  method ComputeCoherenceScore(c: Option<string>, p: UserProfile) returns (score: int)
    requires KnownCategory(c)
    ensures score == CoherenceScore(c, p)
  {
    if c.None? || c.value == [] {
      return 50;
    }
    var fundRisk := CategoryRiskScore(c.value).value;
    var idealRisk := DefaultIdealRisk;
    if p.horizonYears.Some? {
      var h := p.horizonYears.value;
      idealRisk := ShortHorizonRisk;
      var i := 0;
      while i < |HorizonRiskRules|
        invariant 0 <= i <= |HorizonRiskRules|
        invariant idealRisk == ShortHorizonRisk
        invariant FirstMatchRisk(HorizonRiskRules[i..], h, ShortHorizonRisk) == HorizonIdealRisk(h)
      {
        if h > HorizonRiskRules[i].minYearsExclusive {
          idealRisk := HorizonRiskRules[i].idealRisk;
          break;
        }
        assert HorizonRiskRules[i..][1..] == HorizonRiskRules[i + 1..];
        i := i + 1;
      }
    } else if p.ageRange.Some? {
      idealRisk := AgeFallbackRisk(p.ageRange.value);
    }
    var distance := Abs(fundRisk - idealRisk);
    score := if 100 - distance < 0 then 0 else 100 - distance;
  }

  /** Without a category the score is neutral. */
  lemma CoherenceScoreWithoutCategory(p: UserProfile)
    ensures CoherenceScore(None, p) == 50 && CoherenceScore(Some(""), p) == 50
  {
  }

  /** A fund scores 100 exactly when its category's risk is the ideal risk. */
  lemma CoherenceScorePerfect(c: string, p: UserProfile)
    requires c in FundCategories
    ensures CoherenceScore(Some(c), p) == 100 <==> CategoryRiskScore(c).value == IdealRisk(p)
  {
  }

  /** The age range is consulted only when the horizon is absent. */
  lemma HorizonOverridesAge(p: UserProfile, a: Option<AgeRange>)
    requires p.horizonYears.Some?
    ensures IdealRisk(p.(ageRange := a)) == IdealRisk(p)
  {
  }

  const CoherenceExcellent := "Coerenza: ottima per il tuo profilo"
  const CoherenceGood := "Coerenza: buona, in linea con le tue esigenze"
  const CoherenceAcceptable := "Coerenza: accettabile, ma valuta alternative"
  const CoherencePoor := "Coerenza: poco adatta al tuo orizzonte temporale"

  /** `coherenceLabelFromScore` */
  function CoherenceLabelFromScore(score: int): (r: string)
    ensures r == CoherenceExcellent <==> score >= 80
    ensures r == CoherenceGood <==> 60 <= score < 80
    ensures r == CoherenceAcceptable <==> 40 <= score < 60
    ensures r == CoherencePoor <==> score < 40
  {
    if score >= 80 then CoherenceExcellent
    else if score >= 60 then CoherenceGood
    else if score >= 40 then CoherenceAcceptable
    else CoherencePoor
  }

  // ---------------------------------------------------------------------------
  // Colour bands.

  /** The colour family of a badge; `Classes` gives its Tailwind classes. */
  datatype Colour = Slate | Emerald | Amber | Red {
    function Classes(): (string, string) {
      match this
      case Slate => ("bg-slate-100 dark:bg-slate-800", "bg-slate-400")
      case Emerald => ("bg-emerald-50 dark:bg-emerald-900/20", "bg-emerald-500")
      case Amber => ("bg-amber-50 dark:bg-amber-900/20", "bg-amber-400")
      case Red => ("bg-red-50 dark:bg-red-900/20", "bg-red-500")
    }
  }

  function ColorForCost(isc35: Option<real>): Colour {
    if isc35.None? then Slate
    else if isc35.value <= VeryCompetitiveCost then Emerald
    else if isc35.value <= AverageCost then Amber
    else Red
  }

  function ColorForCost10(isc10: Option<real>): Colour {
    ColorForCost(isc10)
  }

  function ColorForPerf(r10: Option<real>): Colour {
    if r10.None? then Slate
    else if r10.value >= AboveAverageReturn then Emerald
    else if r10.value >= InLineReturn then Amber
    else Red
  }

  function ColorForCoherence(score: Option<int>): Colour {
    if score.None? then Slate
    else if score.value >= 80 then Emerald
    else if score.value >= 60 then Amber
    else Red
  }

  /** Each cost colour goes with exactly one cost label, for the ISC35 and the ISC10 helpers alike. */
  lemma CostColourMatchesLabel(isc: Option<real>)
    ensures ColorForCost(isc) == Slate <==> CostLabelFromIsc35(isc) == CostMissing
    ensures ColorForCost(isc) == Emerald <==> CostLabelFromIsc35(isc) == CostVeryCompetitive
    ensures ColorForCost(isc) == Amber <==> CostLabelFromIsc35(isc) == CostAverage
    ensures ColorForCost(isc) == Red <==> CostLabelFromIsc35(isc) == CostAboveAverage
    ensures ColorForCost10(isc) == ColorForCost(isc) && CostLabelFromIsc10(isc) == CostLabelFromIsc35(isc)
  {
  }

  lemma PerfColourMatchesLabel(r10: Option<real>)
    ensures ColorForPerf(r10) == Slate <==> PerfLabelFromRendimento10y(r10) == PerfMissing
    ensures ColorForPerf(r10) == Emerald <==> PerfLabelFromRendimento10y(r10) == PerfAboveAverage
    ensures ColorForPerf(r10) == Amber <==> PerfLabelFromRendimento10y(r10) == PerfInLine
    ensures ColorForPerf(r10) == Red <==> PerfLabelFromRendimento10y(r10) == PerfBelowAverage
  {
  }

  /** The coherence colour splits at 80 and 60, as the two best labels do. */
  lemma CoherenceColourMatchesLabel(score: int)
    ensures ColorForCoherence(Some(score)) == Emerald <==> CoherenceLabelFromScore(score) == CoherenceExcellent
    ensures ColorForCoherence(Some(score)) == Amber <==> CoherenceLabelFromScore(score) == CoherenceGood
    ensures ColorForCoherence(Some(score)) == Red <==>
      CoherenceLabelFromScore(score) in {CoherenceAcceptable, CoherencePoor}
  {
  }

  // ---------------------------------------------------------------------------
  // The match label of a fund.

  /** The part of a fund `matchLabelFromFund` reads; both fields are optional there. */
  datatype FundSummary = FundSummary(categoria: Option<string>, fundType: Option<string>)

  const MatchMissing := "Coerenza: dati mancanti"

  /** `x ?? 'N/D'` */
  function OrNd(x: Option<string>): string {
    x.GetOr("N/D")
  }

  /** Without a profile, or with neither a truthy horizon nor an age range, there is no user context. */
  predicate HasContext(profile: Option<UserProfile>) {
    profile.Some? && !(NoHorizon(profile.value) && profile.value.ageRange.None?)
  }

  function MatchLabelFromFund(fund: Option<FundSummary>, profile: Option<UserProfile>): (r: string)
    requires fund.Some? ==> KnownCategory(fund.value.categoria)
    ensures fund.None? ==> r == MatchMissing
    ensures fund.Some? && !HasContext(profile) ==>
      r == "Coerenza: fondo " + OrNd(fund.value.categoria) + " (" + OrNd(fund.value.fundType) + ")"
    ensures fund.Some? && HasContext(profile) ==>
      r == CoherenceLabelFromScore(CoherenceScore(fund.value.categoria, profile.value))
  {
    if fund.None? then MatchMissing
    else if !HasContext(profile) then
      "Coerenza: fondo " + OrNd(fund.value.categoria) + " (" + OrNd(fund.value.fundType) + ")"
    else CoherenceLabelFromScore(CoherenceScore(fund.value.categoria, profile.value))
  }

  /**
   * With a horizon of zero and no age range the label describes the fund, although the
   * score itself would treat zero as a horizon.
   */
  lemma ZeroHorizonHasNoContext(p: UserProfile)
    requires p.horizonYears == Some(0.0) && p.ageRange.None?
    ensures !HasContext(Some(p))
    ensures IdealRisk(p) == ShortHorizonRisk
  {
  }
}
