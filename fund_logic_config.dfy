/**
 * The tuning constants of the guided flows (`FUND_LOGIC_CONFIG`): cost and return
 * thresholds, the risk score of each fund category, the rules that turn a horizon
 * or an age range into an ideal risk, and the shortlist tables.
 */
module FundLogicConfig {
  import opened Wrappers
  import opened FundTypes

  // Cost thresholds (ISC, percent per year).
  const VeryCompetitiveCost: real := 0.6
  const AverageCost: real := 1.0

  // Ten-year return thresholds (percent per year).
  const AboveAverageReturn: real := 4.0
  const InLineReturn: real := 2.0

  /** The six fund categories of the data. */
  const FundCategories: seq<string> := ["GAR", "OBB PURO", "OBB", "OBB MISTO", "BIL", "AZN"]

  /**
   * `categoryRiskScores[c]`: 0 is the safest, 100 the most aggressive. Any other text
   * is not a key of the record and yields `undefined`, here None.
   */
  function CategoryRiskScore(c: string): (r: Option<int>)
    ensures r.Some? <==> c in FundCategories
    ensures r.Some? ==> 0 <= r.value <= 100
  {
    if c == "GAR" then Some(10)
    else if c == "OBB PURO" then Some(25)
    else if c == "OBB" then Some(30)
    else if c == "OBB MISTO" then Some(40)
    else if c == "BIL" then Some(55)
    else if c == "AZN" then Some(85)
    else None
  }

  const DefaultIdealRisk := 50
  const ShortHorizonRisk := 20

  /** A horizon rule: a horizon strictly above `minYearsExclusive` asks for `idealRisk`. */
  datatype HorizonRiskRule = HorizonRiskRule(minYearsExclusive: real, idealRisk: int)

  const HorizonRiskRules: seq<HorizonRiskRule> := [
    HorizonRiskRule(20.0, 75),
    HorizonRiskRule(15.0, 65),
    HorizonRiskRule(10.0, 50),
    HorizonRiskRule(5.0, 35)
  ]

  function AgeFallbackRisk(a: AgeRange): int {
    match a
    case Under35 => 70
    case From35To50 => 50
    case Over50 => 30
  }

  /** A shortlist rule: a horizon up to `maxYearsInclusive` (None for +infinity) targets `categories`. */
  datatype HorizonCategoryRule = HorizonCategoryRule(maxYearsInclusive: Option<real>, categories: seq<string>)

  const HorizonCategoryRules: seq<HorizonCategoryRule> := [
    HorizonCategoryRule(Some(10.0), ["GAR", "OBB", "MISTO PRUDENTE"]),
    HorizonCategoryRule(Some(20.0), ["BIL", "OBB MISTO", "MISTO"]),
    HorizonCategoryRule(None, ["AZN", "AZ", "CRESCITA", "BIL"])
  ]

  // Shortlist weights.
  const CostWeight: real := 0.5
  const ReturnsWeight: real := 0.4
  const RiskBoostMax: real := 0.14
  const HasFpnBoost: real := 0.18
  const ContractualCategoryBoost: real := 0.12
  const AgeConservatism: real := 0.06

  // Stand-ins for missing values.
  const MissingCost: real := 999.0
  const MissingReturns10y: real := -999.0

  function RiskAppetite(p: RiskPreference): real {
    match p
    case Low => 0.0
    case Medium => 0.5
    case High => 1.0
  }

  const EquityLikePatterns: seq<string> := ["AZN", "AZ", "CRESCITA"]
  const MixedLikePatterns: seq<string> := ["MISTO", "BIL", "OBB MISTO", "OBB"]

  const Over50Penalty: real := 0.06
  const Under35BoostFactor: real := 0.5

  // ---------------------------------------------------------------------------
  // The first matching rule.

  /** The ideal risk of the first rule whose bound the horizon exceeds, or `fallback`. */
  function FirstMatchRisk(rules: seq<HorizonRiskRule>, h: real, fallback: int): (r: int)
    ensures r == fallback || exists i :: 0 <= i < |rules| && r == rules[i].idealRisk && h > rules[i].minYearsExclusive
    ensures (forall i :: 0 <= i < |rules| ==> h <= rules[i].minYearsExclusive) ==> r == fallback
  {
    if rules == [] then fallback
    else if h > rules[0].minYearsExclusive then rules[0].idealRisk
    else
      var r := FirstMatchRisk(rules[1..], h, fallback);
      assert forall i :: 0 <= i < |rules| - 1 ==> rules[1..][i] == rules[i + 1];
      r
  }

  /** Thresholds strictly decrease, ideal risks decrease, and none is below the fallback. */
  ghost predicate Descending(rules: seq<HorizonRiskRule>, fallback: int) {
    && (forall i, j :: 0 <= i < j < |rules| ==> rules[i].minYearsExclusive > rules[j].minYearsExclusive)
    && (forall i, j :: 0 <= i < j < |rules| ==> rules[i].idealRisk >= rules[j].idealRisk)
    && (forall i :: 0 <= i < |rules| ==> rules[i].idealRisk >= fallback)
  }

  lemma HorizonRiskRulesDescending()
    ensures Descending(HorizonRiskRules, ShortHorizonRisk)
  {
  }

  /** Under descending rules no match can ask for more than the first rule does. */
  lemma {:induction false} FirstMatchAtMostHead(rules: seq<HorizonRiskRule>, h: real, fallback: int)
    requires rules != [] && Descending(rules, fallback)
    ensures FirstMatchRisk(rules[1..], h, fallback) <= rules[0].idealRisk
  {
    var r := FirstMatchRisk(rules[1..], h, fallback);
    if r != fallback {
      var i :| 0 <= i < |rules[1..]| && r == rules[1..][i].idealRisk && h > rules[1..][i].minYearsExclusive;
      assert rules[1..][i] == rules[i + 1];
    }
  }

  /** Under descending rules the first-match ideal risk never falls as the horizon grows. */
  lemma {:induction false} FirstMatchMonotone(rules: seq<HorizonRiskRule>, h1: real, h2: real, fallback: int)
    requires Descending(rules, fallback)
    requires h1 <= h2
    ensures FirstMatchRisk(rules, h1, fallback) <= FirstMatchRisk(rules, h2, fallback)
  {
    if rules != [] {
      assert Descending(rules[1..], fallback) by {
        assert forall i :: 0 <= i < |rules| - 1 ==> rules[1..][i] == rules[i + 1];
      }
      if h2 > rules[0].minYearsExclusive {
        FirstMatchAtMostHead(rules, h1, fallback);
      } else {
        FirstMatchMonotone(rules[1..], h1, h2, fallback);
      }
    }
  }

  /** The ideal risk a horizon asks for under the configured rules. */
  function HorizonIdealRisk(h: real): int {
    FirstMatchRisk(HorizonRiskRules, h, ShortHorizonRisk)
  }

  lemma HorizonIdealRiskMonotone(h1: real, h2: real)
    requires h1 <= h2
    ensures HorizonIdealRisk(h1) <= HorizonIdealRisk(h2)
  {
    HorizonRiskRulesDescending();
    FirstMatchMonotone(HorizonRiskRules, h1, h2, ShortHorizonRisk);
  }

  lemma AgeFallbackDecreasing()
    ensures AgeFallbackRisk(Under35) > AgeFallbackRisk(From35To50) > AgeFallbackRisk(Over50)
  {
  }

  lemma ThresholdsOrdered()
    ensures VeryCompetitiveCost < AverageCost
    ensures InLineReturn < AboveAverageReturn
  {
  }

  /** GAR is the safest category and AZN the most aggressive. */
  lemma CategoryRiskExtremes(c: string)
    requires c in FundCategories
    ensures CategoryRiskScore("GAR").value <= CategoryRiskScore(c).value <= CategoryRiskScore("AZN").value
  {
  }

  // ---------------------------------------------------------------------------
  // Shortlist category rules.

  /** The categories of the first shortlist rule whose bound the horizon does not exceed. */
  function RuleCategories(rules: seq<HorizonCategoryRule>, h: real): (r: Option<seq<string>>)
    ensures r.Some? ==> exists i :: 0 <= i < |rules| && r.value == rules[i].categories
    ensures (exists i :: 0 <= i < |rules| && rules[i].maxYearsInclusive.None?) ==> r.Some?
  {
    if rules == [] then None
    else if rules[0].maxYearsInclusive.None? || h <= rules[0].maxYearsInclusive.value then Some(rules[0].categories)
    else
      var r := RuleCategories(rules[1..], h);
      assert forall i :: 0 <= i < |rules| - 1 ==> rules[1..][i] == rules[i + 1];
      assert (exists i :: 0 <= i < |rules| && rules[i].maxYearsInclusive.None?)
        ==> (exists i :: 0 <= i < |rules[1..]| && rules[1..][i].maxYearsInclusive.None?);
      r
  }

  /** The last rule is unbounded, so every horizon selects a category list. */
  lemma EveryHorizonHasCategories(h: real)
    ensures RuleCategories(HorizonCategoryRules, h).Some?
  {
    assert HorizonCategoryRules[2].maxYearsInclusive.None?;
  }
}
