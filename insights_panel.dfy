/**
 * The panel that explains the fund picked in the guided flows in plain words: its risk
 * band from the category, the 35-year ISC and the 10-year return when known, and a
 * sentence about the horizon.
 */
module InsightsPanel {
  import opened Wrappers
  import opened Text
  import opened FundTypes
  import opened FundLogicConfig

  /** The position of the first fund with the given id, or -1. */
  function FirstWithId(funds: seq<Fund>, id: string): (k: int)
    ensures -1 <= k < |funds|
    ensures k == -1 <==> forall f :: f in funds ==> f.id != id
    ensures k >= 0 ==> funds[k].id == id && forall j :: 0 <= j < k ==> funds[j].id != id
  {
    if funds == [] then -1
    else if funds[0].id == id then 0
    else
      var k := FirstWithId(funds[1..], id);
      if k == -1 then -1 else k + 1
  }

  /** `funds.find(f => f.id === selectedFundId)`: the first fund with that id. */
  function FindFund(funds: seq<Fund>, id: Option<string>): (r: Option<Fund>)
    ensures r.None? <==> id.None? || forall f :: f in funds ==> f.id != id.value
    ensures r.Some? ==> r.value == funds[FirstWithId(funds, id.value)]
  {
    if id.None? then None
    else
      var k := FirstWithId(funds, id.value);
      if k == -1 then None else Some(funds[k])
  }

  datatype HorizonText = NoHorizonGiven | UpToTen | TenToTwenty | OverTwenty

  /** The horizon sentence: any number, zero included, picks a band. */
  function HorizonSentence(h: Option<real>): (r: HorizonText)
    ensures r == NoHorizonGiven <==> h.None?
    ensures r == UpToTen <==> h.Some? && h.value <= 10.0
    ensures r == TenToTwenty <==> h.Some? && 10.0 < h.value <= 20.0
    ensures r == OverTwenty <==> h.Some? && h.value > 20.0
  {
    match h
    case None => NoHorizonGiven
    case Some(years) =>
      if years <= 10.0 then UpToTen
      else if years <= 20.0 then TenToTwenty
      else OverTwenty
  }

  datatype RiskBand = Lower | Higher | Intermediate

  /** "GAR" in the category means lower risk, else "AZ" higher, else intermediate. */
  function RiskBandOf(categoria: string): (r: RiskBand)
    ensures r == Lower <==> Contains(categoria, "GAR")
    ensures r == Higher <==> !Contains(categoria, "GAR") && Contains(categoria, "AZ")
  {
    if Contains(categoria, "GAR") then Lower
    else if Contains(categoria, "AZ") then Higher
    else Intermediate
  }

  /** What the panel shows: a placeholder without a fund, else the explained figures. */
  datatype Panel =
    | Placeholder
    | Explained(linea: string, societa: Option<string>, band: RiskBand,
                isc35: Option<real>, return10: Option<real>, horizon: HorizonText)

  function PanelFor(funds: seq<Fund>, selectedFundId: Option<string>, p: UserProfile): (r: Panel)
    ensures r.Placeholder? <==> FindFund(funds, selectedFundId).None?
    ensures r.Explained? ==>
      var f := FindFund(funds, selectedFundId).value;
      && r.linea == f.linea
      && r.band == RiskBandOf(f.categoria)
      && r.isc35 == f.isc.isc35a && r.return10 == f.rendimenti.ultimi10Anni
      && r.horizon == HorizonSentence(p.horizonYears)
  {
    match FindFund(funds, selectedFundId)
    case None => Placeholder
    case Some(f) =>
      Explained(f.linea, if Truthy(f.societa) then f.societa else None, RiskBandOf(f.categoria),
                f.isc.isc35a, f.rendimenti.ultimi10Anni, HorizonSentence(p.horizonYears))
  }

  /** A longer horizon never gets a more cautious sentence. */
  function BandRank(t: HorizonText): int {
    match t
    case NoHorizonGiven => 0
    case UpToTen => 1
    case TenToTwenty => 2
    case OverTwenty => 3
  }

  lemma HorizonSentenceMonotone(a: real, b: real)
    requires a <= b
    ensures BandRank(HorizonSentence(Some(a))) <= BandRank(HorizonSentence(Some(b)))
  {
  }

  /**
   * On the six known categories the panel's band agrees with the risk score table: the
   * lowest score reads as lower risk, the highest as higher, the rest as intermediate.
   */
  lemma RiskBandAgreesWithScores(c: string)
    requires c in FundCategories
    ensures RiskBandOf(c) == Lower <==> CategoryRiskScore(c).value == 10
    ensures RiskBandOf(c) == Higher <==> CategoryRiskScore(c).value == 85
  {
    if c == "GAR" {
      ContainsInfix([], "GAR", []);
    } else if c == "AZN" {
      assert "AZN" == [] + "AZ" + "N";
      ContainsInfix([], "AZ", "N");
      MissingCharNotContained(c, "GAR", 'G');
    } else {
      NeitherTerm(c);
    }
  }

  /** The four middle categories hold neither "GAR" nor "AZ". */
  lemma NeitherTerm(c: string)
    requires c in FundCategories && c != "GAR" && c != "AZN"
    ensures !Contains(c, "GAR") && !Contains(c, "AZ")
  {
    assert c == "OBB PURO" || c == "OBB" || c == "OBB MISTO" || c == "BIL";
    assert 'G' !in c && 'Z' !in c;
    MissingCharNotContained(c, "GAR", 'G');
    MissingCharNotContained(c, "AZ", 'Z');
  }

  /** A text lacking one of a term's characters does not hold the term. */
  lemma {:induction false} MissingCharNotContained(s: string, sub: string, x: char)
    requires x in sub && x !in s
    ensures !Contains(s, sub)
    decreases |s|
  {
    if s != [] {
      MissingCharNotContained(s[1..], sub, x);
    }
  }
}
