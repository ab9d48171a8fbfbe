/**
 * The colour of a selected fund in the charts and chips: the palette entry at the
 * fund's position in the selection, wrapping after ten; a fund outside the selection
 * gets the first colour.
 */
module ColorMapping {
  import opened Text

  const ChartColors: seq<string> := [
    "#0ea5e9", "#14b8a6", "#8b5cf6", "#f59e0b", "#f43f5e",
    "#6366f1", "#ec4899", "#22c55e", "#d97706", "#64748b"
  ]

  /** The ten palette colours are pairwise different. */
  lemma ChartColorsDistinct()
    ensures |ChartColors| == 10
    ensures forall i, j :: 0 <= i < j < |ChartColors| ==> ChartColors[i] != ChartColors[j]
  {
  }

  /** `getColorForFund` */
  function ColorForFund(fundId: string, selectedFundIds: seq<string>): (r: string)
    ensures r in ChartColors
    ensures fundId !in selectedFundIds ==> r == ChartColors[0]
    ensures fundId in selectedFundIds ==> r == ChartColors[IndexOf(selectedFundIds, fundId) % |ChartColors|]
  {
    var index := IndexOf(selectedFundIds, fundId);
    if index == -1 then ChartColors[0] else ChartColors[index % |ChartColors|]
  }

  /** In a selection without repeated ids, the first ten funds get ten different colours. */
  lemma FirstTenColorsDistinct(selectedFundIds: seq<string>, i: nat, j: nat)
    requires forall a, b :: 0 <= a < b < |selectedFundIds| ==> selectedFundIds[a] != selectedFundIds[b]
    requires i < j < |selectedFundIds| && j < |ChartColors|
    ensures ColorForFund(selectedFundIds[i], selectedFundIds) != ColorForFund(selectedFundIds[j], selectedFundIds)
  {
    FirstPositionOfDistinct(selectedFundIds, i);
    FirstPositionOfDistinct(selectedFundIds, j);
    WithinPalette(i);
    WithinPalette(j);
    PaletteEntriesDiffer(i, j);
  }

  /** A position inside the palette wraps to itself. */
  lemma WithinPalette(k: nat)
    requires k < |ChartColors|
    ensures k % |ChartColors| == k
  {
  }

  lemma PaletteEntriesDiffer(i: nat, j: nat)
    requires i < j < |ChartColors|
    ensures ChartColors[i] != ChartColors[j]
  {
    ChartColorsDistinct();
  }

  /** Without repeats, the first position of the id at position k is k. */
  lemma FirstPositionOfDistinct(s: seq<string>, k: nat)
    requires forall a, b :: 0 <= a < b < |s| ==> s[a] != s[b]
    requires k < |s|
    ensures IndexOf(s, s[k]) == k
  {
    var r := IndexOf(s, s[k]);
    assert r <= k by {
      assert s[..k + 1][k] == s[k];
    }
  }

  /** The fund at position ten shares the first fund's colour: the palette wraps. */
  lemma ColorsWrapAfterTen(selectedFundIds: seq<string>)
    requires forall a, b :: 0 <= a < b < |selectedFundIds| ==> selectedFundIds[a] != selectedFundIds[b]
    requires |selectedFundIds| > 10
    ensures ColorForFund(selectedFundIds[10], selectedFundIds) == ColorForFund(selectedFundIds[0], selectedFundIds)
  {
    FirstPositionOfDistinct(selectedFundIds, 0);
    FirstPositionOfDistinct(selectedFundIds, 10);
  }
}
