/**
 * The row of chips above the fund table: one chip per filter that differs from its
 * default, each of which resets its own filter, and a button that resets them all.
 */
module ActiveFiltersChips {

  /** The default of the category, company and type filters. */
  const All := "all"
  const SearchLabelLength := 20

  datatype Filters = Filters(searchTerm: string, category: string, company: string, fundType: string)

  const DefaultFilters := Filters("", All, All, All)

  datatype Chip = CompanyChip | TypeChip | CategoryChip | SearchChip

  /** `hasActiveFilters`: a search term, or a category, company or type other than "all". */
  predicate HasActiveFilters(f: Filters) {
    f.searchTerm != "" || f.category != All || f.company != All || f.fundType != All
  }

  /** The chip shows for a filter exactly when that filter is not at its default. */
  predicate Shown(f: Filters, c: Chip) {
    match c
    case CompanyChip => f.company != All
    case TypeChip => f.fundType != All
    case CategoryChip => f.category != All
    case SearchChip => f.searchTerm != ""
  }

  /** The chips in the order they are drawn: company, type, category, search. */
  function Chips(f: Filters): (r: seq<Chip>)
    ensures forall c :: c in r <==> Shown(f, c)
    ensures r == [] <==> !HasActiveFilters(f)
    ensures forall i, j :: 0 <= i < j < |r| ==> r[i] != r[j]
  {
    (if f.company != All then [CompanyChip] else [])
    + (if f.fundType != All then [TypeChip] else [])
    + (if f.category != All then [CategoryChip] else [])
    + (if f.searchTerm != "" then [SearchChip] else [])
  }

  /** A click on a chip: its own filter goes back to the default. */
  function ResetChip(f: Filters, c: Chip): (r: Filters)
    ensures !Shown(r, c)
    ensures forall other :: other != c ==> (Shown(r, other) <==> Shown(f, other))
    ensures c != SearchChip ==> r.searchTerm == f.searchTerm
    ensures c != CategoryChip ==> r.category == f.category
    ensures c != CompanyChip ==> r.company == f.company
    ensures c != TypeChip ==> r.fundType == f.fundType
  {
    match c
    case CompanyChip => f.(company := All)
    case TypeChip => f.(fundType := All)
    case CategoryChip => f.(category := All)
    case SearchChip => f.(searchTerm := "")
  }

  /** Clicking every chip shown, in any order, leaves no active filter. */
  lemma {:induction false} ResetEveryChip(f: Filters, clicks: seq<Chip>)
    requires forall c :: Shown(f, c) ==> c in clicks
    ensures !HasActiveFilters(ResetAll(f, clicks))
    ensures ResetAll(f, clicks) == DefaultFilters
    decreases |clicks|
  {
    if clicks != [] {
      var g := ResetChip(f, clicks[0]);
      forall c | Shown(g, c) ensures c in clicks[1..] {
        assert c != clicks[0] && c in clicks;
      }
      ResetEveryChip(g, clicks[1..]);
    } else {
      assert !Shown(f, CompanyChip) && !Shown(f, TypeChip);
      assert !Shown(f, CategoryChip) && !Shown(f, SearchChip);
    }
  }

  /** The filters after a sequence of chip clicks. */
  function ResetAll(f: Filters, clicks: seq<Chip>): Filters
    decreases |clicks|
  {
    if clicks == [] then f else ResetAll(ResetChip(f, clicks[0]), clicks[1..])
  }

  /** The search chip's label: the term, or its first twenty characters and "...". */
  function SearchLabel(term: string): (r: string)
    ensures |term| <= SearchLabelLength ==> r == term
    ensures |term| > SearchLabelLength ==>
      (|r| == SearchLabelLength + 3
       && r[..SearchLabelLength] == term[..SearchLabelLength] && r[SearchLabelLength..] == "...")
  {
    if |term| > SearchLabelLength then term[..SearchLabelLength] + "..." else term
  }

  /** Every label fits in 23 characters and begins like the term. */
  lemma SearchLabelBounded(term: string)
    ensures |SearchLabel(term)| <= SearchLabelLength + 3
    ensures var n := if |term| < SearchLabelLength then |term| else SearchLabelLength;
      SearchLabel(term)[..n] == term[..n]
  {
  }
}
