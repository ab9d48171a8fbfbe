/**
 * The dashboard of the comparator: the funds of the dataset filtered by category,
 * company and a free-text search, sorted by the chosen column with missing values
 * always last, and a selection of at most ten fund ids feeding the charts.
 */
module AppDashboard {
  import opened Wrappers
  import opened Text
  import opened Sequences
  import opened FundTypes

  /** A value a fund is sorted by: a number, a text, or null. */
  datatype SortValue = Null | Num(n: real) | Str(s: string)

  /** The columns whose sort value is a text. */
  predicate StringKey(k: SortKey) {
    k == Linea || k == Categoria
  }

  /** The columns whose sort value is a number or null. */
  predicate NumericKey(k: SortKey) {
    k == CostoAnnuo || k == UltimoAnno || k == Ultimi3Anni || k == Ultimi5Anni || k == Ultimi10Anni || k == Ultimi20Anni
  }

  function OptNum(o: Option<real>): SortValue {
    match o
    case None => Null
    case Some(x) => Num(x)
  }

  /**
   * `getSortValue`: the text of `linea` and `categoria`, the annual cost and the five
   * returns as numbers (null when missing), and null for every other key.
   */
  function GetSortValue(f: Fund, key: SortKey): (v: SortValue)
    ensures v.Str? <==> StringKey(key)
    ensures v.Num? ==> NumericKey(key)
    ensures !StringKey(key) && !NumericKey(key) ==> v.Null?
  {
    match key
    case Linea => Str(f.linea)
    case Categoria => Str(f.categoria)
    case CostoAnnuo => OptNum(f.costoAnnuo)
    case UltimoAnno => OptNum(f.rendimenti.ultimoAnno)
    case Ultimi3Anni => OptNum(f.rendimenti.ultimi3Anni)
    case Ultimi5Anni => OptNum(f.rendimenti.ultimi5Anni)
    case Ultimi10Anni => OptNum(f.rendimenti.ultimi10Anni)
    case Ultimi20Anni => OptNum(f.rendimenti.ultimi20Anni)
    case _ => Null
  }

  // ---------------------------------------------------------------------------
  // Text comparison.

  /** Lexicographic comparison by character code: -1, 0 or 1. */
  function StrCompare(a: string, b: string): (r: int)
    ensures -1 <= r <= 1
    ensures r == 0 <==> a == b
  {
    if a == [] then (if b == [] then 0 else -1)
    else if b == [] then 1
    else if a[0] < b[0] then -1
    else if a[0] > b[0] then 1
    else
      assert a == [a[0]] + a[1..] && b == [b[0]] + b[1..];
      StrCompare(a[1..], b[1..])
  }

  lemma {:induction false} StrCompareAntisymmetric(a: string, b: string)
    ensures StrCompare(a, b) == -StrCompare(b, a)
  {
    if a != [] && b != [] && a[0] == b[0] {
      StrCompareAntisymmetric(a[1..], b[1..]);
    }
  }

  lemma {:induction false} StrCompareTransitive(a: string, b: string, c: string)
    requires StrCompare(a, b) <= 0 && StrCompare(b, c) <= 0
    ensures StrCompare(a, c) <= 0
  {
    if a != [] && b != [] && c != [] && a[0] == b[0] && b[0] == c[0] {
      StrCompareTransitive(a[1..], b[1..], c[1..]);
    }
  }

  /** A text sorts no later than any of its extensions. */
  lemma {:induction false} StrComparePrefix(a: string, t: string)
    ensures StrCompare(a, a + t) <= 0
  {
    if a != [] {
      assert (a + t)[0] == a[0] && (a + t)[1..] == a[1..] + t;
      StrComparePrefix(a[1..], t);
    }
  }

  // ---------------------------------------------------------------------------
  // The comparator.

  function DirFactor(d: Direction): real {
    if d == Ascending then 1.0 else -1.0
  }

  /** The comparator of the sorted list, applied to the two sort values. */
  function CompareValues(a: SortValue, b: SortValue, d: Direction): (r: real)
    ensures a.Null? && !b.Null? ==> r > 0.0
    ensures !a.Null? && b.Null? ==> r < 0.0
    ensures a.Num? && b.Num? ==> (r <= 0.0 <==> if d == Ascending then a.n <= b.n else b.n <= a.n)
    ensures a.Str? && b.Str? ==>
      (r <= 0.0 <==> if d == Ascending then StrCompare(a.s, b.s) <= 0 else StrCompare(b.s, a.s) <= 0)
  {
    if a.Null? && b.Null? then 0.0
    else if a.Null? then 1.0
    else if b.Null? then -1.0
    else if a.Num? && b.Num? then (a.n - b.n) * DirFactor(d)
    else if a.Str? && b.Str? then
      StrCompareAntisymmetric(a.s, b.s);
      (StrCompare(a.s, b.s) as real) * DirFactor(d)
    else 0.0
  }

  /** "f may precede g" under the sort configuration. */
  function DashboardOrder(c: SortConfig): (Fund, Fund) -> bool {
    (f: Fund, g: Fund) => CompareValues(GetSortValue(f, c.key), GetSortValue(g, c.key), c.direction) <= 0.0
  }

  /** Numbers and texts are never compared with each other. */
  predicate SameKind(a: SortValue, b: SortValue) {
    !(a.Num? && b.Str?) && !(a.Str? && b.Num?)
  }

  lemma CompareValuesTotal(a: SortValue, b: SortValue, d: Direction)
    requires SameKind(a, b)
    ensures CompareValues(a, b, d) <= 0.0 || CompareValues(b, a, d) <= 0.0
  {
    if a.Str? && b.Str? {
      StrCompareAntisymmetric(a.s, b.s);
    }
  }

  lemma CompareValuesTransitive(a: SortValue, b: SortValue, c: SortValue, d: Direction)
    requires SameKind(a, b) && SameKind(b, c) && SameKind(a, c)
    requires CompareValues(a, b, d) <= 0.0 && CompareValues(b, c, d) <= 0.0
    ensures CompareValues(a, c, d) <= 0.0
  {
    if a.Str? && b.Str? && c.Str? {
      if d == Ascending {
        StrCompareTransitive(a.s, b.s, c.s);
      } else {
        StrCompareTransitive(c.s, b.s, a.s);
      }
    }
  }

  /** For a given column the comparator is a total preorder on any list of funds. */
  lemma DashboardOrderTotal(c: SortConfig, s: seq<Fund>)
    ensures TotalPreorderOn(DashboardOrder(c), s)
  {
    var le := DashboardOrder(c);
    forall f, g | f in s && g in s ensures le(f, g) || le(g, f) {
      CompareValuesTotal(GetSortValue(f, c.key), GetSortValue(g, c.key), c.direction);
    }
    forall f, g, h | f in s && g in s && h in s && le(f, g) && le(g, h) ensures le(f, h) {
      CompareValuesTransitive(GetSortValue(f, c.key), GetSortValue(g, c.key), GetSortValue(h, c.key), c.direction);
    }
  }

  /** `[...funds].sort(comparator)` */
  function SortFunds(funds: seq<Fund>, c: SortConfig): (r: seq<Fund>)
    ensures multiset(r) == multiset(funds)
  {
    Sort(funds, DashboardOrder(c))
  }

  lemma SortFundsSorted(funds: seq<Fund>, c: SortConfig)
    ensures SortedBy(DashboardOrder(c), SortFunds(funds, c))
  {
    DashboardOrderTotal(c, funds);
    SortSorted(funds, DashboardOrder(c));
  }

  /** Whatever the direction, a fund without a value is followed only by funds without one. */
  lemma SortFundsNullsLast(funds: seq<Fund>, c: SortConfig)
    ensures var r := SortFunds(funds, c);
      forall i, j :: 0 <= i < j < |r| && GetSortValue(r[i], c.key).Null? ==> GetSortValue(r[j], c.key).Null?
  {
    SortFundsSorted(funds, c);
    var r := SortFunds(funds, c);
    forall i, j | 0 <= i < j < |r| && GetSortValue(r[i], c.key).Null?
      ensures GetSortValue(r[j], c.key).Null?
    {
      assert DashboardOrder(c)(r[i], r[j]);
      assert CompareValues(GetSortValue(r[i], c.key), GetSortValue(r[j], c.key), c.direction) <= 0.0;
    }
  }

  /** Numbers come in ascending order for 'ascending' and in descending order otherwise. */
  lemma SortFundsNumbersOrdered(funds: seq<Fund>, c: SortConfig)
    ensures var r := SortFunds(funds, c);
      forall i, j :: 0 <= i < j < |r| && GetSortValue(r[i], c.key).Num? && GetSortValue(r[j], c.key).Num? ==>
        if c.direction == Ascending then GetSortValue(r[i], c.key).n <= GetSortValue(r[j], c.key).n
        else GetSortValue(r[i], c.key).n >= GetSortValue(r[j], c.key).n
  {
    SortFundsSorted(funds, c);
    var r := SortFunds(funds, c);
    forall i, j | 0 <= i < j < |r| && GetSortValue(r[i], c.key).Num? && GetSortValue(r[j], c.key).Num?
      ensures if c.direction == Ascending then GetSortValue(r[i], c.key).n <= GetSortValue(r[j], c.key).n
        else GetSortValue(r[i], c.key).n >= GetSortValue(r[j], c.key).n
    {
      assert DashboardOrder(c)(r[i], r[j]);
      assert CompareValues(GetSortValue(r[i], c.key), GetSortValue(r[j], c.key), c.direction) <= 0.0;
    }
  }

  /** Texts come in lexicographic order for 'ascending' and in reverse order otherwise. */
  lemma SortFundsTextsOrdered(funds: seq<Fund>, c: SortConfig)
    ensures var r := SortFunds(funds, c);
      forall i, j :: 0 <= i < j < |r| && GetSortValue(r[i], c.key).Str? && GetSortValue(r[j], c.key).Str? ==>
        if c.direction == Ascending then StrCompare(GetSortValue(r[i], c.key).s, GetSortValue(r[j], c.key).s) <= 0
        else StrCompare(GetSortValue(r[j], c.key).s, GetSortValue(r[i], c.key).s) <= 0
  {
    SortFundsSorted(funds, c);
    var r := SortFunds(funds, c);
    forall i, j | 0 <= i < j < |r| && GetSortValue(r[i], c.key).Str? && GetSortValue(r[j], c.key).Str?
      ensures if c.direction == Ascending then StrCompare(GetSortValue(r[i], c.key).s, GetSortValue(r[j], c.key).s) <= 0
        else StrCompare(GetSortValue(r[j], c.key).s, GetSortValue(r[i], c.key).s) <= 0
    {
      assert DashboardOrder(c)(r[i], r[j]);
      assert CompareValues(GetSortValue(r[i], c.key), GetSortValue(r[j], c.key), c.direction) <= 0.0;
    }
  }

  /** Sorting by a column whose value is always null (such as 'selected') keeps the list as it is. */
  lemma SortFundsNullKeyUnchanged(funds: seq<Fund>, c: SortConfig)
    requires !StringKey(c.key) && !NumericKey(c.key)
    ensures SortFunds(funds, c) == funds
  {
    forall i, j | 0 <= i < |funds| && 0 <= j < |funds| ensures DashboardOrder(c)(funds[i], funds[j]) {
      assert GetSortValue(funds[i], c.key).Null? && GetSortValue(funds[j], c.key).Null?;
      assert CompareValues(GetSortValue(funds[i], c.key), GetSortValue(funds[j], c.key), c.direction) == 0.0;
    }
    SortAllEqual(funds, DashboardOrder(c));
  }

  // ---------------------------------------------------------------------------
  // The filter.

  /** `${pip} ${linea} ${societa || ''}` in lower case. */
  function FundSearchText(f: Fund): string {
    ToLower(f.pip + " " + f.linea + " " + f.societa.GetOr(""))
  }

  /** The filter's chain of early returns. */
  predicate KeepFund(f: Fund, category: string, company: string, search: string) {
    if category != "all" && f.categoria != category then false
    else if company != "all" && f.societa != Some(company) then false
    else if search != [] then Contains(FundSearchText(f), ToLower(search))
    else true
  }

  /** The funds passing all three filters, in dataset order. */
  function FilterFunds(data: seq<Fund>, category: string, company: string, search: string): (r: seq<Fund>)
    ensures forall f :: f in r <==>
      && f in data
      && (category == "all" || f.categoria == category)
      && (company == "all" || f.societa == Some(company))
      && (search == [] || Contains(FundSearchText(f), ToLower(search)))
    ensures multiset(r) <= multiset(data)
  {
    Filter(data, (f: Fund) => KeepFund(f, category, company, search))
  }

  /** With the default filters every fund of the dataset is shown. */
  lemma DefaultFiltersKeepAll(data: seq<Fund>)
    ensures FilterFunds(data, "all", "all", "") == data
  {
    FilterAll(data, (f: Fund) => KeepFund(f, "all", "all", ""));
  }

  // ---------------------------------------------------------------------------
  // The selection.

  const SelectionCap := 10

  /** `data.filter(fund => ids.has(fund.id))` */
  function WithIds(data: seq<Fund>, ids: set<string>): (r: seq<Fund>)
    ensures forall f :: f in r <==> f in data && f.id in ids
    ensures multiset(r) <= multiset(data)
  {
    Filter(data, (f: Fund) => f.id in ids)
  }

  /** `toggleFundSelection`'s updater on the set of selected ids. */
  function ToggleInSet(prev: set<string>, id: string): (r: set<string>)
    ensures id in prev ==> r == prev - {id}
    ensures id !in prev && |prev| >= SelectionCap ==> r == prev
    ensures id !in prev && |prev| < SelectionCap ==> r == prev + {id}
    ensures |prev| <= SelectionCap ==> |r| <= SelectionCap
  {
    if id in prev then prev - {id}
    else if |prev| >= SelectionCap then prev
    else prev + {id}
  }

  /** The state of the dashboard. */
  class Dashboard {
    var searchTerm: string
    var selectedCategory: string
    var selectedCompany: string
    var selectedFundIds: set<string>
    var sortConfig: SortConfig
    var modalFund: Option<Fund>

    ghost predicate Valid()
      reads this
    {
      |selectedFundIds| <= SelectionCap
    }

    /** No filter, no selection, sorted by last year's return, best first, no modal. */
    constructor()
      ensures searchTerm == "" && selectedCategory == "all" && selectedCompany == "all"
      ensures selectedFundIds == {} && sortConfig == SortConfig(UltimoAnno, Descending)
      ensures modalFund.None?
      ensures Valid()
    {
      searchTerm := "";
      selectedCategory := "all";
      selectedCompany := "all";
      selectedFundIds := {};
      sortConfig := SortConfig(UltimoAnno, Descending);
      modalFund := None;
    }

    function FilteredFunds(data: seq<Fund>): seq<Fund>
      reads this
    {
      FilterFunds(data, selectedCategory, selectedCompany, searchTerm)
    }

    /** The table's rows: the filtered funds, in sorted order. */
    function FilteredAndSortedFunds(data: seq<Fund>): (r: seq<Fund>)
      reads this
      ensures multiset(r) == multiset(FilteredFunds(data))
    {
      SortFunds(FilteredFunds(data), sortConfig)
    }

    /** The dataset funds whose id is selected, in dataset order. */
    function SelectedFunds(data: seq<Fund>): (r: seq<Fund>)
      reads this
      ensures forall f :: f in r <==> f in data && f.id in selectedFundIds
      ensures multiset(r) <= multiset(data)
    {
      WithIds(data, selectedFundIds)
    }

    method ToggleFundSelection(id: string)
      modifies this
      ensures selectedFundIds == ToggleInSet(old(selectedFundIds), id)
      ensures searchTerm == old(searchTerm) && selectedCategory == old(selectedCategory)
      ensures selectedCompany == old(selectedCompany) && sortConfig == old(sortConfig) && modalFund == old(modalFund)
      ensures old(Valid()) ==> Valid()
    {
      selectedFundIds := ToggleInSet(selectedFundIds, id);
    }

    method ResetSelection()
      modifies this
      ensures selectedFundIds == {}
      ensures searchTerm == old(searchTerm) && selectedCategory == old(selectedCategory)
      ensures selectedCompany == old(selectedCompany) && sortConfig == old(sortConfig) && modalFund == old(modalFund)
      ensures Valid()
    {
      selectedFundIds := {};
    }

    /** Clears the three filters; the selection, the sort and the modal stay. */
    method ResetFilters()
      modifies this
      ensures searchTerm == "" && selectedCategory == "all" && selectedCompany == "all"
      ensures selectedFundIds == old(selectedFundIds) && sortConfig == old(sortConfig) && modalFund == old(modalFund)
    {
      searchTerm := "";
      selectedCategory := "all";
      selectedCompany := "all";
    }

    method SetSortConfig(updater: SortConfig -> SortConfig)
      modifies this
      ensures sortConfig == updater(old(sortConfig))
      ensures searchTerm == old(searchTerm) && selectedCategory == old(selectedCategory)
      ensures selectedCompany == old(selectedCompany) && selectedFundIds == old(selectedFundIds)
      ensures modalFund == old(modalFund)
    {
      sortConfig := updater(sortConfig);
    }

    method HandleFundClick(f: Fund)
      modifies this
      ensures modalFund == Some(f)
      ensures searchTerm == old(searchTerm) && selectedCategory == old(selectedCategory)
      ensures selectedCompany == old(selectedCompany) && selectedFundIds == old(selectedFundIds)
      ensures sortConfig == old(sortConfig)
    {
      modalFund := Some(f);
    }

    method HandleCloseModal()
      modifies this
      ensures modalFund.None?
      ensures searchTerm == old(searchTerm) && selectedCategory == old(selectedCategory)
      ensures selectedCompany == old(selectedCompany) && selectedFundIds == old(selectedFundIds)
      ensures sortConfig == old(sortConfig)
    {
      modalFund := None;
    }
  }

  /** After a reset of the filters the table shows every fund of the dataset. */
  lemma ResetFiltersShowsAll(d: Dashboard, data: seq<Fund>)
    requires d.searchTerm == "" && d.selectedCategory == "all" && d.selectedCompany == "all"
    ensures multiset(d.FilteredAndSortedFunds(data)) == multiset(data)
  {
    DefaultFiltersKeepAll(data);
  }
}
