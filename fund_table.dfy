/**
 * The fund table's sort controls and selection checkboxes. The sort configuration
 * lives in the dashboard; the table only hands it updaters that compute the next
 * configuration from the previous one.
 */
module FundTable {
  import opened FundTypes
  import opened AppDashboard

  /** A click on a column header: that column, descending unless it was already sorted descending. */
  function HeaderClick(prev: SortConfig, key: SortKey): (r: SortConfig)
    ensures r.key == key
    ensures r.direction == Ascending <==> prev.key == key && prev.direction == Descending
  {
    var newDirection := if prev.key == key && prev.direction == Descending then Ascending else Descending;
    SortConfig(key, newDirection)
  }

  /** Repeated clicks on one header alternate the direction. */
  lemma HeaderClickAlternates(prev: SortConfig, key: SortKey)
    ensures HeaderClick(HeaderClick(prev, key), key).direction != HeaderClick(prev, key).direction
    ensures HeaderClick(HeaderClick(HeaderClick(prev, key), key), key) == HeaderClick(prev, key)
  {
  }

  /** A first click on a column sorts it descending, a second one ascending. */
  lemma HeaderClickNewColumn(prev: SortConfig, key: SortKey)
    requires prev.key != key
    ensures HeaderClick(prev, key) == SortConfig(key, Descending)
    ensures HeaderClick(HeaderClick(prev, key), key) == SortConfig(key, Ascending)
  {
  }

  function Flip(d: Direction): Direction {
    if d == Ascending then Descending else Ascending
  }

  /** The mobile "reverse order" button: same column, opposite direction. */
  function MobileToggle(prev: SortConfig): (r: SortConfig)
    ensures r.key == prev.key && r.direction != prev.direction
  {
    SortConfig(prev.key, Flip(prev.direction))
  }

  lemma MobileToggleTwice(prev: SortConfig)
    ensures MobileToggle(MobileToggle(prev)) == prev
  {
  }

  /** Choosing a column in the mobile select: that column, descending. */
  function MobileSelect(prev: SortConfig, key: SortKey): (r: SortConfig)
    ensures r.key == key && r.direction == Descending
  {
    SortConfig(key, Descending)
  }

  /** On a column other than the current one, the mobile select and a header click agree. */
  lemma MobileSelectLikeHeaderClick(prev: SortConfig, key: SortKey)
    requires prev.key != key
    ensures MobileSelect(prev, key) == HeaderClick(prev, key)
  {
  }

  /** A fund's checkbox is disabled when the fund is not selected and ten funds already are. */
  predicate CheckboxDisabled(selected: set<string>, id: string) {
    id !in selected && |selected| >= SelectionCap
  }

  /** A disabled checkbox is exactly one whose toggle would change nothing. */
  lemma CheckboxDisabledIffToggleIgnored(selected: set<string>, id: string)
    ensures CheckboxDisabled(selected, id) <==> ToggleInSet(selected, id) == selected
  {
    if id in selected {
      assert id !in ToggleInSet(selected, id);
    } else if |selected| < SelectionCap {
      assert id in ToggleInSet(selected, id);
    }
  }
}
