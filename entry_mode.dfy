/**
 * The three entry cards of the guided comparator: a click on a card selects its mode,
 * a click on the card already selected deselects it.
 */
module EntryModeSelector {
  import opened Wrappers
  import opened FundTypes
  import opened GuidedContext

  /** A card is highlighted when its mode is the current one. */
  predicate Active(current: Option<EntryMode>, card: EntryMode) {
    current == Some(card)
  }

  /** The mode a click on `card` sets: none when the card was active, else the card's. */
  function NextMode(current: Option<EntryMode>, card: EntryMode): (r: Option<EntryMode>)
    ensures Active(r, card) <==> !Active(current, card)
    ensures forall other :: other != card ==> !Active(r, other)
  {
    if current == Some(card) then None else Some(card)
  }

  /** At most one card is highlighted at a time. */
  lemma AtMostOneActive(current: Option<EntryMode>, a: EntryMode, b: EntryMode)
    requires Active(current, a) && Active(current, b)
    ensures a == b
  {
  }

  /** Two clicks on one card restore the mode, unless another card was active before. */
  lemma ClickTwice(current: Option<EntryMode>, card: EntryMode)
    ensures current.None? || current == Some(card) ==> NextMode(NextMode(current, card), card) == current
    ensures current.Some? && current != Some(card) ==> NextMode(NextMode(current, card), card).None?
  {
  }

  /** The click handler of a card, acting on the guided state. */
  method ClickCard(ctx: GuidedState, card: EntryMode)
    modifies ctx
    ensures ctx.entryMode == NextMode(old(ctx.entryMode), card)
    ensures ctx.profile == old(ctx.profile) && ctx.selectedFundId == old(ctx.selectedFundId)
    ensures ctx.selectedFundIds == old(ctx.selectedFundIds)
  {
    var next := if ctx.entryMode == Some(card) then None else Some(card);
    ctx.SetEntryMode(next);
  }
}
