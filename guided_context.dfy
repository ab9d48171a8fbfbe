/**
 * The state of the guided comparator: the chosen entry mode, the user profile, the
 * fund whose details are shown and the list of funds picked for comparison, capped at
 * `MAX_SELECTED_FUNDS`. The list updaters are pure functions of the previous list; the
 * provider holds the state and replaces it through its setters.
 */
module GuidedContext {
  import opened Wrappers
  import opened FundTypes

  const MaxSelectedFunds := 10

  predicate NoDuplicates(s: seq<string>) {
    forall i, j :: 0 <= i < j < |s| ==> s[i] != s[j]
  }

  /** The invariant the updaters keep: no id twice and at most ten of them. */
  predicate ValidSelection(s: seq<string>) {
    NoDuplicates(s) && |s| <= MaxSelectedFunds
  }

  /** `prev.filter(x => x !== id)` */
  function RemoveId(prev: seq<string>, id: string): (r: seq<string>)
    ensures id !in r
    ensures forall x :: x != id ==> (x in r <==> x in prev)
    ensures |r| <= |prev|
  {
    if prev == [] then []
    else if prev[0] == id then RemoveId(prev[1..], id)
    else [prev[0]] + RemoveId(prev[1..], id)
  }

  /** Removal works piece by piece, so the remaining ids keep their order. */
  lemma {:induction false} RemoveIdAppend(a: seq<string>, b: seq<string>, id: string)
    ensures RemoveId(a + b, id) == RemoveId(a, id) + RemoveId(b, id)
  {
    if a != [] {
      assert (a + b)[0] == a[0];
      assert (a + b)[1..] == a[1..] + b;
      RemoveIdAppend(a[1..], b, id);
    } else {
      assert a + b == b;
    }
  }

  lemma {:induction false} RemoveIdAbsent(prev: seq<string>, id: string)
    requires id !in prev
    ensures RemoveId(prev, id) == prev
  {
    if prev != [] {
      RemoveIdAbsent(prev[1..], id);
    }
  }

  lemma {:induction false} RemoveIdKeepsNoDuplicates(prev: seq<string>, id: string)
    requires NoDuplicates(prev)
    ensures NoDuplicates(RemoveId(prev, id))
  {
    if prev != [] {
      RemoveIdKeepsNoDuplicates(prev[1..], id);
      assert prev[0] !in prev[1..];
    }
  }

  /** `addSelectedFund`'s updater. */
  function AddId(prev: seq<string>, id: string): (r: seq<string>)
    ensures id in prev || |prev| >= MaxSelectedFunds ==> r == prev
    ensures id !in prev && |prev| < MaxSelectedFunds ==> r == prev + [id]
  {
    if id in prev || |prev| >= MaxSelectedFunds then prev else prev + [id]
  }

  /** `toggleSelectedFund`'s updater. */
  function ToggleId(prev: seq<string>, id: string): (r: seq<string>)
    ensures id in prev ==> r == RemoveId(prev, id)
    ensures id !in prev && |prev| >= MaxSelectedFunds ==> r == prev
    ensures id !in prev && |prev| < MaxSelectedFunds ==> r == prev + [id]
  {
    if id in prev then RemoveId(prev, id)
    else if |prev| >= MaxSelectedFunds then prev
    else prev + [id]
  }

  lemma AppendKeepsNoDuplicates(prev: seq<string>, id: string)
    requires NoDuplicates(prev) && id !in prev
    ensures NoDuplicates(prev + [id])
  {
  }

  /** Adding, removing and toggling keep the list free of duplicates and within the cap. */
  lemma UpdatersKeepValid(prev: seq<string>, id: string)
    requires ValidSelection(prev)
    ensures ValidSelection(AddId(prev, id))
    ensures ValidSelection(RemoveId(prev, id))
    ensures ValidSelection(ToggleId(prev, id))
  {
    RemoveIdKeepsNoDuplicates(prev, id);
    if id !in prev {
      AppendKeepsNoDuplicates(prev, id);
    }
  }

  /** Toggling an absent id twice, below the cap, restores the list. */
  lemma ToggleTwice(prev: seq<string>, id: string)
    requires id !in prev && |prev| < MaxSelectedFunds
    ensures ToggleId(ToggleId(prev, id), id) == prev
  {
    RemoveIdAppend(prev, [id], id);
    RemoveIdAbsent(prev, id);
    assert RemoveId([id], id) == [];
  }

  /** The provider of the guided comparator state. */
  class GuidedState {
    var entryMode: Option<EntryMode>
    var profile: UserProfile
    var selectedFundId: Option<string>
    var selectedFundIds: seq<string>

    ghost predicate Valid()
      reads this
    {
      ValidSelection(selectedFundIds)
    }

    /** No entry mode, an empty profile, no fund shown and no fund picked. */
    constructor()
      ensures entryMode.None? && profile == EmptyProfile
      ensures selectedFundId.None? && selectedFundIds == []
      ensures Valid()
    {
      entryMode := None;
      profile := EmptyProfile;
      selectedFundId := None;
      selectedFundIds := [];
    }

    method SetEntryMode(mode: Option<EntryMode>)
      modifies this
      ensures entryMode == mode
      ensures profile == old(profile) && selectedFundId == old(selectedFundId)
      ensures selectedFundIds == old(selectedFundIds)
    {
      entryMode := mode;
    }

    /** `setProfile(updater)`: the updater sees the previous profile; nothing else changes. */
    method SetProfile(updater: UserProfile -> UserProfile)
      modifies this
      ensures profile == updater(old(profile))
      ensures entryMode == old(entryMode) && selectedFundId == old(selectedFundId)
      ensures selectedFundIds == old(selectedFundIds)
    {
      profile := updater(profile);
    }

    method SetSelectedFundId(id: Option<string>)
      modifies this
      ensures selectedFundId == id
      ensures entryMode == old(entryMode) && profile == old(profile)
      ensures selectedFundIds == old(selectedFundIds)
    {
      selectedFundId := id;
    }

    method AddSelectedFund(id: string)
      modifies this
      ensures selectedFundIds == AddId(old(selectedFundIds), id)
      ensures entryMode == old(entryMode) && profile == old(profile) && selectedFundId == old(selectedFundId)
      ensures old(Valid()) ==> Valid()
    {
      if Valid() {
        UpdatersKeepValid(selectedFundIds, id);
      }
      selectedFundIds := AddId(selectedFundIds, id);
    }

    method RemoveSelectedFund(id: string)
      modifies this
      ensures selectedFundIds == RemoveId(old(selectedFundIds), id)
      ensures entryMode == old(entryMode) && profile == old(profile) && selectedFundId == old(selectedFundId)
      ensures old(Valid()) ==> Valid()
    {
      if Valid() {
        UpdatersKeepValid(selectedFundIds, id);
      }
      selectedFundIds := RemoveId(selectedFundIds, id);
    }

    method ToggleSelectedFund(id: string)
      modifies this
      ensures selectedFundIds == ToggleId(old(selectedFundIds), id)
      ensures entryMode == old(entryMode) && profile == old(profile) && selectedFundId == old(selectedFundId)
      ensures old(Valid()) ==> Valid()
    {
      if Valid() {
        UpdatersKeepValid(selectedFundIds, id);
      }
      selectedFundIds := ToggleId(selectedFundIds, id);
    }

    method ClearSelectedFunds()
      modifies this
      ensures selectedFundIds == []
      ensures entryMode == old(entryMode) && profile == old(profile) && selectedFundId == old(selectedFundId)
      ensures Valid()
    {
      selectedFundIds := [];
    }
  }

  const OutsideProvider := "useGuidedComparator must be used within GuidedComparatorProvider"

  /** `useGuidedComparator`: the shared state, or the error thrown outside a provider. */
  function UseGuidedComparator(ctx: Option<GuidedState>): (r: Result<GuidedState, string>)
    ensures r.Ok? <==> ctx.Some?
    ensures r.Ok? ==> r.value == ctx.value
    ensures r.Err? ==> r.error == OutsideProvider
  {
    match ctx
    case None => Err(OutsideProvider)
    case Some(s) => Ok(s)
  }
}
