/** The set of selected issue ids shared by the list and board views, and the
    five operations that replace it. */
module IssueSelection {

  /** The set stored by `toggleSelection(id, multiSelect)`. */
  function Toggled(prev: set<string>, id: string, multiSelect: bool): (r: set<string>)
    ensures multiSelect ==> (id in r <==> id !in prev)
    ensures multiSelect ==> forall x :: x != id ==> (x in r <==> x in prev)
    ensures !multiSelect ==> r == {id}
  {
    var base := if multiSelect then prev else {};
    if id in base then base - {id} else base + {id}
  }

  /** The set stored by `selectIssue(id)`. */
  function Selected(prev: set<string>, id: string): (r: set<string>)
    ensures id in r
    ensures forall x :: x != id ==> (x in r <==> x in prev)
  {
    prev + {id}
  }

  /** The set stored by `deselectIssue(id)`. */
  function Deselected(prev: set<string>, id: string): (r: set<string>)
    ensures id !in r
    ensures forall x :: x != id ==> (x in r <==> x in prev)
  {
    prev - {id}
  }

  /** `new Set(ids)`: duplicates collapse. */
  function SetOf(ids: seq<string>): (r: set<string>)
    ensures forall x :: x in r <==> x in ids
    ensures |r| <= |ids|
  {
    if ids == [] then {} else {ids[0]} + SetOf(ids[1..])
  }

  /** In multi-select mode a second toggle of the same id undoes the first. */
  lemma ToggleTwiceRestores(s: set<string>, id: string)
    ensures Toggled(Toggled(s, id, true), id, true) == s
  {
  }

  /** In single-select mode toggling never deselects: twice still leaves {id}. */
  lemma SingleSelectNeverDeselects(s: set<string>, id: string)
    ensures Toggled(Toggled(s, id, false), id, false) == {id}
  {
  }

  /** Selecting and deselecting are idempotent, and deselecting an absent id changes nothing. */
  lemma SelectDeselectIdempotent(s: set<string>, id: string)
    ensures Selected(Selected(s, id), id) == Selected(s, id)
    ensures Deselected(Deselected(s, id), id) == Deselected(s, id)
    ensures id !in s ==> Deselected(s, id) == s
    ensures id in s ==> Selected(s, id) == s
  {
  }

  class SelectionProvider {
    var selectedIssueIds: set<string>

    constructor()
      ensures selectedIssueIds == {}
    {
      selectedIssueIds := {};
    }

    /** `isSelectionMode`: true exactly when some issue is selected. */
    function IsSelectionMode(): (b: bool)
      reads this
      ensures b <==> selectedIssueIds != {}
    {
      |selectedIssueIds| > 0
    }

    method ToggleSelection(id: string, multiSelect: bool)
      modifies this
      ensures selectedIssueIds == Toggled(old(selectedIssueIds), id, multiSelect)
    {
      var newSet := if multiSelect then selectedIssueIds else {};
      if id in newSet {
        newSet := newSet - {id};
      } else {
        newSet := newSet + {id};
      }
      selectedIssueIds := newSet;
    }

    method SelectIssue(id: string)
      modifies this
      ensures selectedIssueIds == Selected(old(selectedIssueIds), id)
    {
      selectedIssueIds := selectedIssueIds + {id};
    }

    method DeselectIssue(id: string)
      modifies this
      ensures selectedIssueIds == Deselected(old(selectedIssueIds), id)
    {
      var newSet := selectedIssueIds;
      newSet := newSet - {id};
      selectedIssueIds := newSet;
    }

    method ClearSelection()
      modifies this
      ensures selectedIssueIds == {} && !IsSelectionMode()
    {
      selectedIssueIds := {};
    }

    /** `selectAll(ids)`: the prior selection is discarded. */
    method SelectAll(ids: seq<string>)
      modifies this
      ensures selectedIssueIds == SetOf(ids)
      ensures IsSelectionMode() <==> ids != []
    {
      selectedIssueIds := SetOf(ids);
      if ids != [] {
        assert ids[0] in selectedIssueIds;
      }
    }
  }
}
