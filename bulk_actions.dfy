/** The floating bar that edits every selected issue at once: a menu choice
    becomes a one-column update for exactly the selected ids. */
module BulkActions {
  import opened Common
  import opened Records
  import IssueSelection

  datatype Menu = AssigneeMenu | StatusMenu | PriorityMenu | LabelMenu

  /** The values each menu offers, in display order; null is "Unassigned". */
  function MenuValues(m: Menu): (r: seq<Option<string>>)
    ensures |r| >= 2
    ensures None in r <==> m == AssigneeMenu
    ensures forall j, k :: 0 <= j < k < |r| ==> r[j] != r[k]
    ensures m == StatusMenu ==> forall k :: 0 <= k < |r| ==> r[k].Some? && Lower(r[k].value) in StatusKeys
  {
    match m
    case AssigneeMenu => [Some("Arnav Joshi"), None]
    case StatusMenu =>
      assert Lower("Backlog") == StatusKeys[0] && Lower("Todo") == StatusKeys[1];
      assert Lower("In Progress") == StatusKeys[2] && Lower("Done") == StatusKeys[3];
      assert Lower("Canceled") == StatusKeys[4];
      [Some("Backlog"), Some("Todo"), Some("In Progress"), Some("Done"), Some("Canceled")]
    case PriorityMenu => [Some("Urgent"), Some("High"), Some("Medium"), Some("Low"), Some("None")]
    case LabelMenu => [Some("Bug"), Some("Feature"), Some("Improvement")]
  }

  /** The single column a menu writes. */
  function Column(m: Menu): string {
    match m
    case AssigneeMenu => "assignee_name"
    case StatusMenu => "status"
    case PriorityMenu => "priority"
    case LabelMenu => "labels"
  }

  /** The payload built when an item of menu `m` is clicked: one column, and the
      label menu replaces the whole label list with the chosen label. */
  function Payload(m: Menu, item: Option<string>): (row: Row)
    requires item in MenuValues(m)
    ensures row.Keys == {Column(m)}
    ensures "assignee_id" !in row
    ensures m == LabelMenu ==> row[Column(m)] == TextList([item.value])
    ensures m != LabelMenu ==> row[Column(m)] == NullableText(item)
  {
    match m
    case AssigneeMenu => map["assignee_name" := NullableText(item)]
    case StatusMenu => map["status" := Text(item.value)]
    case PriorityMenu => map["priority" := Text(item.value)]
    case LabelMenu => map["labels" := TextList([item.value])]
  }

  /** The status menu offers five statuses and never Duplicate. */
  lemma StatusMenuOmitsDuplicate()
    ensures |MenuValues(StatusMenu)| == 5
    ensures Some("Duplicate") !in MenuValues(StatusMenu)
  {
  }

  datatype Alert = MigrationAlert | GenericAlert

  /** The alert shown for a failed bulk update. */
  function AlertFor(e: DbError): (a: Alert)
    ensures a == MigrationAlert <==> IsMissingLabelsColumn(e)
    ensures a == GenericAlert <==> !IsMissingLabelsColumn(e)
  {
    if IsMissingLabelsColumn(e) then MigrationAlert else GenericAlert
  }

  /** The open menu after a click on a menu button: the open one closes,
      any other one opens. */
  function NextMenu(active: Option<Menu>, clicked: Menu): (r: Option<Menu>)
    ensures r.None? <==> active == Some(clicked)
    ensures r.Some? ==> r.value == clicked
  {
    if active == Some(clicked) then None else Some(clicked)
  }

  /** The update request: these columns, for issues whose id is in `ids`. */
  datatype BulkUpdate = BulkUpdate(ids: set<string>, row: Row)

  class BulkActionsBar {
    var activeMenu: Option<Menu>
    var isUpdating: bool
    const selection: IssueSelection.SelectionProvider

    constructor(selection: IssueSelection.SelectionProvider)
      ensures this.selection == selection
      ensures activeMenu.None? && !isUpdating
    {
      this.selection := selection;
      activeMenu := None;
      isUpdating := false;
    }

    /** The count badge: nothing is rendered without a selection, otherwise
        the number of selected issues. */
    function Badge(): (r: Option<nat>)
      reads this, selection
      ensures r.None? <==> !selection.IsSelectionMode()
      ensures r.Some? ==> r.value == |selection.selectedIssueIds| && r.value > 0
    {
      if !selection.IsSelectionMode() then None else Some(|selection.selectedIssueIds|)
    }

    /** A click on a menu button; the buttons are disabled during an update. */
    method ClickMenuButton(m: Menu)
      modifies this
      ensures activeMenu == if old(isUpdating) then old(activeMenu) else NextMenu(old(activeMenu), m)
      ensures isUpdating == old(isUpdating)
    {
      if !isUpdating {
        activeMenu := if activeMenu == Some(m) then None else Some(m);
      }
    }

    /** A click on an item of the open menu starts the update; the items
        themselves are not disabled. */
    method ClickMenuItem(item: Option<string>) returns (request: BulkUpdate)
      requires activeMenu.Some? && item in MenuValues(activeMenu.value)
      modifies this
      ensures request == BulkUpdate(selection.selectedIssueIds, Payload(old(activeMenu).value, item))
      ensures isUpdating && activeMenu == old(activeMenu)
    {
      request := StartUpdate(Payload(activeMenu.value, item));
    }

    /** `handleUpdate` up to the await: the request targets exactly the
        selected ids. */
    method StartUpdate(row: Row) returns (request: BulkUpdate)
      modifies this
      ensures request == BulkUpdate(selection.selectedIssueIds, row)
      ensures isUpdating && activeMenu == old(activeMenu)
    {
      isUpdating := true;
      var ids := selection.selectedIssueIds;
      request := BulkUpdate(ids, row);
    }

    /** `handleUpdate` after the write: success clears the selection and closes
        the menu; an error keeps both and raises an alert. */
    method FinishUpdate(err: Option<DbError>) returns (alert: Option<Alert>, refresh: bool)
      modifies this, selection
      ensures !isUpdating
      ensures refresh <==> err.None?
      ensures err.None? ==> alert.None? && selection.selectedIssueIds == {} && activeMenu.None?
      ensures err.Some? ==> alert == Some(AlertFor(err.value))
      ensures err.Some? ==> selection.selectedIssueIds == old(selection.selectedIssueIds) && activeMenu == old(activeMenu)
    {
      if err.Some? {
        alert, refresh := Some(AlertFor(err.value)), false;
      } else {
        alert, refresh := None, true;
        selection.ClearSelection();
        activeMenu := None;
      }
      isUpdating := false;
    }
  }
}
