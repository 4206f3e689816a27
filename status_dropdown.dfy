/** The per-issue status menu: an optimistic status change that notifies the
    parent, writes one column and reverts (notifying again) when the write fails. */
module StatusDropdown {
  import opened Common
  import opened Records

  datatype StatusOption = StatusOption(name: string, value: string, shortcut: string)

  /** The six statuses in menu order, with their number-key shortcuts. */
  const AllStatuses: seq<StatusOption> := [
    StatusOption("Backlog", "Backlog", "1"),
    StatusOption("Todo", "Todo", "2"),
    StatusOption("In Progress", "In Progress", "3"),
    StatusOption("Done", "Done", "4"),
    StatusOption("Canceled", "Canceled", "5"),
    StatusOption("Duplicate", "Duplicate", "6")]

  /** `ALL_STATUSES.find(s => s.shortcut === key)`: the first option with that shortcut. */
  function FindByShortcut(options: seq<StatusOption>, key: string): (r: Option<StatusOption>)
    ensures r.Some? <==> exists i :: 0 <= i < |options| && options[i].shortcut == key
    ensures r.Some? ==> r.value.shortcut == key
    ensures r.Some? ==> exists i :: 0 <= i < |options| && options[i] == r.value &&
                                    forall j :: 0 <= j < i ==> options[j].shortcut != key
  {
    if options == [] then None
    else if options[0].shortcut == key then Some(options[0])
    else
      var r := FindByShortcut(options[1..], key);
      assert forall i :: 1 <= i < |options| ==> options[i] == options[1..][i - 1];
      r
  }

  /** Finding the shortcut of the k-th option gives the k-th option back when
      no earlier option shares it. */
  lemma {:induction false} FindOwnShortcut(options: seq<StatusOption>, k: int)
    requires 0 <= k < |options|
    requires forall j :: 0 <= j < k ==> options[j].shortcut != options[k].shortcut
    ensures FindByShortcut(options, options[k].shortcut) == Some(options[k])
  {
    if k > 0 {
      FindOwnShortcut(options[1..], k - 1);
    }
  }

  /** The k-th option's shortcut is the digit k + 1, and every option is shown
      under its own value. */
  lemma ShortcutDigits()
    ensures forall k :: 0 <= k < |AllStatuses| ==> AllStatuses[k].shortcut == [('1' as int + k) as char]
    ensures forall k :: 0 <= k < |AllStatuses| ==> AllStatuses[k].name == AllStatuses[k].value
  {
  }

  /** While open, key k + 1 chooses the k-th status: 1 Backlog, 2 Todo,
      3 In Progress, 4 Done, 5 Canceled, 6 Duplicate. */
  lemma ShortcutChooses(k: int)
    requires 0 <= k < |AllStatuses|
    ensures KeyDown(true, [('1' as int + k) as char]) == Choose(AllStatuses[k].value)
    ensures [AllStatuses[0].value, AllStatuses[1].value, AllStatuses[2].value] == ["Backlog", "Todo", "In Progress"]
    ensures [AllStatuses[3].value, AllStatuses[4].value, AllStatuses[5].value] == ["Done", "Canceled", "Duplicate"]
  {
    ShortcutDigits();
    FindOwnShortcut(AllStatuses, k);
  }

  /** Other keys choose nothing. */
  lemma OtherKeysChooseNothing(key: string)
    requires key !in ["1", "2", "3", "4", "5", "6"]
    ensures FindByShortcut(AllStatuses, key).None?
  {
  }

  /** What a key press in the open menu does. */
  datatype KeyAction = Ignore | Choose(value: string) | CloseMenu

  /** `handleKeyDown`: nothing while closed; a shortcut chooses its status;
      Escape closes. */
  function KeyDown(isOpen: bool, key: string): (a: KeyAction)
    ensures !isOpen ==> a == Ignore
    ensures isOpen && FindByShortcut(AllStatuses, key).Some? ==> a == Choose(FindByShortcut(AllStatuses, key).value.value)
    ensures isOpen && key == "Escape" ==> a == CloseMenu
    ensures isOpen && key != "Escape" && FindByShortcut(AllStatuses, key).None? ==> a == Ignore
  {
    if !isOpen then Ignore
    else match FindByShortcut(AllStatuses, key)
      case Some(target) => Choose(target.value)
      case None => if key == "Escape" then CloseMenu else Ignore
  }

  /** The check mark: on the options whose value is the local status, exactly. */
  function Checks(status: string): (r: seq<bool>)
    ensures |r| == |AllStatuses|
    ensures forall i :: 0 <= i < |r| ==> (r[i] <==> AllStatuses[i].value == status)
  {
    seq(|AllStatuses|, i requires 0 <= i < |AllStatuses| => AllStatuses[i].value == status)
  }

  /** The write in flight and the status to restore if it fails. */
  datatype Pending = Pending(oldStatus: string, write: IssueUpdate)

  class StatusDropdownState {
    const issueId: string
    var status: string
    var isOpen: bool
    var isUpdating: bool
    /** The values passed to `onStatusChange`, oldest first. */
    var notified: seq<string>

    constructor(issueId: string, currentStatus: string)
      ensures this.issueId == issueId && status == currentStatus
      ensures !isOpen && !isUpdating && notified == []
    {
      this.issueId := issueId;
      status := currentStatus;
      isOpen := false;
      isUpdating := false;
      notified := [];
    }

    /** A changed `currentStatus` prop overwrites the local status. */
    method SyncFromProps(currentStatus: string)
      modifies this
      ensures status == currentStatus
      ensures isOpen == old(isOpen) && isUpdating == old(isUpdating) && notified == old(notified)
    {
      status := currentStatus;
    }

    method ClickTrigger()
      modifies this
      ensures isOpen == !old(isOpen)
      ensures status == old(status) && isUpdating == old(isUpdating) && notified == old(notified)
    {
      isOpen := !isOpen;
    }

    /** `updateStatus(newStatus)` up to the await. The current status only
        closes the menu; another one is shown at once, announced, and written. */
    method StartUpdate(newStatus: string) returns (pending: Option<Pending>)
      modifies this
      ensures !isOpen
      ensures newStatus == old(status) ==>
        pending.None? && status == old(status) && notified == old(notified) && isUpdating == old(isUpdating)
      ensures newStatus != old(status) ==>
        pending == Some(Pending(old(status), IssueUpdate(issueId, map["status" := Text(newStatus)]))) &&
        status == newStatus && notified == old(notified) + [newStatus] && isUpdating
    {
      if newStatus == status {
        isOpen := false;
        return None;
      }
      var oldStatus := status;
      status := newStatus;
      isOpen := false;
      notified := notified + [newStatus];
      isUpdating := true;
      pending := Some(Pending(oldStatus, IssueUpdate(issueId, map["status" := Text(newStatus)])));
    }

    /** `updateStatus` after the write: a failure restores the old status and
        announces it; success asks for a refresh. Either way the update is over. */
    method FinishUpdate(p: Pending, failed: bool) returns (refresh: bool)
      modifies this
      ensures !isUpdating && isOpen == old(isOpen)
      ensures failed ==> status == p.oldStatus && notified == old(notified) + [p.oldStatus] && !refresh
      ensures !failed ==> status == old(status) && notified == old(notified) && refresh
    {
      if failed {
        status := p.oldStatus;
        notified := notified + [p.oldStatus];
        refresh := false;
      } else {
        refresh := true;
      }
      isUpdating := false;
    }

    /** A key press on the open menu: a shortcut starts that status's update,
        Escape closes the menu. */
    method PressKey(key: string) returns (pending: Option<Pending>)
      modifies this
      ensures KeyDown(old(isOpen), key) == Ignore ==>
        pending.None? && status == old(status) && isOpen == old(isOpen) && notified == old(notified) && isUpdating == old(isUpdating)
      ensures KeyDown(old(isOpen), key) == CloseMenu ==>
        pending.None? && !isOpen && status == old(status) && notified == old(notified) && isUpdating == old(isUpdating)
      ensures KeyDown(old(isOpen), key).Choose? ==> !isOpen
      ensures KeyDown(old(isOpen), key) == Choose(old(status)) ==>
        pending.None? && status == old(status) && notified == old(notified) && isUpdating == old(isUpdating)
      ensures KeyDown(old(isOpen), key).Choose? && KeyDown(old(isOpen), key).value != old(status) ==>
        pending == Some(Pending(old(status), IssueUpdate(issueId, map["status" := Text(KeyDown(old(isOpen), key).value)]))) &&
        isUpdating &&
        status == KeyDown(old(isOpen), key).value && notified == old(notified) + [status]
    {
      match KeyDown(isOpen, key)
      case Ignore =>
        pending := None;
      case CloseMenu =>
        isOpen := false;
        pending := None;
      case Choose(v) =>
        pending := StartUpdate(v);
    }
  }

  /** A failed change ends where it began: same status, and the parent was told
      the new value and then the old one. */
  method FailedChangeRestores(d: StatusDropdownState, newStatus: string)
    requires newStatus != d.status
    modifies d
    ensures d.status == old(d.status) && !d.isUpdating && !d.isOpen
    ensures d.notified == old(d.notified) + [newStatus, old(d.status)]
  {
    var pending := d.StartUpdate(newStatus);
    var refresh := d.FinishUpdate(pending.value, true);
  }
}
