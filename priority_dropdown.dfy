/** The per-issue priority menu: an optimistic one-column edit reverted when
    the write fails. */
module PriorityDropdown {
  import opened Common
  import opened Records

  datatype PriorityOption = PriorityOption(name: string, value: string)

  /** The five choices in menu order; "No Priority" stores "None". */
  const Priorities: seq<PriorityOption> := [
    PriorityOption("Urgent", "Urgent"),
    PriorityOption("High", "High"),
    PriorityOption("Medium", "Medium"),
    PriorityOption("Low", "Low"),
    PriorityOption("No Priority", "None")]

  /** The values offered, in order. */
  function OfferedValues(): (r: seq<string>)
    ensures |r| == |Priorities|
    ensures forall i :: 0 <= i < |r| ==> r[i] == Priorities[i].value
  {
    seq(|Priorities|, i requires 0 <= i < |Priorities| => Priorities[i].value)
  }

  /** The offered values are exactly Urgent, High, Medium, Low and None, and
      only the last is shown under another name. */
  lemma PriorityTable()
    ensures OfferedValues() == ["Urgent", "High", "Medium", "Low", "None"]
    ensures forall i :: 0 <= i < 4 ==> Priorities[i].name == Priorities[i].value
    ensures Priorities[4].name == "No Priority" && Priorities[4].value == "None"
  {
  }

  /** The check mark sits on the options whose value is the local priority. */
  function Checks(priority: string): (r: seq<bool>)
    ensures |r| == |Priorities|
    ensures forall i :: 0 <= i < |r| ==> (r[i] <==> Priorities[i].value == priority)
  {
    seq(|Priorities|, i requires 0 <= i < |Priorities| => Priorities[i].value == priority)
  }

  /** The trigger's tooltip. */
  function TriggerTitle(priority: string): (t: string)
    ensures StartsWith(t, "Priority: ") && t[|"Priority: "|..] == priority
  {
    "Priority: " + priority
  }

  class PriorityDropdownState {
    const issueId: string
    var priority: string
    var isOpen: bool

    constructor(issueId: string, currentPriority: string)
      ensures this.issueId == issueId && priority == currentPriority && !isOpen
    {
      this.issueId := issueId;
      priority := currentPriority;
      isOpen := false;
    }

    /** A changed `currentPriority` prop overwrites the local priority. */
    method SyncFromProps(currentPriority: string)
      modifies this
      ensures priority == currentPriority && isOpen == old(isOpen)
    {
      priority := currentPriority;
    }

    method ClickTrigger()
      modifies this
      ensures isOpen == !old(isOpen) && priority == old(priority)
    {
      isOpen := !isOpen;
    }

    /** `updatePriority(newPriority)`: the current value only closes the menu;
        another one is shown at once and written, and restored if the write
        fails. */
    method UpdatePriority(newPriority: string, failed: bool) returns (write: Option<IssueUpdate>, refresh: bool)
      modifies this
      ensures !isOpen
      ensures newPriority == old(priority) ==> write.None? && !refresh && priority == old(priority)
      ensures newPriority != old(priority) ==>
        write == Some(IssueUpdate(issueId, map["priority" := Text(newPriority)])) &&
        refresh == !failed &&
        priority == (if failed then old(priority) else newPriority)
    {
      if newPriority == priority {
        isOpen := false;
        return None, false;
      }
      var oldPriority := priority;
      priority := newPriority;
      isOpen := false;
      write := Some(IssueUpdate(issueId, map["priority" := Text(newPriority)]));
      if failed {
        priority := oldPriority;
        refresh := false;
      } else {
        refresh := true;
      }
    }
  }
}
