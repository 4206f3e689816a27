/** The per-issue label picker: a list of label names toggled one at a time,
    written back whole and restored when the write fails. */
module LabelDropdown {
  import opened Common
  import opened Records

  datatype LabelStyle = LabelStyle(name: string, color: string)

  /** The three labels the picker offers, with their colour classes. */
  const AvailableLabels: seq<LabelStyle> := [
    LabelStyle("Bug", "bg-red-500/10 text-red-500 border-red-500/20"),
    LabelStyle("Feature", "bg-blue-500/10 text-blue-500 border-blue-500/20"),
    LabelStyle("Improvement", "bg-emerald-500/10 text-emerald-500 border-emerald-500/20")]

  /** `AVAILABLE_LABELS.find(al => al.name === l)` */
  function StyleOf(l: string): (r: Option<LabelStyle>)
    ensures r.Some? <==> l in ["Bug", "Feature", "Improvement"]
    ensures r.Some? ==> r.value in AvailableLabels && r.value.name == l
  {
    if l == "Bug" then Some(AvailableLabels[0])
    else if l == "Feature" then Some(AvailableLabels[1])
    else if l == "Improvement" then Some(AvailableLabels[2])
    else None
  }

  /** `currentLabels || []` */
  function LabelsOrEmpty(current: Option<seq<string>>): (r: seq<string>)
    ensures current.None? ==> r == []
    ensures current.Some? ==> r == current.value
  {
    if current.Some? then current.value else []
  }

  function Differs(name: string): string -> bool {
    l => l != name
  }

  /** The list stored by `toggleLabel(name)`: a present label is removed
      everywhere, an absent one is appended. */
  function ToggledLabels(labels: seq<string>, name: string): (r: seq<string>)
    ensures name in r <==> name !in labels
    ensures forall x :: x != name ==> (x in r <==> x in labels)
    ensures name !in labels ==> r == labels + [name]
    ensures name in labels ==> multiset(r)[name] == 0 && |r| < |labels|
  {
    if name in labels then
      var r := Filter(labels, Differs(name));
      assert |r| < |labels| by {
        FilterShrinks(labels, Differs(name), name);
      }
      r
    else labels + [name]
  }

  /** A filter that drops some element returns a shorter sequence. */
  lemma {:induction false} FilterShrinks<T(!new)>(s: seq<T>, p: T -> bool, x: T)
    requires x in s && !p(x)
    ensures |Filter(s, p)| < |s|
  {
    if s[0] == x {
      assert |Filter(s[1..], p)| <= |s[1..]|;
    } else {
      FilterShrinks(s[1..], p, x);
    }
  }

  /** Removing a label keeps every other label as often as it occurred. */
  lemma RemovalKeepsOthers(labels: seq<string>, name: string, x: string)
    requires name in labels && x != name
    ensures multiset(ToggledLabels(labels, name))[x] == multiset(labels)[x]
  {
    FilterCount(labels, Differs(name), x);
  }

  /** Removing a label that occurs once closes the gap: the labels before and
      after it keep their order. */
  lemma RemovalKeepsOrder(before: seq<string>, name: string, after: seq<string>)
    requires name !in before && name !in after
    ensures ToggledLabels(before + [name] + after, name) == before + after
  {
    var p := Differs(name);
    var l := before + [name] + after;
    assert name in l by {
      assert l[|before|] == name;
    }
    assert Filter(before + [name], p) == before by {
      FilterAppend(before, [name], p);
      FilterNone([name], p);
      FilterAll(before, p);
    }
    assert Filter(l, p) == before + after by {
      FilterAppend(before + [name], after, p);
      FilterAll(after, p);
    }
  }

  /** Toggling an absent label twice gives back the original list. */
  lemma ToggleAbsentTwice(labels: seq<string>, name: string)
    requires name !in labels
    ensures ToggledLabels(ToggledLabels(labels, name), name) == labels
  {
    var once := labels + [name];
    assert name in once;
    FilterAppend(labels, [name], Differs(name));
    FilterAll(labels, Differs(name));
  }

  /** With a duplicated label the round trip fails: ["Bug", "Bug"] toggles to
      [] and then to ["Bug"]. */
  lemma DuplicateNotRestored(labels: seq<string>)
    requires labels == ["Bug", "Bug"]
    ensures ToggledLabels(labels, "Bug") == []
    ensures ToggledLabels(ToggledLabels(labels, "Bug"), "Bug") == ["Bug"]
  {
    assert "Bug" in labels;
    var p := Differs("Bug");
    assert !p("Bug");
    assert labels[1..] == ["Bug"] && labels[1..][1..] == [];
    assert Filter(labels[1..], p) == [];
    assert Filter(labels, p) == [];
  }

  function IsKnown(l: string): bool {
    StyleOf(l).Some?
  }

  /** The colour class of a known label's dot: the first class of its colour.
      Only known labels are drawn, so the empty class of an unknown one is
      never used. */
  function DotOf(l: string): string {
    match StyleOf(l)
    case None => ""
    case Some(st) => Split(st.color, ' ')[0]
  }

  /** The compact trigger's dots: the k-th dot belongs to the k-th known label;
      unknown labels draw nothing. */
  function Dots(labels: seq<string>): (r: seq<string>)
    ensures |r| == |Filter(labels, IsKnown)|
    ensures forall k :: 0 <= k < |r| ==> r[k] == DotOf(Filter(labels, IsKnown)[k])
  {
    if labels == [] then []
    else
      var rest := Dots(labels[1..]);
      var tail := Filter(labels[1..], IsKnown);
      if IsKnown(labels[0]) then
        assert Filter(labels, IsKnown) == [labels[0]] + tail;
        [DotOf(labels[0])] + rest
      else
        assert Filter(labels, IsKnown) == tail;
        rest
  }

  /** An unknown label adds no dot. */
  lemma UnknownLabelNoDot(labels: seq<string>, l: string)
    requires !IsKnown(l)
    ensures Dots([l] + labels) == Dots(labels)
  {
    assert ([l] + labels)[1..] == labels;
  }

  /** What the trigger draws: dots in compact mode with a non-empty list,
      otherwise the tag icon. */
  datatype Trigger = DotRow(dots: seq<string>) | TagIcon

  function TriggerContent(compact: bool, labels: seq<string>): (t: Trigger)
    ensures t == TagIcon <==> !compact || labels == []
    ensures t.DotRow? ==> t.dots == Dots(labels)
  {
    if compact && |labels| > 0 then DotRow(Dots(labels)) else TagIcon
  }

  /** Compact mode with only unknown labels draws an empty dot row and no
      tag icon. */
  lemma UnknownOnlyDrawsNothing(labels: seq<string>)
    requires labels != [] && forall l :: l in labels ==> !IsKnown(l)
    ensures TriggerContent(true, labels) == DotRow([])
  {
    FilterNone(labels, IsKnown);
  }

  /** The menu's check marks, one per available label. */
  function MenuChecks(labels: seq<string>): (r: seq<bool>)
    ensures |r| == |AvailableLabels|
    ensures forall i :: 0 <= i < |r| ==> (r[i] <==> AvailableLabels[i].name in labels)
  {
    seq(|AvailableLabels|, i requires 0 <= i < |AvailableLabels| => AvailableLabels[i].name in labels)
  }

  /** Clicking a menu item flips that item's check mark and no other. */
  lemma ClickFlipsOneCheck(labels: seq<string>, i: int)
    requires 0 <= i < |AvailableLabels|
    ensures var after := MenuChecks(ToggledLabels(labels, AvailableLabels[i].name));
      after[i] == !MenuChecks(labels)[i] &&
      forall j :: 0 <= j < |AvailableLabels| && j != i ==> after[j] == MenuChecks(labels)[j]
  {
    var name := AvailableLabels[i].name;
    var before, after := MenuChecks(labels), MenuChecks(ToggledLabels(labels, name));
    assert after[i] == !before[i];
    forall j | 0 <= j < |AvailableLabels| && j != i
      ensures after[j] == before[j]
    {
      assert AvailableLabels[j].name != name by {
        assert AvailableLabels[0].name == "Bug" && AvailableLabels[1].name == "Feature";
        assert AvailableLabels[2].name == "Improvement";
      }
    }
  }

  /** The non-compact chips: every label, with its known colour or the grey
      fallback. */
  function ChipColor(l: string): (c: string)
    ensures IsKnown(l) ==> c == StyleOf(l).value.color
    ensures !IsKnown(l) ==> c == "bg-[#2A2D35] text-[#7C7F88] border-[#3a3e46]"
  {
    match StyleOf(l)
    case Some(st) => st.color
    case None => "bg-[#2A2D35] text-[#7C7F88] border-[#3a3e46]"
  }

  class LabelDropdownState {
    const issueId: string
    var labels: seq<string>
    var isOpen: bool

    constructor(issueId: string, currentLabels: Option<seq<string>>)
      ensures this.issueId == issueId && labels == LabelsOrEmpty(currentLabels) && !isOpen
    {
      this.issueId := issueId;
      labels := LabelsOrEmpty(currentLabels);
      isOpen := false;
    }

    /** A new `currentLabels` prop replaces the local list. */
    method SyncFromProps(currentLabels: Option<seq<string>>)
      modifies this
      ensures labels == LabelsOrEmpty(currentLabels) && isOpen == old(isOpen)
    {
      labels := LabelsOrEmpty(currentLabels);
    }

    /** A click on the trigger opens or closes the menu. */
    method ClickTrigger()
      modifies this
      ensures isOpen == !old(isOpen) && labels == old(labels)
    {
      isOpen := !isOpen;
    }

    /** `toggleLabel(name)`: the toggled list is shown at once and written; a
        failed write restores the copy taken first and raises the migration
        alert when the column is missing. The menu stays as it was. */
    method ToggleLabel(name: string, err: Option<DbError>) returns (write: IssueUpdate, migrationAlert: bool, refresh: bool)
      modifies this
      ensures write == IssueUpdate(issueId, map["labels" := TextList(ToggledLabels(old(labels), name))])
      ensures labels == if err.None? then ToggledLabels(old(labels), name) else old(labels)
      ensures migrationAlert <==> err.Some? && IsMissingLabelsColumn(err.value)
      ensures isOpen == old(isOpen)
      ensures refresh <==> err.None?
    {
      var oldLabels := labels;
      var newLabels;
      if name in labels {
        newLabels := Filter(labels, Differs(name));
      } else {
        newLabels := labels + [name];
      }
      labels := newLabels;
      write := IssueUpdate(issueId, map["labels" := TextList(newLabels)]);
      migrationAlert, refresh := false, err.None?;
      if err.Some? {
        migrationAlert := IsMissingLabelsColumn(err.value);
        labels := oldLabels;
      }
    }
  }
}
