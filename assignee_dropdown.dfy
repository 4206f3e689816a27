/** The per-issue assignee menu: initials for the avatar, the member list of
    the issue's project, and an optimistic two-column edit reverted when the
    write fails. */
module AssigneeDropdown {
  import opened Common
  import opened Records

  // ---------------------------------------------------------------------------
  // Initials

  /** `words.map(n => n[0]).join('')`: an empty word's `n[0]` is undefined and
      joins as nothing. */
  function Heads(words: seq<string>): (r: string)
    ensures |r| <= |words|
  {
    if words == [] then []
    else (if words[0] == [] then [] else [words[0][0]]) + Heads(words[1..])
  }

  function NonEmpty(w: string): bool {
    w != []
  }

  /** `getInitials(name)`: the split on ' ', first characters, first two kept,
      upper-cased. */
  function Initials(name: string): (r: string)
    ensures |r| <= 2
  {
    Upper(Take(Heads(Split(name, ' ')), 2))
  }

  /** Reference reading of `Heads`: the first character of every non-empty word,
      in order. */
  lemma {:induction false} HeadsOfNonEmptyWords(words: seq<string>)
    ensures Heads(words) == Heads(Filter(words, NonEmpty))
    ensures |Heads(words)| == |Filter(words, NonEmpty)|
    ensures forall i :: 0 <= i < |Heads(words)| ==>
      NonEmpty(Filter(words, NonEmpty)[i]) && Heads(words)[i] == Filter(words, NonEmpty)[i][0]
  {
    if words != [] {
      HeadsOfNonEmptyWords(words[1..]);
      var rest := Filter(words[1..], NonEmpty);
      if NonEmpty(words[0]) {
        assert Filter(words, NonEmpty) == [words[0]] + rest;
        assert ([words[0]] + rest)[1..] == rest;
      } else {
        assert Filter(words, NonEmpty) == rest;
      }
    }
  }

  /** The initials are the upper-cased first characters of the first two
      non-empty words of the name. */
  lemma InitialsOfWords(name: string)
    ensures var ws := Filter(Split(name, ' '), NonEmpty);
      |Initials(name)| == (if |ws| < 2 then |ws| else 2) &&
      forall i :: 0 <= i < |Initials(name)| ==> NonEmpty(ws[i]) && Initials(name)[i] == UpperChar(ws[i][0])
  {
    HeadsOfNonEmptyWords(Split(name, ' '));
  }

  /** A name has initials exactly when it holds a character other than ' '. */
  lemma {:induction false} InitialsEmptyIff(name: string)
    ensures Initials(name) == [] <==> forall i :: 0 <= i < |name| ==> name[i] == ' '
    decreases |name|
  {
    HeadsEmptyIff(name);
  }

  lemma {:induction false} HeadsEmptyIff(s: string)
    ensures Heads(Split(s, ' ')) == [] <==> forall i :: 0 <= i < |s| ==> s[i] == ' '
    decreases |s|
  {
    var k := IndexOf(s, ' ');
    if k < |s| {
      var rest := Split(s[k + 1..], ' ');
      assert Split(s, ' ') == [s[..k]] + rest;
      assert ([s[..k]] + rest)[1..] == rest;
      HeadsEmptyIff(s[k + 1..]);
      if k > 0 {
        assert s[0] != ' ';
      } else {
        assert forall i :: 1 <= i < |s| ==> s[i] == s[k + 1..][i - 1];
      }
    } else if s != [] {
      assert Split(s, ' ') == [s];
      assert s[0] != ' ';
    }
  }

  /** A word without spaces splits to itself. */
  lemma SplitOneWord(w: string)
    requires ' ' !in w
    ensures Split(w, ' ') == [w]
  {
    assert IndexOf(w, ' ') == |w|;
  }

  /** Two words joined by one space give their two upper-cased first letters. */
  lemma InitialsOfTwoWords(x: string, y: string)
    requires x != [] && y != [] && ' ' !in x && ' ' !in y
    ensures Initials(x + " " + y) == [UpperChar(x[0]), UpperChar(y[0])]
  {
    var s := x + " " + y;
    assert IndexOf(s, ' ') == |x| by {
      assert s[|x|] == ' ';
      assert forall i :: 0 <= i < |x| ==> s[i] == x[i];
    }
    assert s[..|x|] == x && s[|x| + 1..] == y;
    SplitOneWord(y);
    assert Split(s, ' ') == [x, y];
    assert [x, y][1..] == [y] && [y][1..] == [];
    assert Heads([y]) == [y[0]];
    assert Heads([x, y]) == [x[0], y[0]];
  }

  /** "Arnav Joshi" gives "AJ". */
  lemma InitialsExample()
    ensures Initials("Arnav Joshi") == "AJ"
  {
    InitialsOfTwoWords("Arnav", "Joshi");
    assert "Arnav" + " " + "Joshi" == "Arnav Joshi";
  }

  // ---------------------------------------------------------------------------
  // Members

  datatype Member = Member(id: string, name: string, email: string, avatarUrl: Option<string>)

  /** `data.map(item => item.user).filter(u => u !== null)`: the joined users,
      in order, without the missing ones. */
  function MembersOf(users: seq<Option<Member>>): (r: seq<Member>)
    ensures |r| <= |users|
    ensures forall m :: m in r <==> Some(m) in users
  {
    if users == [] then []
    else
      assert forall u :: u in users ==> u == users[0] || u in users[1..];
      (if users[0].Some? then [users[0].value] else []) + MembersOf(users[1..])
  }

  /** Mapping keeps the order: the members of a concatenation are the members
      of each part, one after the other. */
  lemma {:induction false} MembersOfAppend(a: seq<Option<Member>>, b: seq<Option<Member>>)
    ensures MembersOf(a + b) == MembersOf(a) + MembersOf(b)
  {
    if a == [] {
      assert a + b == b;
    } else {
      assert (a + b)[0] == a[0] && (a + b)[1..] == a[1..] + b;
      MembersOfAppend(a[1..], b);
    }
  }

  /** The note shown when the member list is empty. */
  function EmptyNote(projectId: Option<string>): (t: string)
    ensures Truthy(projectId) ==> t == "Loading members..."
    ensures !Truthy(projectId) ==> t == "No project context"
  {
    if Truthy(projectId) then "Loading members..." else "No project context"
  }

  /** The trigger's tooltip: the name, or "Unassigned" for a missing or empty one. */
  function TriggerTitle(assignee: Option<string>): (t: string)
    ensures Truthy(assignee) ==> t == assignee.value
    ensures !Truthy(assignee) ==> t == "Unassigned"
  {
    OrElse(assignee, "Unassigned")
  }

  /** The update payload: both assignee columns, null for "Unassigned". */
  function AssigneeRow(name: Option<string>, id: Option<string>): (row: Row)
    ensures row.Keys == {"assignee_name", "assignee_id"}
    ensures row["assignee_name"] == NullableText(name) && row["assignee_id"] == NullableText(id)
  {
    map["assignee_name" := NullableText(name), "assignee_id" := NullableText(id)]
  }

  class AssigneeDropdownState {
    const issueId: string
    const projectId: Option<string>
    var assignee: Option<string>
    var isOpen: bool
    var members: seq<Member>

    constructor(issueId: string, currentAssignee: Option<string>, projectId: Option<string>)
      ensures this.issueId == issueId && this.projectId == projectId
      ensures assignee == currentAssignee && !isOpen && members == []
    {
      this.issueId := issueId;
      this.projectId := projectId;
      assignee := currentAssignee;
      isOpen := false;
      members := [];
    }

    /** A changed `currentAssignee` prop overwrites the local name. */
    method SyncFromProps(currentAssignee: Option<string>)
      modifies this
      ensures assignee == currentAssignee && isOpen == old(isOpen) && members == old(members)
    {
      assignee := currentAssignee;
    }

    /** A click on the trigger; opening the menu of an issue with a project
        starts a member fetch. */
    method ClickTrigger() returns (fetch: bool)
      modifies this
      ensures isOpen == !old(isOpen) && assignee == old(assignee) && members == old(members)
      ensures fetch <==> isOpen && Truthy(projectId)
    {
      isOpen := !isOpen;
      fetch := isOpen && Truthy(projectId);
    }

    /** The fetch's answer: rows replace the member list, an error leaves it. */
    method FinishFetch(data: Option<seq<Option<Member>>>)
      modifies this
      ensures data.Some? ==> members == MembersOf(data.value)
      ensures data.None? ==> members == old(members)
      ensures assignee == old(assignee) && isOpen == old(isOpen)
    {
      if data.Some? {
        members := MembersOf(data.value);
      }
    }

    /** `updateAssignee(name, id)`: the same name only closes the menu, whatever
        the id; another one is shown at once, written with its id, and restored
        if the write fails. */
    method UpdateAssignee(newName: Option<string>, newId: Option<string>, failed: bool)
      returns (write: Option<IssueUpdate>, refresh: bool)
      modifies this
      ensures !isOpen && members == old(members)
      ensures newName == old(assignee) ==> write.None? && !refresh && assignee == old(assignee)
      ensures newName != old(assignee) ==>
        write == Some(IssueUpdate(issueId, AssigneeRow(newName, newId))) &&
        refresh == !failed &&
        assignee == (if failed then old(assignee) else newName)
    {
      if newName == assignee {
        isOpen := false;
        return None, false;
      }
      var oldAssignee := assignee;
      assignee := newName;
      isOpen := false;
      write := Some(IssueUpdate(issueId, AssigneeRow(newName, newId)));
      if failed {
        assignee := oldAssignee;
        refresh := false;
      } else {
        refresh := true;
      }
    }

    /** The "Unassigned" item writes null to both columns. */
    method ChooseUnassigned(failed: bool) returns (write: Option<IssueUpdate>, refresh: bool)
      modifies this
      ensures old(assignee).Some? ==>
        write == Some(IssueUpdate(issueId, map["assignee_name" := Null, "assignee_id" := Null]))
      ensures old(assignee).None? ==> write.None? && assignee.None? && !refresh
      ensures old(assignee).Some? ==>
        refresh == !failed && assignee == (if failed then old(assignee) else None)
      ensures !isOpen && members == old(members)
    {
      write, refresh := UpdateAssignee(None, None, failed);
    }

    /** A member item writes that member's name and id. */
    method ChooseMember(m: Member, failed: bool) returns (write: Option<IssueUpdate>, refresh: bool)
      modifies this
      ensures old(assignee) != Some(m.name) ==>
        write == Some(IssueUpdate(issueId, map["assignee_name" := Text(m.name), "assignee_id" := Text(m.id)]))
      ensures old(assignee) == Some(m.name) ==> write.None? && assignee == old(assignee) && !refresh
      ensures old(assignee) != Some(m.name) ==>
        refresh == !failed && assignee == (if failed then old(assignee) else Some(m.name))
      ensures !isOpen && members == old(members)
    {
      write, refresh := UpdateAssignee(Some(m.name), Some(m.id), failed);
    }
  }
}
