/** The kanban board: issues grouped into columns by a normalised status, and
    the optimistic drag-and-drop that moves an issue to another column. */
module BoardView {
  import opened Common
  import opened Records

  /** The board's status key: lower-cased, the first '_' and then the first '-'
      turned into a space, trimmed; a missing or blank result is "backlog". */
  function BoardNormalize(status: Option<string>): (r: string)
    ensures r != "" && Unpadded(r)
    ensures NoUpper(r)
    ensures status.None? ==> r == "backlog"
    ensures status.Some? && IsBlank(status.value) ==> r == "backlog"
  {
    match status
    case None => OrBacklog("")
    case Some(s) => OrBacklog(Squashed(s))
  }

  /** `t || 'backlog'` */
  function OrBacklog(t: string): (r: string)
    ensures r != "" && (t != "" ==> r == t) && (t == "" ==> r == "backlog")
    ensures Unpadded(t) ==> Unpadded(r)
    ensures NoUpper(t) ==> NoUpper(r)
  {
    if t == "" then "backlog" else t
  }

  /** The chain `toLowerCase().replace('_', ' ').replace('-', ' ').trim()`. */
  function Squashed(s: string): (t: string)
    ensures Unpadded(t)
    ensures NoUpper(t)
    ensures IsBlank(s) ==> t == ""
  {
    var d := ReplaceFirst(ReplaceFirst(Lower(s), '_', ' '), '-', ' ');
    NormalizedShape(s, d);
    Trim(d)
  }

  lemma NormalizedShape(s: string, d: string)
    requires d == ReplaceFirst(ReplaceFirst(Lower(s), '_', ' '), '-', ' ')
    ensures NoUpper(Trim(d))
    ensures IsBlank(s) ==> Trim(d) == ""
  {
    var l := Lower(s);
    var u := ReplaceFirst(l, '_', ' ');
    NoUpperSteps(s, l, u, d);
    if IsBlank(s) {
      BlankSteps(s, l, u, d);
    }
  }

  lemma NoUpperSteps(s: string, l: string, u: string, d: string)
    requires l == Lower(s)
    requires u == ReplaceFirst(l, '_', ' ') && d == ReplaceFirst(u, '-', ' ')
    ensures NoUpper(Trim(d))
  {
    forall k | 0 <= k < |d| ensures !('A' <= d[k] <= 'Z') {
      assert d[k] == u[k] || d[k] == ' ';
      assert u[k] == l[k] || u[k] == ' ';
      assert l[k] == LowerChar(s[k]);
    }
    TrimPreserves(d, c => !('A' <= c <= 'Z'));
  }

  lemma BlankSteps(s: string, l: string, u: string, d: string)
    requires IsBlank(s) && l == Lower(s)
    requires u == ReplaceFirst(l, '_', ' ') && d == ReplaceFirst(u, '-', ' ')
    ensures Trim(d) == ""
  {
    assert IsBlank(d) by {
      forall k | 0 <= k < |d| ensures IsSpace(d[k]) {
        assert IsSpace(s[k]);
        assert l[k] == s[k];
        assert u[k] == l[k] || u[k] == ' ';
        assert d[k] == u[k] || d[k] == ' ';
      }
    }
    BlankIsTrimEmpty(d);
  }

  /** A string with no '_' or '-' and no surrounding whitespace normalises to
      its lower-case form. */
  lemma NormalizeClean(s: string)
    requires CleanStatus(s)
    ensures BoardNormalize(Some(s)) == Lower(s)
    ensures NoUpper(s) ==> BoardNormalize(Some(s)) == s
  {
    CleanSquashed(s);
    if NoUpper(s) {
      LowerNoop(s);
    }
  }

  lemma CleanSquashed(s: string)
    requires CleanStatus(s)
    ensures Squashed(s) == Lower(s)
  {
    var l := Lower(s);
    NoSuchChar(s, l, '_');
    NoSuchChar(s, l, '-');
    var u := ReplaceFirst(l, '_', ' ');
    assert u == l;
    var d := ReplaceFirst(u, '-', ' ');
    assert d == l;
    assert l[0] == LowerChar(s[0]) && l[|l| - 1] == LowerChar(s[|s| - 1]);
    TrimClean(l);
  }

  lemma NoSuchChar(s: string, l: string, c: char)
    requires l == Lower(s) && c !in s && !('A' <= c <= 'Z') && !('a' <= c <= 'z')
    ensures IndexOf(l, c) == |l|
  {

  }

  /** The two replacements described position by position: the first '_' and
      the first '-' of the status become spaces and every other character is
      lower-cased. */
  function Spaced(s: string): (d: string)
    ensures |d| == |s|
  {
    seq(|s|, i requires 0 <= i < |s| =>
      if i == IndexOf(s, '_') || i == IndexOf(s, '-') then ' ' else LowerChar(s[i]))
  }

  /** The replace chain agrees with `Spaced` before the trim. */
  lemma SquashedIsTrimOfSpaced(s: string)
    ensures Squashed(s) == Trim(Spaced(s))
  {
    var l := Lower(s);
    var u := ReplaceFirst(l, '_', ' ');
    assert IndexOf(u, '-') == IndexOf(s, '-') by {
      LowerIndexOf(s, '-');
      assert forall i :: 0 <= i < |u| ==> (u[i] == '-' <==> s[i] == '-');
      SameIndexOf(u, s, '-');
    }
    var d := ReplaceFirst(u, '-', ' ');
    assert d == Spaced(s) by {
      LowerIndexOf(s, '_');
      assert forall i :: 0 <= i < |d| ==> d[i] == Spaced(s)[i];
    }
  }

  /** The board key for every status string: the trimmed `Spaced` form, or
      "backlog" when that is empty. */
  lemma BoardNormalizeSpaced(s: string)
    ensures BoardNormalize(Some(s)) == (if Trim(Spaced(s)) == "" then "backlog" else Trim(Spaced(s)))
  {
    SquashedIsTrimOfSpaced(s);
  }

  /** Two clean words joined by '-' become the lower-case words joined by a space. */
  lemma DashJoins(a: string, b: string)
    requires CleanStatus(a) && CleanStatus(b)
    ensures BoardNormalize(Some(a + "-" + b)) == Lower(a) + " " + Lower(b)
  {
    var s := a + "-" + b;
    assert IndexOf(s, '-') == |a| by {
      assert s[|a|] == '-';
      assert forall i :: 0 <= i < |a| ==> s[i] == a[i];
    }
    assert '_' !in s;
    assert s == a + [s[|a|]] + b;
    JoinedSpaced(s, a, b);
    JoinedKey(s, a, b);
  }

  /** Two clean words joined by '_' become the lower-case words joined by a space. */
  lemma UnderscoreJoins(a: string, b: string)
    requires CleanStatus(a) && CleanStatus(b)
    ensures BoardNormalize(Some(a + "_" + b)) == Lower(a) + " " + Lower(b)
  {
    var s := a + "_" + b;
    assert IndexOf(s, '_') == |a| by {
      assert s[|a|] == '_';
      assert forall i :: 0 <= i < |a| ==> s[i] == a[i];
    }
    assert '-' !in s;
    assert s == a + [s[|a|]] + b;
    JoinedSpaced(s, a, b);
    JoinedKey(s, a, b);
  }

  /** Shared step of the two joins: the separator at |a| is the only position
      `Spaced` turns into a space. */
  lemma JoinedSpaced(s: string, a: string, b: string)
    requires |s| == |a| + 1 + |b| && s == a + [s[|a|]] + b
    requires IndexOf(s, '_') == |a| || IndexOf(s, '-') == |a|
    requires IndexOf(s, '_') == |a| || IndexOf(s, '_') == |s|
    requires IndexOf(s, '-') == |a| || IndexOf(s, '-') == |s|
    ensures Spaced(s) == Lower(a) + " " + Lower(b)
  {
    var la, lb := Lower(a), Lower(b);
    var t := la + " " + lb;
    var d := Spaced(s);
    forall i | 0 <= i < |a| ensures d[i] == t[i] {
      assert s[i] == a[i] && t[i] == la[i];
    }
    assert d[|a|] == t[|a|];
    forall i | |a| < i < |s| ensures d[i] == t[i] {
      assert s[i] == b[i - |a| - 1] && t[i] == lb[i - |a| - 1];
    }
  }

  /** A clean-looking key is its own trim and is never "backlog"'s fallback. */
  lemma JoinedKey(s: string, a: string, b: string)
    requires CleanStatus(a) && CleanStatus(b) && Spaced(s) == Lower(a) + " " + Lower(b)
    ensures BoardNormalize(Some(s)) == Lower(a) + " " + Lower(b)
  {
    var la, lb := Lower(a), Lower(b);
    var t := la + " " + lb;
    assert !IsSpace(t[0]) && !IsSpace(t[|t| - 1]) by {
      assert t[0] == la[0] == LowerChar(a[0]);
      assert t[|t| - 1] == lb[|lb| - 1] == LowerChar(b[|b| - 1]);
    }
    TrimClean(t);
    BoardNormalizeSpaced(s);
  }

  /** Whitespace around a clean status is trimmed away. */
  lemma PaddingTrimmed(w1: string, s: string, w2: string)
    requires forall i :: 0 <= i < |w1| ==> IsSpace(w1[i])
    requires forall i :: 0 <= i < |w2| ==> IsSpace(w2[i])
    requires CleanStatus(s)
    ensures BoardNormalize(Some(w1 + s + w2)) == Lower(s)
  {
    var p := w1 + s + w2;
    assert '_' !in p && '-' !in p;
    assert Spaced(p) == w1 + Lower(s) + w2 by {
      forall i | 0 <= i < |p| ensures Spaced(p)[i] == (w1 + Lower(s) + w2)[i] {
        if i < |w1| {
          assert p[i] == w1[i];
        } else if i < |w1| + |s| {
          assert p[i] == s[i - |w1|];
        } else {
          assert p[i] == w2[i - |w1| - |s|];
        }
      }
    }
    TrimPadded(w1, Lower(s), w2);
    BoardNormalizeSpaced(p);
  }

  /** The key an issue is grouped under. */
  function BoardKey(i: Issue): string {
    BoardNormalize(i.status)
  }

  /** `getIssuesByStatus(target)`: the issues whose key is the key of `target`,
      in their original order. */
  function IssuesByStatus(issues: seq<Issue>, target: string): (r: seq<Issue>)
    ensures forall i :: i in r <==> i in issues && BoardKey(i) == BoardNormalize(Some(target))
  {
    Filter(issues, KeyIs(BoardKey, BoardNormalize(Some(target))))
  }

  /** The droppable columns' ids, which a drop writes verbatim as the new status. */
  const DropTargets: seq<string> := ["Backlog", "Todo", "In Progress", "Done"]

  /** The issues whose key is `key`, in their original order. */
  function Bucket(issues: seq<Issue>, key: string): (r: seq<Issue>)
    ensures |r| <= |issues|
    ensures forall i :: i in r <==> i in issues && BoardKey(i) == key
  {
    Filter(issues, KeyIs(BoardKey, key))
  }

  datatype BoardColumns = BoardColumns(
    backlog: seq<Issue>, todo: seq<Issue>, inProgress: seq<Issue>, done: seq<Issue>,
    canceled: seq<Issue>, duplicate: seq<Issue>)

  /** What the board renders for a list of issues: one bucket per key. */
  function Columns(issues: seq<Issue>): (r: BoardColumns)
    ensures forall i :: i in r.backlog <==> i in issues && BoardKey(i) == StatusKeys[0]
    ensures forall i :: i in r.todo <==> i in issues && BoardKey(i) == StatusKeys[1]
    ensures forall i :: i in r.inProgress <==> i in issues && BoardKey(i) == StatusKeys[2]
    ensures forall i :: i in r.done <==> i in issues && BoardKey(i) == StatusKeys[3]
    ensures forall i :: i in r.canceled <==> i in issues && BoardKey(i) == StatusKeys[4]
    ensures forall i :: i in r.duplicate <==> i in issues && BoardKey(i) == StatusKeys[5]
  {
    BoardColumns(
      Bucket(issues, StatusKeys[0]), Bucket(issues, StatusKeys[1]), Bucket(issues, StatusKeys[2]),
      Bucket(issues, StatusKeys[3]), Bucket(issues, StatusKeys[4]), Bucket(issues, StatusKeys[5]))
  }

  /** Each droppable column id is clean and lower-cases to its column's key. */
  lemma DropTargetsClean()
    ensures forall k :: 0 <= k < |DropTargets| ==> CleanStatus(DropTargets[k]) && Lower(DropTargets[k]) == StatusKeys[k]
  {
    assert Lower("Backlog") == "backlog";
    assert Lower("Todo") == "todo";
    assert Lower("In Progress") == "in progress";
    assert Lower("Done") == "done";
  }

  /** `getIssuesByStatus(key)` for a key of the board is the bucket of that key:
      each column is exactly the issues that normalise to its key. */
  lemma ColumnIsIssuesByStatus(issues: seq<Issue>, k: nat)
    requires k < |StatusKeys|
    ensures Bucket(issues, StatusKeys[k]) == IssuesByStatus(issues, StatusKeys[k])
  {
    StatusKeysClean();
    NormalizeClean(StatusKeys[k]);
  }

  /** Dropping on column k writes a status whose key is column k's key. */
  lemma DropTargetKey(k: nat)
    requires k < |DropTargets|
    ensures BoardNormalize(Some(DropTargets[k])) == StatusKeys[k]
  {
    DropTargetsClean();
    NormalizeClean(DropTargets[k]);
  }

  /** Every issue is in exactly one column, or in none when its key is not one
      of the six: the column sizes and the unplaced issues add up to the list. */
  lemma ColumnsPartition(issues: seq<Issue>)
    ensures var c := Columns(issues);
      |c.backlog| + |c.todo| + |c.inProgress| + |c.done| + |c.canceled| + |c.duplicate|
        + |Filter(issues, KeyNotIn(BoardKey, StatusKeys))| == |issues|
  {
    StatusKeysDistinct();
    BucketsPartition(issues, BoardKey, StatusKeys);
    var ks := StatusKeys;
    var c := Columns(issues);
    assert BucketSizes(issues, BoardKey, ks[6..]) == 0;
    assert BucketSizes(issues, BoardKey, ks[5..]) == |c.duplicate| by { assert ks[5..][1..] == ks[6..]; }
    assert BucketSizes(issues, BoardKey, ks[4..]) == |c.canceled| + |c.duplicate| by { assert ks[4..][1..] == ks[5..]; }
    assert BucketSizes(issues, BoardKey, ks[3..]) == |c.done| + |c.canceled| + |c.duplicate| by { assert ks[3..][1..] == ks[4..]; }
    assert BucketSizes(issues, BoardKey, ks[2..]) == |c.inProgress| + |c.done| + |c.canceled| + |c.duplicate| by {
      assert ks[2..][1..] == ks[3..];
    }
    assert BucketSizes(issues, BoardKey, ks[1..]) == |c.todo| + |c.inProgress| + |c.done| + |c.canceled| + |c.duplicate| by {
      assert ks[1..][1..] == ks[2..];
    }
  }

  /** An issue whose key is none of the six (e.g. "archived") is shown nowhere. */
  lemma UnknownStatusHidden(issues: seq<Issue>, i: Issue)
    requires BoardKey(i) !in StatusKeys
    ensures var c := Columns(issues);
      i !in c.backlog && i !in c.todo && i !in c.inProgress && i !in c.done && i !in c.canceled && i !in c.duplicate
  {
  }

  /** `localIssues.find(i => i.id === id)`: the first issue with that id. */
  function FindById(issues: seq<Issue>, id: string): (r: Option<Issue>)
    ensures r.None? <==> forall i :: i in issues ==> i.id != id
    ensures r.Some? ==> r.value in issues && r.value.id == id
    ensures r.Some? ==> exists k :: 0 <= k < |issues| && issues[k] == r.value && forall j :: 0 <= j < k ==> issues[j].id != id
  {
    if issues == [] then None
    else if issues[0].id == id then Some(issues[0])
    else
      var r := FindById(issues[1..], id);
      assert r.Some? ==> exists k :: 0 <= k < |issues| && issues[k] == r.value && forall j :: 0 <= j < k ==> issues[j].id != id by {
        if r.Some? {
          var k :| 0 <= k < |issues[1..]| && issues[1..][k] == r.value && forall j :: 0 <= j < k ==> issues[1..][j].id != id;
          assert issues[k + 1] == r.value;
        }
      }
      r
  }

  /** The optimistic list after a drop: every issue with the dragged id gets the
      new status; nothing else about any issue changes. */
  function WithStatus(issues: seq<Issue>, id: string, status: string): (r: seq<Issue>)
    ensures |r| == |issues|
    ensures forall k :: 0 <= k < |r| ==> r[k].(status := issues[k].status) == issues[k]
    ensures forall k :: 0 <= k < |r| ==> r[k].status == if issues[k].id == id then Some(status) else issues[k].status
  {
    if issues == [] then []
    else [if issues[0].id == id then issues[0].(status := Some(status)) else issues[0]] + WithStatus(issues[1..], id, status)
  }

  /** After a drop on column k, every issue with the dragged id is in column k. */
  lemma DropLandsInColumn(issues: seq<Issue>, id: string, k: nat)
    requires k < |DropTargets|
    ensures var after := WithStatus(issues, id, DropTargets[k]);
      forall i :: i in after && i.id == id ==> i in Bucket(after, StatusKeys[k])
  {
    DropTargetKey(k);
    var after := WithStatus(issues, id, DropTargets[k]);
    forall i | i in after && i.id == id
      ensures BoardKey(i) == StatusKeys[k]
    {
      var n :| 0 <= n < |after| && after[n] == i;
      assert issues[n].id == id;
    }
  }

  /** A drop leaves every issue with another id in the column it was in. */
  lemma DropKeepsOthers(issues: seq<Issue>, id: string, status: string, key: string)
    ensures var after := WithStatus(issues, id, status);
      forall i :: i in issues && i.id != id ==> (i in Bucket(issues, key) <==> i in Bucket(after, key))
  {
    var after := WithStatus(issues, id, status);
    forall i | i in issues && i.id != id
      ensures i in after
    {
      var n :| 0 <= n < |issues| && issues[n] == i;
      assert after[n] == i;
    }
  }

  class Board {
    var localIssues: seq<Issue>
    var activeId: Option<string>
    var activeIssue: Option<Issue>

    constructor(issues: seq<Issue>)
      ensures localIssues == issues && activeId.None? && activeIssue.None?
    {
      localIssues := issues;
      activeId := None;
      activeIssue := None;
    }

    /** New issues from the server replace the local copy. */
    method SyncFromProps(issues: seq<Issue>)
      modifies this
      ensures localIssues == issues
      ensures activeId == old(activeId) && activeIssue == old(activeIssue)
    {
      localIssues := issues;
    }

    /** A drag starts: remember the dragged id and the issue for the overlay. */
    method DragStart(id: string, issue: Option<Issue>)
      modifies this
      ensures activeId == Some(id) && activeIssue == issue
      ensures localIssues == old(localIssues)
    {
      activeId := Some(id);
      activeIssue := issue;
    }

    /** A drag ends over column `over` (or over nothing). An issue found by id
        whose status differs from the column id moves optimistically and the
        status write is returned; a failed write restores the list as it was
        before the drop. The drag state is always cleared. */
    method DragEnd(issueId: string, over: Option<string>, writeFailed: bool)
      returns (write: Option<IssueUpdate>, refresh: bool)
      modifies this
      ensures activeId.None? && activeIssue.None?
      ensures write.Some? <==>
        over.Some? && FindById(old(localIssues), issueId).Some? && FindById(old(localIssues), issueId).value.status != over
      ensures write.Some? ==> write.value == IssueUpdate(issueId, map["status" := Text(over.value)])
      ensures localIssues ==
        if write.Some? && !writeFailed then WithStatus(old(localIssues), issueId, over.value) else old(localIssues)
      ensures refresh <==> write.Some? && !writeFailed
    {
      write, refresh := None, false;
      if over.Some? {
        var newStatus := over.value;
        var issue := FindById(localIssues, issueId);
        if issue.Some? && issue.value.status != Some(newStatus) {
          var before := localIssues;
          localIssues := WithStatus(localIssues, issueId, newStatus);
          write := Some(IssueUpdate(issueId, map["status" := Text(newStatus)]));
          if writeFailed {
            localIssues := before;
          } else {
            refresh := true;
          }
        }
      }
      activeId := None;
      activeIssue := None;
    }
  }
}
