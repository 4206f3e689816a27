/** The list view: issues split into six status groups by a simpler
    normaliser than the board's, four groups always shown and the canceled and
    duplicate groups folded into a hidden section. */
module ListView {
  import opened Common
  import opened Records
  import BoardView

  /** The list's status key: lower-cased with only the first '_' turned into a
      space; no '-' handling and no trimming; null or "" is "backlog". */
  function ListNormalize(status: Option<string>): (r: string)
    ensures r != ""
    ensures NoUpper(r)
    ensures !Truthy(status) ==> r == "backlog"
    ensures Truthy(status) ==> |r| == |status.value|
    ensures Truthy(status) ==> forall i :: 0 <= i < |r| ==>
      r[i] == (if i == IndexOf(status.value, '_') then ' ' else LowerChar(status.value[i]))
  {
    match status
    case None => "backlog"
    case Some(s) =>
      LowerIndexOf(s, '_');
      var t := ReplaceFirst(Lower(s), '_', ' ');
      assert NoUpper(t);
      if t == "" then "backlog" else t
  }

  /** The key an issue is grouped under. */
  function ListKey(i: Issue): string {
    ListNormalize(i.status)
  }

  /** `issues?.filter(i => normalizeStatus(i.status) === key) || []` */
  function ListBucket(issues: Option<seq<Issue>>, key: string): (r: seq<Issue>)
    ensures issues.None? ==> r == []
    ensures issues.Some? ==> forall i :: i in r <==> i in issues.value && ListKey(i) == key
  {
    match issues
    case None => []
    case Some(s) => Filter(s, KeyIs(ListKey, key))
  }

  datatype Groups = Groups(
    backlog: seq<Issue>, todo: seq<Issue>, inProgress: seq<Issue>, done: seq<Issue>,
    canceled: seq<Issue>, duplicate: seq<Issue>)

  /** The six groups of the list view, one per status key. */
  function Group(issues: Option<seq<Issue>>): (g: Groups)
    ensures issues.None? ==> g == Groups([], [], [], [], [], [])
  {
    Groups(
      ListBucket(issues, StatusKeys[0]), ListBucket(issues, StatusKeys[1]), ListBucket(issues, StatusKeys[2]),
      ListBucket(issues, StatusKeys[3]), ListBucket(issues, StatusKeys[4]), ListBucket(issues, StatusKeys[5]))
  }

  /** Two different keys never share an issue, so the six groups are pairwise
      disjoint. */
  lemma BucketsDisjoint(issues: Option<seq<Issue>>, k1: string, k2: string, i: Issue)
    requires k1 != k2
    ensures !(i in ListBucket(issues, k1) && i in ListBucket(issues, k2))
  {
  }

  /** A group of a concatenation is the concatenation of the groups: each
      group keeps the input order. */
  lemma BucketKeepsOrder(a: seq<Issue>, b: seq<Issue>, key: string)
    ensures ListBucket(Some(a + b), key) == ListBucket(Some(a), key) + ListBucket(Some(b), key)
  {
    FilterAppend(a, b, KeyIs(ListKey, key));
  }

  /** Every issue is in exactly one group, or in none when its key is not one of
      the six: the group sizes and the ungrouped issues add up to the input. */
  lemma GroupsPartition(issues: seq<Issue>)
    ensures var g := Group(Some(issues));
      |g.backlog| + |g.todo| + |g.inProgress| + |g.done| + |g.canceled| + |g.duplicate|
        + |Filter(issues, KeyNotIn(ListKey, StatusKeys))| == |issues|
  {
    StatusKeysDistinct();
    BucketsPartition(issues, ListKey, StatusKeys);
    var ks := StatusKeys;
    var g := Group(Some(issues));
    assert BucketSizes(issues, ListKey, ks[6..]) == 0;
    assert BucketSizes(issues, ListKey, ks[5..]) == |g.duplicate| by { assert ks[5..][1..] == ks[6..]; }
    assert BucketSizes(issues, ListKey, ks[4..]) == |g.canceled| + |g.duplicate| by { assert ks[4..][1..] == ks[5..]; }
    assert BucketSizes(issues, ListKey, ks[3..]) == |g.done| + |g.canceled| + |g.duplicate| by { assert ks[3..][1..] == ks[4..]; }
    assert BucketSizes(issues, ListKey, ks[2..]) == |g.inProgress| + |g.done| + |g.canceled| + |g.duplicate| by {
      assert ks[2..][1..] == ks[3..];
    }
    assert BucketSizes(issues, ListKey, ks[1..]) == |g.todo| + |g.inProgress| + |g.done| + |g.canceled| + |g.duplicate| by {
      assert ks[1..][1..] == ks[2..];
    }
  }

  /** An issue whose key is none of the six is in no group. */
  lemma UnknownStatusUngrouped(issues: Option<seq<Issue>>, i: Issue)
    requires ListKey(i) !in StatusKeys
    ensures var g := Group(issues);
      i !in g.backlog && i !in g.todo && i !in g.inProgress && i !in g.done && i !in g.canceled && i !in g.duplicate
  {
  }

  /** A status with a '-' keeps it in the list's key, so such an issue (for
      example "in-progress") is in no list group. */
  lemma DashedStatusUngrouped(s: string)
    requires '-' in s
    ensures '-' in ListNormalize(Some(s))
    ensures ListNormalize(Some(s)) !in StatusKeys
  {
    var k :| 0 <= k < |s| && s[k] == '-';
    var t := ListNormalize(Some(s));
    assert t[k] == '-' by {
      assert k != IndexOf(s, '_');
    }
    assert '-' in t;
    StatusKeysClean();
    forall j | 0 <= j < |StatusKeys|
      ensures t != StatusKeys[j]
    {
      assert '-' !in StatusKeys[j];
    }
  }

  /** A status with leading whitespace keeps it in the list's key, so such an
      issue is in no list group. */
  lemma PaddedStatusUngrouped(s: string)
    requires s != [] && IsSpace(s[0])
    ensures ListNormalize(Some(s)) !in StatusKeys
  {
    var t := ListNormalize(Some(s));
    assert IsSpace(t[0]);
    StatusKeysClean();
  }

  /** On a clean status (no '_', no '-', no surrounding whitespace) the list's
      and the board's normalisers agree. */
  lemma NormalizersAgreeOnClean(s: string)
    requires CleanStatus(s)
    ensures ListNormalize(Some(s)) == BoardView.BoardNormalize(Some(s))
  {
    BoardView.NormalizeClean(s);
    var l := Lower(s);
    BoardView.NoSuchChar(s, l, '_');
  }

  /** A titled group of issues as rendered; its count is the sequence length. */
  datatype Section = Section(title: string, issues: seq<Issue>)

  /** The collapsible section below the four primary groups. */
  datatype Hidden = Hidden(count: nat, sections: seq<Section>)

  datatype ListLayout = ListLayout(primary: seq<Section>, hidden: Option<Hidden>)

  /** What the list renders for its six groups. */
  function Layout(g: Groups): (l: ListLayout)
    ensures l.primary == [Section("In Progress", g.inProgress), Section("Todo", g.todo),
                          Section("Backlog", g.backlog), Section("Done", g.done)]
    ensures l.hidden.Some? <==> g.canceled != [] || g.duplicate != []
    ensures l.hidden.Some? ==> l.hidden.value.count == |g.canceled| + |g.duplicate|
    ensures l.hidden.Some? ==> forall s :: s in l.hidden.value.sections ==> s.issues != []
    ensures l.hidden.Some? ==> (Section("Canceled", g.canceled) in l.hidden.value.sections <==> g.canceled != [])
    ensures l.hidden.Some? ==> (Section("Duplicate", g.duplicate) in l.hidden.value.sections <==> g.duplicate != [])
    ensures l.hidden.Some? ==> |l.hidden.value.sections| == (if g.canceled != [] then 1 else 0) + (if g.duplicate != [] then 1 else 0)
    ensures l.hidden.Some? && g.canceled != [] ==> l.hidden.value.sections[0] == Section("Canceled", g.canceled)
  {
    var primary := [Section("In Progress", g.inProgress), Section("Todo", g.todo),
                    Section("Backlog", g.backlog), Section("Done", g.done)];
    if |g.canceled| > 0 || |g.duplicate| > 0 then
      var canceled := if |g.canceled| > 0 then [Section("Canceled", g.canceled)] else [];
      var duplicate := if |g.duplicate| > 0 then [Section("Duplicate", g.duplicate)] else [];
      ListLayout(primary, Some(Hidden(|g.canceled| + |g.duplicate|, canceled + duplicate)))
    else
      ListLayout(primary, None)
  }
}
