/** The issues page of a project: the sidebar filter selects issues, and the
    list or board layout is chosen by a view mode kept in localStorage. */
module ProjectViews {
  import opened Common
  import opened Records

  datatype ViewFilter = AllIssues | ActiveIssues | BacklogIssues

  /** The status the filter compares: `issue.status || 'Backlog'`. */
  function EffectiveStatus(i: Issue): (s: string)
    ensures !Truthy(i.status) ==> s == "Backlog"
    ensures Truthy(i.status) ==> s == i.status.value
  {
    OrElse(i.status, "Backlog")
  }

  /** Whether `filter` keeps `i`; the comparisons are exact and case-sensitive. */
  predicate Keeps(filter: ViewFilter, i: Issue) {
    match filter
    case ActiveIssues => EffectiveStatus(i) in ["Todo", "In Progress"]
    case BacklogIssues => EffectiveStatus(i) == "Backlog"
    case AllIssues => true
  }

  function KeepsFn(filter: ViewFilter): Issue -> bool {
    i => Keeps(filter, i)
  }

  /** `filteredIssues`: the kept issues, in input order. */
  function FilteredIssues(issues: seq<Issue>, filter: ViewFilter): (r: seq<Issue>)
    ensures forall i :: i in r <==> i in issues && Keeps(filter, i)
    ensures |r| <= |issues|
  {
    Filter(issues, KeepsFn(filter))
  }

  /** 'all' keeps every issue, in order. */
  lemma AllKeepsEverything(issues: seq<Issue>)
    ensures FilteredIssues(issues, AllIssues) == issues
  {
    FilterAll(issues, KeepsFn(AllIssues));
  }

  /** 'active' keeps exactly the statuses "Todo" and "In Progress"; lower-case
      spellings and missing statuses are dropped. */
  lemma ActiveIsCaseSensitive(i: Issue)
    ensures Keeps(ActiveIssues, i) <==> i.status == Some("Todo") || i.status == Some("In Progress")
    ensures i.status == Some("todo") ==> !Keeps(ActiveIssues, i)
  {
  }

  /** 'backlog' keeps exactly the status "Backlog" together with missing and
      empty statuses. */
  lemma BacklogIncludesMissing(i: Issue)
    ensures Keeps(BacklogIssues, i) <==> i.status == Some("Backlog") || !Truthy(i.status)
  {
  }

  /** Filtering keeps order: the result for a concatenation is the
      concatenation of the results. */
  lemma FilterKeepsOrder(a: seq<Issue>, b: seq<Issue>, filter: ViewFilter)
    ensures FilteredIssues(a + b, filter) == FilteredIssues(a, filter) + FilteredIssues(b, filter)
  {
    FilterAppend(a, b, KeepsFn(filter));
  }

  /** The page heading for each filter. */
  function HeaderTitle(filter: ViewFilter): (t: string)
    ensures filter == AllIssues <==> t == "All Issues"
    ensures filter == ActiveIssues <==> t == "Active Issues"
    ensures filter == BacklogIssues <==> t == "Backlog Issues"
  {
    assert |"All Issues"| == 10 && |"Active Issues"| == 13 && |"Backlog Issues"| == 14;
    match filter
    case AllIssues => "All Issues"
    case ActiveIssues => "Active Issues"
    case BacklogIssues => "Backlog Issues"
  }

  const ViewModeKey: string := "linear_clone_view_mode"

  datatype Layout = ListLayout | BoardLayout

  /** `viewMode === 'list'` picks the list; every other mode, including an
      unexpected saved string, picks the board. */
  function LayoutFor(viewMode: string): (l: Layout)
    ensures l == ListLayout <==> viewMode == "list"
  {
    if viewMode == "list" then ListLayout else BoardLayout
  }

  /** The mode after the mount effect: a truthy saved value replaces `current`
      unchecked; a missing or empty one leaves it. */
  function RestoredMode(items: map<string, string>, current: string): (m: string)
    ensures ViewModeKey in items && items[ViewModeKey] != "" ==> m == items[ViewModeKey]
    ensures !(ViewModeKey in items && items[ViewModeKey] != "") ==> m == current
  {
    if ViewModeKey in items && items[ViewModeKey] != "" then items[ViewModeKey] else current
  }

  /** A mode chosen and persisted is the mode restored on the next mount. */
  lemma PersistedModeRestored(items: map<string, string>, mode: string, current: string)
    requires mode == "list" || mode == "board"
    ensures RestoredMode(items[ViewModeKey := mode], current) == mode
  {
  }

  class ProjectViewsPage {
    var viewMode: string
    const storage: LocalStorage

    constructor(storage: LocalStorage)
      ensures this.storage == storage && viewMode == "list"
    {
      this.storage := storage;
      viewMode := "list";
    }

    /** The mount effect: restore a saved mode. */
    method Mount()
      modifies this
      ensures viewMode == RestoredMode(storage.items, old(viewMode))
    {
      var saved := storage.GetItem(ViewModeKey);
      if Truthy(saved) {
        viewMode := saved.value;
      }
    }

    /** `handleViewChange(mode)`: set the mode and persist it. */
    method HandleViewChange(mode: string)
      requires mode == "list" || mode == "board"
      modifies this, storage
      ensures viewMode == mode
      ensures storage.items == old(storage.items)[ViewModeKey := mode]
    {
      viewMode := mode;
      storage.SetItem(ViewModeKey, mode);
    }
  }
}
