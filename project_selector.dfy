/** The sidebar's project picker: the member projects sorted by name, the
    initial choice (URL, then saved id, then first), and the change handler
    that persists the choice and navigates. */
module ProjectSelector {
  import opened Common
  import opened Records

  datatype Project = Project(id: string, name: string)

  // ---------------------------------------------------------------------------
  // Sorting by name

  /** `a.localeCompare(b) <= 0`, approximated by lexicographic character order. */
  predicate NameLe(a: string, b: string) {
    a == [] || (b != [] && (a[0] < b[0] || (a[0] == b[0] && NameLe(a[1..], b[1..]))))
  }

  /** Any two names are ordered one way or the other. */
  lemma {:induction false} NameLeTotal(a: string, b: string)
    ensures NameLe(a, b) || NameLe(b, a)
  {
    if a != [] && b != [] && a[0] == b[0] {
      NameLeTotal(a[1..], b[1..]);
    }
  }

  /** The order is transitive. */
  lemma {:induction false} NameLeTrans(a: string, b: string, c: string)
    requires NameLe(a, b) && NameLe(b, c)
    ensures NameLe(a, c)
  {
    if a != [] && b != [] && c != [] && a[0] == b[0] && b[0] == c[0] {
      NameLeTrans(a[1..], b[1..], c[1..]);
    }
  }

  predicate SortedByName(ps: seq<Project>) {
    forall i :: 0 <= i < |ps| - 1 ==> NameLe(ps[i].name, ps[i + 1].name)
  }

  /** Adjacent order gives order between any two positions. */
  lemma {:induction false} SortedPairwise(ps: seq<Project>, i: int, j: int)
    requires SortedByName(ps) && 0 <= i <= j < |ps|
    ensures NameLe(ps[i].name, ps[j].name)
    decreases j - i
  {
    if i == j {
      NameLeRefl(ps[i].name);
    } else {
      SortedPairwise(ps, i + 1, j);
      NameLeTrans(ps[i].name, ps[i + 1].name, ps[j].name);
    }
  }

  lemma {:induction false} NameLeRefl(a: string)
    ensures NameLe(a, a)
  {
    if a != [] {
      NameLeRefl(a[1..]);
    }
  }

  /** One insertion step: `x` goes before the first project it does not follow. */
  function Insert(x: Project, ps: seq<Project>): (r: seq<Project>)
    requires SortedByName(ps)
    ensures SortedByName(r)
    ensures multiset(r) == multiset(ps) + multiset{x}
    ensures |r| == |ps| + 1
    ensures r != [] && (r[0] == x || (ps != [] && r[0] == ps[0]))
  {
    if ps == [] then [x]
    else if NameLe(x.name, ps[0].name) then [x] + ps
    else
      var rest := Insert(x, ps[1..]);
      assert NameLe(ps[0].name, x.name) by {
        NameLeTotal(x.name, ps[0].name);
      }
      assert ps == [ps[0]] + ps[1..];
      [ps[0]] + rest
  }

  /** `.sort((a, b) => a.name.localeCompare(b.name))`: ascending by name, and a
      rearrangement of the input. */
  function SortByName(ps: seq<Project>): (r: seq<Project>)
    ensures SortedByName(r)
    ensures multiset(r) == multiset(ps)
    ensures |r| == |ps|
  {
    if ps == [] then []
    else
      assert ps == [ps[0]] + ps[1..];
      Insert(ps[0], SortByName(ps[1..]))
  }

  /** In the sorted list every earlier name is at most every later one. */
  lemma SortedEverywhere(ps: seq<Project>, i: int, j: int)
    requires 0 <= i <= j < |ps|
    ensures NameLe(SortByName(ps)[i].name, SortByName(ps)[j].name)
  {
    SortedPairwise(SortByName(ps), i, j);
  }

  // ---------------------------------------------------------------------------
  // Initial choice

  /** `projects.find(p => p.id === id)`: the first project with that id; a
      null id matches nothing. */
  function FindById(ps: seq<Project>, id: Option<string>): (r: Option<Project>)
    ensures r.Some? <==> id.Some? && exists p :: p in ps && p.id == id.value
    ensures r.Some? ==> r.value in ps && r.value.id == id.value
    ensures r.Some? ==> exists k :: 0 <= k < |ps| && ps[k] == r.value && forall j :: 0 <= j < k ==> ps[j].id != id.value
  {
    if id.None? || ps == [] then None
    else if ps[0].id == id.value then Some(ps[0])
    else
      var r := FindById(ps[1..], id);
      assert forall p :: p in ps ==> p == ps[0] || p in ps[1..];
      assert r.Some? ==> exists k :: 0 <= k < |ps| && ps[k] == r.value && forall j :: 0 <= j < k ==> ps[j].id != id.value by {
        if r.Some? {
          var k :| 0 <= k < |ps[1..]| && ps[1..][k] == r.value && forall j :: 0 <= j < k ==> ps[1..][j].id != id.value;
          assert ps[k + 1] == r.value;
        }
      }
      r
  }

  /** URL project if listed, else saved project if listed, else the first. */
  function InitialProject(ps: seq<Project>, param: Option<string>, saved: Option<string>): (r: Project)
    requires ps != []
    ensures r in ps
    ensures FindById(ps, param).Some? ==> r.id == param.value
    ensures FindById(ps, param).None? && FindById(ps, saved).Some? ==> r.id == saved.value
    ensures FindById(ps, param).None? && FindById(ps, saved).None? ==> r == ps[0]
  {
    match FindById(ps, param)
    case Some(p) => p
    case None =>
      match FindById(ps, saved)
      case Some(p) => p
      case None => ps[0]
  }

  /** The initial project of the sorted list is one of the fetched projects. */
  lemma InitialIsListed(ps: seq<Project>, param: Option<string>, saved: Option<string>)
    requires ps != []
    ensures InitialProject(SortByName(ps), param, saved) in ps
  {
    var sorted := SortByName(ps);
    assert sorted[0] in multiset(sorted);
    var r := InitialProject(sorted, param, saved);
    assert r in multiset(sorted);
  }

  const SelectedKey: string := "selectedProjectId"

  /** The square's letter: the first letter of the selected name, else "L". */
  function AvatarLetter(selected: Option<Project>): (r: string)
    ensures selected.Some? && selected.value.name != [] ==> r == [selected.value.name[0]]
    ensures selected.None? || selected.value.name == [] ==> r == "L"
  {
    if selected.Some? && selected.value.name != [] then [selected.value.name[0]] else "L"
  }

  /** The button's text: the selected name, else "Linear Clone". */
  function DisplayName(selected: Option<Project>): (r: string)
    ensures selected.Some? && selected.value.name != [] ==> r == selected.value.name
    ensures selected.None? || selected.value.name == [] ==> r == "Linear Clone"
  {
    if selected.Some? && selected.value.name != [] then selected.value.name else "Linear Clone"
  }

  class ProjectSelectorState {
    var projects: seq<Project>
    var selected: Option<Project>
    var isOpen: bool
    /** The routes pushed, oldest first. */
    var navigations: seq<string>
    const storage: LocalStorage

    constructor(storage: LocalStorage)
      ensures this.storage == storage
      ensures projects == [] && selected.None? && !isOpen && navigations == []
    {
      this.storage := storage;
      projects := [];
      selected := None;
      isOpen := false;
      navigations := [];
    }

    /** `fetchProjects`: without a user nothing happens; a non-empty answer is
        sorted by name and the initial project chosen from it; an empty or
        missing answer leaves list and selection alone. */
    method LoadProjects(hasUser: bool, data: Option<seq<Project>>, param: Option<string>)
      modifies this
      ensures !hasUser || data.None? || data.value == [] ==>
        projects == old(projects) && selected == old(selected)
      ensures hasUser && data.Some? && data.value != [] ==>
        projects == SortByName(data.value) &&
        selected == Some(InitialProject(projects, param, storage.GetItem(SelectedKey)))
      ensures hasUser && data.Some? && data.value != [] ==> selected.value in data.value
      ensures isOpen == old(isOpen) && navigations == old(navigations)
    {
      if !hasUser {
        return;
      }
      if data.Some? && |data.value| > 0 {
        var formatted := SortByName(data.value);
        projects := formatted;
        var saved := storage.GetItem(SelectedKey);
        var initial := InitialProject(formatted, param, saved);
        InitialIsListed(data.value, param, saved);
        selected := Some(initial);
      }
    }

    method ClickButton()
      modifies this
      ensures isOpen == !old(isOpen)
      ensures projects == old(projects) && selected == old(selected) && navigations == old(navigations)
    {
      isOpen := !isOpen;
    }

    /** `handleProjectChange(project)`: select, close, remember, navigate. */
    method HandleProjectChange(p: Project)
      modifies this, storage
      ensures selected == Some(p) && !isOpen
      ensures storage.items == old(storage.items)[SelectedKey := p.id]
      ensures navigations == old(navigations) + ["/?project=" + p.id]
      ensures projects == old(projects)
    {
      selected := Some(p);
      isOpen := false;
      storage.SetItem(SelectedKey, p.id);
      navigations := navigations + ["/?project=" + p.id];
    }
  }

  /** A choice made here is the one restored by the next load, unless the URL
      names another listed project. */
  lemma ChoiceIsRestored(ps: seq<Project>, p: Project, items: map<string, string>, param: Option<string>)
    requires p in ps && FindById(ps, param).None?
    requires forall q :: q in ps && q.id == p.id ==> q == p
    ensures InitialProject(ps, param, Some(items[SelectedKey := p.id][SelectedKey])) == p
  {
  }
}
