/** The projects page: project cards and the two-step delete (issues first,
    then the project) that drops the card only when both steps succeed. */
module ProjectsList {
  import opened Common
  import opened Records

  /** A project row with its embedded `issues(count)` aggregate. */
  datatype ProjectCard = ProjectCard(id: string, name: string, description: Option<string>, issueCounts: Option<seq<int>>)

  /** `project.issues?.[0]?.count || 0` */
  function IssueCount(p: ProjectCard): (n: int)
    ensures p.issueCounts.Some? && p.issueCounts.value != [] ==> n == p.issueCounts.value[0]
    ensures p.issueCounts.None? || p.issueCounts.value == [] ==> n == 0
  {
    if p.issueCounts.Some? && |p.issueCounts.value| > 0 then p.issueCounts.value[0] else 0
  }

  /** The card's heading and subtitle, with their fallbacks. */
  function CardTitle(p: ProjectCard): (t: string)
    ensures p.name != [] ==> t == p.name
    ensures p.name == [] ==> t == "Untitled Project"
  {
    if p.name != [] then p.name else "Untitled Project"
  }

  function CardDescription(p: ProjectCard): (t: string)
    ensures Truthy(p.description) ==> t == p.description.value
    ensures !Truthy(p.description) ==> t == "No description"
  {
    OrElse(p.description, "No description")
  }

  /** The question asked before deleting. */
  function ConfirmText(name: string): (t: string)
    ensures Contains(t, name)
  {
    var head := "Are you sure you want to delete \"";
    var t := head + name + "\"? This will delete ALL associated issues.";
    assert |head| == 33 && t[|head|..|head| + |name|] == name;
    ContainsAt(t, name, |head|);
    t
  }

  /** The two deletes, in the order they are sent. */
  datatype DeleteRequest = DeleteIssuesOfProject(projectId: string) | DeleteProject(id: string)

  function IdIsNot(id: string): ProjectCard -> bool {
    (p: ProjectCard) => p.id != id
  }

  /** `prev.filter(p => p.id !== projectId)` */
  function Removed(ps: seq<ProjectCard>, id: string): (r: seq<ProjectCard>)
    ensures forall p :: p in r <==> p in ps && p.id != id
    ensures |r| <= |ps|
  {
    Filter(ps, IdIsNot(id))
  }

  /** Removal keeps the remaining cards in their order: it works part by part. */
  lemma RemovedKeepsOrder(a: seq<ProjectCard>, b: seq<ProjectCard>, id: string)
    ensures Removed(a + b, id) == Removed(a, id) + Removed(b, id)
  {
    FilterAppend(a, b, IdIsNot(id));
  }

  /** Removing an id that is not listed changes nothing. */
  lemma RemovedAbsent(ps: seq<ProjectCard>, id: string)
    requires forall p :: p in ps ==> p.id != id
    ensures Removed(ps, id) == ps
  {
    FilterAll(ps, IdIsNot(id));
  }

  class ProjectsListState {
    var projects: seq<ProjectCard>
    var isModalOpen: bool

    constructor(initialProjects: seq<ProjectCard>)
      ensures projects == initialProjects && !isModalOpen
    {
      projects := initialProjects;
      isModalOpen := false;
    }

    /** `handleDelete`: a declined confirmation sends nothing; the issues are
        deleted before the project; a failed step stops with its alert and
        leaves the list; only full success drops the card. */
    method HandleDelete(id: string, confirmed: bool, issuesFailed: bool, projectFailed: bool)
      returns (requests: seq<DeleteRequest>, alert: Option<string>, refresh: bool)
      modifies this
      ensures !confirmed ==> requests == [] && alert.None? && !refresh && projects == old(projects)
      ensures confirmed && issuesFailed ==>
        requests == [DeleteIssuesOfProject(id)] && alert == Some("Failed to delete associated issues.") &&
        !refresh && projects == old(projects)
      ensures confirmed && !issuesFailed && projectFailed ==>
        requests == [DeleteIssuesOfProject(id), DeleteProject(id)] && alert == Some("Failed to delete project.") &&
        !refresh && projects == old(projects)
      ensures confirmed && !issuesFailed && !projectFailed ==>
        requests == [DeleteIssuesOfProject(id), DeleteProject(id)] && alert.None? &&
        refresh && projects == Removed(old(projects), id)
      ensures isModalOpen == old(isModalOpen)
    {
      requests, alert, refresh := [], None, false;
      if !confirmed {
        return;
      }
      requests := requests + [DeleteIssuesOfProject(id)];
      if issuesFailed {
        alert := Some("Failed to delete associated issues.");
        return;
      }
      requests := requests + [DeleteProject(id)];
      if projectFailed {
        alert := Some("Failed to delete project.");
      } else {
        refresh := true;
        projects := Filter(projects, IdIsNot(id));
      }
    }

    method OpenModal()
      modifies this
      ensures isModalOpen && projects == old(projects)
    {
      isModalOpen := true;
    }
  }
}
