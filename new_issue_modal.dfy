/** The "New Issue" form: its defaults, the AI auto-fill, the submit guard and
    insert payload, and the reset after closing. */
module NewIssueModal {
  import opened Common
  import opened Records

  datatype ProjectRef = ProjectRef(id: string, name: string)

  /** `projectsData.find(p => p.id === id)` succeeds. */
  predicate Listed(ps: seq<ProjectRef>, id: string) {
    exists i :: 0 <= i < |ps| && ps[i].id == id
  }

  /** The form's project: the saved id if it names a fetched project, else the
      first project's id; an empty or missing id becomes null. */
  function DefaultProjectId(saved: Option<string>, ps: seq<ProjectRef>): (r: Option<string>)
    ensures Truthy(saved) && Listed(ps, saved.value) ==> r == saved
    ensures !(Truthy(saved) && Listed(ps, saved.value)) && ps != [] && ps[0].id != "" ==> r == Some(ps[0].id)
    ensures !(Truthy(saved) && Listed(ps, saved.value)) && (ps == [] || ps[0].id == "") ==> r.None?
    ensures r.Some? ==> Listed(ps, r.value) && r.value != ""
  {
    if Truthy(saved) && Listed(ps, saved.value) then saved
    else if ps != [] && ps[0].id != "" then Some(ps[0].id)
    else None
  }

  /** The fields an AI answer may fill. */
  datatype AiDetails = AiDetails(description: Option<string>, priority: Option<string>, status: Option<string>)

  /** The form's editable fields. */
  datatype Fields = Fields(title: string, description: string, status: string, priority: string, projectId: Option<string>)

  /** The form after an AI answer: each truthy field overwrites its own; a null
      answer leaves the form as it was. */
  function AfterAi(f: Fields, details: Option<AiDetails>): (r: Fields)
    ensures details.None? ==> r == f
    ensures r.title == f.title && r.projectId == f.projectId
    ensures details.Some? ==> r.description == OrElse(details.value.description, f.description)
    ensures details.Some? ==> r.priority == OrElse(details.value.priority, f.priority)
    ensures details.Some? ==> r.status == OrElse(details.value.status, f.status)
  {
    match details
    case None => f
    case Some(d) =>
      f.(description := OrElse(d.description, f.description),
         priority := OrElse(d.priority, f.priority),
         status := OrElse(d.status, f.status))
  }

  /** An answer with no truthy field changes nothing. */
  lemma EmptyAnswerChangesNothing(f: Fields, d: AiDetails)
    requires !Truthy(d.description) && !Truthy(d.priority) && !Truthy(d.status)
    ensures AfterAi(f, Some(d)) == f
  {
  }

  /** The insert payload: the form as typed, an empty description as null. */
  function InsertRow(f: Fields, teamId: string): (row: Row)
    ensures row.Keys == {"title", "description", "status", "priority", "team_id", "project_id"}
    ensures row["title"] == Text(f.title) && row["description"] == TextOrNull(f.description)
    ensures row["status"] == Text(f.status) && row["priority"] == Text(f.priority)
    ensures row["team_id"] == Text(teamId) && row["project_id"] == NullableText(f.projectId)
  {
    map["title" := Text(f.title), "description" := TextOrNull(f.description),
        "status" := Text(f.status), "priority" := Text(f.priority),
        "team_id" := Text(teamId), "project_id" := NullableText(f.projectId)]
  }

  /** The form a closed modal is reset to. */
  const Blank: Fields := Fields("", "", "Todo", "None", None)

  class NewIssueForm {
    var fields: Fields
    var projects: seq<ProjectRef>
    var teamId: Option<string>
    var isAiEnabled: bool
    var isGenerating: bool
    var isSubmitting: bool

    constructor()
      ensures fields == Blank && projects == [] && teamId.None?
      ensures !isAiEnabled && !isGenerating && !isSubmitting
    {
      fields := Blank;
      projects := [];
      teamId := None;
      isAiEnabled := false;
      isGenerating := false;
      isSubmitting := false;
    }

    /** The data fetched on opening: the first team's id, and the projects
        with the default choice among them. A missing answer changes nothing. */
    method LoadOnOpen(teams: Option<seq<string>>, projectsData: Option<seq<ProjectRef>>, saved: Option<string>)
      modifies this
      ensures teams.Some? && teams.value != [] ==> teamId == Some(teams.value[0])
      ensures !(teams.Some? && teams.value != []) ==> teamId == old(teamId)
      ensures projectsData.Some? ==>
        projects == projectsData.value && fields == old(fields).(projectId := DefaultProjectId(saved, projectsData.value))
      ensures projectsData.None? ==> projects == old(projects) && fields == old(fields)
      ensures isAiEnabled == old(isAiEnabled) && isGenerating == old(isGenerating) && isSubmitting == old(isSubmitting)
    {
      if teams.Some? && |teams.value| > 0 {
        teamId := Some(teams.value[0]);
      }
      if projectsData.Some? {
        projects := projectsData.value;
        fields := fields.(projectId := DefaultProjectId(saved, projectsData.value));
      }
    }

    /** The reset that follows closing: every field back to its default and the
        AI switch off; the team and the fetched projects stay. */
    method ResetAfterClose()
      modifies this
      ensures fields == Blank && !isAiEnabled
      ensures teamId == old(teamId) && projects == old(projects)
      ensures isGenerating == old(isGenerating) && isSubmitting == old(isSubmitting)
    {
      fields := Blank;
      isAiEnabled := false;
    }

    method ToggleAi()
      modifies this
      ensures isAiEnabled == !old(isAiEnabled) && fields == old(fields)
      ensures isGenerating == old(isGenerating) && isSubmitting == old(isSubmitting)
      ensures projects == old(projects) && teamId == old(teamId)
    {
      isAiEnabled := !isAiEnabled;
    }

    /** `handleAiGenerate` up to the await: refused for a blank title or while a
        generation runs; otherwise the title is sent. */
    method StartAiGenerate() returns (request: Option<string>)
      modifies this
      ensures IsBlank(old(fields.title)) || old(isGenerating) ==> request.None? && isGenerating == old(isGenerating)
      ensures !IsBlank(old(fields.title)) && !old(isGenerating) ==> request == Some(old(fields.title)) && isGenerating
      ensures fields == old(fields) && isAiEnabled == old(isAiEnabled) && isSubmitting == old(isSubmitting)
      ensures projects == old(projects) && teamId == old(teamId)
    {
      if IsBlank(fields.title) || isGenerating {
        return None;
      }
      isGenerating := true;
      request := Some(fields.title);
    }

    /** `handleAiGenerate` after the await. */
    method FinishAiGenerate(details: Option<AiDetails>)
      modifies this
      ensures fields == AfterAi(old(fields), details) && !isGenerating
      ensures isAiEnabled == old(isAiEnabled) && isSubmitting == old(isSubmitting)
      ensures projects == old(projects) && teamId == old(teamId)
    {
      fields := AfterAi(fields, details);
      isGenerating := false;
    }

    /** `handleTitleBlur`: generation starts only with the switch on, a
        non-blank title and a blank description. */
    method TitleBlur() returns (request: Option<string>)
      modifies this
      ensures request.Some? ==> old(isAiEnabled) && !IsBlank(old(fields.title)) && IsBlank(old(fields.description)) && !old(isGenerating)
      ensures old(isAiEnabled) && !IsBlank(old(fields.title)) && IsBlank(old(fields.description)) && !old(isGenerating) ==>
        request == Some(old(fields.title)) && isGenerating
      ensures request.None? ==> isGenerating == old(isGenerating)
      ensures fields == old(fields) && isAiEnabled == old(isAiEnabled) && isSubmitting == old(isSubmitting)
      ensures projects == old(projects) && teamId == old(teamId)
    {
      request := None;
      if isAiEnabled && !IsBlank(fields.title) && IsBlank(fields.description) {
        request := StartAiGenerate();
      }
    }

    /** The submit button is disabled for a blank title or during a submit. */
    function SubmitDisabled(): (b: bool)
      reads this
      ensures b <==> IsBlank(fields.title) || isSubmitting
    {
      IsBlank(fields.title) || isSubmitting
    }

    /** `handleSubmit` up to the await: nothing without a title or a team;
        otherwise the form is inserted. */
    method StartSubmit() returns (insert: Option<Row>)
      modifies this
      ensures IsBlank(old(fields.title)) || !Truthy(old(teamId)) ==> insert.None? && isSubmitting == old(isSubmitting)
      ensures !IsBlank(old(fields.title)) && Truthy(old(teamId)) ==>
        insert == Some(InsertRow(old(fields), old(teamId).value)) && isSubmitting
      ensures fields == old(fields) && teamId == old(teamId) && isGenerating == old(isGenerating)
      ensures projects == old(projects) && isAiEnabled == old(isAiEnabled)
    {
      if IsBlank(fields.title) || !Truthy(teamId) {
        return None;
      }
      var row := InsertRow(fields, teamId.value);
      isSubmitting := true;
      assert fields == old(fields) && teamId == old(teamId);
      insert := Some(row);
    }

    /** `handleSubmit` after the await: success closes the modal and refreshes,
        an error raises an alert and keeps it open; the flag always clears. */
    method FinishSubmit(failed: bool) returns (close: bool, alert: Option<string>, refresh: bool)
      modifies this
      ensures !isSubmitting && fields == old(fields)
      ensures projects == old(projects) && teamId == old(teamId)
      ensures isAiEnabled == old(isAiEnabled) && isGenerating == old(isGenerating)
      ensures failed ==> !close && alert == Some("Failed to create issue")
      ensures !failed ==> close && alert.None?
      ensures refresh <==> !failed
    {
      if failed {
        close, alert, refresh := false, Some("Failed to create issue"), false;
      } else {
        close, alert, refresh := true, None, true;
      }
      isSubmitting := false;
    }
  }
}
