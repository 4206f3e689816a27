/** The "New Project" form: the name guard, the team lookup, the insert
    payload and the order of the callbacks after success. */
module NewProjectModal {
  import opened Common
  import opened Records

  /** `teams?.[0]?.id`, with an empty id counting as missing. */
  function FirstTeam(teams: Option<seq<string>>): (r: Option<string>)
    ensures r.Some? <==> teams.Some? && teams.value != [] && teams.value[0] != ""
    ensures r.Some? ==> r.value == teams.value[0]
  {
    if teams.Some? && |teams.value| > 0 && teams.value[0] != "" then Some(teams.value[0]) else None
  }

  /** The insert payload: the typed name, an empty description as null, the
      team, and status "active". */
  function InsertRow(name: string, description: string, teamId: string): (row: Row)
    ensures row.Keys == {"name", "description", "team_id", "status"}
    ensures row["name"] == Text(name) && row["description"] == TextOrNull(description)
    ensures row["team_id"] == Text(teamId) && row["status"] == Text("active")
  {
    map["name" := Text(name), "description" := TextOrNull(description),
        "team_id" := Text(teamId), "status" := Text("active")]
  }

  /** What the modal does after the insert, in order. */
  datatype Effect = ProjectCreated | Close | Refresh | Alert(message: string)

  /** The effects of a finished insert: on success the creation callback (when
      given) runs before closing; on error an alert and the modal stays open. */
  function AfterInsert(failed: bool, hasCallback: bool): (effects: seq<Effect>)
    ensures failed ==> effects == [Alert("Failed to create project")]
    ensures !failed ==> Close in effects && Refresh in effects
    ensures !failed ==> (ProjectCreated in effects <==> hasCallback)
    ensures !failed ==> |effects| == (if hasCallback then 3 else 2)
    ensures !failed ==> effects[|effects| - 2] == Close && effects[|effects| - 1] == Refresh
    ensures !failed ==> forall e :: e in effects ==> !e.Alert?
    ensures forall i, j :: 0 <= i < |effects| && 0 <= j < |effects| && effects[i] == ProjectCreated && effects[j] == Close ==> i < j
  {
    if failed then [Alert("Failed to create project")]
    else (if hasCallback then [ProjectCreated] else []) + [Close, Refresh]
  }

  /** The name and description a submit captured when it started. */
  datatype Draft = Draft(name: string, description: string)

  class NewProjectForm {
    var name: string
    var description: string
    var isSubmitting: bool

    constructor()
      ensures name == "" && description == "" && !isSubmitting
    {
      name := "";
      description := "";
      isSubmitting := false;
    }

    /** The reset that follows closing. */
    method ResetAfterClose()
      modifies this
      ensures name == "" && description == "" && isSubmitting == old(isSubmitting)
    {
      name := "";
      description := "";
    }

    /** The submit button is disabled for a blank name or during a submit. */
    function SubmitDisabled(): (b: bool)
      reads this
      ensures b <==> IsBlank(name) || isSubmitting
    {
      IsBlank(name) || isSubmitting
    }

    /** `handleSubmit` up to the team lookup: nothing for a blank name;
        otherwise the typed fields are captured for the insert. */
    method StartSubmit() returns (started: bool, draft: Draft)
      modifies this
      ensures started <==> !IsBlank(old(name))
      ensures draft == Draft(old(name), old(description))
      ensures isSubmitting == (started || old(isSubmitting))
      ensures name == old(name) && description == old(description)
    {
      draft := Draft(name, description);
      if IsBlank(name) {
        return false, draft;
      }
      isSubmitting := true;
      started := true;
    }

    /** The team lookup's answer: without a team the submit ends with nothing
        inserted; otherwise the fields captured at the start are inserted for
        that team, whatever the form holds now. */
    method ContinueWithTeams(draft: Draft, teams: Option<seq<string>>) returns (insert: Option<Row>)
      modifies this
      ensures FirstTeam(teams).None? ==> insert.None? && !isSubmitting
      ensures FirstTeam(teams).Some? ==>
        insert == Some(InsertRow(draft.name, draft.description, FirstTeam(teams).value)) && isSubmitting == old(isSubmitting)
      ensures name == old(name) && description == old(description)
    {
      var teamId := FirstTeam(teams);
      if teamId.None? {
        isSubmitting := false;
        return None;
      }
      insert := Some(InsertRow(draft.name, draft.description, teamId.value));
    }

    /** The insert's answer; the flag always clears. */
    method FinishInsert(failed: bool, hasCallback: bool) returns (effects: seq<Effect>)
      modifies this
      ensures effects == AfterInsert(failed, hasCallback) && !isSubmitting
      ensures name == old(name) && description == old(description)
    {
      if failed {
        effects := [Alert("Failed to create project")];
      } else {
        effects := [];
        if hasCallback {
          effects := effects + [ProjectCreated];
        }
        effects := effects + [Close, Refresh];
      }
      isSubmitting := false;
    }
  }

  /** Cancelling during the team lookup clears the form, yet the insert still
      carries the name and description typed before the submit. */
  method CancelDuringLookup(f: NewProjectForm, teams: Option<seq<string>>) returns (insert: Option<Row>)
    requires !IsBlank(f.name) && FirstTeam(teams).Some?
    modifies f
    ensures insert == Some(InsertRow(old(f.name), old(f.description), FirstTeam(teams).value))
    ensures f.name == "" && f.description == "" && f.isSubmitting
  {
    var started, draft := f.StartSubmit();
    f.ResetAfterClose();
    insert := f.ContinueWithTeams(draft, teams);
  }
}
