/** The issue detail modal: local copies of title and description, saved
    together on blur unless both still equal the issue's values. */
module IssueDetailModal {
  import opened Common
  import opened Records

  /** `issue.description || ''` */
  function ShownDescription(issue: Issue): (d: string)
    ensures Truthy(issue.description) ==> d == issue.description.value
    ensures !Truthy(issue.description) ==> d == ""
  {
    OrElse(issue.description, "")
  }

  /** `saveChanges` writes only when a local field differs from the issue. */
  predicate NeedsSave(issue: Issue, title: string, description: string) {
    !(title == issue.title && description == ShownDescription(issue))
  }

  /** The update: both fields together, the description as a string. */
  function SaveRow(title: string, description: string): (row: Row)
    ensures row.Keys == {"title", "description"}
    ensures row["title"] == Text(title) && row["description"] == Text(description)
  {
    map["title" := Text(title), "description" := Text(description)]
  }

  /** The header's identifier: "LIN-" and the first three characters of the
      id, upper-cased. */
  function DetailIdentifier(id: string): (r: string)
    ensures r == Identifier(id, 3)
    ensures |id| >= 3 ==> |r| == 7
  {
    Identifier(id, 3)
  }

  class IssueDetailState {
    var issue: Issue
    var title: string
    var description: string
    var isSaving: bool

    constructor(issue: Issue)
      ensures this.issue == issue && title == issue.title && description == ShownDescription(issue)
      ensures !isSaving && !NeedsSave(this.issue, title, description)
    {
      this.issue := issue;
      title := issue.title;
      description := ShownDescription(issue);
      isSaving := false;
    }

    /** A new issue prop resets both local fields, after which nothing needs
        saving. */
    method SyncFromIssue(newIssue: Issue)
      modifies this
      ensures issue == newIssue && title == newIssue.title && description == ShownDescription(newIssue)
      ensures !NeedsSave(issue, title, description) && isSaving == old(isSaving)
    {
      issue := newIssue;
      title := newIssue.title;
      description := ShownDescription(newIssue);
    }

    method EditTitle(t: string)
      modifies this
      ensures title == t && description == old(description) && issue == old(issue) && isSaving == old(isSaving)
    {
      title := t;
    }

    method EditDescription(d: string)
      modifies this
      ensures description == d && title == old(title) && issue == old(issue) && isSaving == old(isSaving)
    {
      description := d;
    }

    /** `saveChanges` up to the await: no write when nothing changed. */
    method StartSave() returns (write: Option<IssueUpdate>)
      modifies this
      ensures !NeedsSave(issue, title, description) ==> write.None? && isSaving == old(isSaving)
      ensures NeedsSave(issue, title, description) ==> write == Some(IssueUpdate(issue.id, SaveRow(title, description))) && isSaving
      ensures issue == old(issue) && title == old(title) && description == old(description)
    {
      if title == issue.title && description == OrElse(issue.description, "") {
        return None;
      }
      isSaving := true;
      write := Some(IssueUpdate(issue.id, SaveRow(title, description)));
    }

    /** `saveChanges` after the await: refresh on success only; the flag clears
        either way and the local fields stay. */
    method FinishSave(failed: bool) returns (refresh: bool)
      modifies this
      ensures refresh == !failed && !isSaving
      ensures issue == old(issue) && title == old(title) && description == old(description)
    {
      refresh := !failed;
      isSaving := false;
    }
  }

  /** A null description and an empty one both show as "" and are not
      rewritten while untouched. */
  lemma NullDescriptionNotRewritten(issue: Issue)
    requires issue.description.None? || issue.description == Some("")
    ensures !NeedsSave(issue, issue.title, "")
  {
  }
}
