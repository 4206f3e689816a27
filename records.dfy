/** The rows the components read and write, the values of an insert or update
    payload, the backend's error value, and the browser's localStorage. */
module Records {
  import opened Common

  /** An issue row as the components receive it (only the columns they read). */
  datatype Issue = Issue(
    id: string,
    title: string,
    description: Option<string>,
    status: Option<string>,
    priority: Option<string>,
    assigneeName: Option<string>,
    assigneeId: Option<string>,
    labels: Option<seq<string>>,
    projectId: Option<string>)

  /** A column value in an insert or update payload. */
  datatype Value = Null | Text(text: string) | TextList(items: seq<string>)

  /** An insert or update payload: column name to value. */
  type Row = map<string, Value>

  /** A nullable string as a column value. */
  function NullableText(s: Option<string>): (v: Value)
    ensures v == Null <==> s.None?
    ensures s.Some? ==> v == Text(s.value)
  {
    match s
    case None => Null
    case Some(t) => Text(t)
  }

  /** `field || null` on a form string: the empty string is stored as null. */
  function TextOrNull(s: string): (v: Value)
    ensures v == Null <==> s == ""
    ensures s != "" ==> v == Text(s)
  {
    if s == "" then Null else Text(s)
  }

  /** `update(row).eq('id', id)` on the issues table. */
  datatype IssueUpdate = IssueUpdate(id: string, row: Row)

  /** The six status keys both issue views group by, in board order. */
  const StatusKeys: seq<string> := ["backlog", "todo", "in progress", "done", "canceled", "duplicate"]

  /** The six keys are distinct. */
  lemma StatusKeysDistinct()
    ensures Distinct(StatusKeys)
  {
  }

  /** A status that the views' normalisers leave alone apart from lower-casing:
      non-empty, no surrounding whitespace, no '_' and no '-'. */
  predicate CleanStatus(s: string) {
    s != [] && !IsSpace(s[0]) && !IsSpace(s[|s| - 1]) && '_' !in s && '-' !in s
  }

  /** The six keys are lower-case and clean. */
  lemma StatusKeysClean()
    ensures forall k :: 0 <= k < |StatusKeys| ==> CleanStatus(StatusKeys[k]) && NoUpper(StatusKeys[k])
  {
  }

  /** The error object returned by the database client. */
  datatype DbError = DbError(code: Option<string>, message: Option<string>)

  const MissingLabelsMessage: string := "column \"labels\" does not exist"
  const UndefinedColumnCode: string := "42703"

  /** The test shared by the bulk bar and the label dropdown for a database
      that lacks the `labels` column. */
  predicate IsMissingLabelsColumn(e: DbError) {
    (e.message.Some? && Contains(e.message.value, MissingLabelsMessage)) || e.code == Some(UndefinedColumnCode)
  }

  /** The undefined-column code alone, or the column message alone, or the
      message inside a longer one, is recognised; an error with another code
      and no message, or a message too short to hold the column text, is not. */
  lemma MissingLabelsColumnCases(e: DbError, prefix: string, suffix: string)
    ensures e.code == Some(UndefinedColumnCode) ==> IsMissingLabelsColumn(e)
    ensures IsMissingLabelsColumn(DbError(None, Some(prefix + MissingLabelsMessage + suffix)))
    ensures e.code != Some(UndefinedColumnCode) && (e.message.None? || |e.message.value| < |MissingLabelsMessage|) ==>
      !IsMissingLabelsColumn(e)
  {
    var t := prefix + MissingLabelsMessage + suffix;
    assert t[|prefix|..|prefix| + |MissingLabelsMessage|] == MissingLabelsMessage;
    ContainsAt(t, MissingLabelsMessage, |prefix|);
    if e.message.Some? && Contains(e.message.value, MissingLabelsMessage) {
      ContainsNoLonger(e.message.value, MissingLabelsMessage);
    }
  }

  /** The short identifier shown for an issue: "LIN-" and the first `n`
      characters of its id, upper-cased. */
  function Identifier(id: string, n: nat): (r: string)
    ensures StartsWith(r, "LIN-")
    ensures |r| == 4 + (if n <= |id| then n else |id|)
    ensures forall i :: 4 <= i < |r| ==> r[i] == UpperChar(id[i - 4])
  {
    "LIN-" + Upper(Take(id, n))
  }

  /** The window key listener of the issue and issue-detail modals: whether a
      key press calls `onClose`. A closed modal ignores every key, and an open
      one closes on Escape and on nothing else. */
  function EscapeCloses(isOpen: bool, key: string): (close: bool)
    ensures !isOpen ==> !close
    ensures isOpen ==> (close <==> key == "Escape")
  {
    if !isOpen then false else key == "Escape"
  }

  /** The browser's localStorage: string keys to string values. */
  class LocalStorage {
    var items: map<string, string>

    constructor(initial: map<string, string>)
      ensures items == initial
    {
      items := initial;
    }

    /** `localStorage.getItem(key)`: null for a missing key. */
    function GetItem(key: string): (r: Option<string>)
      reads this
      ensures r.Some? <==> key in items
      ensures r.Some? ==> r.value == items[key]
    {
      if key in items then Some(items[key]) else None
    }

    /** `localStorage.setItem(key, value)` */
    method SetItem(key: string, value: string)
      modifies this
      ensures items == old(items)[key := value]
    {
      items := items[key := value];
    }
  }
}
