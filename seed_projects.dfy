/** The seeding script: its hand-written `.env.local` reader, the start-up
    check, the three sample projects and the assignment of the newest issues
    to them. Database calls are oracles passed in as values. */
module SeedProjects {
  import opened Common
  import opened Records

  // ---------------------------------------------------------------------------
  // One line of .env.local

  /** The characters JavaScript's `.` does not match. */
  predicate IsLineTerminator(c: char) {
    c == '\n' || c == '\r' || c == ' ' || c == ' '
  }

  predicate NoTerminator(s: string) {
    forall i :: 0 <= i < |s| ==> !IsLineTerminator(s[i])
  }

  /** `line.match(/^([^=]+)=(.*)$/)`: the key group is the non-empty text
      before the first '='; the value group is the rest, which must hold no
      line terminator. */
  function MatchLine(line: string): (m: Option<(string, string)>)
    ensures m.Some? <==> 0 < IndexOf(line, '=') < |line| && NoTerminator(line[IndexOf(line, '=') + 1..])
    ensures m.Some? ==> m.value.0 + "=" + m.value.1 == line && m.value.0 != [] && '=' !in m.value.0
  {
    var k := IndexOf(line, '=');
    if k == 0 || k == |line| then None
    else if !NoTerminator(line[k + 1..]) then None
    else
      assert line[..k] + "=" + line[k + 1..] == line;
      Some((line[..k], line[k + 1..]))
  }

  predicate IsQuote(c: char) {
    c == '\'' || c == '"'
  }

  /** `.replace(/^['"]|['"]$/g, '')`: at most one leading and at most one
      trailing quote go, independently of each other; a lone quote goes once. */
  function StripQuotes(v: string): (r: string)
    ensures v == [] ==> r == []
    ensures |v| == 1 ==> r == (if IsQuote(v[0]) then [] else v)
    ensures |v| >= 2 ==> r == v[(if IsQuote(v[0]) then 1 else 0)..|v| - (if IsQuote(v[|v| - 1]) then 1 else 0)]
    ensures |r| <= |v| && |v| <= |r| + 2
  {
    if v == [] then []
    else
      var a := if IsQuote(v[0]) then 1 else 0;
      var b := if |v| > a && IsQuote(v[|v| - 1]) then 1 else 0;
      v[a..|v| - b]
  }

  /** A value wrapped in one pair of quotes loses exactly that pair. */
  lemma QuotedValue(q: char, w: string, q': char)
    requires IsQuote(q) && IsQuote(q')
    ensures StripQuotes([q] + w + [q']) == w
  {
    var v := [q] + w + [q'];
    assert v[1..|v| - 1] == w;
  }

  datatype EnvEntry = EnvEntry(key: string, value: string)

  /** The line parser as written: key and value trimmed, the value's quotes
      stripped. */
  function ParseLineAsWritten(line: string): (e: Option<EnvEntry>)
    ensures e.Some? <==> MatchLine(line).Some?
    ensures e.Some? ==> e.value == EnvEntry(Trim(MatchLine(line).value.0), StripQuotes(Trim(MatchLine(line).value.1)))
  {
    match MatchLine(line)
    case None => None
    case Some((k, v)) => Some(EnvEntry(Trim(k), StripQuotes(Trim(v))))
  }

  /** The value may itself contain '=': only the first one splits. */
  lemma ValueKeepsEquals(key: string, value: string)
    requires key != [] && '=' !in key && NoTerminator(value)
    ensures MatchLine(key + "=" + value) == Some((key, value))
  {
    var line := key + "=" + value;
    assert IndexOf(line, '=') == |key| by {
      assert line[|key|] == '=';
      assert forall i :: 0 <= i < |key| ==> line[i] == key[i];
    }
    assert line[..|key|] == key && line[|key| + 1..] == value;
  }

  /** Lines without '=' or starting with '=' are skipped. */
  lemma SkippedLines(line: string)
    requires '=' !in line || (line != [] && line[0] == '=')
    ensures ParseLineAsWritten(line).None?
  {
  }

  /** A line of a CRLF file ends in '\r', which `.` cannot match: the line is
      skipped. */
  lemma CrlfLineSkipped(key: string, value: string)
    requires key != [] && '=' !in key
    ensures ParseLineAsWritten(key + "=" + value + "\r").None?
  {
    var line := key + "=" + value + "\r";
    assert IndexOf(line, '=') == |key| by {
      assert line[|key|] == '=';
      assert forall i :: 0 <= i < |key| ==> line[i] == key[i];
    }
    var rest := line[|key| + 1..];
    assert rest[|rest| - 1] == '\r';
  }

  /** `line` without one trailing '\r'. */
  function DropCarriageReturn(line: string): (r: string)
    ensures line != [] && line[|line| - 1] == '\r' ==> r == line[..|line| - 1]
    ensures !(line != [] && line[|line| - 1] == '\r') ==> r == line
  {
    if line != [] && line[|line| - 1] == '\r' then line[..|line| - 1] else line
  }

  /** The parser as evidently intended: a CRLF line reads like its LF form. */
  function ParseLine(line: string): (e: Option<EnvEntry>)
    ensures line != [] && line[|line| - 1] == '\r' ==> e == ParseLineAsWritten(line[..|line| - 1])
    ensures (line == [] || line[|line| - 1] != '\r') ==> e == ParseLineAsWritten(line)
  {
    ParseLineAsWritten(DropCarriageReturn(line))
  }

  /** With the correction, "KEY=value\r" reads exactly like "KEY=value". */
  lemma CrlfLineRead(key: string, value: string)
    requires key != [] && '=' !in key && NoTerminator(value)
    ensures ParseLine(key + "=" + value + "\r") == ParseLine(key + "=" + value)
    ensures ParseLine(key + "=" + value) == Some(EnvEntry(Trim(key), StripQuotes(Trim(value))))
  {
    var line := key + "=" + value;
    var crlf := line + "\r";
    assert crlf[|crlf| - 1] == '\r' && crlf[..|crlf| - 1] == line;
    assert line[|line| - 1] != '\r' by {
      if value == [] {
        assert line[|line| - 1] == '=';
      } else {
        assert line[|line| - 1] == value[|value| - 1];
        assert !IsLineTerminator(value[|value| - 1]);
      }
    }
    assert ParseLine(crlf) == ParseLineAsWritten(line);
    assert ParseLine(line) == ParseLineAsWritten(line);
    ValueKeepsEquals(key, value);
  }

  // ---------------------------------------------------------------------------
  // The whole file

  /** One parsed line applied to `vars`: an entry sets its key. */
  function ApplyEntry(vars: map<string, string>, e: Option<EnvEntry>): (r: map<string, string>)
    ensures e.None? ==> r == vars
    ensures e.Some? ==> e.value.key in r && r[e.value.key] == e.value.value
    ensures e.Some? ==> forall k :: k != e.value.key ==> (k in r <==> k in vars) && (k in r ==> r[k] == vars[k])
  {
    match e
    case None => vars
    case Some(en) => vars[en.key := en.value]
  }

  /** The entries applied in order to `env`. */
  function ApplyEntries(env: map<string, string>, es: seq<Option<EnvEntry>>): (r: map<string, string>)
    ensures env.Keys <= r.Keys
  {
    if es == [] then env
    else ApplyEntry(ApplyEntries(env, es[..|es| - 1]), es[|es| - 1])
  }

  lemma ApplyEntriesStep(env: map<string, string>, es: seq<Option<EnvEntry>>, i: int)
    requires 0 <= i < |es|
    ensures ApplyEntries(env, es[..i + 1]) == ApplyEntry(ApplyEntries(env, es[..i]), es[i])
  {
    assert es[..i + 1][..i] == es[..i];
  }

  /** Every line parsed on its own by the script's parser. */
  function Parsed(lines: seq<string>): (es: seq<Option<EnvEntry>>)
    ensures |es| == |lines| && forall k :: 0 <= k < |lines| ==> es[k] == ParseLineAsWritten(lines[k])
  {
    seq(|lines|, k requires 0 <= k < |lines| => ParseLineAsWritten(lines[k]))
  }

  /** The variables after the script reads `lines` in order into `env`. */
  function ApplyLines(env: map<string, string>, lines: seq<string>): (r: map<string, string>)
    ensures env.Keys <= r.Keys
    ensures lines == [] ==> r == env
  {
    ApplyEntries(env, Parsed(lines))
  }

  /** Whether entry `e` is for `key`. */
  predicate IsFor(e: Option<EnvEntry>, key: string) {
    e.Some? && e.value.key == key
  }

  /** The last entry for a key decides its value. */
  lemma {:induction false} LastEntryWins(env: map<string, string>, es: seq<Option<EnvEntry>>, i: int, key: string, value: string)
    requires 0 <= i < |es| && es[i] == Some(EnvEntry(key, value))
    requires forall j :: i < j < |es| ==> !IsFor(es[j], key)
    ensures key in ApplyEntries(env, es) && ApplyEntries(env, es)[key] == value
    decreases |es|
  {
    var init := es[..|es| - 1];
    if i < |es| - 1 {
      assert init[i] == es[i];
      forall j | i < j < |init| ensures !IsFor(init[j], key) {
        assert init[j] == es[j];
      }
      LastEntryWins(env, init, i, key, value);
    }
  }

  /** The last parsed line with a given key decides its value; earlier lines
      for the key and lines for other keys do not matter. */
  lemma LastLineWins(env: map<string, string>, lines: seq<string>, i: int, key: string, value: string)
    requires 0 <= i < |lines| && ParseLineAsWritten(lines[i]) == Some(EnvEntry(key, value))
    requires forall j :: i < j < |lines| ==> !IsFor(ParseLineAsWritten(lines[j]), key)
    ensures key in ApplyLines(env, lines) && ApplyLines(env, lines)[key] == value
  {
    LastEntryWins(env, Parsed(lines), i, key, value);
  }

  /** A key no line sets keeps its value from the environment. */
  lemma {:induction false} UntouchedKeyKept(env: map<string, string>, es: seq<Option<EnvEntry>>, key: string)
    requires key in env
    requires forall j :: 0 <= j < |es| ==> !IsFor(es[j], key)
    ensures key in ApplyEntries(env, es) && ApplyEntries(env, es)[key] == env[key]
    decreases |es|
  {
    if es != [] {
      var init := es[..|es| - 1];
      forall j | 0 <= j < |init| ensures !IsFor(init[j], key) {
        assert init[j] == es[j];
      }
      UntouchedKeyKept(env, init, key);
    }
  }

  /** A line that does not parse changes nothing. */
  lemma UnparsedLineIgnored(env: map<string, string>, lines: seq<string>, line: string)
    requires ParseLineAsWritten(line).None?
    ensures ApplyLines(env, lines + [line]) == ApplyLines(env, lines)
  {
    assert Parsed(lines + [line])[..|lines|] == Parsed(lines);
  }

  /** Entries none of which parsed leave the variables as they were. */
  lemma {:induction false} NoEntriesNoChange(env: map<string, string>, es: seq<Option<EnvEntry>>)
    requires forall j :: 0 <= j < |es| ==> es[j].None?
    ensures ApplyEntries(env, es) == env
    decreases |es|
  {
    if es != [] {
      var init := es[..|es| - 1];
      forall j | 0 <= j < |init| ensures init[j].None? {
        assert init[j] == es[j];
      }
      NoEntriesNoChange(env, init);
    }
  }

  /** As written, any line ending in '\r' is skipped: either it has no usable
      '=', or the text after its '=' holds the '\r'. */
  lemma CrTerminatedLineSkipped(line: string)
    requires line != [] && line[|line| - 1] == '\r'
    ensures ParseLineAsWritten(line).None?
  {
    var k := IndexOf(line, '=');
    if 0 < k < |line| {
      var rest := line[k + 1..];
      assert rest[|rest| - 1] == '\r';
    }
  }

  /** The lines of a CRLF file, split on '\n' only: each keeps its '\r'. */
  function CrlfLines(lines: seq<string>): (r: seq<string>)
    ensures |r| == |lines|
    ensures forall k :: 0 <= k < |lines| ==> r[k] == lines[k] + "\r"
  {
    seq(|lines|, k requires 0 <= k < |lines| => lines[k] + "\r")
  }

  /** As written, reading a CRLF file sets no variable at all. */
  lemma CrlfFileSetsNothing(env: map<string, string>, lines: seq<string>)
    ensures ApplyLines(env, CrlfLines(lines)) == env
  {
    var es := Parsed(CrlfLines(lines));
    forall j | 0 <= j < |es| ensures es[j].None? {
      CrTerminatedLineSkipped(CrlfLines(lines)[j]);
    }
    NoEntriesNoChange(env, es);
  }

  /** Every line parsed by the corrected parser. */
  function ParsedCorrected(lines: seq<string>): (es: seq<Option<EnvEntry>>)
    ensures |es| == |lines| && forall k :: 0 <= k < |lines| ==> es[k] == ParseLine(lines[k])
  {
    seq(|lines|, k requires 0 <= k < |lines| => ParseLine(lines[k]))
  }

  /** With the corrected parser, a CRLF file sets exactly what the same file
      with LF line ends sets under the script's parser. */
  lemma CorrectedReadsCrlfFile(env: map<string, string>, lines: seq<string>)
    ensures ApplyEntries(env, ParsedCorrected(CrlfLines(lines))) == ApplyLines(env, lines)
  {
    var c := ParsedCorrected(CrlfLines(lines));
    forall k | 0 <= k < |lines| ensures c[k] == Parsed(lines)[k] {
      var line := lines[k] + "\r";
      assert line[..|line| - 1] == lines[k];
    }
    assert c == Parsed(lines);
  }

  /** The text of a file whose every line ends in "\r\n". */
  function CrlfText(lines: seq<string>): (t: string)
    ensures lines == [] ==> t == ""
  {
    if lines == [] then "" else lines[0] + "\r\n" + CrlfText(lines[1..])
  }

  /** The first '\n' of a line with no '\n' followed by "\r\n" is the one after its '\r'. */
  lemma CrlfLineBreak(head: string, rest: string)
    requires '\n' !in head
    ensures IndexOf(head + "\r\n" + rest, '\n') == |head| + 1
  {
    var s := head + "\r\n" + rest;
    forall i | 0 <= i <= |head| ensures s[i] != '\n' {
      if i < |head| {
        assert s[i] == head[i] && head[i] in head;
      }
    }
    assert s[|head| + 1] == '\n';
  }

  /** Splitting a CRLF text on '\n' only, followed by a last piece with no
      line end, gives the CRLF lines (each keeping its '\r') and that piece. */
  lemma {:induction false} SplitCrlfText(lines: seq<string>, last: string)
    requires forall k :: 0 <= k < |lines| ==> '\n' !in lines[k]
    requires '\n' !in last
    ensures Split(CrlfText(lines) + last, '\n') == CrlfLines(lines) + [last]
    decreases |lines|
  {
    if lines == [] {
      assert CrlfText(lines) + last == last;
      forall i | 0 <= i < |last| ensures last[i] != '\n' {
        assert last[i] in last;
      }
    } else {
      var head := lines[0];
      var rest := CrlfText(lines[1..]) + last;
      var s := head + "\r\n" + rest;
      assert CrlfText(lines) + last == s;
      CrlfLineBreak(head, rest);
      assert s[..|head| + 1] == head + "\r";
      assert s[|head| + 2..] == rest;
      assert Split(s, '\n') == [head + "\r"] + Split(rest, '\n');
      SplitCrlfText(lines[1..], last);
      CrlfLinesCons(lines);
    }
  }

  /** The CRLF lines of a non-empty file: the first line with its '\r', then the rest. */
  lemma CrlfLinesCons(lines: seq<string>)
    requires lines != []
    ensures CrlfLines(lines) == [lines[0] + "\r"] + CrlfLines(lines[1..])
  {
    var r := [lines[0] + "\r"] + CrlfLines(lines[1..]);
    forall k | 0 <= k < |lines| ensures CrlfLines(lines)[k] == r[k] {
      if k > 0 {
        assert r[k] == CrlfLines(lines[1..])[k - 1];
      }
    }
  }

  /** As written, the whole text of a CRLF file, its final line end included,
      sets no variable: the empty piece after the last '\n' has no '='. */
  lemma CrlfTextSetsNothing(env: map<string, string>, lines: seq<string>)
    requires forall k :: 0 <= k < |lines| ==> '\n' !in lines[k]
    ensures ApplyLines(env, Split(CrlfText(lines), '\n')) == env
  {
    SplitCrlfText(lines, "");
    assert CrlfText(lines) + "" == CrlfText(lines);
    SkippedLines("");
    UnparsedLineIgnored(env, CrlfLines(lines), "");
    CrlfFileSetsNothing(env, lines);
  }

  /** As written, a CRLF file whose last line has no line end sets exactly
      what that last line sets on its own: it is the only line without '\r'. */
  lemma UnterminatedLastLineRead(env: map<string, string>, lines: seq<string>, last: string)
    requires forall k :: 0 <= k < |lines| ==> '\n' !in lines[k]
    requires '\n' !in last
    ensures ApplyLines(env, Split(CrlfText(lines) + last, '\n')) == ApplyLines(env, [last])
  {
    SplitCrlfText(lines, last);
    var cr := CrlfLines(lines);
    ApplyLinesSnoc(env, cr, last);
    CrlfFileSetsNothing(env, lines);
    ApplyLinesSnoc(env, [], last);
    assert [] + [last] == [last];
  }

  /** Reading one more line applies that line's entry to the variables read so far. */
  lemma ApplyLinesSnoc(env: map<string, string>, lines: seq<string>, line: string)
    ensures ApplyLines(env, lines + [line]) == ApplyEntry(ApplyLines(env, lines), ParseLineAsWritten(line))
  {
    var es := Parsed(lines + [line]);
    assert es[..|lines|] == Parsed(lines);
    assert es[|lines|] == ParseLineAsWritten(line);
  }

  /** `process.env` */
  class ProcessEnv {
    var vars: map<string, string>

    constructor(initial: map<string, string>)
      ensures vars == initial
    {
      vars := initial;
    }

    /** The reader as written: an unreadable file leaves the variables alone;
        otherwise every line is parsed in order and a parsed line sets its
        key. A CRLF file sets nothing (`CrlfFileSetsNothing`). */
    method LoadEnvFile(file: Option<string>)
      modifies this
      ensures file.None? ==> vars == old(vars)
      ensures file.Some? ==> vars == ApplyLines(old(vars), Split(file.value, '\n'))
    {
      if file.None? {
        return;
      }
      var lines := Split(file.value, '\n');
      ghost var es := Parsed(lines);
      var i := 0;
      while i < |lines|
        invariant 0 <= i <= |lines|
        invariant vars == ApplyEntries(old(vars), es[..i])
      {
        ApplyEntriesStep(old(vars), es, i);
        var entry := ParseLineAsWritten(lines[i]);
        assert entry == es[i];
        ghost var before := vars;
        if entry.Some? {
          vars := vars[entry.value.key := entry.value.value];
        }
        assert vars == ApplyEntry(before, entry);
        i := i + 1;
      }
      assert es[..|lines|] == es;
    }
  }

  const UrlKey: string := "NEXT_PUBLIC_SUPABASE_URL"
  const AnonKey: string := "NEXT_PUBLIC_SUPABASE_ANON_KEY"

  /** The start-up check: both variables must be set and non-empty, or the
      script exits with status 1. */
  function Connection(vars: map<string, string>): (r: Option<(string, string)>)
    ensures r.Some? <==> UrlKey in vars && vars[UrlKey] != "" && AnonKey in vars && vars[AnonKey] != ""
    ensures r.Some? ==> r.value == (vars[UrlKey], vars[AnonKey])
  {
    if UrlKey in vars && vars[UrlKey] != "" && AnonKey in vars && vars[AnonKey] != "" then
      Some((vars[UrlKey], vars[AnonKey]))
    else None
  }

  // ---------------------------------------------------------------------------
  // seed()

  datatype ProjectSpec = ProjectSpec(name: string, description: string)

  const ProjectsToCreate: seq<ProjectSpec> := [
    ProjectSpec("Linear Clone", "Building a Linear clone"),
    ProjectSpec("Mobile App", "iOS and Android app development"),
    ProjectSpec("Website Redesign", "Marketing website refresh")]

  function InsertRow(p: ProjectSpec, teamId: string): (row: Row)
    ensures row.Keys == {"name", "description", "team_id"}
    ensures row["name"] == Text(p.name) && row["team_id"] == Text(teamId)
    ensures row["description"] == Text(p.description)
  {
    map["name" := Text(p.name), "description" := Text(p.description), "team_id" := Text(teamId)]
  }

  /** The inserts for `specs`: `.single()` answers a row only when exactly one
      project has the name, so every other count (none, or a duplicate) inserts. */
  function PlannedInserts(specs: seq<ProjectSpec>, rowsNamed: string -> nat, teamId: string): (r: seq<Row>)
    ensures |r| <= |specs|
    ensures forall p :: p in specs && rowsNamed(p.name) != 1 ==> InsertRow(p, teamId) in r
  {
    if specs == [] then []
    else
      var p := specs[|specs| - 1];
      var before := PlannedInserts(specs[..|specs| - 1], rowsNamed, teamId);
      assert forall q :: q in specs ==> q == p || q in specs[..|specs| - 1];
      if rowsNamed(p.name) != 1 then before + [InsertRow(p, teamId)] else before
  }

  /** A sample project with exactly one row of its name is not inserted; the
      three names are distinct, so the others' rows cannot stand in for it. */
  lemma SingleRowSkipsInsert(k: int, rowsNamed: string -> nat, teamId: string)
    requires 0 <= k < |ProjectsToCreate| && rowsNamed(ProjectsToCreate[k].name) == 1
    ensures InsertRow(ProjectsToCreate[k], teamId) !in PlannedInserts(ProjectsToCreate, rowsNamed, teamId)
  {
    NotPlanned(ProjectsToCreate, rowsNamed, teamId, ProjectsToCreate[k]);
  }

  lemma {:induction false} NotPlanned(specs: seq<ProjectSpec>, rowsNamed: string -> nat, teamId: string, p: ProjectSpec)
    requires rowsNamed(p.name) == 1
    ensures InsertRow(p, teamId) !in PlannedInserts(specs, rowsNamed, teamId)
  {
    if specs != [] {
      var q := specs[|specs| - 1];
      NotPlanned(specs[..|specs| - 1], rowsNamed, teamId, p);
      if rowsNamed(q.name) != 1 {
        assert InsertRow(q, teamId)["name"] != InsertRow(p, teamId)["name"];
      }
    }
  }

  datatype ProjectRow = ProjectRow(id: string, name: string)

  /** `projects.find(p => p.name === name)`: the first project with that name. */
  function FindByName(ps: seq<ProjectRow>, name: string): (r: Option<ProjectRow>)
    ensures r.Some? <==> exists p :: p in ps && p.name == name
    ensures r.Some? ==> r.value in ps && r.value.name == name
    ensures r.Some? ==> exists k :: 0 <= k < |ps| && ps[k] == r.value && forall j :: 0 <= j < k ==> ps[j].name != name
  {
    if ps == [] then None
    else if ps[0].name == name then Some(ps[0])
    else
      var r := FindByName(ps[1..], name);
      assert forall p :: p in ps ==> p == ps[0] || p in ps[1..];
      assert r.Some? ==> exists k :: 0 <= k < |ps| && ps[k] == r.value && forall j :: 0 <= j < k ==> ps[j].name != name by {
        if r.Some? {
          var k :| 0 <= k < |ps[1..]| && ps[1..][k] == r.value && forall j :: 0 <= j < k ==> ps[1..][j].name != name;
          assert ps[k + 1] == r.value;
        }
      }
      r
  }

  /** One `update({project_id}).in('id', ids)` request. */
  datatype Assignment = Assignment(ids: seq<string>, projectId: string)

  /** The issue updates for the issue ids (newest first): the first three to
      Linear Clone if it exists; positions 3 and 4 to Mobile App if it exists
      and there are more than three issues. */
  function Assignments(issueIds: seq<string>, linearClone: Option<string>, mobileApp: Option<string>): (r: seq<Assignment>)
    ensures issueIds == [] ==> r == []
    ensures |r| == (if issueIds == [] then 0 else (if linearClone.Some? then 1 else 0) + (if mobileApp.Some? && |issueIds| > 3 then 1 else 0))
    ensures issueIds != [] && linearClone.Some? ==> r[0] == Assignment(Take(issueIds, 3), linearClone.value)
    ensures issueIds != [] && mobileApp.Some? && |issueIds| > 3 ==>
      r[|r| - 1] == Assignment(issueIds[3..if |issueIds| < 5 then |issueIds| else 5], mobileApp.value)
  {
    if issueIds == [] then []
    else
      (if linearClone.Some? then [Assignment(Take(issueIds, 3), linearClone.value)] else []) +
      (if mobileApp.Some? && |issueIds| > 3
       then [Assignment(issueIds[3..if |issueIds| < 5 then |issueIds| else 5], mobileApp.value)]
       else [])
  }

  /** With distinct issue ids, no issue is assigned to both projects, and at
      most five issues are touched. */
  lemma AssignmentsDisjoint(issueIds: seq<string>, lc: string, ma: string)
    requires |issueIds| > 3
    requires forall i, j :: 0 <= i < j < |issueIds| ==> issueIds[i] != issueIds[j]
    ensures var r := Assignments(issueIds, Some(lc), Some(ma));
      |r| == 2 && |r[0].ids| == 3 && |r[1].ids| <= 2 &&
      forall x :: x in r[0].ids ==> x !in r[1].ids
  {
    var r := Assignments(issueIds, Some(lc), Some(ma));
    forall x | x in r[0].ids ensures x !in r[1].ids {
      var i :| 0 <= i < 3 && issueIds[i] == x;
      forall j | 0 <= j < |r[1].ids| ensures r[1].ids[j] != x {
        assert r[1].ids[j] == issueIds[3 + j];
      }
    }
  }

  /** `seed()`: no team, no seeding; each missing sample project is inserted
      in order; then, if the project list is readable, the newest issues are
      assigned. */
  method Seed(teams: Option<seq<string>>, rowsNamed: string -> nat, projects: Option<seq<ProjectRow>>, issues: Option<seq<string>>)
    returns (inserts: seq<Row>, assignments: seq<Assignment>)
    ensures teams.None? || teams.value == [] ==> inserts == [] && assignments == []
    ensures teams.Some? && teams.value != [] ==> inserts == PlannedInserts(ProjectsToCreate, rowsNamed, teams.value[0])
    ensures projects.None? ==> assignments == []
    ensures teams.Some? && teams.value != [] && projects.Some? ==>
      assignments == Assignments(
        if issues.Some? then issues.value else [],
        var lc := FindByName(projects.value, "Linear Clone"); if lc.Some? then Some(lc.value.id) else None,
        var ma := FindByName(projects.value, "Mobile App"); if ma.Some? then Some(ma.value.id) else None)
  {
    inserts, assignments := [], [];
    if teams.None? || |teams.value| == 0 {
      return;
    }
    var teamId := teams.value[0];
    var i := 0;
    while i < |ProjectsToCreate|
      invariant 0 <= i <= |ProjectsToCreate|
      invariant inserts == PlannedInserts(ProjectsToCreate[..i], rowsNamed, teamId)
    {
      var p := ProjectsToCreate[i];
      assert ProjectsToCreate[..i + 1][..i] == ProjectsToCreate[..i];
      if rowsNamed(p.name) != 1 {
        inserts := inserts + [InsertRow(p, teamId)];
      }
      i := i + 1;
    }
    assert ProjectsToCreate[..i] == ProjectsToCreate;
    if projects.None? {
      return;
    }
    var lc := FindByName(projects.value, "Linear Clone");
    var ma := FindByName(projects.value, "Mobile App");
    var ids := if issues.Some? then issues.value else [];
    assignments := Assignments(ids, if lc.Some? then Some(lc.value.id) else None, if ma.Some? then Some(ma.value.id) else None);
  }
}
