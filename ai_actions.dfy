/** The server actions around the AI model: the cleanup of the model's text
    before parsing, and the null / empty fallbacks of the three actions. The
    model call and JSON.parse are oracles passed in as values. */
module AiActions {
  import opened Common
  import opened Records

  const JsonFence: string := "```json"
  const Fence: string := "```"

  /** `text.replace(/```json\n?|\n?```/g, '')`: scanning left to right, a
      "```json" (with at most one following newline) or a "```" (with at most
      one preceding newline) is deleted; any other character is kept. */
  function StripFences(s: string): (r: string)
    ensures |r| <= |s|
    decreases |s|
  {
    if s == [] then []
    else if StartsWith(s, JsonFence) then
      var rest := s[7..];
      if rest != [] && rest[0] == '\n' then StripFences(rest[1..]) else StripFences(rest)
    else if StartsWith(s, "\n```") then StripFences(s[4..])
    else if StartsWith(s, Fence) then StripFences(s[3..])
    else [s[0]] + StripFences(s[1..])
  }

  /** The cleanup applied before every parse. */
  function Cleanup(text: string): (r: string)
    ensures |r| <= |text|
  {
    Trim(StripFences(text))
  }

  /** Text without backticks passes the scan unchanged. */
  lemma {:induction false} NoBackticksUnchanged(s: string)
    requires '`' !in s
    ensures StripFences(s) == s
  {
    if s != [] {
      assert !StartsWith(s, JsonFence) && !StartsWith(s, Fence) by {
        if |s| >= 3 {
          assert s[0] != '`';
        }
      }
      assert !StartsWith(s, "\n```") by {
        if |s| >= 4 {
          assert s[1] != '`';
        }
      }
      NoBackticksUnchanged(s[1..]);
    }
  }

  /** Text without backticks is only trimmed. */
  lemma CleanupWithoutBackticks(s: string)
    requires '`' !in s
    ensures Cleanup(s) == Trim(s)
  {
    NoBackticksUnchanged(s);
  }

  /** Every kept character comes from the input: the scan only deletes. */
  lemma {:induction false} StripOnlyDeletes(s: string)
    ensures forall c :: c in StripFences(s) ==> c in s
    decreases |s|
  {
    if s != [] {
      if StartsWith(s, JsonFence) {
        var rest := s[7..];
        if rest != [] && rest[0] == '\n' {
          StripOnlyDeletes(rest[1..]);
        } else {
          StripOnlyDeletes(rest);
        }
      } else if StartsWith(s, "\n```") {
        StripOnlyDeletes(s[4..]);
      } else if StartsWith(s, Fence) {
        StripOnlyDeletes(s[3..]);
      } else {
        StripOnlyDeletes(s[1..]);
      }
    }
  }

  /** A fenced block whose body holds no backticks comes out as the trimmed body. */
  lemma FencedBody(body: string)
    requires '`' !in body
    ensures StripFences(JsonFence + "\n" + body + "\n" + Fence) == body
  {
    var s := JsonFence + "\n" + body + "\n" + Fence;
    assert StartsWith(s, JsonFence);
    assert s[7..][0] == '\n' && s[7..][1..] == body + "\n" + Fence;
    StripTail(body);
  }

  /** The closing fence is deleted with its newline. */
  lemma {:induction false} StripTail(body: string)
    requires '`' !in body
    ensures StripFences(body + "\n" + Fence) == body
  {
    var s := body + "\n" + Fence;
    if body == [] {
      assert s == "\n```";
      assert StartsWith(s, "\n```");
      assert s[4..] == [];
    } else {
      assert s[0] == body[0] && s[0] != '`';
      assert !StartsWith(s, JsonFence) && !StartsWith(s, Fence);
      assert !StartsWith(s, "\n```") by {
        if s[0] == '\n' {
          if |body| >= 2 {
            assert s[1] == body[1] && s[1] != '`';
          } else {
            assert s[1] == '\n';
          }
        }
      }
      assert s == [body[0]] + (body[1..] + "\n" + Fence) by {
        assert body == [body[0]] + body[1..];
      }
      assert s[1..] == body[1..] + "\n" + Fence;
      StripTail(body[1..]);
    }
  }

  /** A newline just before the opening fence is taken with the fence's first
      three backticks, so the "json" tag stays in the text to be parsed. */
  lemma NewlineBeforeFenceKeepsTag(body: string)
    requires '`' !in body
    ensures StripFences("\n" + JsonFence + "\n" + body + "\n" + Fence) == "json\n" + body
  {
    var s := "\n" + JsonFence + "\n" + body + "\n" + Fence;
    var t := "json\n" + body + "\n" + Fence;
    assert s == "\n```" + t;
    assert s[0] == '\n' && !StartsWith(s, JsonFence);
    assert s[..4] == "\n```";
    assert s[4..] == t;
    assert t == ("json\n" + body) + "\n" + Fence;
    StripTail("json\n" + body);
  }

  // ---------------------------------------------------------------------------
  // The three actions

  /** The description in the analysis prompt. */
  function PromptDescription(description: Option<string>): (d: string)
    ensures Truthy(description) ==> d == description.value
    ensures !Truthy(description) ==> d == "No description"
  {
    OrElse(description, "No description")
  }

  /** `analyzeIssueAction` and `generateIssueDetailsAction`: the model's text
      (None when the call throws) is cleaned and parsed; any failure gives null. */
  function ParseAnswer<T>(response: Option<string>, parse: string -> Option<T>): (r: Option<T>)
    ensures response.None? ==> r.None?
    ensures response.Some? ==> r == parse(Cleanup(response.value))
  {
    match response
    case None => None
    case Some(text) => parse(Cleanup(text))
  }

  /** The per-issue projection sent to the model in a batch. */
  datatype BacklogIssue = BacklogIssue(id: string, title: string, priority: Option<string>)

  function Project(issues: seq<Issue>): (r: seq<BacklogIssue>)
    ensures |r| == |issues|
    ensures forall i :: 0 <= i < |r| ==> r[i] == BacklogIssue(issues[i].id, issues[i].title, issues[i].priority)
  {
    seq(|issues|, i requires 0 <= i < |issues| => BacklogIssue(issues[i].id, issues[i].title, issues[i].priority))
  }

  datatype Recommendation = Recommendation(id: string, suggestedStatus: string, reason: string)

  /** `prioritizeBatchAction`: an empty input answers no recommendations without
      asking the model; a failed call or parse answers none as well. The second
      result says whether the model was asked. */
  function PrioritizeBatch(issues: seq<Issue>, response: Option<string>, parse: string -> Option<seq<Recommendation>>)
    : (r: (seq<Recommendation>, bool))
    ensures issues == [] ==> r == ([], false)
    ensures issues != [] ==> r.1
    ensures issues != [] && response.None? ==> r.0 == []
    ensures issues != [] && response.Some? && parse(Cleanup(response.value)).None? ==> r.0 == []
    ensures issues != [] && response.Some? && parse(Cleanup(response.value)).Some? ==>
      r.0 == parse(Cleanup(response.value)).value
  {
    if |Project(issues)| == 0 then ([], false)
    else
      match ParseAnswer(response, parse)
      case None => ([], true)
      case Some(recs) => (recs, true)
  }
}
