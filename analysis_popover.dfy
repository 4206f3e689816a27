/** The AI-analysis popover that issue cards and list rows share: a click asks
    for an analysis once, and only a non-null answer is kept. */
module AnalysisPopover {
  import opened Common

  /** An analysis as the popover reads it. */
  datatype Analysis = Analysis(priority: string, complexity: int, reasoning: string, blockers: Option<seq<string>>)

  /** The three state fields: `isAnalyzing`, `analysis` and `showAnalysis`. */
  datatype PopoverState = PopoverState(isAnalyzing: bool, analysis: Option<Analysis>, show: bool)

  const Initial: PopoverState := PopoverState(false, None, false)

  /** A click on the analyse button: with an analysis held it only toggles the
      popover; otherwise the popover opens in its waiting state and a request
      is made. */
  function Click(s: PopoverState): (r: (PopoverState, bool))
    ensures s.analysis.Some? ==> r == (s.(show := !s.show), false)
    ensures s.analysis.None? ==> r == (PopoverState(true, None, true), true)
  {
    if s.analysis.Some? then (s.(show := !s.show), false)
    else (PopoverState(true, None, true), true)
  }

  /** The answer arrives: it replaces the held analysis, even when null. */
  function Finish(s: PopoverState, result: Option<Analysis>): (r: PopoverState)
    ensures r == PopoverState(false, result, s.show)
  {
    s.(isAnalyzing := false, analysis := result)
  }

  /** Once an analysis is held, two clicks give back the same state and make
      no request. */
  lemma CachedClicksToggle(s: PopoverState)
    requires s.analysis.Some?
    ensures !Click(s).1 && !Click(Click(s).0).1
    ensures Click(Click(s).0).0 == s
  {
  }

  /** A null (failed) answer is not kept: the next click asks again. */
  lemma FailureIsRetried(s: PopoverState)
    ensures var after := Finish(Click(s).0, None); Click(after).1
  {
  }

  /** A non-null answer is kept: no later click asks again. */
  lemma SuccessIsCached(s: PopoverState, a: Analysis)
    ensures var after := Finish(s, Some(a)); !Click(after).1 && !Click(Click(after).0).1
  {
  }

  /** What the open popover shows. */
  datatype Content = Hidden | Waiting | Result(a: Analysis) | Failed

  function ContentOf(s: PopoverState): (c: Content)
    ensures !s.show <==> c == Hidden
    ensures s.show && s.isAnalyzing ==> c == Waiting
    ensures s.show && !s.isAnalyzing && s.analysis.Some? ==> c == Result(s.analysis.value)
    ensures s.show && !s.isAnalyzing && s.analysis.None? ==> c == Failed
  {
    if !s.show then Hidden
    else if s.isAnalyzing then Waiting
    else if s.analysis.Some? then Result(s.analysis.value)
    else Failed
  }

  /** The component's popover state, stepped by its handlers. */
  class Popover {
    var state: PopoverState

    constructor()
      ensures state == Initial
    {
      state := Initial;
    }

    /** `handleAnalyze` up to the await. */
    method ClickAnalyze() returns (request: bool)
      modifies this
      ensures (state, request) == Click(old(state))
    {
      if state.analysis.Some? {
        state := state.(show := !state.show);
        return false;
      }
      state := state.(isAnalyzing := true);
      state := state.(show := true);
      request := true;
    }

    /** `handleAnalyze` after the await. */
    method FinishAnalyze(result: Option<Analysis>)
      modifies this
      ensures state == Finish(old(state), result)
    {
      state := state.(analysis := result);
      state := state.(isAnalyzing := false);
    }

    /** The popover's close button. */
    method Close()
      modifies this
      ensures state == old(state).(show := false)
    {
      state := state.(show := false);
    }
  }
}
