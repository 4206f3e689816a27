/** The board's issue card: its priority glyph, identifier, assignee avatar
    and the complexity dots of its analysis popover. */
module IssueCard {
  import opened Common
  import opened Records
  import AnalysisPopover

  datatype CardPriorityGlyph = HighAlert | MediumBar | LowBar | DashedBox

  /** The card's own priority switch: exact, case-sensitive matches on High,
      Medium and Low; Urgent and everything else get the dashed box. */
  function PriorityGlyph(priority: Option<string>): (g: CardPriorityGlyph)
    ensures g == HighAlert <==> priority == Some("High")
    ensures g == MediumBar <==> priority == Some("Medium")
    ensures g == LowBar <==> priority == Some("Low")
    ensures g == DashedBox <==> priority !in {Some("High"), Some("Medium"), Some("Low")}
  {
    match priority
    case Some("High") => HighAlert
    case Some("Medium") => MediumBar
    case Some("Low") => LowBar
    case _ => DashedBox
  }

  /** Urgent is drawn like no priority at all, and so is lower-case "high". */
  lemma UrgentLooksLikeNone()
    ensures PriorityGlyph(Some("Urgent")) == PriorityGlyph(None) == DashedBox
    ensures PriorityGlyph(Some("high")) == DashedBox
  {
  }

  /** The card's identifier: "LIN-" and the first four characters of the id,
      upper-cased. */
  function CardIdentifier(id: string): (r: string)
    ensures r == Identifier(id, 4)
    ensures |id| >= 4 ==> |r| == 8
  {
    Identifier(id, 4)
  }

  /** The avatar: a filled "A" for any truthy assignee id, else a dashed ring. */
  function ShowsAvatar(assigneeId: Option<string>): (b: bool)
    ensures b <==> assigneeId.Some? && assigneeId.value != ""
  {
    Truthy(assigneeId)
  }

  /** The five complexity dots: dot v (1 to 5) is filled when v <= complexity. */
  function ComplexityDots(complexity: int): (dots: seq<bool>)
    ensures |dots| == 5
    ensures forall i :: 0 <= i < 5 ==> (dots[i] <==> i + 1 <= complexity)
  {
    seq(5, i requires 0 <= i < 5 => i + 1 <= complexity)
  }

  function CountTrue(bs: seq<bool>): (n: nat)
    ensures n <= |bs|
  {
    if bs == [] then 0 else (if bs[0] then 1 else 0) + CountTrue(bs[1..])
  }

  /** The filled dots are a prefix: complexity clamped to 0..5 dots are filled. */
  lemma FilledDots(complexity: int)
    ensures CountTrue(ComplexityDots(complexity)) == if complexity < 0 then 0 else if complexity > 5 then 5 else complexity
  {
    var k := if complexity < 0 then 0 else if complexity > 5 then 5 else complexity;
    CountPrefix(ComplexityDots(complexity), k);
  }

  /** A sequence true exactly on its first k positions counts k. */
  lemma {:induction false} CountPrefix(bs: seq<bool>, k: int)
    requires 0 <= k <= |bs|
    requires forall i :: 0 <= i < |bs| ==> (bs[i] <==> i < k)
    ensures CountTrue(bs) == k
  {
    if bs != [] {
      if k > 0 {
        CountPrefix(bs[1..], k - 1);
      } else {
        CountPrefix(bs[1..], 0);
      }
    }
  }

  /** The popover lists blockers only when there are some. */
  function ShowsBlockers(a: AnalysisPopover.Analysis): (b: bool)
    ensures b <==> a.blockers.Some? && a.blockers.value != []
  {
    a.blockers.Some? && |a.blockers.value| > 0
  }
}
