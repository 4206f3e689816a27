/** The list view's issue row: its own status and priority glyphs (which
    differ from the shared icons) and its identifier. */
module IssueListItem {
  import opened Common
  import opened Records
  import StatusIcon

  datatype RowStatusGlyph = DoneCheck | ProgressRing | TodoCircle | BacklogCircle

  /** The row's status switch on the lower-cased status: done, in progress and
      todo have glyphs; everything else, canceled and duplicate included, is
      drawn as backlog. The status must be a string: null would throw. */
  function StatusGlyph(status: string): (g: RowStatusGlyph)
    ensures g == DoneCheck <==> Lower(status) == "done"
    ensures g == ProgressRing <==> Lower(status) == "in progress"
    ensures g == TodoCircle <==> Lower(status) == "todo"
    ensures g == BacklogCircle <==> Lower(status) !in ["done", "in progress", "todo"]
  {
    var s := Lower(status);
    if s == "done" then DoneCheck
    else if s == "in progress" then ProgressRing
    else if s == "todo" then TodoCircle
    else BacklogCircle
  }

  /** The glyph colours: one per glyph, no two alike. */
  function StatusColor(g: RowStatusGlyph): (c: string)
    ensures c == "#10B981" <==> g == DoneCheck
    ensures c == "#F59E0B" <==> g == ProgressRing
    ensures c == "#6366F1" <==> g == TodoCircle
    ensures c == "#78716C" <==> g == BacklogCircle
  {
    match g
    case DoneCheck => "#10B981"
    case ProgressRing => "#F59E0B"
    case TodoCircle => "#6366F1"
    case BacklogCircle => "#78716C"
  }

  /** Matching ignores ASCII letter case. */
  lemma StatusGlyphIgnoresCase(s: string)
    ensures StatusGlyph(s) == StatusGlyph(Lower(s)) == StatusGlyph(Upper(s))
  {
    LowerIdempotent(s);
  }

  /** Unlike the shared status icon, the row draws canceled and duplicate as
      backlog. */
  lemma ClosedStatusesDifferFromIcon(s: string)
    requires s == "canceled" || s == "duplicate"
    ensures StatusGlyph(s) == BacklogCircle
    ensures StatusIcon.GlyphFor(Some(s)) == StatusIcon.ClosedGlyph
  {
    LowerNoop(s);
  }

  datatype RowPriorityGlyph = UrgentBox | ThreeBars | TwoBars | OneBar | DashedSquare

  /** The row's priority switch: exact, case-sensitive Urgent, High, Medium
      and Low; everything else is the dashed square. */
  function PriorityGlyph(priority: Option<string>): (g: RowPriorityGlyph)
    ensures g == UrgentBox <==> priority == Some("Urgent")
    ensures g == ThreeBars <==> priority == Some("High")
    ensures g == TwoBars <==> priority == Some("Medium")
    ensures g == OneBar <==> priority == Some("Low")
    ensures g == DashedSquare <==> priority !in {Some("Urgent"), Some("High"), Some("Medium"), Some("Low")}
  {
    match priority
    case Some("Urgent") => UrgentBox
    case Some("High") => ThreeBars
    case Some("Medium") => TwoBars
    case Some("Low") => OneBar
    case _ => DashedSquare
  }

  /** Case matters here: "urgent" is drawn as no priority. */
  lemma PriorityIsCaseSensitive()
    ensures PriorityGlyph(Some("urgent")) == PriorityGlyph(Some("None")) == PriorityGlyph(None) == DashedSquare
  {
  }

  /** The row's identifier: "LIN-" and the first three characters of the id,
      upper-cased. */
  function RowIdentifier(id: string): (r: string)
    ensures r == Identifier(id, 3)
    ensures |id| >= 3 ==> |r| == 7
  {
    Identifier(id, 3)
  }
}
