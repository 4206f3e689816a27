/** The status glyph and the status text colour: both classify the
    lower-cased status, with null or "" read as backlog. */
module StatusIcon {
  import opened Common

  /** The lookup key: `status?.toLowerCase() || 'backlog'`. */
  function IconKey(status: Option<string>): (k: string)
    ensures k != ""
    ensures !Truthy(status) ==> k == "backlog"
    ensures Truthy(status) ==> k == Lower(status.value)
  {
    if Truthy(status) then Lower(status.value) else "backlog"
  }

  datatype Shape = CheckCircle | Spinner | Circle | XCircle | DashedCircle

  datatype Glyph = Glyph(shape: Shape, color: string)

  const DoneGlyph := Glyph(CheckCircle, "#5E6AD2")
  const InProgressGlyph := Glyph(Spinner, "#F59E0B")
  const TodoGlyph := Glyph(Circle, "#E3E4E6")
  const ClosedGlyph := Glyph(XCircle, "#78716C")
  const BacklogGlyph := Glyph(DashedCircle, "#78716C")

  /** The five statuses the glyph recognises. */
  const GlyphKeys: seq<string> := ["done", "in progress", "todo", "canceled", "duplicate"]

  /** `StatusIcon`: done, in progress and todo have their own glyphs, canceled
      and duplicate share one, and every other key gets the backlog glyph. */
  function GlyphFor(status: Option<string>): (g: Glyph)
    ensures IconKey(status) == "done" <==> g == DoneGlyph
    ensures IconKey(status) == "in progress" <==> g == InProgressGlyph
    ensures IconKey(status) == "todo" <==> g == TodoGlyph
    ensures IconKey(status) in {"canceled", "duplicate"} <==> g == ClosedGlyph
    ensures IconKey(status) !in GlyphKeys <==> g == BacklogGlyph
  {
    var s := IconKey(status);
    if s == "done" then DoneGlyph
    else if s == "in progress" then InProgressGlyph
    else if s == "todo" then TodoGlyph
    else if s == "canceled" then ClosedGlyph
    else if s == "duplicate" then ClosedGlyph
    else BacklogGlyph
  }

  /** `getStatusColor`: done, in progress and todo have distinct colours;
      canceled, duplicate and everything else share the grey fallback. */
  function StatusColor(status: Option<string>): (c: string)
    ensures IconKey(status) == "done" <==> c == "text-[#10B981]"
    ensures IconKey(status) == "in progress" <==> c == "text-[#F59E0B]"
    ensures IconKey(status) == "todo" <==> c == "text-[#E3E4E6]"
    ensures IconKey(status) !in ["done", "in progress", "todo"] <==> c == "text-[#78716C]"
  {
    var s := IconKey(status);
    if s == "done" then "text-[#10B981]"
    else if s == "in progress" then "text-[#F59E0B]"
    else if s == "todo" then "text-[#E3E4E6]"
    else if s == "canceled" then "text-[#78716C]"
    else "text-[#78716C]"
  }

  /** Classification ignores ASCII letter case. */
  lemma {:induction false} GlyphIgnoresCase(s: string)
    ensures GlyphFor(Some(s)) == GlyphFor(Some(Lower(s))) == GlyphFor(Some(Upper(s)))
    ensures StatusColor(Some(s)) == StatusColor(Some(Lower(s))) == StatusColor(Some(Upper(s)))
  {
    LowerIdempotent(s);
  }

  /** A missing status and the empty status are drawn as backlog. */
  lemma MissingStatusIsBacklog()
    ensures GlyphFor(None) == GlyphFor(Some("")) == BacklogGlyph
    ensures StatusColor(None) == StatusColor(Some("")) == "text-[#78716C]"
  {
  }

  /** There is no '_' handling: "in_progress" gets the backlog glyph. */
  lemma UnderscoreIsBacklog(s: string)
    requires s == "in_progress"
    ensures GlyphFor(Some(s)) == BacklogGlyph
  {
    assert Lower(s) == s;
  }
}
