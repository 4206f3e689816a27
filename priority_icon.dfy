/** The priority glyph: a five-entry table looked up by the lower-cased
    priority, with the no-priority glyph as the fallback. */
module PriorityIcon {
  import opened Common

  datatype PriorityGlyph = UrgentGlyph | HighGlyph | MediumGlyph | LowGlyph | NoneGlyph

  /** The lookup key: `priority?.toLowerCase() || 'none'`. */
  function PriorityKey(priority: Option<string>): (k: string)
    ensures !Truthy(priority) ==> k == "none"
    ensures Truthy(priority) ==> k == Lower(priority.value)
  {
    if Truthy(priority) then Lower(priority.value) else "none"
  }

  /** The table's own keys. */
  function OwnEntry(key: string): (r: Option<PriorityGlyph>)
    ensures r.Some? <==> key in {"urgent", "high", "medium", "low", "none"}
  {
    if key == "urgent" then Some(UrgentGlyph)
    else if key == "high" then Some(HighGlyph)
    else if key == "medium" then Some(MediumGlyph)
    else if key == "low" then Some(LowGlyph)
    else if key == "none" then Some(NoneGlyph)
    else None
  }

  /** The all-lower-case names a plain object literal inherits from
      `Object.prototype`; bracket lookup finds them although they are not
      table entries, and each one is a truthy value. */
  const InheritedNames: set<string> := {"constructor", "__proto__"}

  /** What `iconMap[key]` yields on a plain object literal. */
  datatype Lookup = Own(glyph: PriorityGlyph) | Inherited(name: string) | Undefined

  function IconMapGet(key: string): (r: Lookup)
    ensures r.Own? <==> OwnEntry(key).Some?
    ensures r.Inherited? <==> OwnEntry(key).None? && key in InheritedNames
  {
    match OwnEntry(key)
    case Some(g) => Own(g)
    case None => if key in InheritedNames then Inherited(key) else Undefined
  }

  /** `iconMap[key] || iconMap['none']` as written: an inherited member is
      truthy, so it is returned instead of a glyph. */
  function PriorityIconAsWritten(priority: Option<string>): (r: Lookup)
    ensures !r.Undefined?
    ensures r.Inherited? <==> PriorityKey(priority) in InheritedNames
  {
    match IconMapGet(PriorityKey(priority))
    case Own(g) => Own(g)
    case Inherited(n) => Inherited(n)
    case Undefined => Own(NoneGlyph)
  }

  /** The priority "Constructor" yields the inherited `Object` constructor, not
      a glyph. */
  lemma ConstructorIsNotAGlyph(p: string)
    requires p == "Constructor"
    ensures PriorityIconAsWritten(Some(p)) == Inherited("constructor")
  {
    assert Lower(p) == "constructor";
  }

  /** The glyph for a priority: an own table entry, else the no-priority glyph. */
  function GlyphFor(priority: Option<string>): (g: PriorityGlyph)
    ensures OwnEntry(PriorityKey(priority)).Some? ==> g == OwnEntry(PriorityKey(priority)).value
    ensures OwnEntry(PriorityKey(priority)).None? ==> g == NoneGlyph
  {
    match OwnEntry(PriorityKey(priority))
    case Some(g) => g
    case None => NoneGlyph
  }

  /** Exactly five keys are recognised, each with its own glyph; a missing
      priority and every other value get the no-priority glyph. */
  lemma FiveKeys(key: string)
    ensures OwnEntry(key) == Some(UrgentGlyph) <==> key == "urgent"
    ensures OwnEntry(key) == Some(HighGlyph) <==> key == "high"
    ensures OwnEntry(key) == Some(MediumGlyph) <==> key == "medium"
    ensures OwnEntry(key) == Some(LowGlyph) <==> key == "low"
    ensures OwnEntry(key) == Some(NoneGlyph) <==> key == "none"
    ensures GlyphFor(None) == NoneGlyph
  {
  }

  /** Matching ignores ASCII letter case: "Urgent", "URGENT" and "urgent" coincide. */
  lemma GlyphIgnoresCase(s: string)
    ensures GlyphFor(Some(s)) == GlyphFor(Some(Lower(s))) == GlyphFor(Some(Upper(s)))
  {
    LowerIdempotent(s);
  }

  /** The table as written and the corrected lookup agree on every priority
      whose key is not an inherited name. */
  lemma AsWrittenAgrees(priority: Option<string>)
    requires PriorityKey(priority) !in InheritedNames
    ensures PriorityIconAsWritten(priority) == Own(GlyphFor(priority))
  {
  }
}
