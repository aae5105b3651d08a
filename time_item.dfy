/**
 * The value attached to each tick of the ruler: an immutable record of a caller
 * flag, a background colour and an optional payload.  An item without payload
 * is an "empty" item, the kind the ruler uses to pad gaps in the timeline.
 */
module TimeItems {
  import opened Wrappers

  /** Android's `Color.WHITE` as a signed 32-bit ARGB value (0xFFFFFFFF). */
  const White: int := -1

  /** The flag an item gets when the caller gives none. */
  const DefaultFlag: int := -1

  /** Stand-in for the caller's arbitrary payload object; only its identity matters. */
  datatype Payload = Payload(id: int)

  /** All fields are immutable; equality is structural, as for a Kotlin data class. */
  datatype TimeItem = TimeItem(flag: int, backgroundColor: int, data: Option<Payload>)
  {
    /** An item is empty exactly when it carries no payload. */
    predicate IsEmpty() { data.None? }
  }

  /** The item used to fill gaps: default flag, white, no payload. */
  function EmptyItem(): (t: TimeItem)
    ensures t.IsEmpty() && t.flag == DefaultFlag && t.backgroundColor == White
  {
    TimeItem(DefaultFlag, White, None)
  }

  /** Emptiness depends on the payload only, never on flag or colour. */
  lemma EmptinessIsPayloadAbsence(t: TimeItem, flag: int, color: int)
    ensures t.IsEmpty() <==> t.data == None
    ensures TimeItem(flag, color, t.data).IsEmpty() == t.IsEmpty()
  {
  }

  /** Items built from equal fields are equal (data-class equality). */
  lemma StructuralEquality(a: TimeItem, b: TimeItem)
    requires a.flag == b.flag && a.backgroundColor == b.backgroundColor && a.data == b.data
    ensures a == b
  {
  }
}
