/** Turning a pointer position into the cup's horizontal position. */
module CupInput {

  /** The cup's anchor is kept within these horizontal bounds. */
  const CupMinX: real := 50.0
  const CupMaxX: real := 750.0

  /**
   * The pointer's x clamped into [CupMinX, CupMaxX], computed as the engine's
   * clamp does: the larger of the lower bound and the smaller of the upper
   * bound and the value.
   */
  function ClampCupX(pointerX: real): (x: real)
    ensures CupMinX <= x <= CupMaxX
    ensures CupMinX <= pointerX <= CupMaxX ==> x == pointerX
    ensures pointerX < CupMinX ==> x == CupMinX
    ensures pointerX > CupMaxX ==> x == CupMaxX
  {
    var capped := if CupMaxX < pointerX then CupMaxX else pointerX;
    if CupMinX > capped then CupMinX else capped
  }

  /** Clamping a position already clamped leaves it where it is. */
  lemma ClampIdempotent(pointerX: real)
    ensures ClampCupX(ClampCupX(pointerX)) == ClampCupX(pointerX)
  {
  }

  /** Moving the pointer right never moves the cup left. */
  lemma ClampMonotone(p1: real, p2: real)
    requires p1 <= p2
    ensures ClampCupX(p1) <= ClampCupX(p2)
  {
  }
}
