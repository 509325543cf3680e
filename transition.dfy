/** How the sky changes over when the resolved layer differs from the stored
    one: not at all, by an instant switch, or by a smooth cross-fade. */
module Transition {
  import opened Physics

  /** Above a tenth of the speed of light a fade cannot keep up. */
  const HIGH_VELOCITY_THRESHOLD: real := 0.1 * SPEED_OF_LIGHT

  datatype Decision = NoChange | Instant | SmoothStart

  /** The branch `updateVisuals` takes for a resolved index `newIndex` while
      the stored index is `oldIndex`. */
  function Decide(newIndex: int, oldIndex: int, velocity: real, fading: bool): (d: Decision)
    ensures d == NoChange <==> newIndex == oldIndex
    ensures d == Instant <==> newIndex != oldIndex && (Abs(velocity) > HIGH_VELOCITY_THRESHOLD || fading)
    ensures d == SmoothStart <==> newIndex != oldIndex && Abs(velocity) <= HIGH_VELOCITY_THRESHOLD && !fading
  {
    if newIndex == oldIndex then NoChange
    else if Abs(velocity) > HIGH_VELOCITY_THRESHOLD || fading then Instant
    else SmoothStart
  }

  /** The fade flag after the decision: an instant switch cancels any fade,
      a smooth start begins one, and no crossing leaves it as it was. */
  function FadingAfter(d: Decision, fading: bool): (f: bool)
    ensures d == Instant ==> !f
    ensures d == SmoothStart ==> f
    ensures d == NoChange ==> f == fading
  {
    match d
    case NoChange => fading
    case Instant => false
    case SmoothStart => true
  }

  /** The fade flag after `updateVisuals`, in terms of the inputs: it is set
      exactly when the index is unchanged and a fade was running, or when the
      index changes at or below the threshold with no fade running. */
  lemma FadingAfterDecision(newIndex: int, oldIndex: int, velocity: real, fading: bool)
    ensures FadingAfter(Decide(newIndex, oldIndex, velocity, fading), fading)
            <==> (newIndex == oldIndex && fading)
                 || (newIndex != oldIndex && !fading && Abs(velocity) <= HIGH_VELOCITY_THRESHOLD)
  {
  }

  /** A fade that is already running is never restarted: a second crossing
      during it switches instantly and ends it. */
  lemma CrossingDuringFadeIsInstant(newIndex: int, oldIndex: int, velocity: real)
    requires newIndex != oldIndex
    ensures Decide(newIndex, oldIndex, velocity, true) == Instant
    ensures !FadingAfter(Decide(newIndex, oldIndex, velocity, true), true)
  {
  }

  /** At a fifth of the speed of light every crossing is instant. */
  lemma FastCrossingIsInstant(newIndex: int, oldIndex: int, fading: bool)
    requires newIndex != oldIndex
    ensures Decide(newIndex, oldIndex, 0.2 * SPEED_OF_LIGHT, fading) == Instant
    ensures Decide(newIndex, oldIndex, -0.2 * SPEED_OF_LIGHT, fading) == Instant
  {
  }
}
