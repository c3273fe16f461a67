/**
 * Device orientation and the visibility rule that compares it with the anchor
 * (`checkIfPanelInView`, screens/ARScreen.js).
 */
module Orientation {
  import opened Wrappers

  /** Rotation angles around the three device axes, in degrees unless stated otherwise. */
  datatype Orientation = Orientation(alpha: real, beta: real, gamma: real)

  /** The orientation the screen starts with before any motion sample arrives. */
  const Origin := Orientation(0.0, 0.0, 0.0)

  /** How far, in degrees, beta or gamma may drift from the anchor before the panel is hidden. */
  const Threshold: real := 20.0

  function Abs(x: real): (r: real)
    ensures r >= 0.0 && (r == x || r == -x)
  {
    if x < 0.0 then -x else x
  }

  /**
   * Whether the panel is in view for `current` given the (optional) anchor: always without
   * an anchor; with one, exactly when beta and gamma both lie strictly within the threshold
   * of the anchor's (AND semantics, both directions).
   */
  predicate InView(current: Orientation, anchor: Option<Orientation>): (r: bool)
    ensures anchor.None? ==> r
    ensures anchor.Some? ==>
      (r <==> anchor.value.beta - Threshold < current.beta < anchor.value.beta + Threshold &&
              anchor.value.gamma - Threshold < current.gamma < anchor.value.gamma + Threshold)
  {
    match anchor
    case None => true
    case Some(a) =>
      Abs(current.beta - a.beta) < Threshold && Abs(current.gamma - a.gamma) < Threshold
  }

  /** Either axis alone out of range hides the panel. */
  lemma OneAxisOutHides(current: Orientation, a: Orientation)
    requires Abs(current.beta - a.beta) >= Threshold || Abs(current.gamma - a.gamma) >= Threshold
    ensures !InView(current, Some(a))
  {
  }

  /** The inequality is strict: a deviation of exactly the threshold is out of view. */
  lemma ThresholdIsExclusive(current: Orientation, a: Orientation)
    requires current.beta == a.beta + Threshold || current.beta == a.beta - Threshold
    ensures !InView(current, Some(a))
  {
  }

  /** The orientation the anchor was taken at is in view. */
  lemma AnchorIsInView(o: Orientation)
    ensures InView(o, Some(o))
  {
  }

  /** The alpha angle, of the sample or of the anchor, never affects visibility. */
  lemma AlphaIgnored(current: Orientation, a: Orientation, alpha1: real, alpha2: real)
    ensures InView(current.(alpha := alpha1), Some(a.(alpha := alpha2))) ==
            InView(current, Some(a))
  {
  }

  /**
   * The worked scenario: anchored at {0, 10, 5}, the orientation {beta 25, gamma 5}
   * deviates by 15 and 0 and is in view; {beta 35, gamma 5} deviates by 25 in beta and is not.
   */
  lemma AnchorScenario(alpha: real)
    ensures InView(Orientation(alpha, 25.0, 5.0), Some(Orientation(0.0, 10.0, 5.0)))
    ensures !InView(Orientation(alpha, 35.0, 5.0), Some(Orientation(0.0, 10.0, 5.0)))
  {
  }
}
