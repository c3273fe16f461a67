/**
 * The anchor / visibility tracker: the two-state machine (unanchored, anchored) driven by the
 * "anchor here" action and by motion samples, and the fade choice of `updatePanelVisibility`.
 */
module Visibility {
  import opened Wrappers
  import opened Orientation
  import opened Transform

  /** The opacity animation a call starts: none, or a timing towards `target`. */
  datatype Fade = NoFade | FadeTo(target: real)

  /**
   * `updatePanelVisibility`: fade out only when hidden is requested and the opacity is above 0;
   * fade in only when visible is requested and the opacity is exactly 0; otherwise start nothing.
   */
  function ChooseFade(shouldBeVisible: bool, opacity: real): (f: Fade)
    ensures f == FadeTo(0.0) <==> !shouldBeVisible && opacity > 0.0
    ensures f == FadeTo(1.0) <==> shouldBeVisible && opacity == 0.0
    ensures f == NoFade <==> (shouldBeVisible ==> opacity != 0.0) && (!shouldBeVisible ==> opacity <= 0.0)
  {
    if !shouldBeVisible && opacity > 0.0 then FadeTo(0.0)
    else if shouldBeVisible && opacity == 0.0 then FadeTo(1.0)
    else NoFade
  }

  /** A visible request while the opacity is strictly between 0 and 1 starts no fade at all. */
  lemma VisibleRequestMidFadeIgnored(opacity: real)
    requires 0.0 < opacity < 1.0
    ensures ChooseFade(true, opacity) == NoFade
  {
  }

  /** The tracker's state: the last orientation (degrees), the anchor if any, and the recorded flag. */
  datatype Tracker = Tracker(current: Orientation, anchor: Option<Orientation>, inView: bool)

  /** Unanchored, level, and in view. */
  const InitialTracker := Tracker(Origin, None, true)

  /** The recorded flag agrees with the visibility rule applied to the current orientation. */
  predicate Consistent(t: Tracker)
  {
    t.inView == InView(t.current, t.anchor)
  }

  lemma InitialConsistent()
    ensures Consistent(InitialTracker)
  {
  }

  /**
   * `setCurrentPositionAsAnchor`: the anchor becomes a copy of the current orientation and the
   * flag is forced to true, which agrees with the rule whatever the flag was before.
   */
  function AnchorHere(t: Tracker): (u: Tracker)
    ensures u.anchor == Some(t.current) && u.current == t.current && u.inView
    ensures Consistent(u)
  {
    AnchorIsInView(t.current);
    Tracker(t.current, Some(t.current), true)
  }

  /**
   * The visibility branch of the motion listener. A missing rotation changes nothing; otherwise
   * the current orientation becomes the sample in degrees and, only when anchored and the rule's
   * value differs from the recorded flag, the flag takes the new value.
   */
  function Sampled(t: Tracker, rotation: Option<Orientation>): (u: Tracker)
    ensures rotation.None? ==> u == t
    ensures rotation.Some? ==> u.current == InDegrees(rotation.value)
    ensures u.anchor == t.anchor
    ensures u.inView != t.inView ==> t.anchor.Some? && u.inView == InView(u.current, t.anchor)
    ensures t.anchor.Some? && rotation.Some? ==> Consistent(u)
    ensures Consistent(t) ==> Consistent(u)
  {
    match rotation
    case None => t
    case Some(r) =>
      var o := InDegrees(r);
      if t.anchor.Some? then
        var shouldBeVisible := InView(o, t.anchor);
        if shouldBeVisible != t.inView then Tracker(o, t.anchor, shouldBeVisible)
        else Tracker(o, t.anchor, t.inView)
      else Tracker(o, t.anchor, t.inView)
  }

  /**
   * The fade the same sample requests: `ChooseFade` of the new flag when the flag flipped, and
   * nothing otherwise.
   */
  function SampleFade(t: Tracker, rotation: Option<Orientation>, opacity: real): (f: Fade)
    ensures f != NoFade ==> t.anchor.Some? && rotation.Some?
    ensures Sampled(t, rotation).inView != t.inView ==> f == ChooseFade(!t.inView, opacity)
    ensures Sampled(t, rotation).inView == t.inView ==> f == NoFade
  {
    match rotation
    case None => NoFade
    case Some(r) =>
      if t.anchor.Some? then
        var shouldBeVisible := InView(InDegrees(r), t.anchor);
        if shouldBeVisible != t.inView then ChooseFade(shouldBeVisible, opacity) else NoFade
      else NoFade
  }

  /**
   * Right after anchoring, a sample at the same orientation keeps the tracker as it is and
   * requests no fade.
   */
  lemma AnchorThenSameSample(t: Tracker, r: Orientation, opacity: real)
    requires InDegrees(r) == t.current
    ensures Sampled(AnchorHere(t), Some(r)) == AnchorHere(t)
    ensures SampleFade(AnchorHere(t), Some(r), opacity) == NoFade
  {
    AnchorIsInView(t.current);
  }

  /**
   * Anchoring while the panel has faded out to opacity 0 starts no fade-in, and neither do
   * samples at the anchor; the first fade-in comes only after the flag flips twice: a sample
   * away from the anchor sets it to hidden (still no fade, the opacity being 0), and a sample
   * back at the anchor sets it to visible and starts the fade to 1.
   */
  lemma FadedOutAnchorNeedsTwoFlips(t: Tracker, away: Orientation, back: Orientation)
    requires InDegrees(back) == t.current
    requires !InView(InDegrees(away), Some(t.current))
    ensures SampleFade(AnchorHere(t), Some(back), 0.0) == NoFade
    ensures var hidden := Sampled(AnchorHere(t), Some(away));
      && !hidden.inView && SampleFade(AnchorHere(t), Some(away), 0.0) == NoFade
      && Sampled(hidden, Some(back)).inView && SampleFade(hidden, Some(back), 0.0) == FadeTo(1.0)
  {
    AnchorIsInView(t.current);
  }

  /**
   * Anchored at {0, 10, 5} with the panel in view, a sample at beta 35, gamma 5 hides the panel
   * and, if the panel is showing at all, starts the fade-out.
   */
  lemma LookingAwayFadesOut(alpha: real, r: Orientation, opacity: real)
    requires InDegrees(r).beta == 35.0 && InDegrees(r).gamma == 5.0 && opacity > 0.0
    ensures var t := Tracker(Orientation(alpha, 10.0, 5.0), Some(Orientation(0.0, 10.0, 5.0)), true);
            !Sampled(t, Some(r)).inView && SampleFade(t, Some(r), opacity) == FadeTo(0.0)
  {
  }

  /** The tracker after a stream of motion samples, applied in order. */
  function Track(t: Tracker, samples: seq<Option<Orientation>>): Tracker
    decreases |samples|
  {
    if samples == [] then t else Track(Sampled(t, samples[0]), samples[1..])
  }

  /** Any stream of samples keeps the flag in agreement with the rule. */
  lemma {:induction false} TrackConsistent(t: Tracker, samples: seq<Option<Orientation>>)
    requires Consistent(t)
    ensures Consistent(Track(t, samples))
    decreases |samples|
  {
    if samples != [] {
      TrackConsistent(Sampled(t, samples[0]), samples[1..]);
    }
  }

  /** Samples never change the anchor: it is only ever replaced by a new anchor action. */
  lemma {:induction false} TrackKeepsAnchor(t: Tracker, samples: seq<Option<Orientation>>)
    ensures Track(t, samples).anchor == t.anchor
    decreases |samples|
  {
    if samples != [] {
      TrackKeepsAnchor(Sampled(t, samples[0]), samples[1..]);
    }
  }

  /** While unanchored the panel stays in view, whatever the samples. */
  lemma {:induction false} UnanchoredStaysInView(t: Tracker, samples: seq<Option<Orientation>>)
    requires t.anchor.None? && t.inView
    ensures Track(t, samples).inView
    decreases |samples|
  {
    if samples != [] {
      UnanchoredStaysInView(Sampled(t, samples[0]), samples[1..]);
    }
  }

  /** After a non-empty stream whose last entry is a sample, the flag is the rule's value for it. */
  lemma {:induction false} TrackEndsAtLastSample(t: Tracker, samples: seq<Option<Orientation>>, r: Orientation)
    requires t.anchor.Some?
    ensures Track(t, samples + [Some(r)]).inView == InView(InDegrees(r), t.anchor)
    decreases |samples|
  {
    if samples == [] {
      assert samples + [Some(r)] == [Some(r)];
    } else {
      assert (samples + [Some(r)])[1..] == samples[1..] + [Some(r)];
      TrackKeepsAnchor(t, [samples[0]]);
      TrackEndsAtLastSample(Sampled(t, samples[0]), samples[1..], r);
    }
  }
}
