/** The fade formulas of the crossfade: a clamp into [0,1] and the fade-out and
    fade-in factors as functions of the time a slot has spent fading. */
module Fades {

  function Dist(x: real, y: real): real {
    if x <= y then y - x else x - y
  }

  /** Mathf.Clamp01: `x` moved into [0,1]. */
  function Clamp01(x: real): (r: real)
    ensures 0.0 <= r <= 1.0
    ensures 0.0 <= x <= 1.0 ==> r == x
  {
    if x < 0.0 then 0.0 else if x > 1.0 then 1.0 else x
  }

  /** The clamp is the point of [0,1] nearest to `x`. */
  lemma Clamp01Nearest(x: real)
    ensures forall y :: 0.0 <= y <= 1.0 ==> Dist(Clamp01(x), x) <= Dist(y, x)
  {
  }

  lemma Clamp01Monotone(x: real, y: real)
    requires x <= y
    ensures Clamp01(x) <= Clamp01(y)
  {
  }

  /** The factor of a slot that has been fading out for `time` seconds of a
      fade lasting `fadeOutTime`: full at the start, silent from the end on. */
  function FadeOutFactor(time: real, fadeOutTime: real): (r: real)
    requires fadeOutTime > 0.0
    ensures 0.0 <= r <= 1.0
    ensures r <= 0.0 <==> time >= fadeOutTime
    ensures r >= 1.0 <==> time <= 0.0
  {
    DivisionAgainstOne(time, fadeOutTime);
    1.0 - Clamp01(time / fadeOutTime)
  }

  /** The factor of a slot that has been fading in for `time` seconds of a
      fade lasting `fadeInTime`: silent at the start, full from the end on. */
  function FadeInFactor(time: real, fadeInTime: real): (r: real)
    requires fadeInTime > 0.0
    ensures 0.0 <= r <= 1.0
    ensures r >= 1.0 <==> time >= fadeInTime
    ensures r <= 0.0 <==> time <= 0.0
  {
    DivisionAgainstOne(time, fadeInTime);
    Clamp01(time / fadeInTime)
  }

  lemma DivisionAgainstOne(time: real, span: real)
    requires span > 0.0
    ensures time / span >= 1.0 <==> time >= span
    ensures time / span <= 0.0 <==> time <= 0.0
  {
    assert time == (time / span) * span;
  }

  lemma DivisionMonotone(t: real, t': real, span: real)
    requires span > 0.0 && t <= t'
    ensures t / span <= t' / span
  {
    assert t' / span - t / span == (t' - t) / span;
  }

  /** Fading out never gets louder as time passes. */
  lemma FadeOutNonIncreasing(t: real, t': real, fadeOutTime: real)
    requires fadeOutTime > 0.0 && t <= t'
    ensures FadeOutFactor(t', fadeOutTime) <= FadeOutFactor(t, fadeOutTime)
  {
    DivisionMonotone(t, t', fadeOutTime);
    Clamp01Monotone(t / fadeOutTime, t' / fadeOutTime);
  }

  /** Fading in never gets quieter as time passes. */
  lemma FadeInNonDecreasing(t: real, t': real, fadeInTime: real)
    requires fadeInTime > 0.0 && t <= t'
    ensures FadeInFactor(t, fadeInTime) <= FadeInFactor(t', fadeInTime)
  {
    DivisionMonotone(t, t', fadeInTime);
    Clamp01Monotone(t / fadeInTime, t' / fadeInTime);
  }

  /** With equal fade lengths, the two factors of a crossfade that started at
      the same moment always add up to full volume. */
  lemma CrossfadeSumsToOne(time: real, fadeTime: real)
    requires fadeTime > 0.0
    ensures FadeOutFactor(time, fadeTime) + FadeInFactor(time, fadeTime) == 1.0
  {
  }
}
