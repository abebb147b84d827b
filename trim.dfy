/**
 * The trim selector: the in and out points of the exported range, in
 * seconds. Each point is clamped against the other with a fixed margin, and
 * both are reset whenever the player reports a new duration. Times are exact
 * reals; the three-significant-digit labels the window shows are not part
 * of this model.
 */
module Trim {

  /** The gap, in seconds, that a clamped point keeps from the other one. */
  const Margin: real := 0.01

  /** A player position in milliseconds as seconds. */
  function Seconds(ms: real): (s: real)
    ensures s * 1000.0 == ms
  {
    ms / 1000.0
  }

  /** The new start point for a candidate position: kept when it lies
      before the end point, otherwise pinned one margin before the end. */
  function ClampStart(candidate: real, end: real): (start: real)
    ensures start < end
    ensures candidate < end ==> start == candidate
    ensures candidate >= end ==> end - start == Margin
  {
    if candidate >= end then end - Margin else candidate
  }

  /** The new end point for a candidate position: kept when it lies after
      the start point, otherwise pinned one margin after the start. */
  function ClampEnd(candidate: real, start: real): (end: real)
    ensures start < end
    ensures candidate > start ==> end == candidate
    ensures candidate <= start ==> end - start == Margin
  {
    if candidate <= start then start + Margin else candidate
  }

  /** Setting the start twice from the same position changes nothing more. */
  lemma ClampStartIdempotent(candidate: real, end: real)
    ensures ClampStart(ClampStart(candidate, end), end) == ClampStart(candidate, end)
  {
  }

  lemma ClampEndIdempotent(candidate: real, start: real)
    ensures ClampEnd(ClampEnd(candidate, start), start) == ClampEnd(candidate, start)
  {
  }

  /** The start is not kept at or above zero: with an end below one margin
      (a media shorter than 10 ms), pinning yields a negative start. */
  lemma ClampStartCanBeNegative()
    ensures ClampStart(0.005, 0.005) < 0.0
  {
  }
}
