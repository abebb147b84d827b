/**
 * The playback rules of giffer's main window over the media player's
 * position (milliseconds), duration (milliseconds) and play state.
 */
module Playback {

  datatype PlayerState = PlayerState(position: real, duration: real, playing: bool)

  /** The keys the main window reacts to; every other key is `OtherKey`. */
  datatype Key = KeyD | KeyE | KeyLeft | KeyRight | KeyPeriod | KeyComma | OtherKey

  /** The longest arrow-key jump, in milliseconds. */
  const MaxSkip: real := 5000.0

  /** The arrow-key skip range for a duration: a tenth of it, at most 5 s. */
  function SkipRange(duration: real): (r: real)
    ensures r <= MaxSkip && r <= duration / 10.0
    ensures r == MaxSkip || r == duration / 10.0
    ensures duration >= 0.0 ==> r >= 0.0
  {
    if duration / 10.0 > MaxSkip then MaxSkip else duration / 10.0
  }

  /** Pause when playing, play otherwise. */
  function Toggle(s: PlayerState): (r: PlayerState)
    ensures r.playing != s.playing
    ensures r.position == s.position && r.duration == s.duration
  {
    if s.playing then s.(playing := false) else s.(playing := true)
  }

  /** Pause when playing; a paused player stays as it is. */
  function Pause(s: PlayerState): (r: PlayerState)
    ensures !r.playing
    ensures r.position == s.position && r.duration == s.duration
  {
    if s.playing then s.(playing := false) else s
  }

  /** Skip forward by `amount`, pausing first when `pause` is set. The cap
      to the duration is tested on the old position, inside a branch where
      that position lies below the duration, so it never applies. */
  function SkipForward(s: PlayerState, amount: real, pause: bool): (r: PlayerState)
    ensures r.playing == (s.playing && !pause) && r.duration == s.duration
    ensures s.position < s.duration ==> r.position == s.position + amount
    ensures s.position >= s.duration ==> r.position == s.position
  {
    var t := if pause then Pause(s) else s;
    if t.position < t.duration then
      var next := t.position + amount;
      var capped := if t.position > t.duration then t.duration else next;
      t.(position := capped)
    else t
  }

  /** Skip backward by `amount`, pausing first when `pause` is set; never
      below zero, and nothing moves from a position at or below zero. */
  function SkipBackward(s: PlayerState, amount: real, pause: bool): (r: PlayerState)
    ensures r.playing == (s.playing && !pause) && r.duration == s.duration
    ensures s.position <= 0.0 ==> r.position == s.position
    ensures s.position > 0.0 ==> r.position >= 0.0
    ensures s.position > 0.0 && amount <= s.position ==> r.position == s.position - amount
    ensures s.position > 0.0 && amount > s.position ==> r.position == 0.0
  {
    var t := if pause then Pause(s) else s;
    if t.position > 0.0 then
      var next := t.position - amount;
      t.(position := if next < 0.0 then 0.0 else next)
    else t
  }

  /** The keyboard shortcuts: D toggles play, E rewinds to the start, the
      arrows jump by the skip range without pausing, and period and comma
      pause and step one frame. */
  function OnKey(s: PlayerState, key: Key, skipRange: real, frameMs: real): (r: PlayerState)
    ensures r.duration == s.duration
    ensures key == KeyE ==> r == s.(position := 0.0)
    ensures key == OtherKey ==> r == s
    ensures key in {KeyPeriod, KeyComma} ==> !r.playing
    ensures key in {KeyLeft, KeyRight, KeyE} ==> r.playing == s.playing
    ensures key == KeyD ==> r.playing != s.playing && r.position == s.position
    ensures key in {KeyRight, KeyPeriod} && s.position >= s.duration ==> r.position == s.position
    ensures key == KeyRight && s.position < s.duration ==> r.position == s.position + skipRange
    ensures key == KeyPeriod && s.position < s.duration ==> r.position == s.position + frameMs
    ensures key in {KeyLeft, KeyComma} && s.position <= 0.0 ==> r.position == s.position
    ensures key == KeyLeft && s.position > 0.0 ==>
              r.position == (if skipRange <= s.position then s.position - skipRange else 0.0)
    ensures key == KeyComma && s.position > 0.0 ==>
              r.position == (if frameMs <= s.position then s.position - frameMs else 0.0)
  {
    match key
    case KeyD => Toggle(s)
    case KeyE => s.(position := 0.0)
    case KeyLeft => SkipBackward(s, skipRange, false)
    case KeyRight => SkipForward(s, skipRange, false)
    case KeyPeriod => SkipForward(s, frameMs, true)
    case KeyComma => SkipBackward(s, frameMs, true)
    case OtherKey => s
  }

  /** Toggling twice gives back the original state. */
  lemma ToggleTwice(s: PlayerState)
    ensures Toggle(Toggle(s)) == s
  {
  }

  /** With non-negative jump lengths, no shortcut takes a non-negative
      position below zero. */
  lemma KeysKeepPositionNonNegative(s: PlayerState, key: Key, skipRange: real, frameMs: real)
    requires s.position >= 0.0 && skipRange >= 0.0 && frameMs >= 0.0
    ensures OnKey(s, key, skipRange, frameMs).position >= 0.0
  {
  }

  /** Skipping forward is not bounded by the duration: from just before the
      end, a full jump lands past it. */
  lemma SkipForwardPassesEnd()
    ensures SkipForward(PlayerState(9000.0, 10000.0, true), SkipRange(10000.0), false).position == 10000.0
    ensures SkipForward(PlayerState(9999.0, 10000.0, true), SkipRange(10000.0), false).position > 10000.0
  {
  }
}
