/** End-to-end scenarios of the tracker, proved as lemmas. */
module Scenarios {

  import opened Wrappers
  import opened Quadrants
  import opened Detection
  import opened Transitions

  /** A red ball centred at (10, 10), then at (90, 10) a second later, in a 100x100 frame: one Exit from quadrant 1. */
  lemma RedCrossesVerticalMidline()
    ensures var first := FrameSightings([Ball(Box(5, 5, 10, 10), Red)], 100, 100, 0.0);
      var second := FrameSightings([Ball(Box(85, 5, 10, 10), Red)], 100, 100, 1.0);
      Replay(map[], first + second).events == [Event(1.0, Some(1), Red, Exit)]
  {
    var first := FrameSightings([Ball(Box(5, 5, 10, 10), Red)], 100, 100, 0.0);
    var second := FrameSightings([Ball(Box(85, 5, 10, 10), Red)], 100, 100, 1.0);
    assert first == [Sighting(Red, Some(1), 0.0)];
    assert second == [Sighting(Red, Some(2), 1.0)];
    ReplayAppend(map[], first, second);
  }

  /** Two colours changing quadrant in the same frame each write their own row, in detection order. */
  lemma TwoColoursMoveTogether(t: real)
    ensures var before := map[Red := Some(1), Yellow := Some(3)];
      var frame := FrameSightings([Ball(Box(70, 0, 20, 20), Red), Ball(Box(70, 70, 20, 20), Yellow)], 100, 100, t);
      Replay(before, frame).events == [Event(t, Some(1), Red, Exit), Event(t, Some(3), Yellow, Exit)]
  {
    var frame := FrameSightings([Ball(Box(70, 0, 20, 20), Red), Ball(Box(70, 70, 20, 20), Yellow)], 100, 100, t);
    assert frame == [Sighting(Red, Some(2), t), Sighting(Yellow, Some(4), t)];
    var before := map[Red := Some(1), Yellow := Some(3)];
    var red, yellow := [Sighting(Red, Some(2), t)], [Sighting(Yellow, Some(4), t)];
    assert frame == red + yellow;
    ReplayAppend(before, red, yellow);
    var mid := Replay(before, red);
    assert mid.events == [Event(t, Some(1), Red, Exit)];
    assert mid.positions == map[Red := Some(2), Yellow := Some(3)];
    assert Replay(mid.positions, yellow).events == [Event(t, Some(3), Yellow, Exit)];
  }

  /** A video in which no mask ever has a contour above the threshold writes only the header. */
  lemma {:induction false} QuietVideo(frames: seq<Frame>, width: int, height: int)
    requires forall i, c, k :: 0 <= i < |frames| && k in frames[i].masks.ContoursOf(c) ==> !IsLarge(k)
    ensures VideoSightings(frames, width, height) == []
    ensures Replay(map[], VideoSightings(frames, width, height)).events == []
  {
    if frames != [] {
      var f := frames[|frames| - 1];
      QuietVideo(frames[..|frames| - 1], width, height);
      DetectionsNone(f.masks);
    }
  }
}
