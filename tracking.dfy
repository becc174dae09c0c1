/**
 * The tracking state of process_video (main.py): the dictionary
 * `last_positions`, updated in place, and the event log the CSV writer
 * receives, as a class whose methods are proved against module Transitions.
 */
module Tracking {

  import opened Wrappers
  import opened Quadrants
  import opened Detection
  import opened Transitions

  class Tracker {
    /** The frame size read from the capture, fixed for the run. */
    const width: int
    const height: int
    /** `last_positions`. */
    var positions: Positions
    /** The rows written after the header, in order. */
    var log: seq<Event>

    /** Only genuine quadrants are recorded, and every row written is an Exit from one. */
    ghost predicate Valid()
      reads this
    {
      AllQuadrants(positions) &&
      forall i :: 0 <= i < |log| ==> log[i].kind == Exit && IsQuadrant(log[i].quadrant)
    }

    /** A run starts with an empty map and an empty log: no rows after the header. */
    constructor (width: int, height: int)
      ensures this.width == width && this.height == height
      ensures positions == map[] && log == []
      ensures Valid()
    {
      this.width := width;
      this.height := height;
      positions := map[];
      log := [];
    }

    /** The body of the detection loop for one ball whose centroid is (cx, cy). */
    method Observe(color: Color, cx: int, cy: int, t: real)
      requires Valid()
      modifies this
      ensures Valid()
      ensures var s := Sighting(color, CheckQuadrant(cx, cy, width, height), t);
        positions == Step(old(positions), s).positions && log == old(log) + Step(old(positions), s).events
      ensures color !in old(positions) ==>
        positions == old(positions)[color := CheckQuadrant(cx, cy, width, height)] && log == old(log)
      ensures color in old(positions) && old(positions)[color] == CheckQuadrant(cx, cy, width, height) ==>
        positions == old(positions) && log == old(log)
      ensures color in old(positions) && old(positions)[color] != CheckQuadrant(cx, cy, width, height) ==>
        positions == old(positions)[color := CheckQuadrant(cx, cy, width, height)] &&
        log == old(log) + [Event(t, old(positions)[color], color, Exit)]
    {
      var q := CheckQuadrant(cx, cy, width, height);
      if color !in positions {
        positions := positions[color := q];
      } else if positions[color] != q {
        var kind := if positions[color].Some? then Exit else Entry;
        log := log + [Event(t, positions[color], color, kind)];
        positions := positions[color := q];
      }
    }

    /** The detection loop over one frame's balls, in list order, all stamped with the frame's time. */
    method ProcessFrame(balls: seq<Ball>, t: real)
      requires Valid()
      modifies this
      ensures Valid()
      ensures var r := Replay(old(positions), FrameSightings(balls, width, height, t));
        positions == r.positions && log == old(log) + r.events
    {
      ghost var start, written := positions, log;
      for i := 0 to |balls|
        invariant Valid()
        invariant positions == Replay(start, FrameSightings(balls[..i], width, height, t)).positions
        invariant log == written + Replay(start, FrameSightings(balls[..i], width, height, t)).events
      {
        var c := Centroid(balls[i].box);
        ghost var done := FrameSightings(balls[..i], width, height, t);
        ghost var s := Sighting(balls[i].color, CheckQuadrant(c.0, c.1, width, height), t);
        FrameSightingsSnoc(balls, i, width, height, t);
        ReplaySnoc(start, done, s);
        ghost var prior := Replay(start, done);
        ghost var step := Step(prior.positions, s);
        assert positions == prior.positions;
        ghost var before := log;
        Observe(balls[i].color, c.0, c.1, t);
        assert positions == step.positions && log == before + step.events;
        EventsAssociative(written, prior.events, step.events);
      }
      assert balls[..|balls|] == balls;
    }
  }

  /**
   * process_video's frame loop: one tracker for the run; each frame's
   * detections are fed to it in detection order. Returns the rows of the
   * event log after its header.
   */
  method ProcessVideo(frames: seq<Frame>, width: int, height: int) returns (events: seq<Event>)
    ensures events == Replay(map[], VideoSightings(frames, width, height)).events
    ensures forall i :: 0 <= i < |events| ==> events[i].kind == Exit && IsQuadrant(events[i].quadrant)
  {
    var tracker := new Tracker(width, height);
    for i := 0 to |frames|
      invariant tracker.width == width && tracker.height == height
      invariant tracker.Valid()
      invariant var r := Replay(map[], VideoSightings(frames[..i], width, height));
        tracker.positions == r.positions && tracker.log == r.events
    {
      var balls := DetectBalls(frames[i].masks);
      ghost var done := VideoSightings(frames[..i], width, height);
      ghost var frame := FrameSightings(balls, width, height, frames[i].time);
      VideoSightingsSnoc(frames, i, width, height);
      ReplayAppend(map[], done, frame);
      tracker.ProcessFrame(balls, frames[i].time);
    }
    assert frames[..|frames|] == frames;
    events := tracker.log;
  }
}
