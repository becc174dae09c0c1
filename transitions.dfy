/**
 * What the detection loop of process_video (main.py) does to the map
 * `last_positions` and to the event log, as functions of the sightings it
 * consumes. The tracker class in module Tracking is proved against these.
 */
module Transitions {

  import opened Wrappers
  import opened Quadrants
  import opened Detection

  /** The `Type` column of the log. */
  datatype EventKind = Entry | Exit

  /** One log row: Time, Quadrant Number (the quadrant left), Ball Colour, Type. */
  datatype Event = Event(time: real, quadrant: Option<int>, color: Color, kind: EventKind)

  /** One detection as the tracker sees it: colour, classified quadrant, frame time. */
  datatype Sighting = Sighting(color: Color, quadrant: Option<int>, time: real)

  /** `last_positions`: colour to the quadrant last recorded for it. */
  type Positions = map<Color, Option<int>>

  /** The map together with the rows a run of the loop has written. */
  datatype Outcome = Outcome(positions: Positions, events: seq<Event>)

  /** Every recorded quadrant is one of 1..4 (never `None`). */
  predicate AllQuadrants(p: Positions)
  {
    forall c :: c in p ==> IsQuadrant(p[c])
  }

  /**
   * One pass of the loop body: a colour seen for the first time is recorded
   * silently; a colour seen in its recorded quadrant changes nothing; a colour
   * seen elsewhere writes one row about the quadrant it left and is recorded in
   * the new one.
   */
  function Step(p: Positions, s: Sighting): (r: Outcome)
    ensures r.positions == p[s.color := s.quadrant]
    ensures |r.events| <= 1
    ensures r.events != [] <==> s.color in p && p[s.color] != s.quadrant
    ensures forall e :: e in r.events ==>
      e.time == s.time && e.color == s.color && e.quadrant == p[s.color]
    ensures AllQuadrants(p) ==> forall e :: e in r.events ==> e.kind == Exit
  {
    if s.color !in p then
      Outcome(p[s.color := s.quadrant], [])
    else if p[s.color] != s.quadrant then
      var previous := p[s.color];
      var kind := if previous.Some? then Exit else Entry;
      Outcome(p[s.color := s.quadrant], [Event(s.time, previous, s.color, kind)])
    else
      Outcome(p, [])
  }

  /** The loop over a list of sightings, in list order. */
  function Replay(p: Positions, ss: seq<Sighting>): (r: Outcome)
    ensures |r.events| <= |ss|
    ensures p.Keys <= r.positions.Keys
  {
    if ss == [] then Outcome(p, [])
    else
      var prior := Replay(p, ss[..|ss| - 1]);
      var step := Step(prior.positions, ss[|ss| - 1]);
      Outcome(step.positions, prior.events + step.events)
  }

  /** The sightings of one frame's balls: each ball's centroid classified against the frame. */
  function FrameSightings(balls: seq<Ball>, width: int, height: int, t: real): (r: seq<Sighting>)
    ensures |r| == |balls|
    ensures forall i :: 0 <= i < |balls| ==>
      r[i] == Sighting(balls[i].color,
                       CheckQuadrant(Centroid(balls[i].box).0, Centroid(balls[i].box).1, width, height), t)
  {
    if balls == [] then []
    else
      var b := balls[|balls| - 1];
      var c := Centroid(b.box);
      FrameSightings(balls[..|balls| - 1], width, height, t) + [Sighting(b.color, CheckQuadrant(c.0, c.1, width, height), t)]
  }

  lemma FrameSightingsSnoc(balls: seq<Ball>, i: nat, width: int, height: int, t: real)
    requires i < |balls|
    ensures var c := Centroid(balls[i].box);
      FrameSightings(balls[..i + 1], width, height, t) ==
        FrameSightings(balls[..i], width, height, t) + [Sighting(balls[i].color, CheckQuadrant(c.0, c.1, width, height), t)]
  {
    assert balls[..i + 1][..i] == balls[..i];
  }

  /** A frame as the loop of process_video receives it: its masks' contours and its time. */
  datatype Frame = Frame(masks: Masks, time: real)

  /** All sightings of a run, frame after frame. */
  function VideoSightings(frames: seq<Frame>, width: int, height: int): (r: seq<Sighting>)
    ensures forall s :: s in r ==>
      IsQuadrant(s.quadrant) && exists i :: 0 <= i < |frames| && frames[i].time == s.time
  {
    if frames == [] then []
    else
      var f := frames[|frames| - 1];
      VideoSightings(frames[..|frames| - 1], width, height) + FrameSightings(Detections(f.masks), width, height, f.time)
  }

  lemma VideoSightingsSnoc(frames: seq<Frame>, i: nat, width: int, height: int)
    requires i < |frames|
    ensures VideoSightings(frames[..i + 1], width, height) ==
      VideoSightings(frames[..i], width, height) + FrameSightings(Detections(frames[i].masks), width, height, frames[i].time)
  {
    assert frames[..i + 1][..i] == frames[..i];
  }

  /** The quadrants recorded for `c`, in order: its entry in `p` if any, then each sighting of `c`. */
  function History(p: Positions, c: Color, ss: seq<Sighting>): seq<Option<int>>
  {
    (if c in p then [p[c]] else []) + QuadrantsOf(c, ss)
  }

  function QuadrantsOf(c: Color, ss: seq<Sighting>): seq<Option<int>>
  {
    if ss == [] then []
    else
      var s := ss[|ss| - 1];
      QuadrantsOf(c, ss[..|ss| - 1]) + (if s.color == c then [s.quadrant] else [])
  }

  /** Reference definition: the value left at each change between consecutive entries of `qs`. */
  function Departures(qs: seq<Option<int>>): seq<Option<int>>
  {
    if |qs| < 2 then []
    else
      Departures(qs[..|qs| - 1]) + (if qs[|qs| - 2] != qs[|qs| - 1] then [qs[|qs| - 2]] else [])
  }

  /** The Quadrant Number column of the rows about colour `c`, in log order. */
  function VacatedBy(c: Color, es: seq<Event>): seq<Option<int>>
  {
    if es == [] then []
    else
      var e := es[|es| - 1];
      VacatedBy(c, es[..|es| - 1]) + (if e.color == c then [e.quadrant] else [])
  }

  /** Processing a list in two parts is processing it whole: rows follow list order. */
  lemma {:induction false} ReplayAppend(p: Positions, a: seq<Sighting>, b: seq<Sighting>)
    ensures Replay(p, a + b) ==
      var first := Replay(p, a);
      var second := Replay(first.positions, b);
      Outcome(second.positions, first.events + second.events)
  {
    if b == [] {
      assert a + b == a;
    } else {
      var init, s := b[..|b| - 1], b[|b| - 1];
      ReplayAppend(p, a, init);
      DropLastOfAppend(a, b);
      var first := Replay(p, a);
      var middle := Replay(first.positions, init);
      EventsAssociative(first.events, middle.events, Step(middle.positions, s).events);
    }
  }

  // Generic sequence facts, stated apart only so that the proofs using them stay cheap for the solver.
  lemma DropLastOfAppend(a: seq<Sighting>, b: seq<Sighting>)
    requires b != []
    ensures (a + b)[..|a + b| - 1] == a + b[..|b| - 1]
    ensures (a + b)[|a + b| - 1] == b[|b| - 1]
  {
  }

  lemma EventsAssociative(a: seq<Event>, b: seq<Event>, c: seq<Event>)
    ensures (a + b) + c == a + (b + c)
  {
  }

  lemma ReplaySnoc(p: Positions, ss: seq<Sighting>, s: Sighting)
    ensures Replay(p, ss + [s]) ==
      var prior := Replay(p, ss);
      var step := Step(prior.positions, s);
      Outcome(step.positions, prior.events + step.events)
  {
    assert (ss + [s])[..|ss|] == ss;
  }

  /** Last wins: a colour is in the map after the list exactly when it has a history, and holds its last entry. */
  lemma {:induction false} ReplayLastWins(p: Positions, ss: seq<Sighting>, c: Color)
    ensures var r := Replay(p, ss).positions;
      var h := History(p, c, ss);
      (c in r <==> h != []) && (c in r ==> r[c] == h[|h| - 1])
  {
    if ss != [] {
      ReplayLastWins(p, ss[..|ss| - 1], c);
      HistorySnoc(p, c, ss);
    }
  }

  /** A colour the list never mentions keeps its entry, or stays absent. */
  lemma ReplayAbsent(p: Positions, ss: seq<Sighting>, c: Color)
    requires forall i :: 0 <= i < |ss| ==> ss[i].color != c
    ensures var r := Replay(p, ss).positions;
      (c in r <==> c in p) && (c in p ==> r[c] == p[c])
  {
    QuadrantsOfAbsent(c, ss);
    ReplayLastWins(p, ss, c);
  }

  lemma {:induction false} QuadrantsOfAbsent(c: Color, ss: seq<Sighting>)
    requires forall i :: 0 <= i < |ss| ==> ss[i].color != c
    ensures QuadrantsOf(c, ss) == []
  {
    if ss != [] {
      QuadrantsOfAbsent(c, ss[..|ss| - 1]);
    }
  }

  /** The last sighting of a colour in the list decides its entry. */
  lemma ReplayLastSighting(p: Positions, ss: seq<Sighting>, i: nat)
    requires i < |ss|
    requires forall j :: i < j < |ss| ==> ss[j].color != ss[i].color
    ensures ss[i].color in Replay(p, ss).positions
    ensures Replay(p, ss).positions[ss[i].color] == ss[i].quadrant
  {
    var a, b := ss[..i + 1], ss[i + 1..];
    assert ss == a + b;
    ReplayAppend(p, a, b);
    var mid := Replay(p, a).positions;
    assert a[..|a| - 1] == ss[..i];
    assert mid == Replay(p, ss[..i]).positions[ss[i].color := ss[i].quadrant];
    ReplayAbsent(mid, b, ss[i].color);
  }

  lemma {:induction false} VacatedByAppend(c: Color, a: seq<Event>, b: seq<Event>)
    ensures VacatedBy(c, a + b) == VacatedBy(c, a) + VacatedBy(c, b)
  {
    if b == [] {
      assert a + b == a;
    } else {
      VacatedByAppend(c, a, b[..|b| - 1]);
      assert (a + b)[..|a + b| - 1] == a + b[..|b| - 1];
    }
  }

  lemma DeparturesSnoc(qs: seq<Option<int>>, q: Option<int>)
    ensures Departures(qs + [q]) ==
      Departures(qs) + (if qs != [] && qs[|qs| - 1] != q then [qs[|qs| - 1]] else [])
  {
    if qs != [] {
      assert (qs + [q])[..|qs|] == qs;
    }
  }

  /** The Quadrant Number entries one step writes about colour `c`. */
  lemma VacatedByStep(p: Positions, s: Sighting, c: Color)
    ensures VacatedBy(c, Step(p, s).events) ==
      if s.color == c && c in p && p[c] != s.quadrant then [p[c]] else []
  {
    var es := Step(p, s).events;
    if es != [] {
      assert es == [] + [es[0]];
    }
  }

  lemma HistorySnoc(p: Positions, c: Color, ss: seq<Sighting>)
    requires ss != []
    ensures History(p, c, ss) ==
      History(p, c, ss[..|ss| - 1]) + (if ss[|ss| - 1].color == c then [ss[|ss| - 1].quadrant] else [])
  {
  }

  /**
   * Per colour, the rows written are exactly one per change between
   * consecutive recorded quadrants, each naming the quadrant left.
   */
  lemma {:induction false} ReplayEventsPerColour(p: Positions, ss: seq<Sighting>, c: Color)
    ensures VacatedBy(c, Replay(p, ss).events) == Departures(History(p, c, ss))
  {
    if ss != [] {
      var init, s := ss[..|ss| - 1], ss[|ss| - 1];
      var prior := Replay(p, init);
      var step := Step(prior.positions, s);
      var h := History(p, c, init);
      assert Replay(p, ss).events == prior.events + step.events;
      ReplayEventsPerColour(p, init, c);
      ReplayLastWins(p, init, c);
      VacatedByAppend(c, prior.events, step.events);
      VacatedByStep(prior.positions, s, c);
      HistorySnoc(p, c, ss);
      if s.color == c {
        DeparturesSnoc(h, s.quadrant);
        assert (c in prior.positions <==> h != []) && (c in prior.positions ==> prior.positions[c] == h[|h| - 1]);
        assert History(p, c, ss) == h + [s.quadrant];
      } else {
        assert History(p, c, ss) == h;
      }
    }
  }

  /** Hence the number of rows about a colour is the number of its quadrant changes. */
  lemma ReplayEventCount(p: Positions, ss: seq<Sighting>, c: Color)
    ensures |VacatedBy(c, Replay(p, ss).events)| == |Departures(History(p, c, ss))|
  {
    ReplayEventsPerColour(p, ss, c);
  }

  /** If the map and every sighting hold genuine quadrants, so does the result, and every row is an Exit. */
  lemma {:induction false} ReplayOnlyExits(p: Positions, ss: seq<Sighting>)
    requires AllQuadrants(p)
    requires forall i :: 0 <= i < |ss| ==> IsQuadrant(ss[i].quadrant)
    ensures AllQuadrants(Replay(p, ss).positions)
    ensures forall e :: e in Replay(p, ss).events ==> e.kind == Exit && IsQuadrant(e.quadrant)
  {
    if ss != [] {
      var init := ss[..|ss| - 1];
      ReplayOnlyExits(p, init);
    }
  }

  /** A second identical sighting right after the first writes nothing and changes nothing. */
  lemma StepIdempotent(p: Positions, s: Sighting)
    ensures var once := Step(p, s);
      Step(once.positions, s) == Outcome(once.positions, [])
  {
  }
}
