/**
 * The blob filter of detect_balls (main.py): the contours of each colour's
 * mask, visited in the mask table's order, keep those whose area exceeds the
 * threshold and tag their bounding rectangle with the mask's colour. The
 * colour conversion, the masks and the contour search are outside the model:
 * their result is the input `Masks`.
 */
module Detection {

  import opened Quadrants

  /** The colour classes, one per mask. */
  datatype Color = Red | Yellow | DarkGreen | White

  /** The order in which the masks are visited (the mask table's insertion order). */
  const MaskOrder: seq<Color> := [Red, Yellow, DarkGreen, White]

  /** Position of a colour in MaskOrder. */
  function Rank(c: Color): nat
  {
    match c
    case Red => 0
    case Yellow => 1
    case DarkGreen => 2
    case White => 3
  }

  /** Contours with an area at or below this are noise. */
  const MinArea: real := 500.0

  /** One contour of a mask: its area and its bounding rectangle. */
  datatype Contour = Contour(area: real, box: Box)

  /** The contours found in each colour's mask. */
  datatype Masks = Masks(red: seq<Contour>, yellow: seq<Contour>, darkGreen: seq<Contour>, white: seq<Contour>)
  {
    function ContoursOf(c: Color): seq<Contour>
    {
      match c
      case Red => red
      case Yellow => yellow
      case DarkGreen => darkGreen
      case White => white
    }
  }

  /** A detected ball: the tuple (x, y, w, h, color). */
  datatype Ball = Ball(box: Box, color: Color)

  /** The area test; the boundary 500 itself is rejected. */
  predicate IsLarge(k: Contour)
  {
    k.area > MinArea
  }

  /** The balls one mask contributes, in contour order. */
  function Keep(cs: seq<Contour>, color: Color): (r: seq<Ball>)
    ensures |r| <= |cs|
  {
    if cs == [] then []
    else
      var k := cs[|cs| - 1];
      Keep(cs[..|cs| - 1], color) + (if IsLarge(k) then [Ball(k.box, color)] else [])
  }

  /** The balls the masks of `colors` contribute, mask after mask. */
  function Gather(m: Masks, colors: seq<Color>): (r: seq<Ball>)
    ensures forall b :: b in r ==>
      b.color in colors && exists k :: k in m.ContoursOf(b.color) && IsLarge(k) && k.box == b.box
  {
    if colors == [] then []
    else
      var init, c := colors[..|colors| - 1], colors[|colors| - 1];
      KeepSound(m.ContoursOf(c), c);
      assert colors == init + [c];
      Gather(m, init) + Keep(m.ContoursOf(c), c)
  }

  /** Everything detect_balls returns for one frame. */
  function Detections(m: Masks): (r: seq<Ball>)
    ensures forall b :: b in r ==> exists k :: k in m.ContoursOf(b.color) && IsLarge(k) && k.box == b.box
  {
    Gather(m, MaskOrder)
  }

  /** detect_balls' two nested loops, appending to `balls`. */
  method DetectBalls(m: Masks) returns (balls: seq<Ball>)
    ensures balls == Detections(m)
  {
    balls := [];
    for i := 0 to |MaskOrder|
      invariant balls == Gather(m, MaskOrder[..i])
    {
      var color := MaskOrder[i];
      var contours := m.ContoursOf(color);
      ghost var before := balls;
      for j := 0 to |contours|
        invariant balls == before + Keep(contours[..j], color)
      {
        KeepSnoc(contours, j, color);
        ghost var kept := Keep(contours[..j], color);
        if contours[j].area > MinArea {
          BallsAssociative(before, kept, [Ball(contours[j].box, color)]);
          balls := balls + [Ball(contours[j].box, color)];
        }
      }
      assert contours[..|contours|] == contours;
      GatherSnoc(m, MaskOrder, i);
    }
    assert MaskOrder[..|MaskOrder|] == MaskOrder;
  }

  lemma KeepSnoc(cs: seq<Contour>, j: nat, color: Color)
    requires j < |cs|
    ensures Keep(cs[..j + 1], color) ==
      Keep(cs[..j], color) + (if IsLarge(cs[j]) then [Ball(cs[j].box, color)] else [])
  {
    assert cs[..j + 1][..j] == cs[..j];
  }

  lemma GatherSnoc(m: Masks, colors: seq<Color>, i: nat)
    requires i < |colors|
    ensures Gather(m, colors[..i + 1]) == Gather(m, colors[..i]) + Keep(m.ContoursOf(colors[i]), colors[i])
  {
    assert colors[..i + 1][..i] == colors[..i];
  }

  lemma GatherPush(m: Masks, colors: seq<Color>, c: Color)
    ensures Gather(m, colors + [c]) == Gather(m, colors) + Keep(m.ContoursOf(c), c)
  {
    assert (colors + [c])[..|colors|] == colors;
  }

  // A generic sequence fact, stated apart only so that DetectBalls stays cheap for the solver.
  lemma BallsAssociative(a: seq<Ball>, b: seq<Ball>, c: seq<Ball>)
    ensures (a + b) + c == a + (b + c)
  {
  }

  /** One contour yields its ball exactly when its area is above the threshold. */
  lemma KeepSingle(k: Contour, color: Color)
    ensures Keep([k], color) == if IsLarge(k) then [Ball(k.box, color)] else []
  {
    assert [k][..0] == [];
  }

  /**
   * Keeping distributes over concatenation. With KeepSingle this fixes Keep
   * completely: one ball per large contour, in contour order, duplicates kept.
   */
  lemma {:induction false} KeepAppend(a: seq<Contour>, b: seq<Contour>, color: Color)
    ensures Keep(a + b, color) == Keep(a, color) + Keep(b, color)
  {
    if b == [] {
      assert a + b == a;
    } else {
      var init := b[..|b| - 1];
      KeepAppend(a, init, color);
      assert (a + b)[..|a + b| - 1] == a + init;
    }
  }

  /** Every kept ball comes from a contour above the threshold, and carries the mask's colour. */
  lemma {:induction false} KeepSound(cs: seq<Contour>, color: Color)
    ensures forall b :: b in Keep(cs, color) ==>
      b.color == color && exists k :: k in cs && IsLarge(k) && k.box == b.box
  {
    if cs != [] {
      var init := cs[..|cs| - 1];
      KeepSound(init, color);
      assert forall k :: k in init ==> k in cs;
    }
  }

  /** Every contour above the threshold yields a ball of the mask's colour. */
  lemma {:induction false} KeepComplete(cs: seq<Contour>, color: Color)
    ensures forall k :: k in cs && IsLarge(k) ==> Ball(k.box, color) in Keep(cs, color)
  {
    if cs != [] {
      var init := cs[..|cs| - 1];
      KeepComplete(init, color);
      assert cs == init + [cs[|cs| - 1]];
    }
  }

  /** The detections are the kept balls of the red, yellow, dark green and white masks, one mask after another. */
  lemma DetectionsByMask(m: Masks)
    ensures Detections(m) ==
      Keep(m.red, Red) + Keep(m.yellow, Yellow) + Keep(m.darkGreen, DarkGreen) + Keep(m.white, White)
  {
    assert Gather(m, [Red]) == Keep(m.red, Red) by {
      GatherPush(m, [], Red);
      assert [] + [Red] == [Red];
    }
    assert Gather(m, [Red, Yellow]) == Gather(m, [Red]) + Keep(m.yellow, Yellow) by {
      GatherPush(m, [Red], Yellow);
      assert [Red] + [Yellow] == [Red, Yellow];
    }
    assert Gather(m, [Red, Yellow, DarkGreen]) == Gather(m, [Red, Yellow]) + Keep(m.darkGreen, DarkGreen) by {
      GatherPush(m, [Red, Yellow], DarkGreen);
      assert [Red, Yellow] + [DarkGreen] == [Red, Yellow, DarkGreen];
    }
    assert Detections(m) == Gather(m, [Red, Yellow, DarkGreen]) + Keep(m.white, White) by {
      GatherPush(m, [Red, Yellow, DarkGreen], White);
      assert [Red, Yellow, DarkGreen] + [White] == MaskOrder;
    }
  }

  /** A ball is detected exactly when a large contour of its colour's mask has its box. */
  lemma DetectionsExact(m: Masks, b: Ball)
    ensures b in Detections(m) <==>
      exists k :: k in m.ContoursOf(b.color) && IsLarge(k) && k.box == b.box
  {
    GatherExact(m, MaskOrder, b);
  }

  lemma {:induction false} GatherExact(m: Masks, colors: seq<Color>, b: Ball)
    requires forall i, j :: 0 <= i < j < |colors| ==> colors[i] != colors[j]
    ensures b in Gather(m, colors) <==>
      b.color in colors && exists k :: k in m.ContoursOf(b.color) && IsLarge(k) && k.box == b.box
  {
    if colors != [] {
      var init := colors[..|colors| - 1];
      var c := colors[|colors| - 1];
      GatherExact(m, init, b);
      KeepSound(m.ContoursOf(c), c);
      KeepComplete(m.ContoursOf(c), c);
      assert colors == init + [c];
    }
  }

  /** The output is grouped by colour in mask order: red, yellow, dark green, white. */
  lemma DetectionsGrouped(m: Masks)
    ensures forall i, j :: 0 <= i < j < |Detections(m)| ==>
      Rank(Detections(m)[i].color) <= Rank(Detections(m)[j].color)
  {
    GatherGrouped(m, MaskOrder);
  }

  lemma {:induction false} GatherGrouped(m: Masks, colors: seq<Color>)
    requires forall i, j :: 0 <= i < j < |colors| ==> Rank(colors[i]) < Rank(colors[j])
    ensures forall i, j :: 0 <= i < j < |Gather(m, colors)| ==>
      Rank(Gather(m, colors)[i].color) <= Rank(Gather(m, colors)[j].color)
  {
    if colors != [] {
      var init := colors[..|colors| - 1];
      var c := colors[|colors| - 1];
      GatherGrouped(m, init);
      KeepSound(m.ContoursOf(c), c);
      var g, k := Gather(m, init), Keep(m.ContoursOf(c), c);
      assert forall b :: b in g ==> Rank(b.color) < Rank(c);
      forall i, j | 0 <= i < j < |g + k|
        ensures Rank((g + k)[i].color) <= Rank((g + k)[j].color)
      {
        if j < |g| {
        } else if i < |g| {
          assert g[i] in g && k[j - |g|] in k;
        } else {
          assert k[i - |g|] in k && k[j - |g|] in k;
        }
      }
    }
  }

  /** Masks without a contour above the threshold (empty masks included) give no detection. */
  lemma DetectionsNone(m: Masks)
    requires forall c, k :: k in m.ContoursOf(c) ==> !IsLarge(k)
    ensures Detections(m) == []
  {
    if Detections(m) != [] {
      DetectionsExact(m, Detections(m)[0]);
    }
  }
}
