/** The draw primitives of one frame (eyes.py, the body of the `canvas` block
    in `Eyes.draw`): their coordinates, not the pixels. */
module EyesFrame {
  import opened EyesGeometry
  import opened EyesSpec

  datatype Point = Point(x: real, y: real)

  datatype Fill = White | Black

  datatype Primitive =
    | RoundedRectangle(topLeft: Point, bottomRight: Point, radius: real, fill: Fill)
    | Polygon(vertices: seq<Point>, fill: Fill)

  /** A rounded rectangle whose corners are in order: the only kind a drawing
      library can fill. */
  predicate WellFormed(p: Primitive) {
    p.RoundedRectangle? ==> p.topLeft.x <= p.bottomRight.x && p.topLeft.y <= p.bottomRight.y
  }

  /** The white body of an eye. */
  function EyeBody(e: Eye): Primitive {
    RoundedRectangle(Point(e.x, e.y), Point(e.x + e.w, e.y + e.h), DefaultEyeRadius, White)
  }

  /** The black upper lid: from 2 above and 2 beside the eye down to its two cut-offs. */
  function UpperLid(e: Eye): Primitive {
    Polygon([Point(e.x - 2.0, e.y - 2.0), Point(e.x + e.w + 2.0, e.y - 2.0),
             Point(e.x + e.w + 2.0, e.eyelidHR - 1.0), Point(e.x - 2.0, e.eyelidHL - 1.0)], Black)
  }

  /** The black happy lower lid: its top edge is h / happyH below the eye's top. */
  function HappyLid(e: Eye, happyH: real): Primitive
    requires happyH != 0.0
  {
    RoundedRectangle(Point(e.x, e.y + e.h / happyH + 2.0), Point(e.x + e.w, e.y + e.h + 2.0),
                     DefaultEyeRadius, Black)
  }

  /** `p` is the outline of eye `e`: a rounded rectangle of the default radius
      whose top-left corner is the eye's position and whose size is the eye's. */
  predicate Outlines(p: Primitive, e: Eye) {
    p.RoundedRectangle? && p.radius == DefaultEyeRadius &&
    p.topLeft == Point(e.x, e.y) &&
    p.bottomRight.x - p.topLeft.x == e.w && p.bottomRight.y - p.topLeft.y == e.h
  }

  /** `lid` is the happy lid under `body`: a rounded rectangle of the default radius
      spanning the body's columns, its bottom edge 2 below the body's, and its top
      edge 2 below the body's top plus the eye's height divided by the divisor. */
  predicate HappyLidUnder(lid: Primitive, body: Primitive, e: Eye, happyH: real) {
    lid.RoundedRectangle? && body.RoundedRectangle? && lid.radius == DefaultEyeRadius &&
    lid.topLeft.x == body.topLeft.x && lid.bottomRight.x == body.bottomRight.x &&
    lid.bottomRight.y == body.bottomRight.y + 2.0 &&
    (lid.topLeft.y - body.topLeft.y - 2.0) * happyH == e.h
  }

  /** `lid` is the upper lid over `body`: a four-cornered polygon whose top edge runs
      2 above the body from 2 left of it to 2 right of it, and whose lower corners
      hang from those two sides 1 above the eye's right and left cut-offs. */
  predicate LidOver(lid: Primitive, body: Primitive, e: Eye) {
    lid.Polygon? && body.RoundedRectangle? && |lid.vertices| == 4 &&
    lid.vertices[0] == Point(body.topLeft.x - 2.0, body.topLeft.y - 2.0) &&
    lid.vertices[1] == Point(body.bottomRight.x + 2.0, body.topLeft.y - 2.0) &&
    lid.vertices[2] == Point(body.bottomRight.x + 2.0, e.eyelidHR - 1.0) &&
    lid.vertices[3] == Point(body.topLeft.x - 2.0, e.eyelidHL - 1.0)
  }

  /** The six primitives of a frame, in drawing order: bodies, upper lids, happy lids. */
  function FramePrimitives(s: EyesState): (r: seq<Primitive>)
    requires s.eyelidHappyH != 0.0
    ensures |r| == 6
    ensures r[0].fill == White && r[1].fill == White
    ensures forall i :: 2 <= i < 6 ==> r[i].fill == Black
    ensures LidOver(r[2], r[0], s.eyeL) && LidOver(r[3], r[1], s.eyeR)
    ensures Outlines(r[0], s.eyeL) && Outlines(r[1], s.eyeR)
    ensures HappyLidUnder(r[4], r[0], s.eyeL, s.eyelidHappyH)
    ensures HappyLidUnder(r[5], r[1], s.eyeR, s.eyelidHappyH)
  {
    [EyeBody(s.eyeL), EyeBody(s.eyeR),
     UpperLid(s.eyeL), UpperLid(s.eyeR),
     HappyLid(s.eyeL, s.eyelidHappyH), HappyLid(s.eyeR, s.eyelidHappyH)]
  }

  /** h / happyH lies between h / 3 and h for a divisor in [1, 3]. */
  lemma QuotientBetween(h: real, happyH: real)
    requires 0.0 <= h && PlainLidH <= happyH <= HappyLidH
    ensures h / HappyLidH <= h / happyH <= h
  {
    var q := h / happyH;
    assert q * happyH == h;
    assert q >= 0.0;
    assert h - q == q * (happyH - 1.0);
    ProductNonNegative(q, happyH - 1.0);
    assert q * HappyLidH - h == q * (HappyLidH - happyH);
    ProductNonNegative(q, HappyLidH - happyH);
  }

  lemma ProductNonNegative(a: real, b: real)
    requires 0.0 <= a && 0.0 <= b
    ensures 0.0 <= a * b
  {
  }

  /** Under the invariant a frame can always be drawn: the happy-lid quotient never
      divides by zero, every rectangle is well formed, and the happy lid rises from
      the bottom of the eye (where it has no height) at most to a third of the eye. */
  lemma FrameWellFormed(s: EyesState)
    requires Inv(s)
    ensures s.eyelidHappyH != 0.0
    ensures forall p <- FramePrimitives(s) :: WellFormed(p)
    ensures var r := FramePrimitives(s);
            s.eyeL.y + s.eyeL.h / HappyLidH + 2.0 <= r[4].topLeft.y <= r[4].bottomRight.y &&
            s.eyeR.y + s.eyeR.h / HappyLidH + 2.0 <= r[5].topLeft.y <= r[5].bottomRight.y
    ensures s.eyelidHappyH == PlainLidH ==>
            var r := FramePrimitives(s);
            r[4].topLeft.y == r[4].bottomRight.y && r[5].topLeft.y == r[5].bottomRight.y
  {
    QuotientBetween(s.eyeL.h, s.eyelidHappyH);
    QuotientBetween(s.eyeR.h, s.eyelidHappyH);
  }
}
