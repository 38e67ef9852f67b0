/** The fixed configuration of the eyes, their records and enumerations, and the
    pure lookup rules of eyes.py: the legal range of gaze targets, the table of
    named positions, the mood table of eyelid cut-offs and the happy-lid thickness. */
module EyesGeometry {

  // Screen and default eye dimensions (eyes.py:54-63).
  const ScreenWidth: real := 128.0
  const ScreenHeight: real := 64.0
  const DefaultEyeW: real := 36.0
  const DefaultEyeH: real := 36.0
  const DefaultEyeRadius: real := 8.0
  const DefaultEyeGap: real := 10.0

  /** Height of a closed eye: never 0, so the eye never degenerates. */
  const ClosedEyeH: real := 1.0
  /** An eye whose current height has eased down to this is treated as shut. */
  const ReopenThreshold: real := 1.1
  /** Happy-lid divisor targets: 3 while HAPPY, 1 otherwise. */
  const HappyLidH: real := 3.0
  const PlainLidH: real := 1.0

  /** Named gaze positions of the left eye (`EyesPosition`). */
  datatype Position = Center | Top | Left | Bottom | Right | TopLeft | TopRight | BottomLeft | BottomRight

  /** Moods (`EyesMood`). */
  datatype Mood = Neutral | Angry | Tired | Happy | Sad

  /** Which of the two eyes; the mood table is mirrored between them. */
  datatype EyeSide = LeftEye | RightEye

  /** One eye (`Eye`): current geometry, target geometry, and the current and
      target y of the two ends of the upper eyelid's cut-off line. */
  datatype Eye = Eye(
    x: real, y: real, w: real, h: real,
    xNext: real, yNext: real, wNext: real, hNext: real,
    eyelidHL: real, eyelidHR: real,
    eyelidHLNext: real, eyelidHRNext: real)

  /** Largest left-eye x that still fits both eyes and the gap, from the eyes'
      CURRENT widths (`get_max_x_limit`). */
  function MaxXLimit(leftW: real, rightW: real): (r: real)
    ensures r + leftW + DefaultEyeGap + rightW == ScreenWidth
    ensures leftW == DefaultEyeW && rightW == DefaultEyeW ==> r == 46.0
  {
    ScreenWidth - leftW - DefaultEyeGap - rightW
  }

  /** Largest eye y that keeps a full-height eye on screen (`get_max_y_limit`). */
  function MaxYLimit(): (r: real)
    ensures r + DefaultEyeH == ScreenHeight && r == 28.0
  {
    ScreenHeight - DefaultEyeH
  }

  /** Python's `random.uniform(a, b)`, given the underlying `random()` draw u in [0, 1). */
  function Uniform(a: real, b: real, u: real): (r: real)
    requires 0.0 <= u < 1.0
    ensures a <= b ==> a <= r <= b
    ensures b <= a ==> b <= r <= a
    ensures a < b ==> r < b
  {
    var span := b - a;
    FractionOf(span, u);
    a + span * u
  }

  /** A fraction u in [0, 1) of a span lies between 0 and the span, short of the span itself. */
  lemma FractionOf(span: real, u: real)
    requires 0.0 <= u < 1.0
    ensures 0.0 <= span ==> 0.0 <= span * u <= span
    ensures span <= 0.0 ==> span <= span * u <= 0.0
    ensures 0.0 < span ==> span * u < span
  {
  }

  /** Where a position lies along one axis: at 0, in the middle, or at the maximum. */
  datatype Place = Low | Middle | High

  function Coordinate(place: Place, max: real): real {
    match place
    case Low => 0.0
    case Middle => max / 2.0
    case High => max
  }

  /** The horizontal and vertical placement each position name stands for. */
  function Column(p: Position): Place {
    match p
    case Left | TopLeft | BottomLeft => Low
    case Center | Top | Bottom => Middle
    case Right | TopRight | BottomRight => High
  }

  function Row(p: Position): Place {
    match p
    case Top | TopLeft | TopRight => Low
    case Center | Left | Right => Middle
    case Bottom | BottomLeft | BottomRight => High
  }

  /** The position table of `set_position`: the (x, y) target of the left eye. */
  function PositionTarget(p: Position, maxX: real, maxY: real): (r: (real, real))
    ensures r == (Coordinate(Column(p), maxX), Coordinate(Row(p), maxY))
    ensures 0.0 <= maxX && 0.0 <= maxY ==> 0.0 <= r.0 <= maxX && 0.0 <= r.1 <= maxY
  {
    match p
    case Center => (maxX / 2.0, maxY / 2.0)
    case Top => (maxX / 2.0, 0.0)
    case Left => (0.0, maxY / 2.0)
    case Bottom => (maxX / 2.0, maxY)
    case Right => (maxX, maxY / 2.0)
    case TopLeft => (0.0, 0.0)
    case TopRight => (maxX, 0.0)
    case BottomLeft => (0.0, maxY)
    case BottomRight => (maxX, maxY)
  }

  /** With room to move on both axes, the nine positions are nine distinct targets. */
  lemma PositionTargetInjective(p: Position, q: Position, maxX: real, maxY: real)
    requires maxX > 0.0 && maxY > 0.0
    requires PositionTarget(p, maxX, maxY) == PositionTarget(q, maxX, maxY)
    ensures p == q
  {
    assert Column(p) == Column(q) && Row(p) == Row(q);
  }

  /** The mood table of `update_eyelids`: the (left end, right end) cut-off target
      of one eye's upper lid, from that eye's current y and h. */
  function CutoffTargets(mood: Mood, side: EyeSide, y: real, h: real): (r: (real, real))
    ensures 0.0 <= h ==> y <= r.0 <= y + h && y <= r.1 <= y + h
    ensures 0.0 < h ==> (r == (y, y) <==> mood == Neutral || mood == Happy)
  {
    match (mood, side)
    case (Neutral, _) => (y, y)
    case (Happy, _) => (y, y)
    case (Angry, LeftEye) => (y + h / 4.0, y + h / 2.0)
    case (Angry, RightEye) => (y + h / 2.0, y + h / 4.0)
    case (Sad, LeftEye) => (y + h / 2.0, y + h / 4.0)
    case (Sad, RightEye) => (y + h / 4.0, y + h / 2.0)
    case (Tired, LeftEye) => (y + h / 1.2, y + h / 1.4)
    case (Tired, RightEye) => (y + h / 1.4, y + h / 1.2)
  }

  /** The two eyes' lids mirror each other, and SAD is ANGRY mirrored. */
  lemma CutoffsMirrored(mood: Mood, y: real, h: real)
    ensures var l := CutoffTargets(mood, LeftEye, y, h);
            CutoffTargets(mood, RightEye, y, h) == (l.1, l.0)
    ensures var a := CutoffTargets(Angry, LeftEye, y, h);
            CutoffTargets(Sad, LeftEye, y, h) == (a.1, a.0)
  {
  }

  /** The cut-offs for an eye at y = 10 with full height 36. */
  lemma CutoffExamples()
    ensures CutoffTargets(Angry, LeftEye, 10.0, 36.0) == (19.0, 28.0)
    ensures CutoffTargets(Angry, RightEye, 10.0, 36.0) == (28.0, 19.0)
    ensures CutoffTargets(Sad, LeftEye, 10.0, 36.0) == (28.0, 19.0)
    ensures CutoffTargets(Tired, LeftEye, 10.0, 36.0).0 == 40.0
    ensures CutoffTargets(Neutral, RightEye, 10.0, 36.0) == (10.0, 10.0)
  {
  }

  /** Target of the happy-lid divisor: 3 exactly under HAPPY, 1 otherwise. */
  function HappyLidTarget(mood: Mood): (r: real)
    ensures r == HappyLidH <==> mood == Happy
    ensures r == PlainLidH <==> mood != Happy
  {
    if mood == Happy then HappyLidH else PlainLidH
  }
}
