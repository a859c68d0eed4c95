/** Stroke capture in `Canvas.jsx`: points, lines, the pointer-to-canvas
    coordinate translation and the distance-gated append that `draw` performs.
    Coordinates are exact reals; the source's `Math.sqrt(dx² + dy²) >= 5` is
    replaced by the equivalent squared test `dx² + dy² >= 25`. */
module Strokes {
  import opened Wrappers

  /** `POINTS_DISTANCE`: the minimum spacing between recorded points. */
  const PointsDistance: real := 5.0

  datatype Point = Point(x: real, y: real)

  /** One entry of `lines.current`: its points and, for the second line pushed
      by `startDrawing`, the brush size that was active. */
  datatype Line = Line(points: seq<Point>, brushSize: Option<real>)

  /** A pointer position in viewport (client) coordinates. */
  datatype ClientPoint = ClientPoint(clientX: real, clientY: real)

  /** A mouse event carries its own position; a touch event carries the list
      of active touches. */
  datatype PointerEvent =
    | MouseEvent(position: ClientPoint)
    | TouchEvent(touches: seq<ClientPoint>)

  /** The on-screen offset of the canvas (`getBoundingClientRect`). */
  datatype Rect = Rect(left: real, top: real)

  /** The TypeErrors a handler can throw. */
  datatype Fault =
    | NoTouchPoint    // `touches[0]` is undefined, destructuring it throws
    | NoCurrentLine   // `lines.current` is empty, `lastLine.points` throws
    | NoLastPoint     // the last line has no point, `lastPoint.x` throws

  function SquaredDistance(a: Point, b: Point): real
  {
    (b.x - a.x) * (b.x - a.x) + (b.y - a.y) * (b.y - a.y)
  }

  /** The decimation test of `draw`. */
  predicate FarEnough(last: Point, p: Point)
  {
    SquaredDistance(last, p) >= PointsDistance * PointsDistance
  }

  /** The squared test agrees with the source's test on the Euclidean distance:
      for the non-negative root `d` of the squared distance, `d >= 5` exactly
      when `FarEnough` holds. */
  lemma FarEnoughIsDistanceTest(last: Point, p: Point, d: real)
    requires d >= 0.0 && d * d == SquaredDistance(last, p)
    ensures FarEnough(last, p) <==> d >= PointsDistance
  {
    assert PointsDistance * PointsDistance == 25.0;
    if d >= 5.0 {
      assert d * d >= 5.0 * d;
    } else {
      assert d * d <= 5.0 * d;
    }
  }

  /** `getEventCoordinates`: the first touch of a touch event, the event
      itself for a mouse event; an empty touch list yields `undefined`. */
  function EventCoordinates(e: PointerEvent): (c: Option<ClientPoint>)
    ensures c.None? <==> e.TouchEvent? && e.touches == []
    ensures e.MouseEvent? ==> c == Some(e.position)
    ensures e.TouchEvent? && e.touches != [] ==> c == Some(e.touches[0])
  {
    match e
    case MouseEvent(position) => Some(position)
    case TouchEvent(touches) => if touches == [] then None else Some(touches[0])
  }

  /** The canvas-local point of an event: client position minus the canvas's
      on-screen offset. */
  function LocalPoint(e: PointerEvent, rect: Rect): (p: Result<Point, Fault>)
    ensures p.Failure? <==> EventCoordinates(e).None?
    ensures p.Failure? ==> p.error == NoTouchPoint
    ensures p.Success? ==>
      p.value.x + rect.left == EventCoordinates(e).value.clientX &&
      p.value.y + rect.top == EventCoordinates(e).value.clientY
  {
    match EventCoordinates(e)
    case None => Failure(NoTouchPoint)
    case Some(c) => Success(Point(c.clientX - rect.left, c.clientY - rect.top))
  }

  /** What `startDrawing` pushes: a bare one-point line, then the same point
      as a line that records the brush size. */
  function Started(lines: seq<Line>, p: Point, brushSize: real): (r: seq<Line>)
    ensures |r| == |lines| + 2 && r[..|lines|] == lines
    ensures r[|lines|].points == [p] && r[|lines|].brushSize.None?
    ensures r[|lines| + 1].points == [p] && r[|lines| + 1].brushSize == Some(brushSize)
  {
    lines + [Line([p], None), Line([p], Some(brushSize))]
  }

  /** Whether `draw` at `p` would extend the last line. */
  predicate Extends(lines: seq<Line>, p: Point)
  {
    lines != [] && lines[|lines| - 1].points != [] &&
    FarEnough(Last(lines[|lines| - 1].points), p)
  }

  function Last<T>(s: seq<T>): T
    requires s != []
  {
    s[|s| - 1]
  }

  /** The line update of `draw` once the session is drawing: read the last
      point of the last line and push `p` onto that line when it is at least
      `PointsDistance` away. Reading from an empty session or an empty line
      throws. */
  function TryAppend(lines: seq<Line>, p: Point): (r: Result<seq<Line>, Fault>)
    ensures r.Failure? <==> lines == [] || lines[|lines| - 1].points == []
    ensures lines == [] ==> r == Failure(NoCurrentLine)
    ensures r.Success? ==>
      |r.value| == |lines| &&
      r.value[..|lines| - 1] == lines[..|lines| - 1] &&
      r.value[|lines| - 1].brushSize == lines[|lines| - 1].brushSize
    ensures r.Success? ==> (r.value == lines <==> !Extends(lines, p))
    ensures r.Success? && Extends(lines, p) ==>
      r.value[|lines| - 1].points == lines[|lines| - 1].points + [p]
  {
    if lines == [] then Failure(NoCurrentLine)
    else
      var lastLine := lines[|lines| - 1];
      if lastLine.points == [] then Failure(NoLastPoint)
      else if FarEnough(Last(lastLine.points), p) then
        Success(lines[..|lines| - 1] + [lastLine.(points := lastLine.points + [p])])
      else
        Success(lines)
  }

  /** Consecutive points of a line are at least `PointsDistance` apart. */
  predicate Spaced(points: seq<Point>)
  {
    forall i :: 0 < i < |points| ==> FarEnough(points[i - 1], points[i])
  }

  /** The shape `startDrawing`, `draw` and `clearCanvas` keep: lines come in
      pairs; the first of a pair has no brush size and exactly one point, the
      second records a brush size and starts at that same point; every line
      is spaced. */
  predicate WellFormed(lines: seq<Line>)
  {
    && |lines| % 2 == 0
    && forall i :: 0 <= i < |lines| ==> LineFits(lines, i)
  }

  predicate LineFits(lines: seq<Line>, i: int)
    requires 0 <= i < |lines|
  {
    var line := lines[i];
    && line.points != []
    && Spaced(line.points)
    && if i % 2 == 0 then
         && line.brushSize.None?
         && |line.points| == 1
         && i + 1 < |lines|
         && lines[i + 1].points != []
         && lines[i + 1].points[0] == line.points[0]
       else
         line.brushSize.Some?
  }

  /** The invariant as the source's readers see it: a line without a brush size
      is a single point, and every line has at least one point. */
  lemma UnbrushedLinesAreDots(lines: seq<Line>, i: int)
    requires WellFormed(lines) && 0 <= i < |lines|
    ensures lines[i].points != []
    ensures lines[i].brushSize.None? ==> |lines[i].points| == 1
    ensures lines[i].brushSize.None? <==> i % 2 == 0
  {
    assert LineFits(lines, i);
  }

  /** In a well-formed non-empty session `draw` never reads an empty line:
      its only failure is an empty session. */
  lemma WellFormedAppendFails(lines: seq<Line>, p: Point)
    requires WellFormed(lines)
    ensures TryAppend(lines, p).Failure? <==> lines == []
  {
    if lines != [] {
      assert LineFits(lines, |lines| - 1);
    }
  }

  lemma StartedWellFormed(lines: seq<Line>, p: Point, brushSize: real)
    requires WellFormed(lines)
    ensures WellFormed(Started(lines, p, brushSize))
  {
    var r := Started(lines, p, brushSize);
    forall i | 0 <= i < |r|
      ensures LineFits(r, i)
    {
      if i < |lines| {
        assert LineFits(lines, i);
        assert r[i] == lines[i];
        if i % 2 == 0 {
          assert r[i + 1] == lines[i + 1];
        }
      }
    }
  }

  lemma AppendWellFormed(lines: seq<Line>, p: Point)
    requires WellFormed(lines) && TryAppend(lines, p).Success?
    ensures WellFormed(TryAppend(lines, p).value)
  {
    var r := TryAppend(lines, p).value;
    var n := |lines|;
    if Extends(lines, p) {
      assert LineFits(lines, n - 1);
      assert (n - 1) % 2 == 1;
      forall i | 0 <= i < n
        ensures LineFits(r, i)
      {
        assert LineFits(lines, i);
        if i < n - 1 {
          assert r[i] == lines[i];
          if i % 2 == 0 {
            assert i + 1 < n - 1 || i + 1 == n - 1;
            assert r[i + 1].points[0] == lines[i + 1].points[0];
          }
        } else {
          var old_ := lines[n - 1].points;
          assert r[i].points == old_ + [p];
          forall k | 0 < k < |r[i].points|
            ensures FarEnough(r[i].points[k - 1], r[i].points[k])
          {
            if k < |old_| {
              assert r[i].points[k - 1] == old_[k - 1] && r[i].points[k] == old_[k];
            }
          }
        }
      }
    }
  }

  /** A run of `draw` calls while drawing, one point after another. */
  function AppendAll(lines: seq<Line>, ps: seq<Point>): (r: Result<seq<Line>, Fault>)
    decreases |ps|
  {
    if ps == [] then Success(lines)
    else
      match TryAppend(lines, ps[0])
      case Failure(f) => Failure(f)
      case Success(next) => AppendAll(next, ps[1..])
  }

  /** Decimation: moves that all stay closer than `PointsDistance` to the last
      recorded point add nothing, however many there are. */
  lemma {:induction false} CloseMovesAddNothing(lines: seq<Line>, ps: seq<Point>)
    requires lines != [] && lines[|lines| - 1].points != []
    requires forall i :: 0 <= i < |ps| ==> !FarEnough(Last(lines[|lines| - 1].points), ps[i])
    ensures AppendAll(lines, ps) == Success(lines)
    decreases |ps|
  {
    if ps != [] {
      assert !Extends(lines, ps[0]);
      assert TryAppend(lines, ps[0]) == Success(lines);
      CloseMovesAddNothing(lines, ps[1..]);
    }
  }

  /** A run of moves keeps the session well formed and never grows the
      last line by more than one point per move. */
  lemma {:induction false} AppendAllWellFormed(lines: seq<Line>, ps: seq<Point>)
    requires WellFormed(lines) && AppendAll(lines, ps).Success?
    ensures WellFormed(AppendAll(lines, ps).value)
    ensures |AppendAll(lines, ps).value| == |lines|
    ensures lines != [] ==>
      |Last(AppendAll(lines, ps).value).points| <= |Last(lines).points| + |ps|
    decreases |ps|
  {
    if ps != [] {
      var next := TryAppend(lines, ps[0]).value;
      AppendWellFormed(lines, ps[0]);
      AppendAllWellFormed(next, ps[1..]);
    }
  }
}
