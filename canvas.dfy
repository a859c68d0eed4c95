/** The drawing session of the `Canvas` component: the recorded lines, the
    drawing flag, the pending-frame flag (`drawTimeoutRef`) and the commands
    issued to the 2D context, with the five handlers that update them. The
    browser's animation-frame queue is represented by the number of frame
    callbacks requested and not yet run; `FireFrame` is the browser running
    one of them. */
module CanvasSession {
  import opened Wrappers
  import opened Strokes
  import opened Rendering

  /** How a handler ends: normally, or by throwing a TypeError. */
  datatype Outcome = Done | Thrown(fault: Fault)

  /** The commands `startDrawing` issues around the dot it paints at `p`. */
  function DotCommands(p: Point, brushSize: real): seq<Command>
  {
    [BeginPath, Dot(p, brushSize), SetFillStyle(Black), Fill, BeginPath]
  }

  /** Proof hint for the redraw loop: regrouping a concatenation of command
      lists. Stated on its own so that the loop's proof sees only this fact,
      not the sequence reasoning behind it. */
  lemma AppendAssociates(a: seq<Command>, b: seq<Command>, c: seq<Command>)
    ensures a + b + c == a + (b + c)
  {
  }

  class Canvas {
    var lines: seq<Line>
    var isDrawing: bool
    /** `drawTimeoutRef.current` is set (a frame request id, never zero). */
    var framePending: bool
    /** Frame callbacks handed to `requestAnimationFrame` and not yet run. */
    var outstandingFrames: nat
    /** Every call issued on the 2D context so far. */
    var log: seq<Command>

    /** The lines are well formed, and a frame callback is outstanding exactly
        when the pending flag is set, so there is never more than one. */
    ghost predicate Valid()
      reads this
    {
      && WellFormed(lines)
      && outstandingFrames == (if framePending then 1 else 0)
    }

    /** Mounting: empty refs, and the context set to round joins and caps with
        the initial brush's width. */
    constructor (brushSize: real)
      ensures Valid()
      ensures lines == [] && !isDrawing && !framePending && outstandingFrames == 0
      ensures log == [SetRoundJoinsAndCaps, SetLineWidth(Some(2.0 * brushSize))]
    {
      lines := [];
      isDrawing := false;
      framePending := false;
      outstandingFrames := 0;
      log := [SetRoundJoinsAndCaps, SetLineWidth(Some(2.0 * brushSize))];
    }

    /** `startDrawing`: the flag is raised first, so an event without a touch
        point leaves the session drawing with nothing pushed. Otherwise two
        one-point lines are pushed around painting the dot. */
    method StartDrawing(e: PointerEvent, rect: Rect, brushSize: real) returns (r: Outcome)
      requires Valid()
      modifies this`lines, this`isDrawing, this`log
      ensures Valid()
      ensures isDrawing
      ensures LocalPoint(e, rect).Failure? ==>
        r == Thrown(NoTouchPoint) && lines == old(lines) && log == old(log)
      ensures LocalPoint(e, rect).Success? ==>
        var p := LocalPoint(e, rect).value;
        && r == Done
        && lines == Started(old(lines), p, brushSize)
        && log == old(log) + DotCommands(p, brushSize)
    {
      isDrawing := true;
      match LocalPoint(e, rect)
      case Failure(f) =>
        r := Thrown(f);
      case Success(p) =>
        ghost var before := lines;
        StartedWellFormed(lines, p, brushSize);
        lines := lines + [Line([p], None)];
        log := log + DotCommands(p, brushSize);
        lines := lines + [Line([p], Some(brushSize))];
        assert lines == Started(before, p, brushSize);
        r := Done;
    }

    /** `draw`: ignored unless drawing; otherwise the point is appended to the
        last line when far enough from its last point, and only then is a
        frame requested, and only if none is pending. */
    method Draw(e: PointerEvent, rect: Rect) returns (r: Outcome, requested: bool)
      requires Valid()
      modifies this`lines, this`framePending, this`outstandingFrames
      ensures Valid()
      ensures !old(isDrawing) ==>
        r == Done && !requested && lines == old(lines) && framePending == old(framePending)
      ensures old(isDrawing) && LocalPoint(e, rect).Failure? ==>
        r == Thrown(NoTouchPoint) && !requested && lines == old(lines) && framePending == old(framePending)
      ensures old(isDrawing) && LocalPoint(e, rect).Success? ==>
        var p := LocalPoint(e, rect).value;
        match TryAppend(old(lines), p)
        case Failure(f) =>
          r == Thrown(f) && !requested && lines == old(lines) && framePending == old(framePending)
        case Success(next) =>
          && r == Done
          && lines == next
          && requested == (Extends(old(lines), p) && !old(framePending))
          && framePending == (old(framePending) || requested)
      ensures requested ==> !old(framePending) && framePending
      ensures outstandingFrames == old(outstandingFrames) + (if requested then 1 else 0)
    {
      requested := false;
      if !isDrawing {
        r := Done;
        return;
      }
      match LocalPoint(e, rect)
      case Failure(f) =>
        r := Thrown(f);
      case Success(p) =>
        if lines == [] {
          r := Thrown(NoCurrentLine);
          return;
        }
        var lastLine := lines[|lines| - 1];
        if lastLine.points == [] {
          r := Thrown(NoLastPoint);
          return;
        }
        var lastPoint := lastLine.points[|lastLine.points| - 1];
        if FarEnough(lastPoint, p) {
          AppendWellFormed(lines, p);
          lines := lines[..|lines| - 1] + [lastLine.(points := lastLine.points + [p])];
          if !framePending {
            framePending := true;
            outstandingFrames := outstandingFrames + 1;
            requested := true;
          }
        }
        r := Done;
    }

    /** The animation-frame callback: clears the pending flag, then redraws. */
    method FireFrame()
      requires Valid() && outstandingFrames > 0
      modifies this`framePending, this`outstandingFrames, this`log
      ensures Valid()
      ensures !framePending && outstandingFrames == 0
      ensures log == old(log) + Render(lines)
    {
      outstandingFrames := outstandingFrames - 1;
      framePending := false;
      DrawOnMainCanvas();
    }

    /** `drawOnMainCanvas`, issuing its commands one at a time. */
    method DrawOnMainCanvas()
      modifies this`log
      ensures log == old(log) + Render(lines)
    {
      log := log + [SetFillStyle(White), FillRect(0.0, 0.0, CanvasWidth, CanvasHeight)];
      ghost var filled := log;
      var ls := lines;
      var j := 0;
      while j < |ls|
        invariant 0 <= j <= |ls|
        invariant log == filled + RenderLines(ls[..j])
      {
        DrawLine(ls[j]);
        RenderLinesSnoc(ls, j);
        AppendAssociates(filled, RenderLines(ls[..j]), RenderLine(ls[j]));
        j := j + 1;
      }
      assert ls[..j] == ls;
      AppendAssociates(old(log), Background(), RenderLines(ls));
    }

    /** The `forEach` callback of `drawOnMainCanvas` for one line. */
    method DrawLine(line: Line)
      modifies this`log
      ensures log == old(log) + RenderLine(line)
    {
      var points := line.points;
      log := log + [SetLineWidth(Width(line))];
      if |points| > 2 {
        log := log + [BeginPath, MoveTo(points[0])];
        ghost var pathStart := log;
        var i := 1;
        while i < |points| - 1
          invariant 1 <= i <= |points| - 1
          invariant log == pathStart + Curves(points)[..i - 1]
        {
          var xc := (points[i].x + points[i + 1].x) / 2.0;
          var yc := (points[i].y + points[i + 1].y) / 2.0;
          log := log + [QuadraticCurveTo(points[i], Point(xc, yc))];
          assert Curves(points)[..i] == Curves(points)[..i - 1] + [Curves(points)[i - 1]];
          i := i + 1;
        }
        assert Curves(points)[..i - 1] == Curves(points);
        log := log + [LineTo(points[|points| - 1]), Stroke];
      } else if |points| == 2 {
        log := log + [BeginPath, MoveTo(points[0]), LineTo(points[1]), Stroke];
      }
    }

    /** `endDrawing`: only the drawing flag changes. */
    method EndDrawing()
      requires Valid()
      modifies this`isDrawing
      ensures Valid()
      ensures !isDrawing
    {
      isDrawing := false;
    }

    /** `clearCanvas`: forgets every line and clears the whole surface; the
        drawing flag and a pending frame are left as they were. */
    method ClearCanvas()
      requires Valid()
      modifies this`lines, this`log
      ensures Valid()
      ensures lines == []
      ensures log == old(log) + [ClearRect(0.0, 0.0, CanvasWidth, CanvasHeight)]
    {
      lines := [];
      log := log + [ClearRect(0.0, 0.0, CanvasWidth, CanvasHeight)];
    }
  }
}

/** Sessions driven through the handlers, as the component's event wiring
    would drive them. */
module CanvasScenarios {
  import opened Wrappers
  import opened Strokes
  import opened Rendering
  import opened CanvasSession

  /** `draw` on a session of one dot and one stroke appends to the stroke. */
  lemma AppendToPair(dot: Line, stroke: Line, p: Point)
    requires stroke.points != [] && FarEnough(Last(stroke.points), p)
    ensures TryAppend([dot, stroke], p) == Success([dot, stroke.(points := stroke.points + [p])])
  {
    var ls, longer := [dot, stroke], stroke.(points := stroke.points + [p]);
    assert ls[..1] + [longer] == [dot, longer];
  }

  /** Press at (10,10) with brush 8, move to (20,10) (10 away: kept), move to
      (21,10) (1 away: dropped), release: the stroke holds exactly the two
      kept points, after the bare dot line. */
  method DecimationScenario() returns (lines: seq<Line>)
    ensures lines == [Line([Point(10.0, 10.0)], None),
                      Line([Point(10.0, 10.0), Point(20.0, 10.0)], Some(8.0))]
  {
    var origin := Rect(0.0, 0.0);
    var c := new Canvas(8.0);
    var p0, p1 := Point(10.0, 10.0), Point(20.0, 10.0);
    var _ := c.StartDrawing(MouseEvent(ClientPoint(10.0, 10.0)), origin, 8.0);
    assert c.lines == [Line([p0], None), Line([p0], Some(8.0))];
    assert LocalPoint(MouseEvent(ClientPoint(20.0, 10.0)), origin) == Success(p1);
    AppendToPair(Line([p0], None), Line([p0], Some(8.0)), p1);
    assert [p0] + [p1] == [p0, p1];
    var _, _ := c.Draw(MouseEvent(ClientPoint(20.0, 10.0)), origin);
    assert c.lines == [Line([p0], None), Line([p0, p1], Some(8.0))];
    assert !FarEnough(p1, Point(21.0, 10.0));
    var _, _ := c.Draw(MouseEvent(ClientPoint(21.0, 10.0)), origin);
    c.EndDrawing();
    lines := c.lines;
  }

  /** Clearing in the middle of a stroke leaves the session drawing with no
      line, so the next move reads the last line of an empty array and throws. */
  method ClearMidStroke(down: PointerEvent, move: PointerEvent, rect: Rect, brushSize: real)
    returns (r: Outcome)
    requires LocalPoint(down, rect).Success? && LocalPoint(move, rect).Success?
    ensures r == Thrown(NoCurrentLine)
  {
    var c := new Canvas(brushSize);
    var _ := c.StartDrawing(down, rect, brushSize);
    c.ClearCanvas();
    var requested;
    r, requested := c.Draw(move, rect);
  }

  /** Moves made before the next frame share one frame request: the first
      move that records a point requests it, a second one does not, and the
      single frame then redraws both points. */
  method MovesCoalesce(down: PointerEvent, m1: PointerEvent, m2: PointerEvent, rect: Rect, brushSize: real)
    returns (first: bool, second: bool, frame: seq<Command>)
    requires LocalPoint(down, rect).Success? && LocalPoint(m1, rect).Success? && LocalPoint(m2, rect).Success?
    requires FarEnough(LocalPoint(down, rect).value, LocalPoint(m1, rect).value)
    requires FarEnough(LocalPoint(m1, rect).value, LocalPoint(m2, rect).value)
    ensures first && !second
    ensures frame == Render([
      Line([LocalPoint(down, rect).value], None),
      Line([LocalPoint(down, rect).value, LocalPoint(m1, rect).value, LocalPoint(m2, rect).value], Some(brushSize))])
  {
    var p0, p1, p2 := LocalPoint(down, rect).value, LocalPoint(m1, rect).value, LocalPoint(m2, rect).value;
    var c := new Canvas(brushSize);
    var _ := c.StartDrawing(down, rect, brushSize);
    assert c.lines == [Line([p0], None), Line([p0], Some(brushSize))];
    var outcome;
    AppendToPair(Line([p0], None), Line([p0], Some(brushSize)), p1);
    assert [p0] + [p1] == [p0, p1];
    outcome, first := c.Draw(m1, rect);
    assert c.lines == [Line([p0], None), Line([p0, p1], Some(brushSize))];
    AppendToPair(Line([p0], None), Line([p0, p1], Some(brushSize)), p2);
    assert [p0, p1] + [p2] == [p0, p1, p2];
    outcome, second := c.Draw(m2, rect);
    assert c.lines == [Line([p0], None), Line([p0, p1, p2], Some(brushSize))];
    var before := c.log;
    c.FireFrame();
    frame := c.log[|before|..];
  }

  /** A clear does not cancel a pending frame; when that frame runs it
      redraws an empty session, which is the blank white surface. */
  method ClearBeforeFrame(down: PointerEvent, move: PointerEvent, rect: Rect, brushSize: real)
    returns (frame: seq<Command>)
    requires LocalPoint(down, rect).Success? && LocalPoint(move, rect).Success?
    requires FarEnough(LocalPoint(down, rect).value, LocalPoint(move, rect).value)
    ensures frame == [SetFillStyle(White), FillRect(0.0, 0.0, 185.0, 185.0)]
  {
    var c := new Canvas(brushSize);
    var _ := c.StartDrawing(down, rect, brushSize);
    var _, _ := c.Draw(move, rect);
    c.ClearCanvas();
    var before := c.log;
    c.FireFrame();
    frame := c.log[|before|..];
  }
}
