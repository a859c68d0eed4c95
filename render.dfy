/** Redrawing in `Canvas.jsx`: the commands `drawOnMainCanvas` issues to the
    canvas's 2D context, as a function of the recorded lines. Rasterisation is
    not modelled; the commands are. */
module Rendering {
  import opened Wrappers
  import opened Strokes

  /** `CANVAS_WIDTH` and `CANVAS_HEIGHT`. */
  const CanvasWidth: real := 185.0
  const CanvasHeight: real := 185.0

  datatype Color = White | Black

  /** Calls on the 2D context. `SetLineWidth(None)` is the assignment of NaN
      (an absent brush size times two), which a 2D context ignores. `Dot` is
      the full-circle `arc` that `startDrawing` fills. */
  datatype Command =
    | SetRoundJoinsAndCaps
    | SetLineWidth(width: Option<real>)
    | SetFillStyle(color: Color)
    | FillRect(x: real, y: real, w: real, h: real)
    | ClearRect(x: real, y: real, w: real, h: real)
    | BeginPath
    | Dot(center: Point, radius: real)
    | Fill
    | MoveTo(to: Point)
    | LineTo(to: Point)
    | QuadraticCurveTo(control: Point, end: Point)
    | Stroke

  function Mid(a: Point, b: Point): Point
  {
    Point((a.x + b.x) / 2.0, (a.y + b.y) / 2.0)
  }

  /** `ctx.lineWidth = line.brushSize * 2`. */
  function Width(line: Line): Option<real>
  {
    match line.brushSize
    case Some(b) => Some(2.0 * b)
    case None => None
  }

  /** The white fill over the whole surface that starts every redraw. */
  function Background(): seq<Command>
  {
    [SetFillStyle(White), FillRect(0.0, 0.0, CanvasWidth, CanvasHeight)]
  }

  /** The rolling-midpoint curves for the interior points 1 .. n-2: each
      interior point is the control point of a curve that ends halfway to its
      successor. */
  function Curves(ps: seq<Point>): seq<Command>
    requires |ps| >= 2
  {
    seq(|ps| - 2, k requires 0 <= k < |ps| - 2 => QuadraticCurveTo(ps[k + 1], Mid(ps[k + 1], ps[k + 2])))
  }

  /** The path of one line: smoothed for more than two points, a straight
      segment for exactly two, nothing for fewer. */
  function Path(ps: seq<Point>): seq<Command>
  {
    if |ps| > 2 then
      [BeginPath, MoveTo(ps[0])] + Curves(ps) + [LineTo(ps[|ps| - 1]), Stroke]
    else if |ps| == 2 then
      [BeginPath, MoveTo(ps[0]), LineTo(ps[1]), Stroke]
    else
      []
  }

  function RenderLine(line: Line): seq<Command>
  {
    [SetLineWidth(Width(line))] + Path(line.points)
  }

  /** The body of the `forEach` over the lines, in array order. */
  function RenderLines(lines: seq<Line>): seq<Command>
  {
    if lines == [] then []
    else RenderLines(lines[..|lines| - 1]) + RenderLine(lines[|lines| - 1])
  }

  /** Drawing one more line extends the commands by that line's commands. */
  lemma RenderLinesSnoc(lines: seq<Line>, j: int)
    requires 0 <= j < |lines|
    ensures RenderLines(lines[..j + 1]) == RenderLines(lines[..j]) + RenderLine(lines[j])
  {
    assert lines[..j + 1][..j] == lines[..j];
  }

  /** `drawOnMainCanvas`. */
  function Render(lines: seq<Line>): seq<Command>
  {
    Background() + RenderLines(lines)
  }

  /** A line of exactly two points is drawn as the straight segment between
      them, with both endpoints exactly as recorded. */
  lemma StraightPath(ps: seq<Point>)
    requires |ps| == 2
    ensures Path(ps) == [BeginPath, MoveTo(ps[0]), LineTo(ps[1]), Stroke]
  {
  }

  /** A line of n > 2 points is drawn as one path: it starts at the first
      point; for i = 1 .. n-2 a curve controlled by point i ends halfway
      between points i and i+1; a straight segment then ends the path exactly
      at the last point. */
  lemma SmoothedPath(ps: seq<Point>)
    requires |ps| > 2
    ensures |Path(ps)| == |ps| + 2
    ensures Path(ps)[..2] == [BeginPath, MoveTo(ps[0])]
    ensures Path(ps)[|ps|..] == [LineTo(ps[|ps| - 1]), Stroke]
    ensures forall k :: 2 <= k < |ps| ==>
      Path(ps)[k] == QuadraticCurveTo(ps[k - 1], Mid(ps[k - 1], ps[k]))
  {
    var c := Curves(ps);
    var path := Path(ps);
    assert path == [BeginPath, MoveTo(ps[0])] + c + [LineTo(ps[|ps| - 1]), Stroke];
    assert |c| == |ps| - 2;
    forall k | 2 <= k < |ps|
      ensures path[k] == QuadraticCurveTo(ps[k - 1], Mid(ps[k - 1], ps[k]))
    {
      assert path[k] == c[k - 2];
    }
  }

  /** Smoothness of the rolling midpoint: where one curve of a path meets the
      next, the join lies halfway between their two control points, so the
      tangents of the two curves line up. */
  lemma CurvesJoinSmoothly(ps: seq<Point>, k: int)
    requires |ps| > 2 && 2 <= k < |ps| - 1
    ensures Path(ps)[k].QuadraticCurveTo? && Path(ps)[k + 1].QuadraticCurveTo?
    ensures Path(ps)[k].end == Mid(Path(ps)[k].control, Path(ps)[k + 1].control)
  {
    var path := Path(ps);
    SmoothedPath(ps);
    assert path[k] == QuadraticCurveTo(ps[k - 1], Mid(ps[k - 1], ps[k]));
    assert path[k + 1] == QuadraticCurveTo(ps[k], Mid(ps[k], ps[k + 1]));
  }

  /** A line with fewer than two points (every line without a brush size in a
      well-formed session) only sets the line width. */
  lemma DotsDrawNothing(line: Line)
    requires |line.points| < 2
    ensures RenderLine(line) == [SetLineWidth(Width(line))]
  {
  }

  /** Number of `stroke` calls among the commands. */
  function StrokeCount(cmds: seq<Command>): nat
  {
    if cmds == [] then 0
    else StrokeCount(cmds[..|cmds| - 1]) + (if cmds[|cmds| - 1].Stroke? then 1 else 0)
  }

  /** Number of lines with at least two points. */
  function DrawnLines(lines: seq<Line>): nat
  {
    if lines == [] then 0
    else DrawnLines(lines[..|lines| - 1]) + (if |lines[|lines| - 1].points| >= 2 then 1 else 0)
  }

  /** The line widths set, in order. */
  function WidthsSet(cmds: seq<Command>): seq<Option<real>>
  {
    if cmds == [] then []
    else WidthsSet(cmds[..|cmds| - 1]) + (if cmds[|cmds| - 1].SetLineWidth? then [cmds[|cmds| - 1].width] else [])
  }

  lemma {:induction false} StrokeCountAppend(a: seq<Command>, b: seq<Command>)
    ensures StrokeCount(a + b) == StrokeCount(a) + StrokeCount(b)
    decreases |b|
  {
    if b != [] {
      assert (a + b)[..|a + b| - 1] == a + b[..|b| - 1];
      StrokeCountAppend(a, b[..|b| - 1]);
    } else {
      assert a + b == a;
    }
  }

  lemma {:induction false} WidthsSetAppend(a: seq<Command>, b: seq<Command>)
    ensures WidthsSet(a + b) == WidthsSet(a) + WidthsSet(b)
    decreases |b|
  {
    if b != [] {
      assert (a + b)[..|a + b| - 1] == a + b[..|b| - 1];
      WidthsSetAppend(a, b[..|b| - 1]);
    } else {
      assert a + b == a;
    }
  }

  /** One line contributes one `stroke` exactly when it has two points or more. */
  lemma LineStrokes(line: Line)
    ensures StrokeCount(RenderLine(line)) == if |line.points| >= 2 then 1 else 0
    ensures WidthsSet(RenderLine(line)) == [Width(line)]
  {
    var ps := line.points;
    var head := [SetLineWidth(Width(line))];
    assert StrokeCount(head) == 0 && WidthsSet(head) == [Width(line)] by {
      assert head[..0] == [];
    }
    StrokeCountAppend(head, Path(ps));
    WidthsSetAppend(head, Path(ps));
    if |ps| >= 2 {
      PathStrokes(ps);
    }
  }

  /** A path ends in its only `stroke` and sets no line width. */
  lemma PathStrokes(ps: seq<Point>)
    requires |ps| >= 2
    ensures StrokeCount(Path(ps)) == 1 && WidthsSet(Path(ps)) == []
  {
    var p := Path(ps);
    if |ps| == 2 {
      StraightPath(ps);
    } else {
      SmoothedPath(ps);
    }
    var body := p[..|p| - 1];
    assert p[..|p| - 1] == body;
    forall k | 0 <= k < |body|
      ensures !body[k].Stroke? && !body[k].SetLineWidth?
    {
    }
    NoStrokesNoWidths(body);
  }

  lemma {:induction false} NoStrokesNoWidths(cmds: seq<Command>)
    requires forall k :: 0 <= k < |cmds| ==> !cmds[k].Stroke? && !cmds[k].SetLineWidth?
    ensures StrokeCount(cmds) == 0 && WidthsSet(cmds) == []
    decreases |cmds|
  {
    if cmds != [] {
      NoStrokesNoWidths(cmds[..|cmds| - 1]);
    }
  }

  /** A redraw strokes once per line that has two points or more, and never
      for any other line. */
  lemma {:induction false} RenderStrokesDrawnLines(lines: seq<Line>)
    ensures StrokeCount(Render(lines)) == DrawnLines(lines)
  {
    assert StrokeCount(Background()) == 0 by {
      NoStrokesNoWidths(Background());
    }
    StrokeCountAppend(Background(), RenderLines(lines));
    RenderLinesStrokes(lines);
  }

  lemma {:induction false} RenderLinesStrokes(lines: seq<Line>)
    ensures StrokeCount(RenderLines(lines)) == DrawnLines(lines)
    decreases |lines|
  {
    if lines != [] {
      var init := lines[..|lines| - 1];
      RenderLinesStrokes(init);
      StrokeCountAppend(RenderLines(init), RenderLine(lines[|lines| - 1]));
      LineStrokes(lines[|lines| - 1]);
    }
  }

  /** Each line is drawn with its own recorded brush size, in array order:
      the widths a redraw sets are exactly the lines' widths. */
  lemma {:induction false} RenderWidthsFollowLines(lines: seq<Line>)
    ensures WidthsSet(Render(lines)) == seq(|lines|, i requires 0 <= i < |lines| => Width(lines[i]))
  {
    assert WidthsSet(Background()) == [] by {
      NoStrokesNoWidths(Background());
    }
    WidthsSetAppend(Background(), RenderLines(lines));
    RenderLinesWidths(lines);
  }

  lemma {:induction false} RenderLinesWidths(lines: seq<Line>)
    ensures WidthsSet(RenderLines(lines)) == seq(|lines|, i requires 0 <= i < |lines| => Width(lines[i]))
    decreases |lines|
  {
    if lines != [] {
      var init, last := lines[..|lines| - 1], lines[|lines| - 1];
      var front := seq(|init|, i requires 0 <= i < |init| => Width(init[i]));
      var whole := seq(|lines|, i requires 0 <= i < |lines| => Width(lines[i]));
      assert whole == front + [Width(last)] by {
        assert |whole| == |front| + 1;
        forall i | 0 <= i < |init|
          ensures whole[i] == front[i]
        {
          assert lines[i] == init[i];
        }
      }
      assert WidthsSet(RenderLines(lines)) == front + [Width(last)] by {
        assert RenderLines(lines) == RenderLines(init) + RenderLine(last);
        RenderLinesWidths(init);
        LineStrokes(last);
        WidthsSetAppend(RenderLines(init), RenderLine(last));
      }
    }
  }

  /** Redrawing an empty session paints only the white background. */
  lemma RenderEmptyIsBlank()
    ensures Render([]) == [SetFillStyle(White), FillRect(0.0, 0.0, 185.0, 185.0)]
  {
  }
}
