# Drawing canvas and label tables of the letter/digit/shape classifier demo

This project models the two parts of the demo that hold logic of their own.

- **The drawing session of the `Canvas` component** (`src/components/Canvas.jsx`).
  Pointer events record freehand lines. A move is kept only when it is at least
  `POINTS_DISTANCE` (5) from the last kept point. Redraws are coalesced into one
  animation frame. Each redraw replays every line onto the 185×185 surface with
  rolling-midpoint quadratic smoothing.
- **The class-index-to-character tables** (`src/helper_functions.js`). These are
  `digitMapping`, `letterMapping`, the 47-entry `mergedMapping` and the
  11-entry `shapeMapping`.

Modules:

- `Wrappers` (`wrappers.dfy`): `Option` (a missing entry, JavaScript's
  `undefined`) and `Result`.
- `Mappings` (`mappings.dfy`): the four tables as partial functions, with their
  ranges, layout, ordering and agreement proved.
- `Strokes` (`strokes.dfy`): points and lines, and the event-to-canvas coordinate
  translation. Also holds the distance-gated append of `draw` (`TryAppend`) and
  the invariant the handlers keep (`WellFormed`).
- `Rendering` (`render.dfy`): the commands `drawOnMainCanvas` issues to the 2D
  context, as the function `Render` of the recorded lines. Lemmas cover path
  shape, smoothness, stroke count and per-line widths.
- `CanvasSession` (`canvas.dfy`): the class `Canvas`. Its fields are the `lines`
  ref, the `isDrawing` ref, the pending-frame ref `drawTimeoutRef` (as
  `framePending`), the browser's queue of frame callbacks (as
  `outstandingFrames`), and the log of every context call. The five handlers are
  methods that update these fields in place. `FireFrame` is the browser running
  the requested animation frame.
- `CanvasScenarios` (`canvas.dfy`): sessions driven through the handlers.

Coordinates are exact `real`s, so the midpoints `(p_i + p_{i+1})/2` are exact. The
source's `Math.sqrt(dx² + dy²) >= 5` is replaced by `dx² + dy² >= 25`;
`FarEnoughIsDistanceTest` proves the two agree. A handler that would throw a
`TypeError` returns `Thrown(fault)` and keeps the state changes made before the
throw. The bounding rectangle of the canvas and the brush-size prop are
parameters.

Three behaviours of the code are easy to miss:

- `startDrawing` pushes **two** one-point lines. The first has no brush size; the
  second records it.
- `clearCanvas` uses `clearRect`, which makes the surface transparent rather than
  filling it with the background colour. It neither cancels a pending frame nor
  resets the drawing flag.
- As a result, a move after clearing in mid-stroke reads the last line of an
  empty array and throws.

## Model

| member | source | states |
|---|---|---|
| `Mappings.DigitMapping` | src/helper_functions.js:4 | class c gives a code in '0'..'9' exactly when 0 ≤ c ≤ 9, and that code is the c-th digit character |
| `Mappings.LetterMapping` | src/helper_functions.js:5 | class c gives a code in 'A'..'Z' exactly when 0 ≤ c ≤ 25, and that code is the c-th uppercase letter |
| `Mappings.LetterClassIsOneBased` | src/pages/Classification.jsx:68 | the letter page's `letterMapping(k - 1)` turns letter-model class k in 1..26 into the k-th letter, 'A' + k − 1 |
| `Mappings.MergedMapping` | src/helper_functions.js:8-18 | defined exactly on 0..46 (`undefined` elsewhere); 0..9 agree with `digitMapping`, 10..35 with `letterMapping(i − 10)`, 36..46 are the codes of a b d e f g h n q r t |
| `Mappings.IncreasingFromNeighbours` | src/helper_functions.js:11-15 | a table whose neighbours increase is increasing between any two positions |
| `Mappings.MergedStrictlyIncreasing` | src/helper_functions.js:11-15 | for classes i < j in 0..46 the merged code of i is smaller than that of j |
| `Mappings.MergedInjective` | src/helper_functions.js:8-18 | two merged classes that give the same character are the same class |
| `Mappings.ShapeMapping` | src/helper_functions.js:20-36 | defined exactly for the keys 0..10, `undefined` otherwise |
| `Mappings.ShapeNamesDistinct` | src/helper_functions.js:21-33 | the eleven shape classes have pairwise different names |
| `Strokes.FarEnough` | src/components/Canvas.jsx:99-102 | the decimation test: the squared distance from the last recorded point is at least `POINTS_DISTANCE`² = 25 |
| `Strokes.FarEnoughIsDistanceTest` | src/components/Canvas.jsx:99-102 | the squared test `dx² + dy² ≥ 25` holds exactly when the Euclidean distance d (d ≥ 0, d² = dx² + dy²) satisfies d ≥ `POINTS_DISTANCE` |
| `Strokes.EventCoordinates` | src/components/Canvas.jsx:157-159 | a mouse event gives its own position; a touch event gives its first touch; an empty touch list gives `undefined` |
| `Strokes.LocalPoint` | src/components/Canvas.jsx:65-68 | the canvas point plus the canvas's left/top offset is the client position; it fails (`NoTouchPoint`) exactly when there are no coordinates |
| `Strokes.Started` | src/components/Canvas.jsx:71-79 | existing lines untouched; two lines appended, each holding only the pressed point; only the second records the brush size |
| `Strokes.TryAppend` | src/components/Canvas.jsx:96-103 | fails exactly on an empty session (`NoCurrentLine`) or an empty last line; otherwise only the last line can change, with its brush size kept; the lines change exactly when the point is at least 5 from the last point, and then the point is pushed onto the last line |
| `Strokes.WellFormed` | src/components/Canvas.jsx:71-103 | the session invariant: lines come in pairs of a one-point line without brush size and a line with brush size starting at that point, and every line's consecutive points are at least 5 apart |
| `Strokes.UnbrushedLinesAreDots` | src/components/Canvas.jsx:71-79 | in a well-formed session every line has a point, the lines without a brush size are exactly those at even positions, and each has exactly one point |
| `Strokes.WellFormedAppendFails` | src/components/Canvas.jsx:97-98 | in a well-formed session `draw` fails exactly when there are no lines |
| `Strokes.StartedWellFormed` | src/components/Canvas.jsx:71-79 | pushing the two start lines preserves the session invariant (dot/stroke pairs, spaced points) |
| `Strokes.AppendWellFormed` | src/components/Canvas.jsx:97-103 | the append of `draw` preserves the session invariant; consecutive points stay at least 5 apart |
| `Strokes.AppendAll` | src/components/Canvas.jsx:96-103 | a run of `draw` calls while drawing: each point in turn goes through the update of `draw`, stopping at the first throw |
| `Strokes.CloseMovesAddNothing` | src/components/Canvas.jsx:99-103 | any run of moves that all stay closer than 5 to the last recorded point leaves the lines unchanged |
| `Strokes.AppendAllWellFormed` | src/components/Canvas.jsx:96-103 | a run of moves keeps the invariant and the number of lines, and adds at most one point per move to the last line |
| `Rendering.Render` | src/components/Canvas.jsx:116-149 | `drawOnMainCanvas`: the white fill of the 185×185 surface, then each line's commands in array order |
| `Rendering.RenderLines` | src/components/Canvas.jsx:125-148 | the `forEach` over the lines: the lines' commands concatenated in array order |
| `Rendering.RenderLine` | src/components/Canvas.jsx:126-147 | one line: the assignment of `lineWidth` to twice its own brush size, then its path |
| `Rendering.Path` | src/components/Canvas.jsx:129-147 | the path of one line by point count: smoothed for more than two, a straight segment for two, nothing for fewer |
| `Rendering.Curves` | src/components/Canvas.jsx:133-137 | the inner loop: for i = 1 .. n−2, a curve controlled by point i ending at the midpoint of points i and i+1 |
| `Rendering.RenderLinesSnoc` | src/components/Canvas.jsx:125-148 | lines are replayed in array order: one more line adds exactly that line's commands at the end |
| `Rendering.StraightPath` | src/components/Canvas.jsx:142-146 | a line of exactly two points is drawn as `beginPath`, `moveTo(p0)`, `lineTo(p1)`, `stroke`: the straight segment with both endpoints exactly as recorded |
| `Rendering.SmoothedPath` | src/components/Canvas.jsx:129-141 | a line of n > 2 points gives `beginPath`, `moveTo(p0)`, then for i = 1 .. n−2 `quadraticCurveTo(p_i, midpoint(p_i, p_{i+1}))`, then `lineTo(p_{n−1})` and `stroke`, so the path ends exactly at the last point |
| `Rendering.CurvesJoinSmoothly` | src/components/Canvas.jsx:133-137 | in a drawn path, each curve that is followed by another ends at the midpoint of its own control point and the next curve's control point |
| `Rendering.DotsDrawNothing` | src/components/Canvas.jsx:127-147 | a line with fewer than two points only sets the line width and draws no path |
| `Rendering.StrokeCountAppend` | src/components/Canvas.jsx:116-149 | proof helper: stroke counts add up over concatenated command lists |
| `Rendering.WidthsSetAppend` | src/components/Canvas.jsx:116-149 | proof helper: the widths set in concatenated command lists are the two lists' widths in order |
| `Rendering.NoStrokesNoWidths` | src/components/Canvas.jsx:116-149 | proof helper: a command list with no `stroke` and no width assignment counts none of either |
| `Rendering.PathStrokes` | src/components/Canvas.jsx:129-146 | a path of two or more points holds exactly one `stroke` and sets no width |
| `Rendering.LineStrokes` | src/components/Canvas.jsx:126-147 | one line sets its own width once and strokes once exactly when it has two points or more |
| `Rendering.RenderLinesStrokes` | src/components/Canvas.jsx:125-148 | the per-line part of a redraw strokes once per line with two or more points |
| `Rendering.RenderStrokesDrawnLines` | src/components/Canvas.jsx:116-149 | a whole redraw strokes exactly as many times as there are lines with two or more points |
| `Rendering.RenderLinesWidths` | src/components/Canvas.jsx:125-127 | the per-line part sets, in order, exactly each line's own `brushSize * 2` |
| `Rendering.RenderWidthsFollowLines` | src/components/Canvas.jsx:116-149 | a whole redraw sets exactly the lines' own widths, in array order, and no other width |
| `Rendering.RenderEmptyIsBlank` | src/components/Canvas.jsx:120-122 | redrawing an empty session is only the white fill of the 185×185 surface |
| `CanvasSession.DotCommands` | src/components/Canvas.jsx:72-76 | the context calls of the dot `startDrawing` paints at the pressed point: begin a path, a full circle of the brush radius, black fill, fill, begin a fresh path |
| `CanvasSession.Canvas.constructor` | src/components/Canvas.jsx:12-23 | a mounted canvas has no lines, is not drawing, has no frame pending, and has set round joins and caps and the initial width |
| `CanvasSession.Canvas.StartDrawing` | src/components/Canvas.jsx:58-80 | sets `isDrawing`; with coordinates, appends the two start lines at the offset-corrected point and paints the dot; without them (empty touch list), throws with the lines unchanged; the frame flag is untouched |
| `CanvasSession.Canvas.Draw` | src/components/Canvas.jsx:83-113 | not drawing: nothing changes; drawing: the lines become `TryAppend`'s result or the fault is returned; a frame is requested exactly when a point was appended and none was pending; at most one frame is ever outstanding |
| `CanvasSession.Canvas.FireFrame` | src/components/Canvas.jsx:107-110 | the callback clears the pending flag, leaves no frame outstanding, and issues `Render(lines)` |
| `CanvasSession.Canvas.DrawOnMainCanvas` | src/components/Canvas.jsx:116-149 | the commands issued one at a time, over both loops, are exactly `Render(lines)` |
| `CanvasSession.Canvas.DrawLine` | src/components/Canvas.jsx:125-148 | the `forEach` callback issues exactly `RenderLine(line)` |
| `CanvasSession.Canvas.EndDrawing` | src/components/Canvas.jsx:152-154 | only `isDrawing` changes, to false |
| `CanvasSession.Canvas.ClearCanvas` | src/components/Canvas.jsx:40-45 | lines become empty whatever they were (so a second clear changes no line), the 185×185 area is cleared, and `isDrawing` and a pending frame are unchanged |
| `CanvasScenarios.AppendToPair` | src/components/Canvas.jsx:97-103 | a far-enough move on a dot/stroke pair extends only the stroke |
| `CanvasScenarios.DecimationScenario` | src/components/Canvas.jsx:58-113 | press (10,10) with brush 8, move to (20,10), move to (21,10), release: the stroke is exactly (10,10), (20,10) |
| `CanvasScenarios.ClearMidStroke` | src/components/Canvas.jsx:40-45 | clearing during a stroke and then moving throws `NoCurrentLine`, because the empty array's last line is read |
| `CanvasScenarios.MovesCoalesce` | src/components/Canvas.jsx:102-111 | of two recorded moves before a frame, only the first requests a frame; that one frame redraws both points |
| `CanvasScenarios.ClearBeforeFrame` | src/components/Canvas.jsx:40-45 | a clear does not cancel a pending frame; when the frame runs it paints only the white background |

## Left out

- `preprocessImage` (resize, invert, transpose, reshape) is left out. It is made
  of floating-point tensor calls into TensorFlow.js.
- Model loading, prediction, `argMax`, the 500 ms delay and the React state of
  the classification page are left out. They are asynchronous foreign calls.
  Only the page's use of the tables is modelled.
- Rasterisation is left out: pixels, anti-aliasing, the transparency left by
  `clearRect`. Context calls are recorded as abstract commands instead. The
  `arc(x, y, r, 0, 2π)` dot is one `Dot` command, because 2π is not a real
  literal.
- `requestAnimationFrame` timing is left out. The browser running the callback
  is the explicit step `FireFrame`, and the request id is a flag.
- `event.preventDefault()` is left out, because it has no effect on this state.
  The `keydown` listener for 'R' and the mouse/touch wiring are also left out.
  'R', the reset button, `onMouseUp` and `onMouseOut` call the modelled
  `ClearCanvas` and `EndDrawing`.
- Floating-point rounding of JavaScript numbers is not modelled. Coordinates,
  distances and midpoints are exact reals.
- The brush slider hands over a string, which `* 2` and `arc` coerce to a number.
  The model takes the number.
- `Mappings.ShapeMapping` takes an integer class index. The object's string keys
  are looked up with the number's decimal form. Non-integer or string inputs are
  not modelled.
- A 2D context ignores a NaN `lineWidth`. Setting the width of a line that has no
  brush size is recorded as `SetLineWidth(None)`, and its effect on the
  context's state is not modelled.
- The export, navigation, toast and accuracy-animation components are left out.
  They are UI only.
