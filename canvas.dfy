/**
 * The pen, cursor and fill flag, with the drawing surface replaced by a trace
 * of the calls made on it. Both interpreter variants share these operations;
 * their C# bodies are identical in the two files.
 */
module Canvas {
  import opened Text
  import Syntax

  datatype Point = Point(x: real, y: real)

  const Origin: Point := Point(0.0, 0.0)

  /** Color.FromName(name), or Color.FromArgb(alpha, Color.FromName(name)). */
  datatype Colour = Named(name: string) | Argb(alpha: int, name: string)

  /** One call on the drawing surface. */
  datatype Event =
    | Line(pen: Colour, from: Point, to: Point)                                    // DrawLine
    | Rectangle(filled: bool, pen: Colour, x: real, y: real, width: real, height: real) // Fill/DrawRectangle
    | Ellipse(filled: bool, pen: Colour, x: real, y: real, width: real, height: real)   // Fill/DrawEllipse
    | Polygon(filled: bool, pen: Colour, points: seq<Point>)                        // Fill/DrawPolygon
    | Wipe                                                                          // Clear(Color.White)
    | Text(at: Point, content: string)                                              // DrawString
    | Grid(spacing: int)                                                            // DrawGridlines, painted over everything before it

  /** The cursor, fill flag and pen of one interpreter, and everything drawn so far. */
  datatype Surface = Surface(position: Point, fill: bool, pen: Colour, trace: seq<Event>)

  /** A fresh interpreter: cursor at the origin, outlines, a black pen, nothing drawn. */
  const Initial: Surface := Surface(Origin, false, Named("Black"), [])

  /** The event with its fill style erased: what is drawn, not how. */
  function Outline(e: Event): Event {
    match e
    case Rectangle(_, pen, x, y, w, h) => Rectangle(false, pen, x, y, w, h)
    case Ellipse(_, pen, x, y, w, h) => Ellipse(false, pen, x, y, w, h)
    case Polygon(_, pen, pts) => Polygon(false, pen, pts)
    case _ => e
  }

  function MoveTo(s: Surface, x: real, y: real): (r: Surface)
    ensures r.position == Point(x, y)
    ensures r.trace == s.trace && r.fill == s.fill && r.pen == s.pen
  {
    s.(position := Point(x, y))
  }

  function DrawTo(s: Surface, x: real, y: real): (r: Surface)
    ensures r.position == Point(x, y)
    ensures r.trace == s.trace + [Line(s.pen, s.position, r.position)]
    ensures r.fill == s.fill && r.pen == s.pen
  {
    s.(position := Point(x, y), trace := s.trace + [Line(s.pen, s.position, Point(x, y))])
  }

  function Clear(s: Surface): (r: Surface)
    ensures r.position == Origin && r.trace == s.trace + [Wipe]
    ensures r.fill == s.fill && r.pen == s.pen
  {
    s.(position := Origin, trace := s.trace + [Wipe])
  }

  function ResetPenPosition(s: Surface): (r: Surface)
    ensures r.position == Origin
    ensures r.trace == s.trace && r.fill == s.fill && r.pen == s.pen
  {
    s.(position := Origin)
  }

  function ToggleFill(s: Surface, state: string): (r: Surface)
    ensures r.fill <==> Lower(state) == "on"
    ensures r.position == s.position && r.trace == s.trace && r.pen == s.pen
  {
    s.(fill := Lower(state) == "on")
  }

  function SetPen(s: Surface, c: Colour): (r: Surface)
    ensures r.pen == c
    ensures r.position == s.position && r.trace == s.trace && r.fill == s.fill
  {
    s.(pen := c)
  }

  /** A width x height rectangle with its top-left corner at the cursor. */
  function DrawRectangle(s: Surface, width: real, height: real): (r: Surface)
    ensures r.trace == s.trace + [Rectangle(s.fill, s.pen, s.position.x, s.position.y, width, height)]
    ensures r.position == s.position && r.fill == s.fill && r.pen == s.pen
  {
    s.(trace := s.trace + [Rectangle(s.fill, s.pen, s.position.x, s.position.y, width, height)])
  }

  /** A circle of the given radius centred on the cursor: its bounding box is (x - r, y - r, 2r, 2r). */
  function DrawCircle(s: Surface, radius: real): (r: Surface)
    ensures |r.trace| == |s.trace| + 1 && r.trace[..|s.trace|] == s.trace
    ensures var e := r.trace[|s.trace|];
      && e.Ellipse? && e.filled == s.fill && e.pen == s.pen
      && e.width == e.height == 2.0 * radius
      && e.x + e.width / 2.0 == s.position.x && e.y + e.height / 2.0 == s.position.y
    ensures r.position == s.position && r.fill == s.fill && r.pen == s.pen
  {
    var p := s.position;
    s.(trace := s.trace + [Ellipse(s.fill, s.pen, p.x - radius, p.y - radius, radius * 2.0, radius * 2.0)])
  }

  /** The triangle through three given points (the cursor is not used). */
  function DrawTriangle(s: Surface, x1: real, y1: real, x2: real, y2: real, x3: real, y3: real): (r: Surface)
    ensures r.trace == s.trace + [Polygon(s.fill, s.pen, [Point(x1, y1), Point(x2, y2), Point(x3, y3)])]
    ensures r.position == s.position && r.fill == s.fill && r.pen == s.pen
  {
    s.(trace := s.trace + [Polygon(s.fill, s.pen, [Point(x1, y1), Point(x2, y2), Point(x3, y3)])])
  }

  /** Text written at the cursor. */
  function DrawText(s: Surface, content: string): (r: Surface)
    ensures r.trace == s.trace + [Text(s.position, content)]
    ensures r.position == s.position && r.fill == s.fill && r.pen == s.pen
  {
    s.(trace := s.trace + [Text(s.position, content)])
  }

  function DrawGridlines(s: Surface, spacing: int): (r: Surface)
    ensures r.trace == s.trace + [Grid(spacing)]
    ensures r.position == s.position && r.fill == s.fill && r.pen == s.pen
  {
    s.(trace := s.trace + [Grid(spacing)])
  }

  /** The pen operation a numeric command names, on its arguments in order. */
  function Intended(s: Surface, keyword: string, a: seq<real>): Surface
    requires |a| + 1 == Syntax.Arity(keyword)
  {
    if keyword == "moveto" then MoveTo(s, a[0], a[1])
    else if keyword == "drawto" then DrawTo(s, a[0], a[1])
    else if keyword == "rectangle" then DrawRectangle(s, a[0], a[1])
    else if keyword == "circle" then DrawCircle(s, a[0])
    else if keyword == "triangle" then DrawTriangle(s, a[0], a[1], a[2], a[3], a[4], a[5])
    else s
  }

  // ---------------------------------------------------------------------
  // Properties of the pen state machine.

  /** Drawing to each point in turn: the operation a run of `drawto` lines performs. */
  function DrawPath(s: Surface, points: seq<Point>): Surface
    decreases |points|
  {
    if points == [] then s else DrawPath(DrawTo(s, points[0].x, points[0].y), points[1..])
  }

  /** The segments joining `from` to the first point and each point to the next. */
  function Segments(pen: Colour, from: Point, points: seq<Point>): (r: seq<Event>)
    ensures |r| == |points|
    decreases |points|
  {
    if points == [] then [] else [Line(pen, from, points[0])] + Segments(pen, points[0], points[1..])
  }

  /**
   * Consecutive DrawTo calls draw exactly one line each, every line starting
   * where the previous one ended, and leave the cursor on the last point.
   */
  lemma {:induction false} DrawPathTrace(s: Surface, points: seq<Point>)
    ensures DrawPath(s, points).trace == s.trace + Segments(s.pen, s.position, points)
    ensures points != [] ==> DrawPath(s, points).position == points[|points| - 1]
    ensures points == [] ==> DrawPath(s, points).position == s.position
    ensures DrawPath(s, points).pen == s.pen && DrawPath(s, points).fill == s.fill
    decreases |points|
  {
    if points != [] {
      var s1 := DrawTo(s, points[0].x, points[0].y);
      assert s1.position == points[0];
      DrawPathTrace(s1, points[1..]);
      assert s.trace + Segments(s.pen, s.position, points)
          == (s.trace + [Line(s.pen, s.position, points[0])]) + Segments(s.pen, points[0], points[1..]);
      if |points| > 1 {
        assert points[1..][|points[1..]| - 1] == points[|points| - 1];
      }
    }
  }

  /**
   * The fill flag decides only the style: with the flag on and off the same
   * shape call draws the same geometry, filled exactly when the flag is on.
   */
  lemma FillChangesStyleOnly(s: Surface, w: real, h: real, radius: real, x1: real, y1: real, x2: real, y2: real, x3: real, y3: real)
    ensures var on, off := s.(fill := true), s.(fill := false);
      && Outline(DrawRectangle(on, w, h).trace[|s.trace|]) == Outline(DrawRectangle(off, w, h).trace[|s.trace|])
      && Outline(DrawCircle(on, radius).trace[|s.trace|]) == Outline(DrawCircle(off, radius).trace[|s.trace|])
      && Outline(DrawTriangle(on, x1, y1, x2, y2, x3, y3).trace[|s.trace|])
         == Outline(DrawTriangle(off, x1, y1, x2, y2, x3, y3).trace[|s.trace|])
      && DrawRectangle(on, w, h).trace[|s.trace|].filled && !DrawRectangle(off, w, h).trace[|s.trace|].filled
      && DrawCircle(on, radius).trace[|s.trace|].filled && !DrawCircle(off, radius).trace[|s.trace|].filled
      && DrawTriangle(on, x1, y1, x2, y2, x3, y3).trace[|s.trace|].filled
      && !DrawTriangle(off, x1, y1, x2, y2, x3, y3).trace[|s.trace|].filled
  {
  }

  /** Clear and reset both return the cursor to the origin wherever it was moved. */
  lemma ClearAndResetForgetPosition(s: Surface, x: real, y: real)
    ensures Clear(MoveTo(s, x, y)) == Clear(s)
    ensures ResetPenPosition(MoveTo(s, x, y)) == ResetPenPosition(s)
  {
  }
}
