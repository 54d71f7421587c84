/** The part of the cairo drawing context that the trigger overlay uses:
    a context is a log of the drawing commands issued on it, and `Render`
    gives those commands their meaning as the list of line segments that
    end up stroked on the canvas. */
module Cairo {
  import opened Options

  /** Palette entries. Only the one reserved for trigger markers is used
      by this core; the rest of the palette is not part of this model. */
  datatype Color = TriggerColor

  datatype Point = Point(x: real, y: real)

  datatype Op =
    | SetColor(color: Color)
    | SetLineWidth(width: real)
    | MoveTo(to: Point)
    | LineTo(to: Point)
    | Stroke

  datatype Segment = Segment(from: Point, to: Point)

  /** A segment as it appears on the canvas, with the pen it was stroked with. */
  datatype Line = Line(segment: Segment, width: real, color: Option<Color>)

  /** Drawing state: current point, the path built so far, line width and
      source color (`None` is cairo's default black). */
  datatype Pen = Pen(current: Option<Point>, path: seq<Segment>, width: real, color: Option<Color>)

  /** A fresh cairo context: no current point, empty path, line width 2. */
  const FreshPen := Pen(None, [], 2.0, None)

  /** The lines a stroke of `pen`'s path paints. */
  function Painted(pen: Pen): seq<Line> {
    seq(|pen.path|, i requires 0 <= i < |pen.path| => Line(pen.path[i], pen.width, pen.color))
  }

  /** One command: the pen afterwards. `line_to` without a current point
      acts as `move_to`; `stroke` clears the path and the current point. */
  function Apply(pen: Pen, op: Op): Pen {
    match op
    case SetColor(c) => pen.(color := Some(c))
    case SetLineWidth(w) => pen.(width := w)
    case MoveTo(p) => pen.(current := Some(p))
    case LineTo(p) =>
      (match pen.current
       case None => pen.(current := Some(p))
       case Some(q) => pen.(current := Some(p), path := pen.path + [Segment(q, p)]))
    case Stroke => pen.(current := None, path := [])
  }

  /** The lines painted by running `ops` from `pen`, in stroke order. */
  function Render(ops: seq<Op>, pen: Pen): seq<Line>
    decreases |ops|
  {
    if ops == [] then []
    else (if ops[0].Stroke? then Painted(pen) else []) + Render(ops[1..], Apply(pen, ops[0]))
  }

  /** The pen left after running `ops` from `pen`. */
  function Final(ops: seq<Op>, pen: Pen): Pen
    decreases |ops|
  {
    if ops == [] then pen else Final(ops[1..], Apply(pen, ops[0]))
  }

  /** Rendering a concatenation renders the first part, then the second
      part from the pen the first part leaves. */
  lemma {:induction false} RenderAppend(a: seq<Op>, b: seq<Op>, pen: Pen)
    ensures Render(a + b, pen) == Render(a, pen) + Render(b, Final(a, pen))
    decreases |a|
  {
    if a == [] {
      assert a + b == b;
    } else {
      assert (a + b)[0] == a[0];
      assert (a + b)[1..] == a[1..] + b;
      RenderAppend(a[1..], b, Apply(pen, a[0]));
    }
  }

  /** A drawing context (`cairo::Context`): every command issued on it is
      appended to its log. */
  class Context {
    var log: seq<Op>

    constructor ()
      ensures log == []
    {
      log := [];
    }

    method SetColor(color: Color)
      modifies this
      ensures log == old(log) + [Op.SetColor(color)]
    {
      log := log + [Op.SetColor(color)];
    }

    method SetLineWidth(width: real)
      modifies this
      ensures log == old(log) + [Op.SetLineWidth(width)]
    {
      log := log + [Op.SetLineWidth(width)];
    }

    method MoveTo(x: real, y: real)
      modifies this
      ensures log == old(log) + [Op.MoveTo(Point(x, y))]
    {
      log := log + [Op.MoveTo(Point(x, y))];
    }

    method LineTo(x: real, y: real)
      modifies this
      ensures log == old(log) + [Op.LineTo(Point(x, y))]
    {
      log := log + [Op.LineTo(Point(x, y))];
    }

    method Stroke()
      modifies this
      ensures log == old(log) + [Op.Stroke]
    {
      log := log + [Op.Stroke];
    }
  }
}
