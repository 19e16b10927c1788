/** The drawing surface, modelled as a log of draw commands rather than
    pixels.  The renderer emits a list of canvas operations; two pieces of
    context state, the global alpha and the text shadow, persist between
    operations, and `Replay` stamps every draw with the state in force when
    it runs.  Colours are opaque strings and nothing is rasterised. */
module Canvas {

  datatype Point = Point(x: real, y: real)

  /** Horizontal text alignment, the canvas `textAlign`. */
  datatype Align = LeftAligned | Centered | RightAligned

  datatype Font = Font(bold: bool, size: real, family: string)

  /** What one draw call puts on the surface. */
  datatype Mark =
    | Rect(x: real, y: real, w: real, h: real)          // fillRect
    | Polygon(corners: seq<Point>)                      // closed path, filled
    | Disc(center: Point, radius: real)                 // full arc, filled
    | Path(points: seq<Point>, lineWidth: real)         // open path, stroked
    | Text(text: string, at: Point, align: Align, font: Font)  // fillText

  /** The shadow settings; `NoShadow` is colour "transparent" with zero blur
      and zero offsets, the state of a freshly reset context. */
  datatype Shadow = NoShadow | DropShadow(color: string, blur: real, offsetX: real, offsetY: real)

  datatype Op =
    | SetAlpha(alpha: real)
    | SetShadow(shadow: Shadow)
    | Draw(mark: Mark, color: string)

  /** The context state that a draw picks up. */
  datatype Pen = Pen(alpha: real, shadow: Shadow)

  /** One entry of the command log. */
  datatype Command = Command(mark: Mark, color: string, alpha: real, shadow: Shadow)

  /** The state of a context whose canvas has just been resized. */
  const Fresh := Pen(1.0, NoShadow)

  predicate DrawsOnly(ops: seq<Op>) {
    forall i | 0 <= i < |ops| :: ops[i].Draw?
  }

  /** The draw operations of `ops`, in order, without the state changes. */
  function DrawsIn(ops: seq<Op>): (ds: seq<Op>)
    ensures |ds| <= |ops| && DrawsOnly(ds)
  {
    if |ops| == 0 then []
    else if ops[0].Draw? then [ops[0]] + DrawsIn(ops[1..])
    else DrawsIn(ops[1..])
  }

  /** The log that running `ops` from state `pen` produces. */
  function Replay(ops: seq<Op>, pen: Pen): (log: seq<Command>)
    ensures |log| <= |ops|
    ensures DrawsOnly(ops) ==> |log| == |ops|
    ensures DrawsOnly(ops) ==>
      forall i | 0 <= i < |log| ::
        log[i] == Command(ops[i].mark, ops[i].color, pen.alpha, pen.shadow)
  {
    if |ops| == 0 then []
    else
      match ops[0]
      case SetAlpha(a) => Replay(ops[1..], pen.(alpha := a))
      case SetShadow(s) => Replay(ops[1..], pen.(shadow := s))
      case Draw(m, col) =>
        assert DrawsOnly(ops) ==> DrawsOnly(ops[1..]);
        [Command(m, col, pen.alpha, pen.shadow)] + Replay(ops[1..], pen)
  }

  /** The log holds one command per draw, in order, with the draw's mark
      and colour: state changes log nothing. */
  lemma {:induction false} ReplayLogsDraws(ops: seq<Op>, pen: Pen)
    ensures |Replay(ops, pen)| == |DrawsIn(ops)|
    ensures forall i | 0 <= i < |DrawsIn(ops)| ::
              Replay(ops, pen)[i].mark == DrawsIn(ops)[i].mark
              && Replay(ops, pen)[i].color == DrawsIn(ops)[i].color
    decreases |ops|
  {
    if |ops| > 0 {
      match ops[0]
      case SetAlpha(a) => ReplayLogsDraws(ops[1..], pen.(alpha := a));
      case SetShadow(sh) => ReplayLogsDraws(ops[1..], pen.(shadow := sh));
      case Draw(m, col) =>
        ReplayLogsDraws(ops[1..], pen);
        var rest := Replay(ops[1..], pen);
        var ds := DrawsIn(ops[1..]);
        assert Replay(ops, pen) == [Command(m, col, pen.alpha, pen.shadow)] + rest;
        assert DrawsIn(ops) == [ops[0]] + ds;
    }
  }

  /** The state left behind after running `ops` from state `pen`. */
  function Settle(ops: seq<Op>, pen: Pen): (after: Pen)
    ensures DrawsOnly(ops) ==> after == pen
  {
    if |ops| == 0 then pen
    else
      match ops[0]
      case SetAlpha(a) => Settle(ops[1..], pen.(alpha := a))
      case SetShadow(s) => Settle(ops[1..], pen.(shadow := s))
      case Draw(_, _) =>
        assert DrawsOnly(ops) ==> DrawsOnly(ops[1..]);
        Settle(ops[1..], pen)
  }

  /** Running two op lists one after the other is running the first and
      then the second from wherever the first left the state. */
  lemma {:induction false} ReplayAppend(a: seq<Op>, b: seq<Op>, pen: Pen)
    ensures Replay(a + b, pen) == Replay(a, pen) + Replay(b, Settle(a, pen))
    ensures Settle(a + b, pen) == Settle(b, Settle(a, pen))
    decreases |a|
  {
    if |a| == 0 {
      assert a + b == b;
    } else {
      assert (a + b)[1..] == a[1..] + b;
      match a[0]
      case SetAlpha(x) => ReplayAppend(a[1..], b, pen.(alpha := x));
      case SetShadow(s) => ReplayAppend(a[1..], b, pen.(shadow := s));
      case Draw(m, col) => ReplayAppend(a[1..], b, pen);
    }
  }

  /** Two stages that each start and end with the fresh pen chain: the
      combined log is the two logs one after the other. */
  lemma Link(a: seq<Op>, b: seq<Op>, la: seq<Command>, lb: seq<Command>)
    requires Replay(a, Fresh) == la && Settle(a, Fresh) == Fresh
    requires Replay(b, Fresh) == lb && Settle(b, Fresh) == Fresh
    ensures Replay(a + b, Fresh) == la + lb && Settle(a + b, Fresh) == Fresh
  {
    ReplayAppend(a, b, Fresh);
  }
}
