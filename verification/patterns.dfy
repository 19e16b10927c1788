/** The decorative background patterns (`drawDecorativeShapes`).  Each
    pattern is a list of draw operations in the config's colours; the alpha
    bracketing around them lives in `DecorativeShapes`.  The random source
    of `circles` and the sine and cosine of `waves` are injected through
    `Env`, since they are foreign numeric code. */
module Patterns {
  import opened Types
  import opened Canvas

  /** The three configured colours the patterns paint with. */
  datatype Tints = Tints(primary: string, secondary: string, accent: string)

  function TintsOf(c: BannerConfig): Tints {
    Tints(c.primaryColor, c.secondaryColor, c.accentColor)
  }

  /** The foreign numeric sources: the n-th value `Math.random` returns
      during one render, and the two trigonometric functions. */
  datatype Env = Env(random: nat -> real, sin: real -> real, cos: real -> real)

  /** The indices `start, start + step, ...` that a JavaScript loop
      `for (i = start; i < limit; i += step)` visits. */
  function LoopIndices(start: int, limit: int, step: int): (xs: seq<int>)
    requires step > 0
    ensures forall k | 0 <= k < |xs| :: xs[k] < limit
    ensures start < limit ==> |xs| > 0 && xs[0] == start
    decreases limit - start
  {
    if start < limit then [start] + LoopIndices(start + step, limit, step) else []
  }

  /** The loop visits exactly the points `start + k * step` below `limit`,
      and stops at the first one that is not. */
  lemma {:induction false} LoopIndicesSpec(start: int, limit: int, step: int)
    requires step > 0
    ensures var xs := LoopIndices(start, limit, step);
      && (forall k | 0 <= k < |xs| :: xs[k] == start + k * step)
      && start + |xs| * step >= limit
    decreases limit - start
  {
    var xs := LoopIndices(start, limit, step);
    if start < limit {
      var rest := LoopIndices(start + step, limit, step);
      LoopIndicesSpec(start + step, limit, step);
      assert xs == [start] + rest;
      forall k | 1 <= k < |xs|
        ensures xs[k] == start + k * step
      {
        assert xs[k] == rest[k - 1] == start + step + (k - 1) * step;
      }
      assert start + step + |rest| * step >= limit;
      assert start + |xs| * step == start + step + |rest| * step;
    }
  }

  /** The number of trips of `for (i = 0; i < limit; i += step)` is the
      ceiling of `limit / step` (none when `limit` is not positive). */
  lemma LoopCount(limit: int, step: int)
    requires step > 0
    ensures |LoopIndices(0, limit, step)| == if limit <= 0 then 0 else (limit + step - 1) / step
  {
    var xs := LoopIndices(0, limit, step);
    LoopIndicesSpec(0, limit, step);
    if limit > 0 {
      var n := |xs|;
      assert xs[n - 1] == (n - 1) * step < limit;
      CeilingOf(n, limit, step);
    }
  }

  /** The only `n` with `(n - 1) * step < limit <= n * step` is the ceiling
      of `limit / step`. */
  lemma CeilingOf(n: int, limit: int, step: int)
    requires step > 0
    requires (n - 1) * step < limit <= n * step
    ensures n == (limit + step - 1) / step
  {
    var q := (limit + step - 1) / step;
    var r := (limit + step - 1) % step;
    assert q * step + r == limit + step - 1 && 0 <= r < step;
    CeilingUnique(n, q, step, limit);
  }

  lemma CeilingUnique(n: int, q: int, step: int, limit: int)
    requires step > 0
    requires (n - 1) * step < limit <= n * step
    requires limit <= q * step < limit + step
    ensures n == q
  {
    assert (q - 1) * step < n * step;
    MulCancel(q - 1, n, step);
    assert (n - 1) * step < q * step;
    MulCancel(n - 1, q, step);
  }

  lemma MulCancel(a: int, b: int, s: int)
    requires s > 0 && a * s < b * s
    ensures a < b
  {
  }

  /** Everything a mark touches lies inside the `width` by `height` canvas. */
  predicate Inside(p: Point, width: int, height: int) {
    0.0 <= p.x <= width as real && 0.0 <= p.y <= height as real
  }

  predicate OnCanvas(m: Mark, width: int, height: int) {
    match m
    case Rect(x, y, w, h) =>
      0.0 <= x && 0.0 <= y && x + w <= width as real && y + h <= height as real
    case Polygon(corners) => forall i | 0 <= i < |corners| :: Inside(corners[i], width, height)
    case Disc(c, r) =>
      0.0 <= c.x - r && c.x + r <= width as real && 0.0 <= c.y - r && c.y + r <= height as real
    case Path(points, _) => forall i | 0 <= i < |points| :: Inside(points[i], width, height)
    case Text(_, at, _, _) => Inside(at, width, height)
  }

  predicate NoText(ops: seq<Op>) {
    forall i | 0 <= i < |ops| :: ops[i].Draw? ==> !ops[i].mark.Text?
  }

  /** `geometric`: a wedge in the top-left corner in the primary colour, a
      wedge in the bottom-right corner in the accent colour, and a disc in
      the secondary colour.  For any canvas no more than twice as tall as it
      is wide (every canvas the editor allows) it stays on the canvas. */
  function GeometricOps(width: int, height: int, t: Tints): (ops: seq<Op>)
    ensures DrawsOnly(ops) && NoText(ops)
    ensures |ops| == 3
    ensures ops[0].color == t.primary && ops[1].color == t.accent && ops[2].color == t.secondary
    ensures ops[0].mark == Polygon([Point(0.0, 0.0), Point(width as real * 0.2, 0.0), Point(0.0, height as real * 0.3)])
    ensures ops[1].mark == Polygon([Point(width as real, height as real), Point(width as real * 0.8, height as real),
                                    Point(width as real, height as real * 0.7)])
    ensures ops[2].mark == Disc(Point(width as real * 0.8, height as real * 0.2), height as real * 0.1)
    ensures 0 <= width && 0 <= height <= 2 * width ==>
              forall i | 0 <= i < |ops| :: OnCanvas(ops[i].mark, width, height)
  {
    var w := width as real;
    var h := height as real;
    [ Draw(Polygon([Point(0.0, 0.0), Point(w * 0.2, 0.0), Point(0.0, h * 0.3)]), t.primary),
      Draw(Polygon([Point(w, h), Point(w * 0.8, h), Point(w, h * 0.7)]), t.accent),
      Draw(Disc(Point(w * 0.8, h * 0.2), h * 0.1), t.secondary) ]
  }

  /** The first `n` values of the random source lie in [0, 1), as
      `Math.random` promises. */
  predicate UnitInterval(random: nat -> real, n: nat) {
    forall j: nat | j < n :: 0.0 <= random(j) < 1.0
  }

  /** The i-th disc of `circles`: it draws three values from the random
      source, radius first, then x, then y, and is in the primary colour at
      even i and the accent colour at odd i. */
  function Circle(i: nat, width: int, height: int, t: Tints, random: nat -> real): (op: Op)
    ensures op.Draw? && op.mark.Disc?
    ensures op.color == if i % 2 == 0 then t.primary else t.accent
    ensures 0.0 <= random(3 * i) < 1.0 && height > 0 ==>
              20.0 <= op.mark.radius < 20.0 + 0.2 * height as real
    ensures 0.0 <= random(3 * i + 1) < 1.0 && width > 0 ==>
              0.0 <= op.mark.center.x < width as real
    ensures 0.0 <= random(3 * i + 2) < 1.0 && height > 0 ==>
              0.0 <= op.mark.center.y < height as real
  {
    var w := width as real;
    var h := height as real;
    var radius := random(3 * i) * (h * 0.2) + 20.0;
    var x := random(3 * i + 1) * w;
    var y := random(3 * i + 2) * h;
    Scaled(random(3 * i), h * 0.2);
    Scaled(random(3 * i + 1), w);
    Scaled(random(3 * i + 2), h);
    Draw(Disc(Point(x, y), radius), if i % 2 == 0 then t.primary else t.accent)
  }

  /** `circles`: five discs whose colours alternate primary, accent, ...;
      with a random source in [0, 1) every radius lies in
      [20, 20 + 0.2 height) and every centre on the canvas. */
  function CircleOps(width: int, height: int, t: Tints, random: nat -> real): (ops: seq<Op>)
    ensures DrawsOnly(ops) && NoText(ops)
    ensures |ops| == 5
    ensures forall i | 0 <= i < 5 ::
              ops[i].mark.Disc? && ops[i].color == if i % 2 == 0 then t.primary else t.accent
    ensures UnitInterval(random, 15) && height > 0 ==>
              forall i | 0 <= i < 5 ::
                20.0 <= ops[i].mark.radius < 20.0 + 0.2 * height as real
    ensures UnitInterval(random, 15) && width > 0 && height > 0 ==>
              forall i | 0 <= i < 5 ::
                && 0.0 <= ops[i].mark.center.x < width as real
                && 0.0 <= ops[i].mark.center.y < height as real
  {
    var ops := seq(5, i requires 0 <= i < 5 => Circle(i, width, height, t, random));
    assert forall i | 0 <= i < 5 :: ops[i] == Circle(i, width, height, t, random);
    assert UnitInterval(random, 15) ==>
      forall i | 0 <= i < 5 ::
        && 0.0 <= random(3 * i) < 1.0
        && 0.0 <= random(3 * i + 1) < 1.0
        && 0.0 <= random(3 * i + 2) < 1.0;
    ops
  }

  lemma Scaled(u: real, s: real)
    ensures 0.0 <= u < 1.0 && s > 0.0 ==> 0.0 <= u * s < s
  {
  }

  /** One pass of diagonal strokes of width 2, one per loop index.  A falling
      stroke runs from (i, 0) down to (i + height, height); a rising one
      from (i, height) up to (i + height, 0). */
  function Hatch(xs: seq<int>, height: int, rising: bool, color: string): (ops: seq<Op>)
    ensures |ops| == |xs| && DrawsOnly(ops) && NoText(ops)
  {
    var h := height as real;
    seq(|xs|, k requires 0 <= k < |xs| =>
      var x := xs[k] as real;
      Draw(Path(if rising then [Point(x, h), Point(x + h, 0.0)]
                else [Point(x, 0.0), Point(x + h, h)], 2.0), color))
  }

  /** `lines`: falling strokes every 40 pixels in the primary colour, then
      rising strokes every 80 pixels in the accent colour. */
  function LinesOps(width: int, height: int, t: Tints): (ops: seq<Op>)
    ensures DrawsOnly(ops) && NoText(ops)
    ensures |ops| == |LoopIndices(0, width, 40)| + |LoopIndices(0, width, 80)|
    ensures forall i | 0 <= i < |ops| ::
              ops[i].color == if i < |LoopIndices(0, width, 40)| then t.primary else t.accent
  {
    Hatch(LoopIndices(0, width, 40), height, false, t.primary)
    + Hatch(LoopIndices(0, width, 80), height, true, t.accent)
  }

  /** The strokes of `lines`: ceil(width / 40) falling primary strokes from
      x = 40k, then ceil(width / 80) rising accent strokes from x = 80k. */
  lemma LinesLayout(width: int, height: int, t: Tints)
    requires width > 0
    ensures var ops := LinesOps(width, height, t);
      var down := (width + 39) / 40;
      var up := (width + 79) / 80;
      var h := height as real;
      && |ops| == down + up
      && (forall k | 0 <= k < down ::
            ops[k] == Draw(Path([Point(40.0 * k as real, 0.0),
                                 Point(40.0 * k as real + h, h)], 2.0), t.primary))
      && (forall k | 0 <= k < up ::
            ops[down..][k] == Draw(Path([Point(80.0 * k as real, h),
                                        Point(80.0 * k as real + h, 0.0)], 2.0), t.accent))
  {
    LoopCount(width, 40);
    LoopCount(width, 80);
    LoopIndicesSpec(0, width, 40);
    LoopIndicesSpec(0, width, 80);
  }

  /** One column of dots at `x`, one per row index, of radius 4. */
  function DotColumn(x: int, ys: seq<int>, t: Tints): (ops: seq<Op>)
    ensures |ops| == |ys| && DrawsOnly(ops) && NoText(ops)
  {
    seq(|ys|, j requires 0 <= j < |ys| =>
      Draw(Disc(Point(x as real, ys[j] as real), 4.0),
           if (x + ys[j]) % 60 == 0 then t.primary else t.accent))
  }

  /** The columns in order, each one full column before the next. */
  function DotColumns(xs: seq<int>, ys: seq<int>, t: Tints): (ops: seq<Op>)
    ensures |ops| == |xs| * |ys| && DrawsOnly(ops) && NoText(ops)
  {
    if |xs| == 0 then []
    else
      var rest := DotColumns(xs[1..], ys, t);
      assert |xs| * |ys| == |ys| + (|xs| - 1) * |ys|;
      DotColumn(xs[0], ys, t) + rest
  }

  /** `dots`: a 30-pixel grid of dots, column by column. */
  function DotsOps(width: int, height: int, t: Tints): (ops: seq<Op>)
    ensures DrawsOnly(ops) && NoText(ops)
    ensures |ops| == |LoopIndices(0, width, 30)| * |LoopIndices(0, height, 30)|
  {
    DotColumns(LoopIndices(0, width, 30), LoopIndices(0, height, 30), t)
  }

  function GridIndex(a: int, b: int, rows: int): int {
    a * rows + b
  }

  /** The dot in column a, row b sits at (30a, 30b) and is primary exactly
      when a + b is even: the colours form a checkerboard. */
  lemma DotsGrid(width: int, height: int, t: Tints)
    ensures var ops := DotsOps(width, height, t);
      var cols := |LoopIndices(0, width, 30)|;
      var rows := |LoopIndices(0, height, 30)|;
      && |ops| == cols * rows
      && forall a, b | 0 <= a < cols && 0 <= b < rows ::
           0 <= GridIndex(a, b, rows) < |ops| &&
           ops[GridIndex(a, b, rows)] == GridDot(a, b, t)
  {
    var cols := |LoopIndices(0, width, 30)|;
    var rows := |LoopIndices(0, height, 30)|;
    forall a, b | 0 <= a < cols && 0 <= b < rows
      ensures 0 <= GridIndex(a, b, rows) < |DotsOps(width, height, t)|
      ensures DotsOps(width, height, t)[GridIndex(a, b, rows)] == GridDot(a, b, t)
    {
      DotAt(width, height, t, a, b);
    }
  }

  /** The dot expected in column a, row b of the grid. */
  function GridDot(a: int, b: int, t: Tints): Op {
    Draw(Disc(Point(30.0 * a as real, 30.0 * b as real), 4.0),
         if (a + b) % 2 == 0 then t.primary else t.accent)
  }

  lemma DotAt(width: int, height: int, t: Tints, a: int, b: int)
    requires 0 <= a < |LoopIndices(0, width, 30)| && 0 <= b < |LoopIndices(0, height, 30)|
    ensures 0 <= GridIndex(a, b, |LoopIndices(0, height, 30)|) < |DotsOps(width, height, t)|
    ensures DotsOps(width, height, t)[GridIndex(a, b, |LoopIndices(0, height, 30)|)] == GridDot(a, b, t)
  {
    var xs := LoopIndices(0, width, 30);
    var ys := LoopIndices(0, height, 30);
    LoopIndicesSpec(0, width, 30);
    LoopIndicesSpec(0, height, 30);
    ColumnsIndex(xs, ys, t, a, b);
    assert xs[a] == 30 * a && ys[b] == 30 * b;
    ColumnDot(xs[a], ys, t, a, b);
  }

  /** Row b of the column at x = 30a is the grid dot (a, b). */
  lemma ColumnDot(x: int, ys: seq<int>, t: Tints, a: int, b: int)
    requires 0 <= a && 0 <= b < |ys| && x == 30 * a && ys[b] == 30 * b
    ensures DotColumn(x, ys, t)[b] == GridDot(a, b, t)
  {
    CheckerParity(a, b);
  }

  /** Entry b of column a of the concatenated columns. */
  lemma {:induction false} ColumnsIndex(xs: seq<int>, ys: seq<int>, t: Tints, a: int, b: int)
    requires 0 <= a < |xs| && 0 <= b < |ys|
    ensures 0 <= GridIndex(a, b, |ys|) < |xs| * |ys|
    ensures DotColumns(xs, ys, t)[GridIndex(a, b, |ys|)] == DotColumn(xs[a], ys, t)[b]
    decreases a
  {
    var ops := DotColumns(xs, ys, t);
    var first := DotColumn(xs[0], ys, t);
    var rest := DotColumns(xs[1..], ys, t);
    assert ops == first + rest;
    if a == 0 {
      assert GridIndex(a, b, |ys|) == b;
    } else {
      ColumnsIndex(xs[1..], ys, t, a - 1, b);
      assert GridIndex(a, b, |ys|) == |ys| + GridIndex(a - 1, b, |ys|);
      assert xs[1..][a - 1] == xs[a];
      assert (|xs| - 1) * |ys| + |ys| == |xs| * |ys|;
      assert GridIndex(a - 1, b, |ys|) < (|xs| - 1) * |ys|;
    }
  }

  /** 30a + 30b is a multiple of 60 exactly when a + b is even. */
  lemma CheckerParity(a: int, b: int)
    requires a >= 0 && b >= 0
    ensures (30 * a + 30 * b) % 60 == 0 <==> (a + b) % 2 == 0
  {
    var s := a + b;
    assert 30 * a + 30 * b == 30 * s;
    var q := s / 2;
    var r := s % 2;
    assert s == 2 * q + r;
    assert 30 * s == 60 * q + 30 * r;
    assert (60 * q + 30 * r) % 60 == (30 * r) % 60;
  }

  /** One wave stroke: a polyline through (x, y + f(0.02 x) * amplitude)
      for every column index x. */
  function WavePoints(xs: seq<int>, y: int, amplitude: real, f: real -> real): (ps: seq<Point>)
    ensures |ps| == |xs|
  {
    seq(|xs|, i requires 0 <= i < |xs| =>
      Point(xs[i] as real, y as real + f(xs[i] as real * 0.02) * amplitude))
  }

  function WaveRows(ys: seq<int>, xs: seq<int>, amplitude: real, f: real -> real, color: string): (ops: seq<Op>)
    ensures |ops| == |ys| && DrawsOnly(ops) && NoText(ops)
  {
    seq(|ys|, j requires 0 <= j < |ys| => Draw(Path(WavePoints(xs, ys[j], amplitude, f), 2.0), color))
  }

  /** `waves`: sine strokes of amplitude 15 every 40 pixels from y = 20 in
      the primary colour, then cosine strokes of amplitude 10 every 40
      pixels from y = 40 in the accent colour, sampled every 10 pixels. */
  function WavesOps(width: int, height: int, t: Tints, env: Env): (ops: seq<Op>)
    ensures DrawsOnly(ops) && NoText(ops)
    ensures |ops| == |LoopIndices(20, height, 40)| + |LoopIndices(40, height, 40)|
    ensures forall j | 0 <= j < |LoopIndices(20, height, 40)| ::
              ops[j] == Draw(Path(WavePoints(LoopIndices(0, width, 10), 20 + 40 * j, 15.0, env.sin), 2.0), t.primary)
    ensures forall j | |LoopIndices(20, height, 40)| <= j < |ops| ::
              ops[j] == Draw(Path(WavePoints(LoopIndices(0, width, 10), 40 + 40 * (j - |LoopIndices(20, height, 40)|),
                                             10.0, env.cos), 2.0), t.accent)
  {
    LoopIndicesSpec(20, height, 40);
    LoopIndicesSpec(40, height, 40);
    var xs := LoopIndices(0, width, 10);
    WaveRows(LoopIndices(20, height, 40), xs, 15.0, env.sin, t.primary)
    + WaveRows(LoopIndices(40, height, 40), xs, 10.0, env.cos, t.accent)
  }

  ghost predicate Bounded(f: real -> real) {
    forall t :: -1.0 <= f(t) <= 1.0
  }

  /** A wave never strays further from its row than its amplitude. */
  lemma WaveAmplitude(xs: seq<int>, y: int, amplitude: real, f: real -> real)
    requires Bounded(f) && amplitude >= 0.0
    ensures forall i | 0 <= i < |xs| ::
              y as real - amplitude <= WavePoints(xs, y, amplitude, f)[i].y <= y as real + amplitude
  {
    forall i | 0 <= i < |xs|
      ensures y as real - amplitude <= WavePoints(xs, y, amplitude, f)[i].y <= y as real + amplitude
    {
      var t := f(xs[i] as real * 0.02);
      assert -1.0 <= t <= 1.0;
      BoundedProduct(t, amplitude);
    }
  }

  lemma BoundedProduct(t: real, a: real)
    requires -1.0 <= t <= 1.0 && a >= 0.0
    ensures -a <= t * a <= a
  {
  }

  /** The pattern chosen by `style`. The contract here gives the number of
      shapes per style; what each pattern draws is stated per style by
      `GeometricOps`, `CircleOps` and `WavesOps` in their own contracts, and
      by the lemmas `LinesLayout` and `DotsGrid`. */
  function PatternOps(style: ShapesStyle, width: int, height: int, t: Tints, env: Env): (ops: seq<Op>)
    ensures DrawsOnly(ops) && NoText(ops)
    ensures style == Geometric ==> |ops| == 3
    ensures style == Circles ==> |ops| == 5
    ensures style == Lines ==> |ops| == |LoopIndices(0, width, 40)| + |LoopIndices(0, width, 80)|
    ensures style == Dots ==> |ops| == |LoopIndices(0, width, 30)| * |LoopIndices(0, height, 30)|
    ensures style == Waves ==> |ops| == |LoopIndices(20, height, 40)| + |LoopIndices(40, height, 40)|
  {
    match style
    case Geometric => GeometricOps(width, height, t)
    case Circles => CircleOps(width, height, t, env.random)
    case Lines => LinesOps(width, height, t)
    case Dots => DotsOps(width, height, t)
    case Waves => WavesOps(width, height, t, env)
  }

  /** The whole decoration: alpha down to 0.1, the pattern, alpha back to 1. */
  function DecorativeShapes(style: ShapesStyle, width: int, height: int, t: Tints, env: Env): (ops: seq<Op>)
    ensures |ops| >= 2 && ops[0] == SetAlpha(0.1) && ops[|ops| - 1] == SetAlpha(1.0)
    ensures DrawsOnly(ops[1..|ops| - 1])
  {
    var pattern := PatternOps(style, width, height, t, env);
    assert ([SetAlpha(0.1)] + pattern + [SetAlpha(1.0)])[1..|pattern| + 1] == pattern;
    [SetAlpha(0.1)] + pattern + [SetAlpha(1.0)]
  }

  /** Only `circles` consults the random source and only `waves` the
      trigonometric functions; the other three patterns are fixed by the
      canvas size and the colours alone. */
  lemma DeterministicPatterns(style: ShapesStyle, width: int, height: int, t: Tints, e1: Env, e2: Env)
    ensures style != Circles && style != Waves ==>
              PatternOps(style, width, height, t, e1) == PatternOps(style, width, height, t, e2)
    ensures style == Waves && e1.sin == e2.sin && e1.cos == e2.cos ==>
              PatternOps(style, width, height, t, e1) == PatternOps(style, width, height, t, e2)
  {
  }
}
