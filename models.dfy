/** The trial data of models.py: screen scale factors, the conversion of a
    configured trial from centimetres to pixels, and the per-trial state that
    accumulates hit flags as pointer samples arrive. */
module Models {
  import opened Common
  import opened Shapes

  /** ScreenDimensions: the primary screen in pixels and in centimetres.
      The Qt queries that produce these numbers are not modelled; the values
      are taken as given. */
  datatype ScreenDimensions = ScreenDimensions(
    windowWidthPixels: int, windowHeightPixels: int,
    windowWidthCm: real, windowHeightCm: real)
  {
    predicate Valid()
    {
      windowWidthPixels > 0 && windowHeightPixels > 0 && windowWidthCm > 0.0 && windowHeightCm > 0.0
    }

    function XCmToPixel(): (r: real)
      requires Valid()
      ensures r > 0.0
    {
      windowWidthPixels as real / windowWidthCm
    }

    function YCmToPixel(): (r: real)
      requires Valid()
      ensures r > 0.0
    {
      windowHeightPixels as real / windowHeightCm
    }

    function XPixelToCm(): (r: real)
      requires Valid()
      ensures r > 0.0
    {
      windowWidthCm / windowWidthPixels as real
    }

    function YPixelToCm(): (r: real)
      requires Valid()
      ensures r > 0.0
    {
      windowHeightCm / windowHeightPixels as real
    }
  }

  /** The two factors of each axis are reciprocal. */
  lemma ScaleFactorsReciprocal(d: ScreenDimensions)
    requires d.Valid()
    ensures d.XCmToPixel() * d.XPixelToCm() == 1.0
    ensures d.YCmToPixel() * d.YPixelToCm() == 1.0
  {
    Reciprocal(d.windowWidthPixels as real, d.windowWidthCm);
    Reciprocal(d.windowHeightPixels as real, d.windowHeightCm);
  }

  lemma Reciprocal(a: real, b: real)
    requires a > 0.0 && b > 0.0
    ensures (a / b) * (b / a) == 1.0
  {
  }

  /** Scaling by a factor and then by its reciprocal gives the value back. */
  lemma ScaleBack(v: real, s: real, t: real)
    requires s * t == 1.0
    ensures v * s * t == v
  {
    assert v * s * t == v * (s * t);
  }

  /** An obstacle rectangle as models.py stores it: top-left corner, width
      and height, in pixels. */
  datatype Box = Box(x: real, y: real, w: real, h: real)

  /** Data.process_input_circle_data: a configured (x, y, r) in centimetres
      becomes a pixel-space circle, each axis scaled by its own factor. */
  function ProcessInputCircleData(c: (real, real, real), d: ScreenDimensions): (r: Circle)
    requires d.Valid()
    ensures r.x * d.XPixelToCm() == c.0 && r.y * d.YPixelToCm() == c.1
    ensures r.rx * d.XPixelToCm() == c.2 && r.ry * d.YPixelToCm() == c.2
    ensures c.2 >= 0.0 ==> r.rx >= 0.0 && r.ry >= 0.0
  {
    ScaleFactorsReciprocal(d);
    ScaleBack(c.0, d.XCmToPixel(), d.XPixelToCm());
    ScaleBack(c.1, d.YCmToPixel(), d.YPixelToCm());
    ScaleBack(c.2, d.XCmToPixel(), d.XPixelToCm());
    ScaleBack(c.2, d.YCmToPixel(), d.YPixelToCm());
    Circle(c.0 * d.XCmToPixel(), c.1 * d.YCmToPixel(), c.2 * d.XCmToPixel(), c.2 * d.YCmToPixel())
  }

  /** Data.process_input_rect_data: a configured (x, y, w, h) in centimetres
      becomes a pixel-space box, each axis scaled by its own factor. */
  function ProcessInputRectData(b: (real, real, real, real), d: ScreenDimensions): (r: Box)
    requires d.Valid()
    ensures r.x * d.XPixelToCm() == b.0 && r.y * d.YPixelToCm() == b.1
    ensures r.w * d.XPixelToCm() == b.2 && r.h * d.YPixelToCm() == b.3
    ensures b.2 >= 0.0 ==> r.w >= 0.0
    ensures b.3 >= 0.0 ==> r.h >= 0.0
  {
    ScaleFactorsReciprocal(d);
    ScaleBack(b.0, d.XCmToPixel(), d.XPixelToCm());
    ScaleBack(b.1, d.YCmToPixel(), d.YPixelToCm());
    ScaleBack(b.2, d.XCmToPixel(), d.XPixelToCm());
    ScaleBack(b.3, d.YCmToPixel(), d.YPixelToCm());
    Box(b.0 * d.XCmToPixel(), b.1 * d.YCmToPixel(), b.2 * d.XCmToPixel(), b.3 * d.YCmToPixel())
  }

  /** The configured centimetre fields (x, y, r) a pixel-space circle
      stands for: the inverse of process_input_circle_data. */
  function CircleToCm(c: Circle, d: ScreenDimensions): seq<real>
    requires d.Valid()
  {
    [c.x * d.XPixelToCm(), c.y * d.YPixelToCm(), c.rx * d.XPixelToCm()]
  }

  /** The configured centimetre fields (x, y, w, h) a pixel-space box
      stands for: the inverse of process_input_rect_data. */
  function BoxToCm(b: Box, d: ScreenDimensions): seq<real>
    requires d.Valid()
  {
    [b.x * d.XPixelToCm(), b.y * d.YPixelToCm(), b.w * d.XPixelToCm(), b.h * d.YPixelToCm()]
  }

  /** Converting a configured circle to pixels and back gives its fields. */
  lemma CircleRoundTrip(c: (real, real, real), d: ScreenDimensions)
    requires d.Valid()
    ensures CircleToCm(ProcessInputCircleData(c, d), d) == [c.0, c.1, c.2]
  {
    var r := ProcessInputCircleData(c, d);
    var x, y, rx := r.x * d.XPixelToCm(), r.y * d.YPixelToCm(), r.rx * d.XPixelToCm();
    assert x == c.0 && y == c.1 && rx == c.2;
    assert CircleToCm(r, d)[0] == x && CircleToCm(r, d)[1] == y && CircleToCm(r, d)[2] == rx;
  }

  /** Converting a configured rectangle to pixels and back gives its fields. */
  lemma BoxRoundTrip(b: (real, real, real, real), d: ScreenDimensions)
    requires d.Valid()
    ensures BoxToCm(ProcessInputRectData(b, d), d) == [b.0, b.1, b.2, b.3]
  {
    var r := ProcessInputRectData(b, d);
    var x, y, w, h := r.x * d.XPixelToCm(), r.y * d.YPixelToCm(), r.w * d.XPixelToCm(), r.h * d.YPixelToCm();
    assert x == b.0 && y == b.1 && w == b.2 && h == b.3;
    assert BoxToCm(r, d)[0] == x && BoxToCm(r, d)[1] == y;
    assert BoxToCm(r, d)[2] == w && BoxToCm(r, d)[3] == h;
  }

  /** One recorded sample (x, y, pressure, elapsed nanoseconds); the
      pressure is absent for mouse samples. */
  datatype Sample = Sample(x: real, y: real, p: Option<real>, t: int)

  /** The hit test process_new_point applies to circles: the axis-aligned
      box around the ellipse. */
  predicate InCircleBox(c: Circle, x: real, y: real)
  {
    AbsR(c.x - x) <= c.rx && AbsR(c.y - y) <= c.ry
  }

  /** The hit test process_new_point applies to rectangles, edges included. */
  predicate InRect(b: Box, x: real, y: real)
  {
    x <= b.x + b.w && x >= b.x && y <= b.y + b.h && y >= b.y
  }

  /** When rx == ry, the distance test of Circle.check_hit is stricter than
      the box test of process_new_point: a disc lies inside its square.
      Circles read by process_input_circle_data have rx == ry whenever
      the X and Y scale factors are equal, as on a square-pixel screen. */
  lemma CheckHitInsideBox(c: Circle, px: real, py: real)
    requires c.rx == c.ry
    ensures CheckHit(c, px, py) ==> InCircleBox(c, px, py)
  {
    if CheckHit(c, px, py) {
      var r := c.rx;
      var ax, ay := AbsR(c.x - px), AbsR(c.y - py);
      assert ax * ax == (c.x - px) * (c.x - px);
      assert ay * ay == (c.y - py) * (c.y - py);
      if ax > r {
        SquareMonotone(r, ax);
      }
      if ay > r {
        SquareMonotone(r, ay);
      }
    }
  }

  /** The circles and rectangles a sample is tested against. */
  datatype Layout = Layout(source: Circle, dest: Circle, circles: seq<Circle>, rects: seq<Box>)

  /** The hit flags of State. */
  datatype HitFlags = HitFlags(sourceHit: int, destHit: int, circlesHit: seq<int>, rectsHit: seq<int>)

  /** One flag per intermediate circle and one per rectangle. */
  predicate Fits(f: HitFlags, g: Layout)
  {
    |f.circlesHit| == |g.circles| && |f.rectsHit| == |g.rects|
  }

  /** A flag after one test: set to 1 on a hit, otherwise left alone. */
  function Mark(flag: int, hit: bool): int
  {
    if hit then 1 else flag
  }

  /** The circle flags after one sample at (x, y). */
  function CircleMarks(flags: seq<int>, cs: seq<Circle>, x: real, y: real): seq<int>
    requires |flags| == |cs|
  {
    seq(|cs|, i requires 0 <= i < |cs| => Mark(flags[i], InCircleBox(cs[i], x, y)))
  }

  /** The rectangle flags after one sample at (x, y). */
  function RectMarks(flags: seq<int>, bs: seq<Box>, x: real, y: real): seq<int>
    requires |flags| == |bs|
  {
    seq(|bs|, j requires 0 <= j < |bs| => Mark(flags[j], InRect(bs[j], x, y)))
  }

  /** The flags after one sample at (x, y). */
  function Step(f: HitFlags, g: Layout, x: real, y: real): (r: HitFlags)
    requires Fits(f, g)
    ensures Fits(r, g)
  {
    HitFlags(
      Mark(f.sourceHit, InCircleBox(g.source, x, y)),
      Mark(f.destHit, InCircleBox(g.dest, x, y)),
      CircleMarks(f.circlesHit, g.circles, x, y),
      RectMarks(f.rectsHit, g.rects, x, y))
  }

  /** The loop of process_new_point over the intermediate circles. */
  method MarkCircles(flags: seq<int>, cs: seq<Circle>, x: real, y: real) returns (r: seq<int>)
    requires |flags| == |cs|
    ensures r == CircleMarks(flags, cs, x, y)
  {
    r := flags;
    for i := 0 to |cs|
      invariant |r| == |cs|
      invariant forall k :: 0 <= k < i ==> r[k] == Mark(flags[k], InCircleBox(cs[k], x, y))
      invariant forall k :: i <= k < |cs| ==> r[k] == flags[k]
    {
      var c := cs[i];
      if AbsR(c.x - x) <= c.rx && AbsR(c.y - y) <= c.ry {
        r := r[i := 1];
      }
    }
  }

  /** The loop of process_new_point over the rectangles. */
  method MarkRects(flags: seq<int>, bs: seq<Box>, x: real, y: real) returns (r: seq<int>)
    requires |flags| == |bs|
    ensures r == RectMarks(flags, bs, x, y)
  {
    r := flags;
    for i := 0 to |bs|
      invariant |r| == |bs|
      invariant forall k :: 0 <= k < i ==> r[k] == Mark(flags[k], InRect(bs[k], x, y))
      invariant forall k :: i <= k < |bs| ==> r[k] == flags[k]
    {
      var b := bs[i];
      if x <= b.x + b.w && x >= b.x && y <= b.y + b.h && y >= b.y {
        r := r[i := 1];
      }
    }
  }

  /** The flags after a whole sequence of samples, in recording order. */
  function Replay(f: HitFlags, g: Layout, pts: seq<Sample>): (r: HitFlags)
    requires Fits(f, g)
    ensures Fits(r, g)
    decreases |pts|
  {
    if |pts| == 0 then f
    else
      var last := pts[|pts| - 1];
      Step(Replay(f, g, pts[..|pts| - 1]), g, last.x, last.y)
  }

  /** Replaying one more sample is one more Step. */
  lemma ReplaySnoc(f: HitFlags, g: Layout, pts: seq<Sample>, s: Sample)
    requires Fits(f, g)
    ensures Replay(f, g, pts + [s]) == Step(Replay(f, g, pts), g, s.x, s.y)
  {
    assert (pts + [s])[..|pts|] == pts;
  }

  /** The flags of a fresh State (State.__init__). */
  function ZeroFlags(n: nat, m: nat): (r: HitFlags)
    ensures r.sourceHit == 0 && r.destHit == 0
    ensures |r.circlesHit| == n && |r.rectsHit| == m
    ensures forall i :: 0 <= i < n ==> r.circlesHit[i] == 0
    ensures forall j :: 0 <= j < m ==> r.rectsHit[j] == 0
  {
    HitFlags(0, 0, seq(n, _ => 0), seq(m, _ => 0))
  }

  /** Some sample lies in the box of circle c. */
  predicate Visited(c: Circle, pts: seq<Sample>)
  {
    exists k :: 0 <= k < |pts| && InCircleBox(c, pts[k].x, pts[k].y)
  }

  /** Some sample lies in rectangle b. */
  predicate Touched(b: Box, pts: seq<Sample>)
  {
    exists k :: 0 <= k < |pts| && InRect(b, pts[k].x, pts[k].y)
  }

  lemma VisitedSnoc(c: Circle, p: seq<Sample>, s: Sample)
    ensures Visited(c, p + [s]) <==> Visited(c, p) || InCircleBox(c, s.x, s.y)
  {
    var q := p + [s];
    assert q[|p|] == s;
    if Visited(c, p) {
      var k :| 0 <= k < |p| && InCircleBox(c, p[k].x, p[k].y);
      assert q[k] == p[k];
    }
    if Visited(c, q) {
      var k :| 0 <= k < |q| && InCircleBox(c, q[k].x, q[k].y);
      if k < |p| { assert q[k] == p[k]; }
    }
  }

  lemma TouchedSnoc(b: Box, p: seq<Sample>, s: Sample)
    ensures Touched(b, p + [s]) <==> Touched(b, p) || InRect(b, s.x, s.y)
  {
    var q := p + [s];
    assert q[|p|] == s;
    if Touched(b, p) {
      var k :| 0 <= k < |p| && InRect(b, p[k].x, p[k].y);
      assert q[k] == p[k];
    }
    if Touched(b, q) {
      var k :| 0 <= k < |q| && InRect(b, q[k].x, q[k].y);
      if k < |p| { assert q[k] == p[k]; }
    }
  }

  /** After a sequence of samples every flag is 1 if some sample hit its
      region, and keeps its starting value otherwise. */
  lemma {:induction false} ReplayCharacterised(f: HitFlags, g: Layout, pts: seq<Sample>)
    requires Fits(f, g)
    ensures Replay(f, g, pts).sourceHit == if Visited(g.source, pts) then 1 else f.sourceHit
    ensures Replay(f, g, pts).destHit == if Visited(g.dest, pts) then 1 else f.destHit
    ensures forall i :: 0 <= i < |g.circles| ==>
      Replay(f, g, pts).circlesHit[i] == if Visited(g.circles[i], pts) then 1 else f.circlesHit[i]
    ensures forall j :: 0 <= j < |g.rects| ==>
      Replay(f, g, pts).rectsHit[j] == if Touched(g.rects[j], pts) then 1 else f.rectsHit[j]
  {
    if |pts| > 0 {
      var p, s := pts[..|pts| - 1], pts[|pts| - 1];
      assert pts == p + [s];
      ReplayCharacterised(f, g, p);
      VisitedSnoc(g.source, p, s);
      VisitedSnoc(g.dest, p, s);
      forall i | 0 <= i < |g.circles|
        ensures Replay(f, g, pts).circlesHit[i] == if Visited(g.circles[i], pts) then 1 else f.circlesHit[i]
      {
        VisitedSnoc(g.circles[i], p, s);
      }
      forall j | 0 <= j < |g.rects|
        ensures Replay(f, g, pts).rectsHit[j] == if Touched(g.rects[j], pts) then 1 else f.rectsHit[j]
      {
        TouchedSnoc(g.rects[j], p, s);
      }
    }
  }

  /** Starting from a fresh State, a flag is 1 exactly when some sample hit
      its region, and 0 otherwise. */
  lemma FlagsFromZero(g: Layout, pts: seq<Sample>)
    ensures var r := Replay(ZeroFlags(|g.circles|, |g.rects|), g, pts);
      && (r.sourceHit == 1 <==> Visited(g.source, pts))
      && (r.destHit == 1 <==> Visited(g.dest, pts))
      && (forall i :: 0 <= i < |g.circles| ==> (r.circlesHit[i] == 1 <==> Visited(g.circles[i], pts)))
      && (forall j :: 0 <= j < |g.rects| ==> (r.rectsHit[j] == 1 <==> Touched(g.rects[j], pts)))
      && Binary(r.circlesHit) && Binary(r.rectsHit)
      && (r.sourceHit == 0 || r.sourceHit == 1) && (r.destHit == 0 || r.destHit == 1)
  {
    ReplayCharacterised(ZeroFlags(|g.circles|, |g.rects|), g, pts);
  }

  /** Flags are sticky: a flag that is 1 after a prefix of the samples is
      still 1 after all of them. */
  lemma FlagsMonotone(f: HitFlags, g: Layout, pts: seq<Sample>, k: nat)
    requires Fits(f, g) && k <= |pts|
    ensures var a, b := Replay(f, g, pts[..k]), Replay(f, g, pts);
      && (a.sourceHit == 1 ==> b.sourceHit == 1)
      && (a.destHit == 1 ==> b.destHit == 1)
      && (forall i :: 0 <= i < |g.circles| && a.circlesHit[i] == 1 ==> b.circlesHit[i] == 1)
      && (forall j :: 0 <= j < |g.rects| && a.rectsHit[j] == 1 ==> b.rectsHit[j] == 1)
  {
    var pre := pts[..k];
    ReplayCharacterised(f, g, pre);
    ReplayCharacterised(f, g, pts);
    forall c: Circle | Visited(c, pre) ensures Visited(c, pts) {
      var i :| 0 <= i < |pre| && InCircleBox(c, pre[i].x, pre[i].y);
      assert pre[i] == pts[i];
    }
    forall b: Box | Touched(b, pre) ensures Touched(b, pts) {
      var i :| 0 <= i < |pre| && InRect(b, pre[i].x, pre[i].y);
      assert pre[i] == pts[i];
    }
  }

  /** State: the outcome of one trial, updated in place while it runs. */
  class State {
    var sourceHit: int
    var destHit: int
    var circlesHit: seq<int>
    var rectsHit: seq<int>
    var time: Option<int>
    var points: seq<Sample>
    var successStatus: int

    /** State.__init__, given the number of intermediate circles and of
        rectangles of its trial. */
    constructor (nCircles: nat, nRects: nat)
      ensures Flags() == ZeroFlags(nCircles, nRects)
      ensures time == None && points == [] && successStatus == 0
    {
      sourceHit, destHit := 0, 0;
      circlesHit := seq(nCircles, _ => 0);
      rectsHit := seq(nRects, _ => 0);
      time := None;
      points := [];
      successStatus := 0;
    }

    function Flags(): HitFlags
      reads this
    {
      HitFlags(sourceHit, destHit, circlesHit, rectsHit)
    }
  }

  /** Data: one configured trial in pixel space, with its State. */
  class Data {
    const dimensions: ScreenDimensions
    const sourceCircle: Circle
    const destCircle: Circle
    const middleCircles: seq<Circle>
    const rects: seq<Box>
    const timeToFinish: int
    const rate: int
    const passingOffset: real
    const state: State

    function Geometry(): Layout
    {
      Layout(sourceCircle, destCircle, middleCircles, rects)
    }

    /** The flags of the state are exactly those of its recorded samples
        replayed from a fresh State. */
    ghost predicate Valid()
      reads this, state
    {
      && dimensions.Valid()
      && Fits(state.Flags(), Geometry())
      && state.Flags() == Replay(ZeroFlags(|middleCircles|, |rects|), Geometry(), state.points)
    }

    /** Data.__init__: scale every region to pixels and create a fresh
        State. The screen dimensions and the passing offset are parameters. */
    constructor (timeToFinish: int, rate: int, source: (real, real, real), dest: (real, real, real),
                 circles: seq<(real, real, real)>, rects: seq<(real, real, real, real)>,
                 dimensions: ScreenDimensions, passingOffset: real)
      requires dimensions.Valid()
      ensures Valid() && fresh(state)
      ensures this.dimensions == dimensions && this.timeToFinish == timeToFinish
      ensures this.rate == rate && this.passingOffset == passingOffset
      ensures sourceCircle == ProcessInputCircleData(source, dimensions)
      ensures destCircle == ProcessInputCircleData(dest, dimensions)
      ensures |middleCircles| == |circles| && |this.rects| == |rects|
      ensures forall i :: 0 <= i < |circles| ==> middleCircles[i] == ProcessInputCircleData(circles[i], dimensions)
      ensures forall j :: 0 <= j < |rects| ==> this.rects[j] == ProcessInputRectData(rects[j], dimensions)
      ensures state.points == [] && state.time == None && state.successStatus == 0
    {
      this.dimensions := dimensions;
      sourceCircle := ProcessInputCircleData(source, dimensions);
      destCircle := ProcessInputCircleData(dest, dimensions);
      middleCircles := seq(|circles|, i requires 0 <= i < |circles| => ProcessInputCircleData(circles[i], dimensions));
      this.rects := seq(|rects|, j requires 0 <= j < |rects| => ProcessInputRectData(rects[j], dimensions));
      this.timeToFinish := timeToFinish;
      this.rate := rate;
      this.passingOffset := passingOffset;
      state := new State(|circles|, |rects|);
    }

    /** Data.process_new_point: record the sample, then set every flag
        whose region contains (x, y). */
    method ProcessNewPoint(x: real, y: real, p: Option<real>, t: int)
      requires Valid()
      modifies state
      ensures Valid()
      ensures state.points == old(state.points) + [Sample(x, y, p, t)]
      ensures state.Flags() == Step(old(state.Flags()), Geometry(), x, y)
      ensures state.time == old(state.time) && state.successStatus == old(state.successStatus)
    {
      ghost var target := Step(state.Flags(), Geometry(), x, y);
      ReplaySnoc(ZeroFlags(|middleCircles|, |rects|), Geometry(), state.points, Sample(x, y, p, t));
      state.points := state.points + [Sample(x, y, p, t)];

      var sx, sy, srx, sry := sourceCircle.x, sourceCircle.y, sourceCircle.rx, sourceCircle.ry;
      if AbsR(sx - x) <= srx && AbsR(sy - y) <= sry {
        state.sourceHit := 1;
      }

      var dx, dy, drx, dry := destCircle.x, destCircle.y, destCircle.rx, destCircle.ry;
      if AbsR(dx - x) <= drx && AbsR(dy - y) <= dry {
        state.destHit := 1;
      }

      state.circlesHit := MarkCircles(state.circlesHit, middleCircles, x, y);
      state.rectsHit := MarkRects(state.rectsHit, rects, x, y);
      assert state.Flags() == target;
    }
  }
}
