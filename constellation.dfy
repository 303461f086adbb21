/**
 * The fixed-topology constellation renderers (client/src/components/
 * TaurusConstellation.tsx and CatConstellation.tsx) as one engine with two
 * presets: a constant table of normalised points and of connections, a layout
 * computed from the canvas size, per-point wobble and twinkle, the path of
 * connection segments and each point's star glyph. Painting itself is left out.
 *
 * `Date.now()` enters only through sines and cosines, which are parameters.
 */
module Constellation {
  import opened Wrappers
  import opened Host

  /** A point of the shape, as fractions of the layout square. */
  datatype Point = Point(x: real, y: real)

  /** A point drawn larger and in its own colour (Aldebaran in Taurus). */
  datatype Highlight = Highlight(index: nat, radius: real, fillBase: real, fillGain: real)

  /**
   * One renderer's constants: the shape, the layout scale, the left offset (a
   * fraction of the width) used on canvases wider than 700 px, and each
   * glyph's base radius and fill opacity `fillBase + fillGain * twinkle`.
   */
  datatype Preset = Preset(
    points: seq<Point>,
    connections: seq<(nat, nat)>,
    scale: real,
    wideOffset: real,
    radius: real,
    fillBase: real,
    fillGain: real,
    highlight: Option<Highlight>)

  const Taurus: Preset := Preset(
    [ Point(0.15, 0.25), Point(0.40, 0.38), Point(0.52, 0.50), Point(0.08, 0.40),
      Point(0.48, 0.53), Point(0.55, 0.55), Point(0.65, 0.62), Point(0.55, 0.70),
      Point(0.62, 0.78), Point(0.85, 0.58), Point(0.88, 0.65), Point(0.92, 0.70) ],
    [ (0, 1), (1, 2), (3, 4), (4, 5), (2, 5), (5, 6), (6, 7), (7, 8), (6, 9), (9, 10), (10, 11) ],
    0.7, 0.1, 1.5, 0.5, 0.4,
    Some(Highlight(4, 2.2, 0.7, 0.2)))

  const Cat: Preset := Preset(
    [ Point(0.85, 0.4), Point(0.75, 0.3), Point(0.65, 0.4), Point(0.65, 0.5), Point(0.4, 0.5),
      Point(0.35, 0.6), Point(0.15, 0.75), Point(0.25, 0.45), Point(0.8, 0.6) ],
    [ (0, 1), (1, 2), (2, 3), (2, 4), (3, 8), (4, 5), (4, 7), (5, 6) ],
    0.6, 0.6, 1.5, 0.6, 0.4,
    None)

  /** Every connection joins two points of the table. */
  predicate ConnectionsInRange(p: Preset) {
    forall k :: 0 <= k < |p.connections| ==>
      p.connections[k].0 < |p.points| && p.connections[k].1 < |p.points|
  }

  /** Every point lies in the unit square. */
  predicate InUnitSquare(p: Preset) {
    forall i :: 0 <= i < |p.points| ==>
      0.0 <= p.points[i].x <= 1.0 && 0.0 <= p.points[i].y <= 1.0
  }

  lemma TaurusTables()
    ensures |Taurus.points| == 12 && |Taurus.connections| == 11
    ensures ConnectionsInRange(Taurus) && InUnitSquare(Taurus)
  {
  }

  lemma CatTables()
    ensures |Cat.points| == 9 && |Cat.connections| == 8
    ensures ConnectionsInRange(Cat) && InUnitSquare(Cat)
  {
  }

  // ---------------------------------------------------------------------------
  // Layout

  /** Canvases wider than this place the shape at the preset's offset instead of centring it. */
  const WideCanvas: nat := 700

  function Min(a: nat, b: nat): (m: nat)
    ensures m <= a && m <= b && (m == a || m == b)
  {
    if a < b then a else b
  }

  /** The side of the layout square and its top-left corner. */
  datatype Layout = Layout(size: real, offsetX: real, offsetY: real)

  /**
   * The square is `scale` times the shorter side. It is centred vertically;
   * horizontally it is centred on canvases up to 700 px wide and starts at
   * `wideOffset` of the width on wider ones.
   */
  function LayoutFor(p: Preset, width: nat, height: nat): (l: Layout)
    ensures l.size == p.scale * Min(width, height) as real
    ensures width > WideCanvas ==> l.offsetX == p.wideOffset * width as real
    ensures width <= WideCanvas ==> l.offsetX + l.size / 2.0 == width as real / 2.0
    ensures l.offsetY + l.size / 2.0 == height as real / 2.0
  {
    var size := p.scale * Min(width, height) as real;
    var offsetX := if width > WideCanvas then p.wideOffset * width as real else (width as real - size) / 2.0;
    Layout(size, offsetX, (height as real - size) / 2.0)
  }

  /** Where a point sits before its wobble. */
  function BasePosition(pt: Point, l: Layout): Point {
    Point(l.offsetX + pt.x * l.size, l.offsetY + pt.y * l.size)
  }

  /** A fraction of a span that starts at origin and fits in [0, extent] stays in [0, extent]. */
  lemma AxisInside(origin: real, frac: real, span: real, extent: real)
    requires 0.0 <= frac <= 1.0 && span >= 0.0
    requires 0.0 <= origin && origin + span <= extent
    ensures 0.0 <= origin + frac * span <= extent
  {
    ScaleBounds(frac, span);
  }

  /** On a wide canvas, an offset fraction plus a scale of at most 1 keeps the square on the canvas. */
  lemma WideFits(offset: real, scale: real, m: real, w: real)
    requires 0.0 <= offset && 0.0 <= scale && offset + scale <= 1.0
    requires 0.0 <= m <= w
    ensures 0.0 <= offset * w
    ensures offset * w + scale * m <= w
  {
    ScaleBounds(offset, w);
    ScaleBounds(offset + scale, w);
    var gap := scale * (w - m);
    ScaleBounds(scale, w - m);
    assert gap == scale * w - scale * m;
    assert (offset + scale) * w == offset * w + scale * w;
  }

  /** The layout square fits the canvas on both axes when the preset's wide offset allows it. */
  lemma SquareInside(p: Preset, width: nat, height: nat)
    requires 0.0 <= p.scale <= 1.0
    requires width > WideCanvas ==> 0.0 <= p.wideOffset && p.wideOffset + p.scale <= 1.0
    ensures var l := LayoutFor(p, width, height);
      l.size >= 0.0 && 0.0 <= l.offsetX && l.offsetX + l.size <= width as real
      && 0.0 <= l.offsetY && l.offsetY + l.size <= height as real
  {
    var l := LayoutFor(p, width, height);
    var m := Min(width, height) as real;
    ScaleBounds(p.scale, m);
    assert m <= width as real && m <= height as real;
    var size := l.size;
    assert 0.0 <= size <= m;
    assert 0.0 <= l.offsetY && l.offsetY + size <= height as real;
    if width > WideCanvas {
      WideFits(p.wideOffset, p.scale, m, width as real);
    } else {
      assert 0.0 <= l.offsetX && l.offsetX + size <= width as real;
    }
  }

  /**
   * A preset stays inside the canvas when its points are in the unit square,
   * its scale is at most 1, and on wide canvases offset plus scale is at most
   * 1. Then every unwobbled point lies on the canvas.
   */
  lemma BaseOnCanvas(p: Preset, width: nat, height: nat, i: nat)
    requires InUnitSquare(p) && 0.0 <= p.scale <= 1.0
    requires width > WideCanvas ==> 0.0 <= p.wideOffset && p.wideOffset + p.scale <= 1.0
    requires i < |p.points|
    ensures var b := BasePosition(p.points[i], LayoutFor(p, width, height));
      0.0 <= b.x <= width as real && 0.0 <= b.y <= height as real
  {
    var l := LayoutFor(p, width, height);
    SquareInside(p, width, height);
    AxisInside(l.offsetX, p.points[i].x, l.size, width as real);
    AxisInside(l.offsetY, p.points[i].y, l.size, height as real);
  }

  /** Taurus never leaves the canvas (before wobble), whatever the canvas size. */
  lemma TaurusOnCanvas(width: nat, height: nat, i: nat)
    requires i < |Taurus.points|
    ensures var b := BasePosition(Taurus.points[i], LayoutFor(Taurus, width, height));
      0.0 <= b.x <= width as real && 0.0 <= b.y <= height as real
  {
    TaurusTables();
    BaseOnCanvas(Taurus, width, height, i);
  }

  /**
   * The cat stays on canvases up to 700 px wide. On wider ones its offset 0.6
   * plus scale 0.6 exceeds 1, so whether it fits depends on the height.
   */
  lemma CatOnNarrowCanvas(width: nat, height: nat, i: nat)
    requires width <= WideCanvas
    requires i < |Cat.points|
    ensures var b := BasePosition(Cat.points[i], LayoutFor(Cat, width, height));
      0.0 <= b.x <= width as real && 0.0 <= b.y <= height as real
  {
    CatTables();
    BaseOnCanvas(Cat, width, height, i);
  }

  /**
   * On some wide canvases the cat is cut off on the right: on a 1000 by 1000
   * canvas its square starts at x = 600 with side 600, so the nose lands at
   * x = 1110.
   */
  lemma CatLeavesWideCanvas()
    ensures LayoutFor(Cat, 1000, 1000) == Layout(600.0, 600.0, 200.0)
    ensures BasePosition(Cat.points[0], LayoutFor(Cat, 1000, 1000)).x == 1110.0
  {
  }

  /** A point whose x is at most `xMax` in the unit square lands at most `xMax * size` past the offset. */
  lemma BoundedFraction(frac: real, xMax: real, size: real)
    requires 0.0 <= frac <= xMax <= 1.0 && size >= 0.0
    ensures frac * size <= xMax * size
  {
    ScaleBounds(xMax - frac, size);
    assert xMax * size - frac * size == (xMax - frac) * size;
  }

  /**
   * On a canvas wider than 700 px the cat's nose (its rightmost point, at
   * x = 0.85) stays on the canvas exactly when 0.51 times the shorter side is
   * at most 0.4 times the width.
   */
  lemma CatNoseOnWideCanvas(width: nat, height: nat)
    requires width > WideCanvas
    ensures BasePosition(Cat.points[0], LayoutFor(Cat, width, height)).x <= width as real
      <==> 0.51 * Min(width, height) as real <= 0.4 * width as real
  {
  }

  /** Under that condition every point of the cat lies on a wide canvas. */
  lemma CatOnWideCanvas(width: nat, height: nat, i: nat)
    requires width > WideCanvas
    requires 0.51 * Min(width, height) as real <= 0.4 * width as real
    requires i < |Cat.points|
    ensures var b := BasePosition(Cat.points[i], LayoutFor(Cat, width, height));
      0.0 <= b.x <= width as real && 0.0 <= b.y <= height as real
  {
    CatTables();
    var l := LayoutFor(Cat, width, height);
    var m := Min(width, height) as real;
    ScaleBounds(Cat.scale, m);
    assert 0.0 <= l.size <= m;
    assert 0.0 <= l.offsetY && l.offsetY + l.size <= height as real;
    AxisInside(l.offsetY, Cat.points[i].y, l.size, height as real);
    ScaleBounds(Cat.points[i].x, l.size);
    BoundedFraction(Cat.points[i].x, 0.85, l.size);
    assert l.offsetX == 0.6 * width as real;
  }

  /** A 1000 by 400 canvas is wide but short enough for the whole cat. */
  lemma CatFitsWideShortCanvas(i: nat)
    requires i < |Cat.points|
    ensures var b := BasePosition(Cat.points[i], LayoutFor(Cat, 1000, 400));
      0.0 <= b.x <= 1000.0 && 0.0 <= b.y <= 400.0
  {
    CatOnWideCanvas(1000, 400, i);
  }

  // ---------------------------------------------------------------------------
  // Mapped points

  /** The three waves of point i this frame: sin(t + i), cos(t + 1.5 i) and sin(2 t + i). */
  datatype PointWave = PointWave(floatSin: real, floatCos: real, twinkleSin: real)

  predicate WaveOk(w: PointWave) {
    Wave(w.floatSin) && Wave(w.floatCos) && Wave(w.twinkleSin)
  }

  /** A point's position and twinkle this frame. */
  datatype MappedPoint = MappedPoint(x: real, y: real, twinkle: real)

  /** The wobble amplitude in pixels. */
  const Wobble: real := 3.0

  function Abs(v: real): real {
    if v < 0.0 then -v else v
  }

  /** One entry of `mappedPoints`: within 3 px of its base position on each axis, twinkle in [0, 1]. */
  function MapPoint(pt: Point, l: Layout, w: PointWave): (m: MappedPoint)
    ensures WaveOk(w) ==> Abs(m.x - BasePosition(pt, l).x) <= Wobble
    ensures WaveOk(w) ==> Abs(m.y - BasePosition(pt, l).y) <= Wobble
    ensures WaveOk(w) ==> 0.0 <= m.twinkle <= 1.0
  {
    MappedPoint(l.offsetX + pt.x * l.size + w.floatSin * Wobble,
                l.offsetY + pt.y * l.size + w.floatCos * Wobble,
                w.twinkleSin * 0.5 + 0.5)
  }

  /** `points.map(...)`: one mapped point per table entry, in table order. */
  function MappedPoints(p: Preset, l: Layout, waves: seq<PointWave>): (r: seq<MappedPoint>)
    requires |waves| == |p.points|
    ensures |r| == |p.points|
    ensures forall i :: 0 <= i < |r| ==> r[i] == MapPoint(p.points[i], l, waves[i])
  {
    seq(|p.points|, i requires 0 <= i < |p.points| => MapPoint(p.points[i], l, waves[i]))
  }

  // ---------------------------------------------------------------------------
  // Path and glyphs

  /** One `moveTo`/`lineTo` pair of the connection path. */
  datatype Segment = Segment(from: MappedPoint, to: MappedPoint)

  /** The `connections.forEach` that adds one segment per connection to the path. */
  method TracePath(mapped: seq<MappedPoint>, connections: seq<(nat, nat)>) returns (path: seq<Segment>)
    requires forall k :: 0 <= k < |connections| ==> connections[k].0 < |mapped| && connections[k].1 < |mapped|
    ensures |path| == |connections|
    ensures forall k :: 0 <= k < |path| ==>
      path[k] == Segment(mapped[connections[k].0], mapped[connections[k].1])
  {
    path := [];
    var k := 0;
    while k < |connections|
      invariant 0 <= k <= |connections|
      invariant |path| == k
      invariant forall n :: 0 <= n < k ==> path[n] == Segment(mapped[connections[n].0], mapped[connections[n].1])
    {
      var (i, j) := connections[k];
      path := path + [Segment(mapped[i], mapped[j])];
      k := k + 1;
    }
  }

  /** A star glyph: its centre, radius and fill opacity. */
  datatype Glyph = Glyph(x: real, y: real, radius: real, fillAlpha: real)

  predicate IsHighlight(p: Preset, index: nat) {
    p.highlight.Some? && p.highlight.value.index == index
  }

  /** The growth of a glyph's radius at full twinkle. */
  const TwinkleRadius: real := 1.5

  /** The glyph of point `index`: base radius plus 1.5 times its twinkle, and its fill opacity. */
  function GlyphFor(p: Preset, index: nat, m: MappedPoint): (g: Glyph)
    ensures g.x == m.x && g.y == m.y
    ensures IsHighlight(p, index) ==> g.radius == p.highlight.value.radius + m.twinkle * TwinkleRadius
    ensures !IsHighlight(p, index) ==> g.radius == p.radius + m.twinkle * TwinkleRadius
    ensures IsHighlight(p, index) ==>
      g.fillAlpha == p.highlight.value.fillBase + m.twinkle * p.highlight.value.fillGain
    ensures !IsHighlight(p, index) ==> g.fillAlpha == p.fillBase + m.twinkle * p.fillGain
  {
    if IsHighlight(p, index) then
      var h := p.highlight.value;
      Glyph(m.x, m.y, h.radius + m.twinkle * TwinkleRadius, h.fillBase + m.twinkle * h.fillGain)
    else
      Glyph(m.x, m.y, p.radius + m.twinkle * TwinkleRadius, p.fillBase + m.twinkle * p.fillGain)
  }

  /** Taurus: ordinary stars have radius in [1.5, 3.0], Aldebaran (index 4) in [2.2, 3.7]. */
  lemma TaurusGlyphBounds(index: nat, m: MappedPoint)
    requires 0.0 <= m.twinkle <= 1.0
    ensures index != 4 ==> 1.5 <= GlyphFor(Taurus, index, m).radius <= 3.0
    ensures index != 4 ==> 0.5 <= GlyphFor(Taurus, index, m).fillAlpha <= 0.9
    ensures index == 4 ==> 2.2 <= GlyphFor(Taurus, index, m).radius <= 3.7
    ensures index == 4 ==> 0.7 <= GlyphFor(Taurus, index, m).fillAlpha <= 0.9
  {
  }

  /** The cat: every star has radius in [1.5, 3.0] and fill opacity in [0.6, 1.0]. */
  lemma CatGlyphBounds(index: nat, m: MappedPoint)
    requires 0.0 <= m.twinkle <= 1.0
    ensures 1.5 <= GlyphFor(Cat, index, m).radius <= 3.0
    ensures 0.6 <= GlyphFor(Cat, index, m).fillAlpha <= 1.0
  {
  }

  /** The `mappedPoints.forEach` that draws one glyph per point. */
  method DrawGlyphs(p: Preset, mapped: seq<MappedPoint>) returns (glyphs: seq<Glyph>)
    ensures |glyphs| == |mapped|
    ensures forall i :: 0 <= i < |glyphs| ==> glyphs[i] == GlyphFor(p, i, mapped[i])
  {
    glyphs := [];
    var i := 0;
    while i < |mapped|
      invariant 0 <= i <= |mapped|
      invariant |glyphs| == i
      invariant forall n :: 0 <= n < i ==> glyphs[n] == GlyphFor(p, n, mapped[n])
    {
      glyphs := glyphs + [GlyphFor(p, i, mapped[i])];
      i := i + 1;
    }
  }

  // ---------------------------------------------------------------------------
  // The canvas and one frame

  /** The drawing surface; a new canvas element is 300 by 150 px. */
  class Canvas {
    var width: nat
    var height: nat

    constructor ()
      ensures width == 300 && height == 150
    {
      width, height := 300, 150;
    }

    /**
     * The resize guard: when there is a parent element whose client size
     * differs, both dimensions take the parent's; otherwise nothing is
     * assigned. `reassigned` says whether the dimensions were written.
     */
    method FitToParent(parent: Option<(nat, nat)>) returns (reassigned: bool)
      modifies this
      ensures reassigned <==> parent.Some? && (old(width), old(height)) != parent.value
      ensures parent.Some? ==> (width, height) == parent.value
      ensures parent.None? ==> width == old(width) && height == old(height)
    {
      reassigned := false;
      if parent.Some? {
        var (clientWidth, clientHeight) := parent.value;
        if width != clientWidth || height != clientHeight {
          width := clientWidth;
          height := clientHeight;
          reassigned := true;
        }
      }
    }
  }

  /** What one call of `draw` computes before painting. */
  datatype Frame = Frame(layout: Layout, points: seq<MappedPoint>, path: seq<Segment>, glyphs: seq<Glyph>)

  /**
   * One call of `draw`: fit the canvas to its parent, lay the shape out on the
   * canvas's size, map the points, trace one segment per connection and draw
   * one glyph per point.
   */
  method Draw(canvas: Canvas, parent: Option<(nat, nat)>, p: Preset, waves: seq<PointWave>) returns (frame: Frame)
    requires ConnectionsInRange(p)
    requires |waves| == |p.points|
    requires forall i :: 0 <= i < |waves| ==> WaveOk(waves[i])
    modifies canvas
    ensures parent.Some? ==> (canvas.width, canvas.height) == parent.value
    ensures parent.None? ==> canvas.width == old(canvas.width) && canvas.height == old(canvas.height)
    ensures frame.layout == LayoutFor(p, canvas.width, canvas.height)
    ensures frame.points == MappedPoints(p, frame.layout, waves)
    ensures forall i :: 0 <= i < |p.points| ==>
      Abs(frame.points[i].x - BasePosition(p.points[i], frame.layout).x) <= Wobble &&
      Abs(frame.points[i].y - BasePosition(p.points[i], frame.layout).y) <= Wobble &&
      0.0 <= frame.points[i].twinkle <= 1.0
    ensures |frame.path| == |p.connections|
    ensures forall k :: 0 <= k < |p.connections| ==>
      frame.path[k] == Segment(frame.points[p.connections[k].0], frame.points[p.connections[k].1])
    ensures |frame.glyphs| == |p.points|
    ensures forall i :: 0 <= i < |p.points| ==> frame.glyphs[i] == GlyphFor(p, i, frame.points[i])
  {
    var reassigned := canvas.FitToParent(parent);
    var layout := LayoutFor(p, canvas.width, canvas.height);
    var mapped := MappedPoints(p, layout, waves);
    var path := TracePath(mapped, p.connections);
    var glyphs := DrawGlyphs(p, mapped);
    frame := Frame(layout, mapped, path, glyphs);
  }

  /**
   * Each Taurus frame strokes 11 segments and each cat frame 8, whatever the
   * time or canvas size; each component draws on a canvas of its own.
   */
  method DrawCounts(taurusCanvas: Canvas, catCanvas: Canvas, taurusParent: Option<(nat, nat)>,
                    catParent: Option<(nat, nat)>, taurusWaves: seq<PointWave>, catWaves: seq<PointWave>)
    returns (taurusSegments: nat, catSegments: nat)
    requires |taurusWaves| == 12 && |catWaves| == 9
    requires forall i :: 0 <= i < |taurusWaves| ==> WaveOk(taurusWaves[i])
    requires forall i :: 0 <= i < |catWaves| ==> WaveOk(catWaves[i])
    modifies taurusCanvas, catCanvas
    ensures taurusSegments == 11 && catSegments == 8
  {
    TaurusTables();
    CatTables();
    var taurus := Draw(taurusCanvas, taurusParent, Taurus, taurusWaves);
    var cat := Draw(catCanvas, catParent, Cat, catWaves);
    taurusSegments, catSegments := |taurus.path|, |cat.path|;
  }
}
