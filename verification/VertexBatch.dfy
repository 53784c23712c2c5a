/** The HUD's vertex batcher: quads collect in a fixed buffer and go to the GPU when it is full,
    when the view changes and at the end of the frame. Buffered drawing must put the same
    vertices on screen, in the same order and under the same view, as drawing each at once. */
module VertexBatch {

  const MAX_VTX := 24576
  const QUAD := 6
  const MIN_SCALE := 0.05

  datatype Vtx = Vtx(x: real, y: real, u: real, v: real, r: real, g: real, b: real, a: real,
                     ew: real, eh: real, er: real, em: real)

  datatype View = View(scale: real, xoff: real, yoff: real)

  const HOME := View(1.0, 0.0, 0.0)

  datatype Quad = Quad(x0: real, y0: real, x1: real, y1: real, u0: real, v0: real, u1: real, v1: real,
                       r: real, g: real, b: real, a: real, ew: real, eh: real, er: real, em: real)

  datatype Op = Draw(q: Quad) | SetView(scale: real, xoff: real, yoff: real)

  /** One draw call: vertices under one view. */
  datatype Batch = Batch(view: View, verts: seq<Vtx>)

  function Corner(q: Quad, right: bool, bottom: bool): Vtx {
    Vtx(if right then q.x1 else q.x0, if bottom then q.y1 else q.y0,
        if right then q.u1 else q.u0, if bottom then q.v1 else q.v0,
        q.r, q.g, q.b, q.a, q.ew, q.eh, q.er, q.em)
  }

  /** The two triangles of a quad. */
  function QuadVerts(q: Quad): (r: seq<Vtx>)
    ensures |r| == QUAD
  {
    [Corner(q, false, false), Corner(q, true, false), Corner(q, false, true),
     Corner(q, true, false), Corner(q, true, true), Corner(q, false, true)]
  }

  // ---------------------------------------------------------------- what two triangles show

  /** The point of a rectangle at `s` across and `t` down, with the texture point and look it has. */
  function PointOf(q: Quad, s: real, t: real): Vtx {
    Vtx(q.x0 + s * (q.x1 - q.x0), q.y0 + t * (q.y1 - q.y0), q.u0 + s * (q.u1 - q.u0), q.v0 + t * (q.v1 - q.v0),
        q.r, q.g, q.b, q.a, q.ew, q.eh, q.er, q.em)
  }

  function Mix(a: real, b: real, c: real, l: real, m: real, n: real): real { a * l + b * m + c * n }

  /** The point of a triangle with weights `l`, `m` and `n`, everything interpolated as the GPU does. */
  function Blend(a: Vtx, b: Vtx, c: Vtx, l: real, m: real, n: real): Vtx {
    Vtx(Mix(a.x, b.x, c.x, l, m, n), Mix(a.y, b.y, c.y, l, m, n),
        Mix(a.u, b.u, c.u, l, m, n), Mix(a.v, b.v, c.v, l, m, n),
        Mix(a.r, b.r, c.r, l, m, n), Mix(a.g, b.g, c.g, l, m, n),
        Mix(a.b, b.b, c.b, l, m, n), Mix(a.a, b.a, c.a, l, m, n),
        Mix(a.ew, b.ew, c.ew, l, m, n), Mix(a.eh, b.eh, c.eh, l, m, n),
        Mix(a.er, b.er, c.er, l, m, n), Mix(a.em, b.em, c.em, l, m, n))
  }

  predicate Weights(l: real, m: real, n: real) {
    l >= 0.0 && m >= 0.0 && n >= 0.0 && l + m + n == 1.0
  }

  lemma MixOfOne(a: real, l: real, m: real, n: real)
    requires l + m + n == 1.0
    ensures Mix(a, a, a, l, m, n) == a
  {
    assert a * l + a * m + a * n == a * (l + m + n);
  }

  /** Two of the three corners agree in one coordinate, so it moves with the third alone. */
  lemma MixOfTwo(a: real, b: real, l: real, m: real, n: real)
    requires l + m + n == 1.0
    ensures Mix(a, a, b, l, m, n) == a + n * (b - a)
    ensures Mix(a, b, a, l, m, n) == a + m * (b - a)
    ensures Mix(b, a, a, l, m, n) == a + l * (b - a)
  {
    assert Mix(a, a, b, l, m, n) == a * (l + m + n) + n * (b - a);
    assert Mix(a, b, a, l, m, n) == a * (l + m + n) + m * (b - a);
    assert Mix(b, a, a, l, m, n) == a * (l + m + n) + l * (b - a);
  }

  lemma LookIsFlat(q: Quad, l: real, m: real, n: real)
    requires l + m + n == 1.0
    ensures Mix(q.r, q.r, q.r, l, m, n) == q.r && Mix(q.g, q.g, q.g, l, m, n) == q.g
    ensures Mix(q.b, q.b, q.b, l, m, n) == q.b && Mix(q.a, q.a, q.a, l, m, n) == q.a
    ensures Mix(q.ew, q.ew, q.ew, l, m, n) == q.ew && Mix(q.eh, q.eh, q.eh, l, m, n) == q.eh
    ensures Mix(q.er, q.er, q.er, l, m, n) == q.er && Mix(q.em, q.em, q.em, l, m, n) == q.em
  {
    hide Mix;
    MixOfOne(q.r, l, m, n);
    MixOfOne(q.g, l, m, n);
    MixOfOne(q.b, l, m, n);
    MixOfOne(q.a, l, m, n);
    MixOfOne(q.ew, l, m, n);
    MixOfOne(q.eh, l, m, n);
    MixOfOne(q.er, l, m, n);
    MixOfOne(q.em, l, m, n);
  }

  /** A step back from the far edge is a step from the near one. */
  lemma FromFarEdge(a: real, b: real, w: real)
    ensures b + w * (a - b) == a + (1.0 - w) * (b - a)
  {
    assert b + w * (a - b) == b + w * a - w * b == a + (1.0 - w) * (b - a);
  }

  /** The first triangle shows the near half of the rectangle, with the texture laid flat. */
  lemma NearHalf(q: Quad, l: real, m: real, n: real)
    requires Weights(l, m, n)
    ensures var v := QuadVerts(q); Blend(v[0], v[1], v[2], l, m, n) == PointOf(q, m, n)
    ensures 0.0 <= m && 0.0 <= n && m + n <= 1.0
  {
    hide Mix;
    LookIsFlat(q, l, m, n);
    MixOfTwo(q.x0, q.x1, l, m, n);
    MixOfTwo(q.y0, q.y1, l, m, n);
    MixOfTwo(q.u0, q.u1, l, m, n);
    MixOfTwo(q.v0, q.v1, l, m, n);
  }

  /** The second shows the far half. */
  lemma FarHalf(q: Quad, l: real, m: real, n: real)
    requires Weights(l, m, n)
    ensures var v := QuadVerts(q); Blend(v[3], v[4], v[5], l, m, n) == PointOf(q, 1.0 - n, 1.0 - l)
    ensures 0.0 <= 1.0 - n <= 1.0 && 0.0 <= 1.0 - l <= 1.0 && (1.0 - n) + (1.0 - l) >= 1.0
  {
    hide Mix;
    LookIsFlat(q, l, m, n);
    MixOfTwo(q.x1, q.x0, l, m, n);
    MixOfTwo(q.y1, q.y0, l, m, n);
    MixOfTwo(q.u1, q.u0, l, m, n);
    MixOfTwo(q.v1, q.v0, l, m, n);
    FromFarEdge(q.x0, q.x1, n);
    FromFarEdge(q.y0, q.y1, l);
    FromFarEdge(q.u0, q.u1, n);
    FromFarEdge(q.v0, q.v1, l);
  }

  /** The triangles of a quad show its rectangle, all of it and nothing else, and overlap on the
      diagonal only: a translucent quad is blended once. */
  lemma QuadShowsRectangle(q: Quad, s: real, t: real)
    requires 0.0 <= s <= 1.0 && 0.0 <= t <= 1.0
    ensures var v := QuadVerts(q);
            && (s + t <= 1.0 ==> Weights(1.0 - s - t, s, t)
                                 && Blend(v[0], v[1], v[2], 1.0 - s - t, s, t) == PointOf(q, s, t))
            && (s + t >= 1.0 ==> Weights(1.0 - t, s + t - 1.0, 1.0 - s)
                                 && Blend(v[3], v[4], v[5], 1.0 - t, s + t - 1.0, 1.0 - s) == PointOf(q, s, t))
  {
    hide Blend, PointOf, QuadVerts;
    if s + t <= 1.0 {
      NearHalf(q, 1.0 - s - t, s, t);
    }
    if s + t >= 1.0 {
      FarHalf(q, 1.0 - t, s + t - 1.0, 1.0 - s);
    }
  }

  function Clamped(scale: real): real { if scale < MIN_SCALE then MIN_SCALE else scale }

  // ---------------------------------------------------------------- immediate drawing

  function ViewAfter(view: View, ops: seq<Op>): View {
    if ops == [] then view
    else match ops[|ops| - 1]
         case Draw(_) => ViewAfter(view, ops[..|ops| - 1])
         case SetView(scale, xoff, yoff) => View(Clamped(scale), xoff, yoff)
  }

  /** The view in force is the last one set, with its scale held above a twentieth, or the home
      view if none was. */
  lemma {:induction false} LastViewSet(ops: seq<Op>, i: nat)
    requires i < |ops| && ops[i].SetView? && forall j :: i < j < |ops| ==> ops[j].Draw?
    ensures var view := ViewAfter(HOME, ops);
            && view.scale >= 0.05 && (ops[i].scale >= 0.05 ==> view.scale == ops[i].scale)
            && (ops[i].scale < 0.05 ==> view.scale == 0.05)
            && view.xoff == ops[i].xoff && view.yoff == ops[i].yoff
  {
    if i < |ops| - 1 {
      LastViewSet(ops[..|ops| - 1], i);
    }
  }

  lemma {:induction false} NoViewSet(ops: seq<Op>)
    requires forall j :: 0 <= j < |ops| ==> ops[j].Draw?
    ensures ViewAfter(HOME, ops) == View(1.0, 0.0, 0.0)
  {
    if ops != [] {
      NoViewSet(ops[..|ops| - 1]);
    }
  }

  function UnderView(view: View, verts: seq<Vtx>): (r: seq<(View, Vtx)>)
    ensures |r| == |verts|
  {
    seq(|verts|, i requires 0 <= i < |verts| => (view, verts[i]))
  }

  /** Every quad drawn at once under the view in force. */
  function Immediate(ops: seq<Op>): seq<(View, Vtx)> {
    if ops == [] then []
    else
      var n := |ops| - 1;
      match ops[n]
      case Draw(q) => Immediate(ops[..n]) + UnderView(ViewAfter(HOME, ops[..n]), QuadVerts(q))
      case SetView(_, _, _) => Immediate(ops[..n])
  }

  function Quads(ops: seq<Op>): nat {
    if ops == [] then 0 else Quads(ops[..|ops| - 1]) + if ops[|ops| - 1].Draw? then 1 else 0
  }

  /** Each quad takes six places, in the order of the quads, and no others are taken. */
  lemma {:induction false} QuadInPlace(ops: seq<Op>, i: nat)
    requires i < |ops| && ops[i].Draw?
    ensures |Immediate(ops)| == 6 * Quads(ops)
    ensures var at := 6 * Quads(ops[..i]);
            && at + 6 <= 6 * Quads(ops)
            && forall k :: 0 <= k < 6 ==>
                 Immediate(ops)[at + k] == (ViewAfter(HOME, ops[..i]), QuadVerts(ops[i].q)[k])
  {
    var n := |ops| - 1;
    SixEach(ops);
    SixEach(ops[..n]);
    if i < n {
      QuadInPlace(ops[..n], i);
      assert ops[..n][..i] == ops[..i];
    }
  }

  lemma {:induction false} SixEach(ops: seq<Op>)
    ensures |Immediate(ops)| == 6 * Quads(ops)
  {
    if ops != [] {
      SixEach(ops[..|ops| - 1]);
    }
  }

  /** What a list of draw calls puts on screen. */
  function OnScreen(batches: seq<Batch>): seq<(View, Vtx)> {
    if batches == [] then []
    else
      var n := |batches| - 1;
      OnScreen(batches[..n]) + UnderView(batches[n].view, batches[n].verts)
  }

  /** No draw call is empty, too big, or cuts a quad in two. */
  predicate WholeQuads(b: Batch) { 0 < |b.verts| <= 24576 && |b.verts| % 6 == 0 }

  predicate SubmittedWhole(batches: seq<Batch>) { forall b :: b in batches ==> WholeQuads(b) }

  lemma OnScreenAppend(batches: seq<Batch>, b: Batch)
    ensures OnScreen(batches + [b]) == OnScreen(batches) + UnderView(b.view, b.verts)
  {
    assert (batches + [b])[..|batches|] == batches;
  }

  lemma UnderViewSplits(view: View, a: seq<Vtx>, b: seq<Vtx>)
    ensures UnderView(view, a + b) == UnderView(view, a) + UnderView(view, b)
  {
  }

  lemma EmptyUnderView(view: View)
    ensures UnderView(view, []) == []
  {
  }

  lemma PictureGrows(shown: seq<(View, Vtx)>, was: seq<(View, Vtx)>, view: View, buffered: seq<Vtx>,
                     done: seq<Vtx>, v: Vtx)
    requires shown + UnderView(view, buffered) == was + UnderView(view, done)
    ensures shown + UnderView(view, buffered + [v]) == was + UnderView(view, done + [v])
  {
    UnderViewSplits(view, buffered, [v]);
    UnderViewSplits(view, done, [v]);
    var last := UnderView(view, [v]);
    assert shown + (UnderView(view, buffered) + last) == (shown + UnderView(view, buffered)) + last;
    assert was + (UnderView(view, done) + last) == (was + UnderView(view, done)) + last;
  }

  // ---------------------------------------------------------------- buffered drawing

  class Renderer {
    const vtx: array<Vtx>
    var nverts: nat
    var ready: bool
    var view: View
    /** Draw calls made since the frame began. */
    var submitted: seq<Batch>
    var drawnVerts: nat
    var flushes: nat

    constructor (blank: Vtx)
      ensures vtx.Length == MAX_VTX && fresh(vtx) && nverts == 0 && ready && view == HOME && submitted == []
      ensures drawnVerts == 0 && flushes == 0
    {
      vtx := new Vtx[MAX_VTX](_ => blank);
      nverts, ready, view, submitted, drawnVerts, flushes := 0, true, HOME, [], 0, 0;
    }

    ghost predicate Valid()
      reads this, vtx
    {
      vtx.Length == MAX_VTX && nverts <= MAX_VTX && ready
    }

    /** The frame's counters. */
    ghost predicate Counted()
      reads this
    {
      flushes == |submitted| && drawnVerts == |OnScreen(submitted)|
    }

    /** Between drawing operations the buffer holds whole quads. */
    ghost predicate AtQuad()
      reads this, vtx
    {
      Valid() && nverts % QUAD == 0 && SubmittedWhole(submitted) && Counted()
    }

    /** What has been drawn or will be once the buffer is flushed. */
    ghost function Picture(): seq<(View, Vtx)>
      reads this, vtx
      requires Valid()
    {
      OnScreen(submitted) + UnderView(view, vtx[..nverts])
    }

    method Begin()
      requires Valid()
      modifies this
      ensures AtQuad() && Picture() == [] && view == View(1.0, 0.0, 0.0) && submitted == [] && nverts == 0
      ensures drawnVerts == 0 && flushes == 0
    {
      nverts, view, submitted, drawnVerts, flushes := 0, HOME, [], 0, 0;
    }

    method Flush()
      requires Valid() && nverts % QUAD == 0
      modifies this
      ensures Valid() && nverts == 0 && view == old(view) && Picture() == old(Picture())
      ensures old(AtQuad()) ==> AtQuad()
      ensures old(Counted()) ==> Counted()
      ensures submitted == old(submitted) +
                (if old(nverts) == 0 then [] else [Batch(old(view), old(vtx[..nverts]))])
      ensures flushes == old(flushes) + |submitted| - |old(submitted)|
      ensures drawnVerts == old(drawnVerts) + old(nverts)
    {
      if nverts < 3 || !ready { return; }
      OnScreenAppend(submitted, Batch(view, vtx[..nverts]));
      submitted := submitted + [Batch(view, vtx[..nverts])];
      drawnVerts := drawnVerts + nverts;
      flushes := flushes + 1;
      nverts := 0;
    }

    /** The k-th vertex of the current quad; the buffer may only be full when a quad starts. */
    method EmitVertex(v: Vtx, ghost was: seq<(View, Vtx)>, ghost quad: seq<Vtx>, ghost k: nat)
      requires Valid() && k < QUAD == |quad| && nverts % QUAD == k && v == quad[k]
      requires SubmittedWhole(submitted) && Counted() && Picture() == was + UnderView(view, quad[..k])
      modifies this, vtx
      ensures Valid() && view == old(view) && nverts % QUAD == (k + 1) % QUAD
      ensures SubmittedWhole(submitted) && Counted() && Picture() == was + UnderView(view, quad[..k + 1])
    {
      hide OnScreen, UnderView, WholeQuads, SubmittedWhole;
      if nverts >= MAX_VTX {
        Flush();
      }
      ghost var buffered := vtx[..nverts];
      vtx[nverts] := v;
      nverts := nverts + 1;
      assert vtx[..nverts] == buffered + [v];
      assert quad[..k + 1] == quad[..k] + [v];
      PictureGrows(OnScreen(submitted), was, view, buffered, quad[..k], v);
    }

    method EmitQuad(q: Quad)
      requires AtQuad()
      modifies this, vtx
      ensures AtQuad() && view == old(view)
      ensures Picture() == old(Picture()) + UnderView(view, QuadVerts(q))
    {
      hide OnScreen, UnderView, WholeQuads, Corner, Counted;
      EmptyUnderView(view);
      ghost var was := Picture();
      ghost var quad := QuadVerts(q);
      assert was == was + UnderView(view, quad[..0]);
      EmitVertex(Corner(q, false, false), was, quad, 0);
      EmitVertex(Corner(q, true, false), was, quad, 1);
      EmitVertex(Corner(q, false, true), was, quad, 2);
      EmitVertex(Corner(q, true, false), was, quad, 3);
      EmitVertex(Corner(q, true, true), was, quad, 4);
      EmitVertex(Corner(q, false, true), was, quad, 5);
      assert quad[..QUAD] == quad;
    }

    method SetView(scale: real, xoff: real, yoff: real)
      requires AtQuad()
      modifies this
      ensures AtQuad() && nverts == 0 && view.xoff == xoff && view.yoff == yoff
      ensures view.scale == if scale < 0.05 then 0.05 else scale
      ensures Picture() == old(Picture()) == OnScreen(submitted)
    {
      Flush();
      var s := scale;
      if s < MIN_SCALE {
        s := MIN_SCALE;
      }
      view := View(s, xoff, yoff);
    }

    /** A whole frame, from begin to present: buffered drawing is immediate drawing. */
    method Frame(ops: seq<Op>)
      requires Valid()
      modifies this, vtx
      ensures AtQuad() && nverts == 0
      ensures OnScreen(submitted) == Immediate(ops)
      ensures flushes == |submitted| && drawnVerts == 6 * Quads(ops)
      ensures forall b :: b in submitted ==> WholeQuads(b)
    {
      Begin();
      for i := 0 to |ops|
        invariant AtQuad()
        invariant view == ViewAfter(HOME, ops[..i])
        invariant Picture() == Immediate(ops[..i])
      {
        assert ops[..i + 1][..i] == ops[..i];
        match ops[i] {
          case Draw(q) => EmitQuad(q);
          case SetView(scale, xoff, yoff) => SetView(scale, xoff, yoff);
        }
      }
      assert ops[..|ops|] == ops;
      Flush();
      SixEach(ops);
    }
  }
}
