/** The glyph atlas of the HUD: a shelf packer that copies every glyph of up to four fonts into one
    2048 by 2048 byte image. */
module GlyphAtlas {
  import opened Common

  const ATLAS_W := 2048
  const ATLAS_H := 2048
  const MAX_FONTS := 4

  /** One glyph of a font: its size and where its rows start in the font's bitmap. */
  datatype Glyph = Glyph(w: nat, h: nat, off: nat)

  datatype Font = Font(glyphs: seq<Glyph>, bits: seq<Byte>)

  /** A packed font: where each of its glyphs went. */
  datatype PackedFont = PackedFont(font: Font, x: seq<nat>, y: seq<nat>)

  predicate Drawable(g: Glyph) { g.w >= 1 && g.h >= 1 }

  /** The font's bitmap covers every glyph it lists. */
  predicate Complete(f: Font) {
    forall i :: 0 <= i < |f.glyphs| && Drawable(f.glyphs[i]) ==>
      f.glyphs[i].off + f.glyphs[i].h * f.glyphs[i].w <= |f.bits|
  }

  lemma RowFits(g: Glyph, row: nat)
    requires row < g.h
    ensures row * g.w + g.w <= g.h * g.w
  {
    assert (row + 1) * g.w <= g.h * g.w;
  }

  /** A glyph's own pixel, row by row as the font stores it. */
  function Pixel(f: Font, g: Glyph, row: nat, col: nat): Byte
    requires g.off + g.h * g.w <= |f.bits| && row < g.h && col < g.w
  {
    RowFits(g, row);
    f.bits[g.off + row * g.w + col]
  }

  // ---------------------------------------------------------------- the shelf cursor

  datatype Cursor = Cursor(x: nat, y: nat, rowH: nat)

  const START := Cursor(1, 1, 0)

  /** Where the next glyph of width w goes, starting a new shelf if the current one is full. */
  function Seat(c: Cursor, w: nat): Cursor {
    if c.x + w + 1 >= ATLAS_W then Cursor(1, c.y + c.rowH + 1, 0) else c
  }

  /** A seat is found where the cursor stands, or at the start of a shelf. */
  predicate SeatsSelf(s: Cursor, w: nat) { s.x == 1 || s.x + w + 1 < ATLAS_W }

  predicate Overflows(seat: Cursor, h: nat) { seat.y + h + 1 >= ATLAS_H }

  function Advance(seat: Cursor, g: Glyph): Cursor {
    Cursor(seat.x + g.w + 1, seat.y, if g.h > seat.rowH then g.h else seat.rowH)
  }

  /** Exactly the glyphs narrower than the atlas are seated inside it. */
  lemma SeatInsideExactly(c: Cursor, w: nat)
    requires c.x >= 1
    ensures Seat(c, w).x + w <= ATLAS_W <==> w < ATLAS_W
  {
  }

  // ---------------------------------------------------------------- placements

  /** A glyph of a font put at (x, y). */
  datatype Placed = Placed(font: Font, g: Glyph, x: nat, y: nat)

  predicate Inside(p: Placed) {
    1 <= p.x && p.x + p.g.w <= 2048 && 1 <= p.y && p.y + p.g.h + 1 < 2048
  }

  /** Disjoint, with at least one free column or row between them. */
  predicate Apart(p: Placed, q: Placed) {
    || p.x + p.g.w + 1 <= q.x || q.x + q.g.w + 1 <= p.x
    || p.y + p.g.h + 1 <= q.y || q.y + q.g.h + 1 <= p.y
  }

  /** Everything placed so far lies on closed shelves above the cursor or to its left. */
  predicate Behind(p: Placed, c: Cursor) {
    p.y + p.g.h + 1 <= c.y || (p.y == c.y && p.x + p.g.w + 1 <= c.x && p.g.h <= c.rowH)
  }

  ghost predicate WellPlaced(placed: seq<Placed>, c: Cursor) {
    && c.x >= 1 && c.y >= 1
    && (forall p :: p in placed ==> Inside(p) && Behind(p, c) && Drawable(p.g))
    && (forall i, j :: 0 <= i < j < |placed| ==> Apart(placed[i], placed[j]))
  }

  /** Seating one more glyph keeps all placements inside, apart and behind the cursor. */
  lemma SeatKeepsApart(placed: seq<Placed>, s: Cursor, f: Font, g: Glyph)
    requires WellPlaced(placed, s) && Drawable(g) && g.w < ATLAS_W
    requires SeatsSelf(s, g.w) && !Overflows(s, g.h)
    ensures WellPlaced(placed + [Placed(f, g, s.x, s.y)], Advance(s, g))
  {
    var added := Placed(f, g, s.x, s.y);
    assert forall p :: p in placed ==> Apart(p, added);
  }

  lemma LineBreakKeeps(placed: seq<Placed>, c: Cursor, w: nat)
    requires WellPlaced(placed, c)
    ensures WellPlaced(placed, Seat(c, w))
  {
  }

  // ---------------------------------------------------------------- where each glyph goes

  /** Row `end` is the first below the shelf at row y, one row kept free. */
  ghost predicate ShelfEnds(placed: seq<Placed>, y: nat, end: nat) {
    && (forall p :: p in placed && p.y == y ==> y + p.g.h + 1 <= end)
    && exists p :: p in placed && p.y == y && y + p.g.h + 1 == end
  }

  /** The next glyph goes one column to the right of the last, or, where that leaves no free column
      at the edge, to the start of a shelf right below the last one. */
  ghost predicate SeatedAfter(placed: seq<Placed>, q: Placed) {
    if placed == [] then q.x == 1 && q.y == if q.g.w + 2 < 2048 then 1 else 2
    else
      var p := placed[|placed| - 1];
      if p.x + p.g.w + 1 + q.g.w + 1 < 2048 then q.x == p.x + p.g.w + 1 && q.y == p.y
      else q.x == 1 && ShelfEnds(placed, p.y, q.y)
  }

  ghost predicate AllSeated(placed: seq<Placed>) {
    forall k :: 0 <= k < |placed| ==> SeatedAfter(placed[..k], placed[k])
  }

  /** The shelf on which the next glyph would go ends below the atlas. */
  ghost predicate Blocked(placed: seq<Placed>, f: Font, g: Glyph) {
    exists x: nat, y: nat :: SeatedAfter(placed, Placed(f, g, x, y)) && y + g.h + 1 >= 2048
  }

  /** The placements are those of the first n glyphs with anything to draw, in their order. */
  ghost predicate Lists(f: Font, n: nat, ps: seq<Placed>)
    requires n <= |f.glyphs|
  {
    if n == 0 then ps == []
    else
      var g := f.glyphs[n - 1];
      if g.w >= 1 && g.h >= 1 then
        ps != [] && ps[|ps| - 1].font == f && ps[|ps| - 1].g == g && Lists(f, n - 1, ps[..|ps| - 1])
      else Lists(f, n - 1, ps)
  }

  /** Packing a font put its glyphs where they go, all of them or those before one that is blocked. */
  ghost predicate PackedUpTo(f: Font, n: nat, was: seq<Placed>, now: seq<Placed>) {
    n <= |f.glyphs| && was <= now && AllSeated(now) && Lists(f, n, now[|was|..])
  }

  ghost predicate StoppedAt(f: Font, n: nat, was: seq<Placed>, now: seq<Placed>) {
    && n < |f.glyphs| && PackedUpTo(f, n, was, now)
    && f.glyphs[n].w >= 1 && f.glyphs[n].h >= 1 && Blocked(now, f, f.glyphs[n])
  }

  /** The cursor stands right of the last placement and knows how deep its shelf is. */
  ghost predicate Tracks(placed: seq<Placed>, c: Cursor) {
    if placed == [] then c == START
    else
      var p := placed[|placed| - 1];
      c.x == p.x + p.g.w + 1 && c.y == p.y && ShelfEnds(placed, c.y, c.y + c.rowH + 1)
  }

  lemma SeatIsNext(placed: seq<Placed>, c: Cursor, f: Font, g: Glyph)
    requires Tracks(placed, c)
    ensures SeatedAfter(placed, Placed(f, g, Seat(c, g.w).x, Seat(c, g.w).y))
  {
  }

  lemma TracksOn(placed: seq<Placed>, c: Cursor, f: Font, g: Glyph)
    requires Tracks(placed, c) && Drawable(g) && WellPlaced(placed, Seat(c, g.w))
    ensures var s := Seat(c, g.w); Tracks(placed + [Placed(f, g, s.x, s.y)], Advance(s, g))
  {
    var s := Seat(c, g.w);
    var q := Placed(f, g, s.x, s.y);
    if placed != [] && s == c {
      var deepest :| deepest in placed && deepest.y == c.y && c.y + deepest.g.h + 1 == c.y + c.rowH + 1;
      assert (if g.h > c.rowH then q else deepest) in placed + [q];
    } else {
      assert forall p :: p in placed ==> p.y != s.y;
      assert q in placed + [q];
    }
  }

  lemma OneMoreSeated(placed: seq<Placed>, q: Placed)
    requires AllSeated(placed) && SeatedAfter(placed, q)
    ensures AllSeated(placed + [q])
  {
    var now := placed + [q];
    assert now[..|placed|] == placed;
    forall k | 0 <= k < |now| ensures SeatedAfter(now[..k], now[k]) {
      if k < |placed| {
        assert now[..k] == placed[..k];
      }
    }
  }

  lemma NonePacked(f: Font, placed: seq<Placed>)
    requires AllSeated(placed)
    ensures PackedUpTo(f, 0, placed, placed)
  {
  }

  lemma OneSkipped(f: Font, n: nat, was: seq<Placed>, now: seq<Placed>)
    requires n < |f.glyphs| && PackedUpTo(f, n, was, now) && !(f.glyphs[n].w >= 1 && f.glyphs[n].h >= 1)
    ensures PackedUpTo(f, n + 1, was, now)
  {
  }

  lemma OneMorePacked(f: Font, n: nat, was: seq<Placed>, now: seq<Placed>, q: Placed)
    requires n < |f.glyphs| && PackedUpTo(f, n, was, now) && SeatedAfter(now, q)
    requires q.font == f && q.g == f.glyphs[n] && q.g.w >= 1 && q.g.h >= 1
    ensures PackedUpTo(f, n + 1, was, now + [q])
  {
    OneMoreSeated(now, q);
    assert (now + [q])[|was|..] == now[|was|..] + [q];
  }

  /** Glyph n of a font goes to the seat found for it, or is blocked there. */
  lemma NextPacked(f: Font, n: nat, was: seq<Placed>, now: seq<Placed>, c: Cursor)
    requires n < |f.glyphs| && PackedUpTo(f, n, was, now) && Tracks(now, c)
    requires f.glyphs[n].w >= 1 && f.glyphs[n].h >= 1 && WellPlaced(now, Seat(c, f.glyphs[n].w))
    ensures var g := f.glyphs[n];
            var s := Seat(c, g.w);
            var q := Placed(f, g, s.x, s.y);
            && Tracks(now + [q], Advance(s, g)) && AllSeated(now + [q]) && PackedUpTo(f, n + 1, was, now + [q])
            && (s.y + g.h + 1 >= 2048 ==> Blocked(now, f, g))
  {
    hide WellPlaced, Tracks, SeatedAfter, AllSeated, Lists, ShelfEnds;
    var g := f.glyphs[n];
    var s := Seat(c, g.w);
    SeatIsNext(now, c, f, g);
    TracksOn(now, c, f, g);
    OneMoreSeated(now, Placed(f, g, s.x, s.y));
    OneMorePacked(f, n, was, now, Placed(f, g, s.x, s.y));
  }

  // ---------------------------------------------------------------- the image

  function Pos(x: nat, y: nat): (n: nat)
    requires x < ATLAS_W
    ensures n / ATLAS_W == y && n % ATLAS_W == x
  {
    y * ATLAS_W + x
  }

  predicate Covers(p: Placed, n: nat) {
    p.x <= n % ATLAS_W < p.x + p.g.w && p.y <= n / ATLAS_W < p.y + p.g.h
  }

  predicate HasBits(p: Placed) { p.g.off + p.g.h * p.g.w <= |p.font.bits| }

  /** The image holds exactly the glyph's bitmap at its place. */
  ghost predicate Shows(image: seq<Byte>, p: Placed)
    requires |image| == ATLAS_W * ATLAS_H
  {
    Inside(p) && HasBits(p) &&
    forall row: nat, col: nat :: row < p.g.h && col < p.g.w ==>
      image[Pos(p.x + col, p.y + row)] == Pixel(p.font, p.g, row, col)
  }

  ghost predicate ShowsAll(image: seq<Byte>, pf: PackedFont)
    requires |image| == ATLAS_W * ATLAS_H
  {
    && |pf.x| == |pf.y| == |pf.font.glyphs|
    && forall i :: 0 <= i < |pf.x| && pf.font.glyphs[i].w >= 1 && pf.font.glyphs[i].h >= 1 ==>
         Shows(image, Placed(pf.font, pf.font.glyphs[i], pf.x[i], pf.y[i]))
  }

  /** Each row of a shown glyph, read off the image, is that row of the bitmap. */
  lemma RowReadsBack(image: seq<Byte>, p: Placed, row: nat)
    requires |image| == 2048 * 2048 && Shows(image, p) && row < p.g.h
    ensures p.g.off + row * p.g.w + p.g.w <= |p.font.bits|
    ensures var at, from := (p.y + row) * 2048 + p.x, p.g.off + row * p.g.w;
            image[at..at + p.g.w] == p.font.bits[from..from + p.g.w]
  {
    RowFits(p.g, row);
    var at, from := (p.y + row) * 2048 + p.x, p.g.off + row * p.g.w;
    var shown, stored := image[at..at + p.g.w], p.font.bits[from..from + p.g.w];
    forall col | 0 <= col < |shown| ensures shown[col] == stored[col] {
      assert image[Pos(p.x + col, p.y + row)] == Pixel(p.font, p.g, row, col);
    }
  }

  /** What no placement covers is still empty. */
  ghost predicate Blank(image: seq<Byte>, placed: seq<Placed>) {
    forall n :: 0 <= n < |image| && (forall p :: p in placed ==> !Covers(p, n)) ==> image[n] == 0
  }

  lemma BlankElsewhere(was: seq<Byte>, now: seq<Byte>, placed: seq<Placed>, q: Placed)
    requires |was| == |now| && Blank(was, placed)
    requires forall n :: 0 <= n < |was| && !Covers(q, n) ==> now[n] == was[n]
    ensures Blank(now, placed + [q])
  {
    assert q in placed + [q];
    assert forall p :: p in placed ==> p in placed + [q];
  }

  /** Painting one placement leaves every placement apart from it as it was. */
  lemma PaintingElsewhere(was: seq<Byte>, now: seq<Byte>, p: Placed, q: Placed)
    requires |was| == |now| == ATLAS_W * ATLAS_H && Shows(was, p) && Apart(p, q)
    requires forall n :: 0 <= n < |was| && !Covers(q, n) ==> now[n] == was[n]
    ensures Shows(now, p)
  {
    forall row: nat, col: nat | row < p.g.h && col < p.g.w
      ensures now[Pos(p.x + col, p.y + row)] == Pixel(p.font, p.g, row, col)
    {
      assert !Covers(q, Pos(p.x + col, p.y + row));
    }
  }

  class Packer {
    const atlas: array<Byte>
    var atlasReady: bool
    var packX: nat
    var packY: nat
    var packRowH: nat
    var atlasFail: bool
    var fonts: seq<PackedFont>
    /** Every glyph placed so far, in order. */
    ghost var placed: seq<Placed>

    constructor ()
      ensures Valid() && fresh(atlas) && fonts == [] && placed == [] && !atlasFail
      ensures Here() == START
    {
      atlas := new Byte[ATLAS_W * ATLAS_H](_ => 0);
      atlasReady, packX, packY, packRowH, atlasFail := false, 1, 1, 0, false;
      fonts, placed := [], [];
    }

    ghost function Here(): Cursor
      reads this
    {
      Cursor(packX, packY, packRowH)
    }

    ghost predicate Valid()
      reads this, atlas
    {
      && atlas.Length == ATLAS_W * ATLAS_H
      && WellPlaced(placed, Here())
      && (forall p :: p in placed ==> Shows(atlas[..], p))
      && Blank(atlas[..], placed) && AllSeated(placed) && (!atlasFail ==> Tracks(placed, Here()))
      && |fonts| <= 4
      && (!atlasFail ==> forall k :: 0 <= k < |fonts| ==> FullyPacked(fonts[k], |fonts[k].font.glyphs|, placed))
    }

    /** Copies bytes to row y of the image, from column x on. */
    method CopyRow(x: nat, y: nat, src: seq<Byte>)
      requires atlas.Length == ATLAS_W * ATLAS_H && x + |src| <= ATLAS_W && y < ATLAS_H
      modifies atlas
      ensures forall n :: 0 <= n < atlas.Length ==>
                atlas[n] == if n / ATLAS_W == y && x <= n % ATLAS_W < x + |src| then src[n % ATLAS_W - x]
                            else old(atlas[n])
    {
      if src == [] { return; }
      var at := Pos(x, y);
      for i := 0 to |src|
        invariant forall n :: 0 <= n < atlas.Length ==>
          atlas[n] == if at <= n < at + i then src[n - at] else old(atlas[n])
      {
        atlas[at + i] := src[i];
      }
      forall n | 0 <= n < atlas.Length
        ensures at <= n < at + |src| <==> n / ATLAS_W == y && x <= n % ATLAS_W < x + |src|
        ensures at <= n < at + |src| ==> n - at == n % ATLAS_W - x
      {
        RowOf(n, x, y, |src|);
      }
    }

    /** Copies a glyph's rows; nothing outside its rectangle changes. */
    method CopyGlyph(f: Font, g: Glyph, x: nat, y: nat)
      requires Inside(Placed(f, g, x, y)) && HasBits(Placed(f, g, x, y))
      requires atlas.Length == ATLAS_W * ATLAS_H
      modifies atlas
      ensures Shows(atlas[..], Placed(f, g, x, y))
      ensures forall n :: 0 <= n < atlas.Length && !Covers(Placed(f, g, x, y), n) ==> atlas[n] == old(atlas[n])
    {
      for row := 0 to g.h
        invariant forall n :: 0 <= n < atlas.Length ==>
          atlas[n] == if x <= n % ATLAS_W < x + g.w && y <= n / ATLAS_W < y + row
                      then Pixel(f, g, n / ATLAS_W - y, n % ATLAS_W - x)
                      else old(atlas[n])
      {
        RowFits(g, row);
        var from := g.off + row * g.w;
        CopyRow(x, y + row, f.bits[from..from + g.w]);
      }
    }

    /** Starts a new shelf if the glyph does not fit on this one. */
    method BreakLine(g: Glyph)
      requires WellPlaced(placed, Here())
      modifies `packX, `packY, `packRowH
      ensures Here() == Seat(old(Here()), g.w) && WellPlaced(placed, Here()) && SeatsSelf(Here(), g.w)
    {
      LineBreakKeeps(placed, Here(), g.w);
      if packX + g.w + 1 >= ATLAS_W {
        packX := 1;
        packY := packY + packRowH + 1;
        packRowH := 0;
      }
    }

    /** Packs one font. What was packed before stays put and stays intact, whether this font fits,
        breaks shelves or overflows; a font that fits can be drawn completely from its tables.
        `image` and `tables` tell whether there is memory for the image, if it is still to be
        allocated, and for the font's own tables. */
    method PackFont(f: Font, image: bool, tables: bool)
      requires Valid() && Complete(f)
      requires forall g :: g in f.glyphs && Drawable(g) ==> g.w < ATLAS_W
      modifies this, atlas
      ensures Valid() && old(placed) <= placed
      ensures old(|fonts|) >= 4 || old(atlasFail) ==> unchanged(this) && atlas[..] == old(atlas[..])
      ensures old(|fonts|) < 4 && !old(atlasFail) && !old(atlasReady) && !image ==>
                atlasFail && fonts == old(fonts) && placed == old(placed)
      ensures old(|fonts|) < 4 && !old(atlasFail) && (old(atlasReady) || image) ==>
                && atlasReady && |fonts| == old(|fonts|) + 1 && fonts[..old(|fonts|)] == old(fonts)
                && fonts[old(|fonts|)].font == f
      ensures old(|fonts|) < 4 && !old(atlasFail) && (old(atlasReady) || image) && !tables ==>
                atlasFail && placed == old(placed)
      // every glyph goes where it should; it fails at the first whose shelf would end below the atlas
      ensures old(|fonts|) < 4 && !old(atlasFail) && (old(atlasReady) || image) && tables ==>
                if atlasFail then exists n :: StoppedAt(f, n, old(placed), placed)
                else PackedUpTo(f, |f.glyphs|, old(placed), placed)
    {
      hide Shows, WellPlaced, SeatsSelf, AllSeated, SeatedAfter, Tracks, Blank, PackedUpTo, Lists, ShelfEnds;
      hide Seat, Advance, Blocked;
      NonePacked(f, placed);
      if |fonts| >= MAX_FONTS || atlasFail { return; }
      if !atlasReady {
        if !image {
          atlasFail := true;
          return;
        }
        atlasReady := true;
      }
      if !tables {
        fonts := fonts + [PackedFont(f, [], [])];
        atlasFail := true;
        return;
      }
      var xs: seq<nat> := seq(|f.glyphs|, _ => 0);
      var ys: seq<nat> := seq(|f.glyphs|, _ => 0);
      ghost var packed := fonts;
      for i := 0 to |f.glyphs|
        invariant |xs| == |ys| == |f.glyphs| && fonts == packed && !atlasFail
        invariant atlas.Length == ATLAS_W * ATLAS_H && old(placed) <= placed
        invariant WellPlaced(placed, Here()) && Tracks(placed, Here()) && Blank(atlas[..], placed)
        invariant forall p :: p in placed ==> Shows(atlas[..], p)
        invariant FullyPacked(PackedFont(f, xs, ys), i, placed)
        invariant AllSeated(placed) && PackedUpTo(f, i, old(placed), placed) && atlasReady
      {
        var g := f.glyphs[i];
        if g.w < 1 || g.h < 1 {
          OneSkipped(f, i, old(placed), placed);
          continue;
        }
        ghost var stood := Here();
        BreakLine(g);
        NextPacked(f, i, old(placed), placed, stood);
        if packY + g.h + 1 >= ATLAS_H {
          atlasFail := true;
          fonts := fonts + [PackedFont(f, xs, ys)];
          assert StoppedAt(f, i, old(placed), placed);
          return;
        }
        xs, ys := xs[i := packX], ys[i := packY];
        PlaceGlyph(f, g);
      }
      fonts := fonts + [PackedFont(f, xs, ys)];
    }

    /** Any sequence of fonts: unless packing failed, every glyph of every packed font that can be
        drawn is shown, byte for byte, where the font's tables say. */
    method PackAll(fs: seq<Font>, memory: seq<(bool, bool)>)
      requires Valid() && |memory| == |fs| && forall f :: f in fs ==> Complete(f)
      requires forall f, g :: f in fs && g in f.glyphs && Drawable(g) ==> g.w < ATLAS_W
      modifies this, atlas
      ensures Valid() && old(placed) <= placed
      ensures !atlasFail ==> forall pf :: pf in fonts ==> ShowsAll(atlas[..], pf)
      ensures forall p :: p in placed ==> Inside(p)
      ensures forall i, j :: 0 <= i < j < |placed| ==> Apart(placed[i], placed[j])
      ensures Blank(atlas[..], placed)
      ensures !atlasFail ==>
                && old(fonts) <= fonts && |fonts| == Min(4, |old(fonts)| + |fs|)
                && forall k :: |old(fonts)| <= k < |fonts| ==> fonts[k].font == fs[k - |old(fonts)|]
    {
      hide Shows, WellPlaced, SeatsSelf, AllSeated, Tracks, Blank, PackedUpTo, StoppedAt, Complete, FullyPacked;
      for n := 0 to |fs|
        invariant Valid() && old(placed) <= placed
        invariant !atlasFail ==>
                    && old(fonts) <= fonts && |fonts| == Min(4, |old(fonts)| + n)
                    && forall k :: |old(fonts)| <= k < |fonts| ==> fonts[k].font == fs[k - |old(fonts)|]
      {
        PackFont(fs[n], memory[n].0, memory[n].1);
      }
      if !atlasFail {
        forall pf | pf in fonts ensures ShowsAll(atlas[..], pf) {
          PackedShows(atlas[..], pf, placed);
        }
      }
      AllApart(placed, Here());
    }

    /** Copies a seated glyph in and moves the cursor past it. */
    method PlaceGlyph(f: Font, g: Glyph)
      requires atlas.Length == ATLAS_W * ATLAS_H && HasBits(Placed(f, g, packX, packY)) && Drawable(g)
      requires Blank(atlas[..], placed) && forall p :: p in placed ==> Shows(atlas[..], p)
      requires WellPlaced(placed, Here()) && SeatsSelf(Here(), g.w) && g.w < ATLAS_W && !Overflows(Here(), g.h)
      modifies `packX, `packRowH, `placed, atlas
      ensures placed == old(placed) + [Placed(f, g, old(packX), old(packY))]
      ensures Here() == Advance(old(Here()), g) && WellPlaced(placed, Here()) && Blank(atlas[..], placed)
      ensures forall p :: p in placed ==> Shows(atlas[..], p)
    {
      SeatKeepsApart(placed, Here(), f, g);
      ghost var p := Placed(f, g, packX, packY);
      ghost var was := atlas[..];
      assert p in placed + [p];
      assert Inside(p);
      CopyGlyph(f, g, packX, packY);
      BlankElsewhere(was, atlas[..], placed, p);
      forall q | q in placed ensures Shows(atlas[..], q) {
        var k :| 0 <= k < |placed| && placed[k] == q;
        assert Apart((placed + [p])[k], (placed + [p])[|placed|]);
        PaintingElsewhere(was, atlas[..], q, p);
      }
      placed := placed + [p];
      packX := packX + g.w + 1;
      if g.h > packRowH {
        packRowH := g.h;
      }
    }
  }

  lemma PackedShows(image: seq<Byte>, pf: PackedFont, placed: seq<Placed>)
    requires |image| == ATLAS_W * ATLAS_H && FullyPacked(pf, |pf.font.glyphs|, placed)
    requires forall p :: p in placed ==> Shows(image, p)
    ensures ShowsAll(image, pf)
  {
    hide Shows;
  }

  lemma AllApart(placed: seq<Placed>, c: Cursor)
    requires WellPlaced(placed, c)
    ensures forall p :: p in placed ==> Inside(p)
    ensures forall i, j :: 0 <= i < j < |placed| ==> Apart(placed[i], placed[j])
  {
  }

  lemma RowOf(n: nat, x: nat, y: nat, len: nat)
    requires 0 < len && x + len <= ATLAS_W
    ensures y * ATLAS_W + x <= n < y * ATLAS_W + x + len
       <==> n / ATLAS_W == y && x <= n % ATLAS_W < x + len
    ensures n / ATLAS_W == y ==> n - (y * ATLAS_W + x) == n % ATLAS_W - x
  {
  }

  /** The first n glyphs of a font that can be drawn are where its tables say. */
  ghost predicate FullyPacked(pf: PackedFont, n: nat, placed: seq<Placed>) {
    && n <= |pf.font.glyphs| == |pf.x| == |pf.y|
    && forall i :: 0 <= i < n && Drawable(pf.font.glyphs[i]) ==>
         Placed(pf.font, pf.font.glyphs[i], pf.x[i], pf.y[i]) in placed
  }
}
