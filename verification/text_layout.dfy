/**
 * The layout computed by a label update (src/text.rs): the pen walk over
 * the glyphs of a string, the bounding box of the rendered text and the
 * placement of every glyph inside it, stated in closed form.
 *
 * The renderer computes in f32; this model computes over the reals, so
 * rounding of the 32-bit floats is not captured.
 */
module TextLayout {
  import opened Wrappers
  import opened Glyphs

  /** f32::ceil over the reals: the least integer not below x. */
  function Ceil(x: real): (r: int)
    ensures x <= r as real < x + 1.0
  {
    -((-x).Floor)
  }

  /** The running-maximum step of the layout: keep `acc` unless `x` exceeds it. */
  function Max(acc: real, x: real): real
  {
    if x > acc then x else acc
  }

  /** The maximum of 0 and every element of xs, accumulated left to right. */
  function RunningMax(xs: seq<real>): real
  {
    if xs == [] then 0.0 else Max(RunningMax(xs[..|xs| - 1]), xs[|xs| - 1])
  }

  /** The pen advance of one glyph, in pixels (advances are 16.16 fixed point). */
  function AdvanceX(e: GlyphEntry): real
  {
    e.glyph.advanceX as real / 65536.0
  }

  function AdvanceY(e: GlyphEntry): real
  {
    e.glyph.advanceY as real / 65536.0
  }

  /** Total pen travel over a run of glyphs. */
  function SumAdvanceX(gs: seq<GlyphEntry>): real
  {
    if gs == [] then 0.0 else SumAdvanceX(gs[..|gs| - 1]) + AdvanceX(gs[|gs| - 1])
  }

  function SumAdvanceY(gs: seq<GlyphEntry>): real
  {
    if gs == [] then 0.0 else SumAdvanceY(gs[..|gs| - 1]) + AdvanceY(gs[|gs| - 1])
  }

  /** The kerning before the first glyph, given in 26.6 fixed point, in pixels. */
  function KerningShift(kern: int): real
  {
    kern as real / 64.0
  }

  /**
   * Where the pen stands on the baseline when glyph i is reached: the
   * first-glyph kerning plus the advances of the glyphs before it. No
   * kerning is applied between later pairs of glyphs.
   */
  function PenX(gs: seq<GlyphEntry>, kern: int, i: nat): real
    requires i <= |gs|
  {
    KerningShift(kern) + SumAdvanceX(gs[..i])
  }

  function PenY(gs: seq<GlyphEntry>, i: nat): real
    requires i <= |gs|
  {
    SumAdvanceY(gs[..i])
  }

  /** How far glyph i reaches above the baseline. */
  function Above(gs: seq<GlyphEntry>, i: nat): real
    requires i < |gs|
  {
    PenY(gs, i) + gs[i].glyph.top as real
  }

  /** How far glyph i reaches below the baseline. */
  function Below(gs: seq<GlyphEntry>, i: nat): real
    requires i < |gs|
  {
    gs[i].glyph.bitmap.rows as real - Above(gs, i)
  }

  /** The extents above the baseline of the glyphs, in order. */
  function Aboves(gs: seq<GlyphEntry>): (r: seq<real>)
    ensures |r| == |gs|
  {
    if gs == [] then []
    else Aboves(gs[..|gs| - 1]) + [SumAdvanceY(gs[..|gs| - 1]) + gs[|gs| - 1].glyph.top as real]
  }

  /** The extents below the baseline of the glyphs, in order. */
  function Belows(gs: seq<GlyphEntry>): (r: seq<real>)
    ensures |r| == |gs|
  {
    if gs == [] then []
    else Belows(gs[..|gs| - 1]) +
         [gs[|gs| - 1].glyph.bitmap.rows as real - (SumAdvanceY(gs[..|gs| - 1]) + gs[|gs| - 1].glyph.top as real)]
  }

  /** Pixel count above the baseline: running maximum starting from 0. */
  function MaxAbove(gs: seq<GlyphEntry>): real
  {
    RunningMax(Aboves(gs))
  }

  /** Pixel count below the baseline: running maximum starting from 0. */
  function MaxBelow(gs: seq<GlyphEntry>): real
  {
    RunningMax(Belows(gs))
  }

  /** The right edge of glyph i, rounded up. */
  function RightEdge(gs: seq<GlyphEntry>, kern: int, i: nat): int
    requires i < |gs|
  {
    Ceil(PenX(gs, kern, i) + gs[i].glyph.left as real + gs[i].glyph.bitmap.width as real)
  }

  /** The bounding width: the right edge of the LAST glyph (0 for no glyph). */
  function BoundingWidth(gs: seq<GlyphEntry>, kern: int): int
  {
    if gs == [] then 0 else RightEdge(gs, kern, |gs| - 1)
  }

  /** The bounding height: the extents above and below the baseline, rounded up. */
  function BoundingHeight(gs: seq<GlyphEntry>): (h: int)
    ensures h >= 0
    ensures MaxAbove(gs) + MaxBelow(gs) <= h as real
    ensures forall i :: 0 <= i < |gs| ==> gs[i].glyph.bitmap.rows as real <= h as real
  {
    RunningMaxBounds(Aboves(gs));
    RunningMaxBounds(Belows(gs));
    ExtentsAt(gs);
    assert forall i :: 0 <= i < |gs| ==> Aboves(gs)[i] + Belows(gs)[i] == gs[i].glyph.bitmap.rows as real;
    Ceil(MaxAbove(gs) + MaxBelow(gs))
  }

  /** One glyph texture drawn into the label's texture, at (left, top). */
  datatype GlyphDraw = GlyphDraw(texture: Texture, left: real, top: real)

  /**
   * Where glyph i is drawn: horizontally at the pen plus the bitmap's left
   * offset, vertically so that its top offset hangs from the common
   * baseline `MaxAbove(gs)` below the box's top.
   */
  function Placement(gs: seq<GlyphEntry>, kern: int, i: nat): GlyphDraw
    requires i < |gs|
  {
    GlyphDraw(gs[i].texture, PenX(gs, kern, i) + gs[i].glyph.left as real, MaxAbove(gs) - gs[i].glyph.top as real)
  }

  /** The draws of the first n glyphs, in drawing order. */
  function Draws(gs: seq<GlyphEntry>, kern: int, n: nat): (r: seq<GlyphDraw>)
    requires n <= |gs|
    ensures |r| == n
  {
    if n == 0 then [] else Draws(gs, kern, n - 1) + [Placement(gs, kern, n - 1)]
  }

  /** The result of laying out a run of glyphs. */
  datatype LayoutBox = LayoutBox(width: int, height: int, draws: seq<GlyphDraw>)

  function Layout(gs: seq<GlyphEntry>, kern: int): (r: LayoutBox)
    ensures |r.draws| == |gs|
    ensures r.height >= 0
    ensures gs == [] ==> r.width == 0 && r.height == 0
  {
    LayoutBox(BoundingWidth(gs, kern), BoundingHeight(gs), Draws(gs, kern, |gs|))
  }

  /**
   * The cache entries of the characters of `text`, in order, or the error
   * of the first character whose rasterisation fails.
   */
  function Entries(faces: seq<Face>, faceIndex: nat, size: int, text: string): (r: Result<seq<GlyphEntry>, Fatal>)
    ensures r.Ok? ==> |r.value| == |text|
  {
    if text == [] then Ok([])
    else
      var prefix := text[..|text| - 1];
      match Entries(faces, faceIndex, size, prefix)
      case Err(e) =>
        Err(e)
      case Ok(gs) =>
        match Raster(faces, CacheKey(faceIndex, size, text[|text| - 1]))
        case Err(e) => Err(e)
        case Ok(g) => Ok(gs + [g])
  }

  /**
   * What a label update computes for `text`: the first character's entry,
   * then the kerning before it, then the remaining characters' entries,
   * failing at the first of these steps that fails.
   */
  function LayoutText(faces: seq<Face>, faceIndex: nat, size: int, text: string): (r: Result<LayoutBox, Fatal>)
    ensures text == [] ==> r == Ok(LayoutBox(0, 0, []))
    ensures text != [] && faceIndex >= |faces| ==> r == Err(FaceIndexOutOfRange)
    ensures r.Ok? ==> |r.value.draws| == |text| && r.value.height >= 0
  {
    if text == [] then Ok(Layout([], 0))
    else
      match Raster(faces, CacheKey(faceIndex, size, text[0]))
      case Err(e) => Err(e)
      case Ok(first) =>
        match faces[faceIndex].Kerning(0, first.glyphIndex)
        case None => Err(KerningFailure)
        case Some(kern) =>
          match Entries(faces, faceIndex, size, text)
          case Err(e) => Err(e)
          case Ok(gs) => Ok(Layout(gs, kern))
  }

  // ---------------------------------------------------------------------
  // Properties of the layout

  /** The running maximum is non-negative and bounds every element. */
  lemma {:induction false} RunningMaxBounds(xs: seq<real>)
    ensures RunningMax(xs) >= 0.0
    ensures forall i :: 0 <= i < |xs| ==> xs[i] <= RunningMax(xs)
  {
    if xs != [] {
      var init := xs[..|xs| - 1];
      RunningMaxBounds(init);
      forall i | 0 <= i < |xs| ensures xs[i] <= RunningMax(xs) {
        if i < |xs| - 1 {
          assert xs[i] == init[i];
        }
      }
    }
  }

  /** The running maximum is 0 or one of the elements. */
  lemma {:induction false} RunningMaxAttained(xs: seq<real>)
    ensures RunningMax(xs) == 0.0 || exists i :: 0 <= i < |xs| && RunningMax(xs) == xs[i]
  {
    if xs != [] {
      var init := xs[..|xs| - 1];
      RunningMaxAttained(init);
      if RunningMax(xs) != xs[|xs| - 1] && RunningMax(init) != 0.0 {
        var i :| 0 <= i < |init| && RunningMax(init) == init[i];
        assert RunningMax(xs) == xs[i];
      }
    }
  }

  /** Appending an element updates the running maximum by one step. */
  lemma {:induction false} RunningMaxSnoc(xs: seq<real>, x: real)
    ensures RunningMax(xs + [x]) == Max(RunningMax(xs), x)
  {
    assert (xs + [x])[..|xs|] == xs;
  }

  /** Glyphs appended later do not move the pen position of earlier glyphs. */
  lemma {:induction false} PenPrefix(gs: seq<GlyphEntry>, more: seq<GlyphEntry>, kern: int, i: nat)
    requires i <= |gs|
    ensures PenX(gs + more, kern, i) == PenX(gs, kern, i)
    ensures PenY(gs + more, i) == PenY(gs, i)
  {
    assert (gs + more)[..i] == gs[..i];
  }

  /**
   * The pen walk: before the first glyph the pen is shifted by the kerning
   * only, and every glyph moves it by exactly its own advance.
   */
  lemma {:induction false} PenStep(gs: seq<GlyphEntry>, kern: int, i: nat)
    requires i < |gs|
    ensures PenX(gs, kern, 0) == kern as real / 64.0 && PenY(gs, 0) == 0.0
    ensures PenX(gs, kern, i + 1) == PenX(gs, kern, i) + gs[i].glyph.advanceX as real / 65536.0
    ensures PenY(gs, i + 1) == PenY(gs, i) + gs[i].glyph.advanceY as real / 65536.0
  {
    assert gs[..i + 1][..i] == gs[..i];
    assert gs[..0] == [];
  }

  /** The extents above and below the baseline grow by one glyph's extents. */
  lemma {:induction false} ExtentsSnoc(gs: seq<GlyphEntry>, g: GlyphEntry)
    ensures Aboves(gs + [g]) == Aboves(gs) + [SumAdvanceY(gs) + g.glyph.top as real]
    ensures Belows(gs + [g]) == Belows(gs) + [g.glyph.bitmap.rows as real - (SumAdvanceY(gs) + g.glyph.top as real)]
  {
    var gs' := gs + [g];
    assert gs'[..|gs'| - 1] == gs;
    assert gs'[|gs'| - 1] == g;
  }

  /** Element i of the extents is the extent of glyph i. */
  lemma {:induction false} ExtentsAt(gs: seq<GlyphEntry>)
    ensures forall i :: 0 <= i < |gs| ==> Aboves(gs)[i] == Above(gs, i) && Belows(gs)[i] == Below(gs, i)
  {
    if gs != [] {
      var init := gs[..|gs| - 1];
      ExtentsAt(init);
      assert gs == init + [gs[|gs| - 1]];
      forall i | 0 <= i < |gs|
        ensures Aboves(gs)[i] == Above(gs, i) && Belows(gs)[i] == Below(gs, i)
      {
        if i < |init| {
          PenPrefix(init, [gs[|gs| - 1]], 0, i);
        }
      }
    }
  }

  /**
   * The bounding width is overwritten by every glyph: after appending a
   * glyph it is that glyph's right edge, whatever the earlier glyphs were.
   */
  lemma {:induction false} WidthIsLastRightEdge(gs: seq<GlyphEntry>, g: GlyphEntry, kern: int)
    ensures BoundingWidth(gs + [g], kern) ==
            Ceil(kern as real / 64.0 + SumAdvanceX(gs) + g.glyph.left as real + g.glyph.bitmap.width as real)
  {
    assert (gs + [g])[..|gs|] == gs;
  }

  /**
   * Appending a glyph can shrink the bounding width: a glyph whose bitmap
   * overhangs its advance is followed by a narrow one, and the box ends at
   * the narrow glyph's right edge, cutting the first glyph.
   */
  lemma {:induction false} WidthCanShrink()
    ensures
      var bmp := Bitmap(10, 10, 10, Gray, []);
      var wide := GlyphEntry(Texture(10, 10, []), Glyph(5 * 65536, 0, 0, 10, bmp), 1);
      var narrow := GlyphEntry(Texture(1, 1, []), Glyph(65536, 0, 0, 1, Bitmap(1, 1, 1, Gray, [])), 2);
      BoundingWidth([wide], 0) == 10 && BoundingWidth([wide, narrow], 0) == 6
  {
    var bmp := Bitmap(10, 10, 10, Gray, []);
    var wide := GlyphEntry(Texture(10, 10, []), Glyph(5 * 65536, 0, 0, 10, bmp), 1);
    var narrow := GlyphEntry(Texture(1, 1, []), Glyph(65536, 0, 0, 1, Bitmap(1, 1, 1, Gray, [])), 2);
    assert [wide, narrow][..1] == [wide];
    assert [wide][..0] == [];
    assert SumAdvanceX([wide]) == 5.0;
    assert Ceil(10.0) == 10;
    assert Ceil(6.0) == 6;
  }

  /** With no vertical advance the pen stays on the baseline. */
  lemma {:induction false} NoVerticalAdvance(gs: seq<GlyphEntry>)
    requires forall i :: 0 <= i < |gs| ==> gs[i].glyph.advanceY == 0
    ensures SumAdvanceY(gs) == 0.0
  {
    if gs != [] {
      NoVerticalAdvance(gs[..|gs| - 1]);
    }
  }

  /**
   * For horizontal text every glyph lies vertically inside the bounding
   * box: its top is at or below the box's top and its last row at or above
   * the box's bottom.
   */
  lemma {:induction false} HorizontalGlyphsFitVertically(gs: seq<GlyphEntry>, kern: int)
    requires forall i :: 0 <= i < |gs| ==> gs[i].glyph.advanceY == 0
    ensures forall i :: 0 <= i < |gs| ==>
      0.0 <= Layout(gs, kern).draws[i].top &&
      Layout(gs, kern).draws[i].top + gs[i].glyph.bitmap.rows as real <= Layout(gs, kern).height as real
  {
    var box := Layout(gs, kern);
    RunningMaxBounds(Aboves(gs));
    RunningMaxBounds(Belows(gs));
    ExtentsAt(gs);
    PlacementAt(gs, kern);
    forall i | 0 <= i < |gs|
      ensures 0.0 <= box.draws[i].top && box.draws[i].top + gs[i].glyph.bitmap.rows as real <= box.height as real
    {
      NoVerticalAdvance(gs[..i]);
      assert Aboves(gs)[i] == Above(gs, i) == gs[i].glyph.top as real;
      assert Belows(gs)[i] == Below(gs, i);
      assert box.draws[i].top == MaxAbove(gs) - gs[i].glyph.top as real;
    }
  }

  /** On success, entry i is what character i rasterises to. */
  lemma {:induction false} EntriesRasterise(faces: seq<Face>, faceIndex: nat, size: int, text: string)
    ensures Entries(faces, faceIndex, size, text).Ok? ==>
      forall i :: 0 <= i < |text| ==>
        Raster(faces, CacheKey(faceIndex, size, text[i])) == Ok(Entries(faces, faceIndex, size, text).value[i])
  {
    if text != [] {
      var prefix := text[..|text| - 1];
      EntriesRasterise(faces, faceIndex, size, prefix);
      if Entries(faces, faceIndex, size, text).Ok? {
        var gs := Entries(faces, faceIndex, size, prefix).value;
        forall i | 0 <= i < |text|
          ensures Raster(faces, CacheKey(faceIndex, size, text[i])) == Ok(Entries(faces, faceIndex, size, text).value[i])
        {
          if i < |prefix| {
            assert prefix[i] == text[i];
          }
        }
      }
    }
  }

  /** Entries is decided by the first character whose rasterisation fails. */
  lemma {:induction false} EntriesFirstFailure(faces: seq<Face>, faceIndex: nat, size: int, text: string, i: nat)
    requires i < |text|
    requires forall j :: 0 <= j < i ==> Raster(faces, CacheKey(faceIndex, size, text[j])).Ok?
    requires Raster(faces, CacheKey(faceIndex, size, text[i])).Err?
    ensures Entries(faces, faceIndex, size, text) == Err(Raster(faces, CacheKey(faceIndex, size, text[i])).error)
  {
    var prefix := text[..|text| - 1];
    if i < |prefix| {
      forall j | 0 <= j < i ensures Raster(faces, CacheKey(faceIndex, size, prefix[j])).Ok? {
        assert prefix[j] == text[j];
      }
      assert prefix[i] == text[i];
      EntriesFirstFailure(faces, faceIndex, size, prefix, i);
    } else {
      EntriesAllRasterise(faces, faceIndex, size, prefix);
    }
  }

  /** When every character rasterises, Entries succeeds. */
  lemma {:induction false} EntriesAllRasterise(faces: seq<Face>, faceIndex: nat, size: int, text: string)
    requires forall j :: 0 <= j < |text| ==> Raster(faces, CacheKey(faceIndex, size, text[j])).Ok?
    ensures Entries(faces, faceIndex, size, text).Ok?
  {
    if text != [] {
      var prefix := text[..|text| - 1];
      forall j | 0 <= j < |prefix| ensures Raster(faces, CacheKey(faceIndex, size, prefix[j])).Ok? {
        assert prefix[j] == text[j];
      }
      EntriesAllRasterise(faces, faceIndex, size, prefix);
    }
  }

  /** One step of the measuring walk: what appending a glyph does to the running values. */
  lemma {:induction false} MeasureStep(gs: seq<GlyphEntry>, g: GlyphEntry, kern: int)
    ensures SumAdvanceX(gs + [g]) == SumAdvanceX(gs) + AdvanceX(g)
    ensures SumAdvanceY(gs + [g]) == SumAdvanceY(gs) + AdvanceY(g)
    ensures MaxAbove(gs + [g]) == Max(MaxAbove(gs), SumAdvanceY(gs) + g.glyph.top as real)
    ensures MaxBelow(gs + [g]) == Max(MaxBelow(gs), g.glyph.bitmap.rows as real - (SumAdvanceY(gs) + g.glyph.top as real))
    ensures BoundingWidth(gs + [g], kern) ==
            Ceil(KerningShift(kern) + SumAdvanceX(gs) + g.glyph.left as real + g.glyph.bitmap.width as real)
  {
    assert (gs + [g])[..|gs|] == gs;
    ExtentsSnoc(gs, g);
    RunningMaxSnoc(Aboves(gs), SumAdvanceY(gs) + g.glyph.top as real);
    RunningMaxSnoc(Belows(gs), g.glyph.bitmap.rows as real - (SumAdvanceY(gs) + g.glyph.top as real));
    WidthIsLastRightEdge(gs, g, kern);
  }

  /**
   * The values the measuring walk holds once it has passed the glyphs gs:
   * the pen (shifted by the first-glyph kerning once a glyph was met) and
   * the running extents above and below the baseline.
   */
  ghost predicate Walked(gs: seq<GlyphEntry>, kern: int, penX: real, penY: real, above: real, below: real)
  {
    penX == (if gs == [] then 0.0 else KerningShift(kern) + SumAdvanceX(gs)) &&
    penY == SumAdvanceY(gs) && above == MaxAbove(gs) && below == MaxBelow(gs)
  }

  /**
   * One step of the measuring walk: from the pen x (already shifted by the
   * kerning when g is the first glyph), the glyph's extents update the
   * running maxima, its right edge is the new bounding width and the pen
   * advances by the glyph's advance.
   */
  lemma {:induction false} WalkStep(gs: seq<GlyphEntry>, g: GlyphEntry, kern: int, penX: real, penY: real, above: real, below: real, x: real)
    requires Walked(gs, kern, penX, penY, above, below)
    requires x == if gs == [] then penX + kern as real / 64.0 else penX
    ensures
      var thisAbove := penY + g.glyph.top as real;
      var thisBelow := g.glyph.bitmap.rows as real - thisAbove;
      Walked(gs + [g], kern, x + g.glyph.advanceX as real / 65536.0, penY + g.glyph.advanceY as real / 65536.0,
             if thisAbove > above then thisAbove else above,
             if thisBelow > below then thisBelow else below)
    ensures BoundingWidth(gs + [g], kern) == Ceil(x + g.glyph.left as real + g.glyph.bitmap.width as real)
  {
    MeasureStep(gs, g, kern);
    if gs == [] {
      assert SumAdvanceX([g]) == AdvanceX(g) by {
        assert [g][..0] == [];
      }
    }
  }

  /** Entries of a prefix extended by one more successfully rasterised character. */
  lemma {:induction false} EntriesSnoc(faces: seq<Face>, faceIndex: nat, size: int, text: string, i: nat, gs: seq<GlyphEntry>, g: GlyphEntry)
    requires i < |text|
    requires Entries(faces, faceIndex, size, text[..i]) == Ok(gs)
    requires Raster(faces, CacheKey(faceIndex, size, text[i])) == Ok(g)
    ensures Entries(faces, faceIndex, size, text[..i + 1]) == Ok(gs + [g])
  {
    assert text[..i + 1][..i] == text[..i];
  }

  /**
   * A label update fails with the error of character i when the characters
   * before it were rasterised and, if there were any, the kerning was read.
   */
  lemma {:induction false} LayoutTextFailsAt(faces: seq<Face>, faceIndex: nat, size: int, text: string, i: nat, gs: seq<GlyphEntry>)
    requires i < |text|
    requires Entries(faces, faceIndex, size, text[..i]) == Ok(gs)
    requires i > 0 ==> faceIndex < |faces| && faces[faceIndex].Kerning(0, gs[0].glyphIndex).Some?
    requires Raster(faces, CacheKey(faceIndex, size, text[i])).Err?
    ensures LayoutText(faces, faceIndex, size, text) == Err(Raster(faces, CacheKey(faceIndex, size, text[i])).error)
  {
    EntriesRasterise(faces, faceIndex, size, text[..i]);
    forall j | 0 <= j < i ensures Raster(faces, CacheKey(faceIndex, size, text[j])).Ok? {
      assert text[..i][j] == text[j];
    }
    EntriesFirstFailure(faces, faceIndex, size, text, i);
    if i > 0 {
      assert text[..i][0] == text[0];
    }
  }

  /**
   * The walk over `text` stops at character i with `error`: the characters
   * before i rasterised to gs (and, if there were any, the kerning before
   * the first of them was read), then character i failed to rasterise or,
   * being the first character, the kerning before it could not be read.
   */
  ghost predicate StopsAt(faces: seq<Face>, faceIndex: nat, size: int, text: string, i: nat, gs: seq<GlyphEntry>, error: Fatal)
  {
    i < |text| &&
    Entries(faces, faceIndex, size, text[..i]) == Ok(gs) &&
    (i > 0 ==> faceIndex < |faces| && faces[faceIndex].Kerning(0, gs[0].glyphIndex).Some?) &&
    var raster := Raster(faces, CacheKey(faceIndex, size, text[i]));
    (raster == Err(error) ||
     (i == 0 && faceIndex < |faces| && raster.Ok? && error == KerningFailure &&
      faces[faceIndex].Kerning(0, raster.value.glyphIndex).None?))
  }

  /**
   * The walk over `text` completes: every character rasterised, to gs, and
   * the kerning before the first character, if any, was kern.
   */
  ghost predicate Completes(faces: seq<Face>, faceIndex: nat, size: int, text: string, gs: seq<GlyphEntry>, kern: int)
  {
    Entries(faces, faceIndex, size, text) == Ok(gs) &&
    (text == [] ==> kern == 0) &&
    (text != [] ==> faceIndex < |faces| && |gs| > 0 && faces[faceIndex].Kerning(0, gs[0].glyphIndex) == Some(kern))
  }

  /** A label update fails with the error of the step at which the walk stops. */
  lemma {:induction false} LayoutTextFailsWith(faces: seq<Face>, faceIndex: nat, size: int, text: string, i: nat, gs: seq<GlyphEntry>, error: Fatal)
    requires StopsAt(faces, faceIndex, size, text, i, gs, error)
    ensures LayoutText(faces, faceIndex, size, text) == Err(error)
  {
    var raster := Raster(faces, CacheKey(faceIndex, size, text[i]));
    if raster.Err? {
      LayoutTextFailsAt(faces, faceIndex, size, text, i, gs);
    } else {
      LayoutTextKerningFails(faces, faceIndex, size, text, raster.value);
    }
  }

  /** A label update fails when the kerning before the first character cannot be read. */
  lemma {:induction false} LayoutTextKerningFails(faces: seq<Face>, faceIndex: nat, size: int, text: string, g: GlyphEntry)
    requires text != [] && faceIndex < |faces|
    requires Raster(faces, CacheKey(faceIndex, size, text[0])) == Ok(g)
    requires faces[faceIndex].Kerning(0, g.glyphIndex).None?
    ensures LayoutText(faces, faceIndex, size, text) == Err(KerningFailure)
  {
  }

  /** A label update succeeds with the layout of the entries of all characters. */
  lemma {:induction false} LayoutTextSucceeds(faces: seq<Face>, faceIndex: nat, size: int, text: string, gs: seq<GlyphEntry>, kern: int)
    requires Completes(faces, faceIndex, size, text, gs, kern)
    ensures LayoutText(faces, faceIndex, size, text) == Ok(Layout(gs, kern))
  {
    EntriesRasterise(faces, faceIndex, size, text);
  }

  /** The draw of every glyph in the layout, spelled out. */
  lemma {:induction false} PlacementAt(gs: seq<GlyphEntry>, kern: int)
    ensures forall i :: 0 <= i < |gs| ==>
      Layout(gs, kern).draws[i] == GlyphDraw(gs[i].texture, PenX(gs, kern, i) + gs[i].glyph.left as real, MaxAbove(gs) - gs[i].glyph.top as real)
  {
    DrawsAt(gs, kern, |gs|);
  }

  /** Drawing one more glyph appends its placement, spelled out. */
  lemma {:induction false} DrawsSnoc(gs: seq<GlyphEntry>, kern: int, i: nat)
    requires i < |gs|
    ensures Draws(gs, kern, i + 1) ==
      Draws(gs, kern, i) + [GlyphDraw(gs[i].texture, PenX(gs, kern, i) + gs[i].glyph.left as real, MaxAbove(gs) - gs[i].glyph.top as real)]
  {
  }

  lemma {:induction false} DrawsAt(gs: seq<GlyphEntry>, kern: int, n: nat)
    requires n <= |gs|
    ensures forall i :: 0 <= i < n ==> Draws(gs, kern, n)[i] == Placement(gs, kern, i)
  {
    if n > 0 {
      DrawsAt(gs, kern, n - 1);
    }
  }
}
