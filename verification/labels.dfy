/**
 * Labels, widgets and the widget registry of the GUI (src/text.rs).
 *
 * A label owns its text, face, size, colour and the texture its text was
 * last rendered into; `Update` lays the text out in two passes over the
 * characters and renders it. The GPU is not part of this model: a
 * texture is its size plus the ordered list of glyph textures drawn into
 * it, and a vertex buffer is the list of its vertices.
 */
module Labels {
  import opened Wrappers
  import opened Glyphs
  import opened TextLayout

  newtype i32 = x: int | -0x8000_0000 <= x < 0x8000_0000

  datatype Rgba = Rgba(red: real, green: real, blue: real, alpha: real)

  datatype Vertex = Vertex(position: (real, real, real), texCoords: (real, real))

  /**
   * The triangle-strip quad covering a w-by-h texture: its corners are
   * given in the order (0,0), (0,h), (w,0), (w,h), each with the texture
   * corner it shows.
   */
  function Quad(w: real, h: real): (q: seq<Vertex>)
    ensures |q| == 4
    ensures forall i :: 0 <= i < 4 ==>
      q[i].position.2 == 0.0 &&
      q[i].position.0 == q[i].texCoords.0 * w && q[i].position.1 == q[i].texCoords.1 * h
    ensures q[0].texCoords == (0.0, 0.0) && q[1].texCoords == (0.0, 1.0)
    ensures q[2].texCoords == (1.0, 0.0) && q[3].texCoords == (1.0, 1.0)
  {
    [ Vertex((0.0, 0.0, 0.0), (0.0, 0.0)),
      Vertex((0.0, h, 0.0), (0.0, 1.0)),
      Vertex((w, 0.0, 0.0), (1.0, 0.0)),
      Vertex((w, h, 0.0), (1.0, 1.0)) ]
  }

  /** The `as u32` conversion of a whole-valued f32: saturating at both ends. */
  function ToU32(x: int): (r: nat)
    ensures r < 0x1_0000_0000
    ensures 0 <= x < 0x1_0000_0000 ==> r == x
    ensures x < 0 ==> r == 0
    ensures x >= 0x1_0000_0000 ==> r == 0xFFFF_FFFF
  {
    if x < 0 then 0 else if x >= 0x1_0000_0000 then 0xFFFF_FFFF else x
  }

  /** A label's render target: its size and the glyphs drawn into it, in drawing order. */
  datatype LabelTexture = LabelTexture(width: nat, height: nat, draws: seq<GlyphDraw>)

  /** The texture a successful layout renders: bounding size, then every glyph in order. */
  function Rendered(box: LayoutBox): LabelTexture
  {
    LabelTexture(ToU32(box.width), ToU32(box.height), box.draws)
  }

  class Label {
    const renderer: TextRenderer
    var text: string
    var faceIndex: nat
    var size: int
    var texture: LabelTexture
    var color: Rgba
    var quad: seq<Vertex>

    /** A fresh label as the GUI creates it: a 16x16 placeholder showing nothing yet. */
    constructor (renderer: TextRenderer, faceIndex: nat)
      ensures this.renderer == renderer && this.faceIndex == faceIndex
      ensures text == "label" && size == 16 && color == Rgba(1.0, 1.0, 1.0, 1.0)
      ensures texture == LabelTexture(16, 16, []) && quad == Quad(16.0, 16.0)
    {
      this.renderer := renderer;
      this.faceIndex := faceIndex;
      text := "label";
      size := 16;
      texture := LabelTexture(16, 16, []);
      color := Rgba(1.0, 1.0, 1.0, 1.0);
      quad := Quad(16.0, 16.0);
    }

    /** Replaces the text; nothing is re-rendered until the next Update. */
    method SetText(text: string)
      modifies this`text
      ensures this.text == text
    {
      this.text := text;
    }

    method SetColor(red: real, green: real, blue: real, alpha: real)
      modifies this`color
      ensures color == Rgba(red, green, blue, alpha)
    {
      color := Rgba(red, green, blue, alpha);
    }

    /**
     * Lays the text out and renders it. The first pass walks the
     * characters to find the bounding box; the texture and the quad are
     * then resized to it; the second pass walks the characters again with
     * the same pen progression and draws every glyph at its place. A
     * failure to rasterise a glyph or to read the kerning is fatal and
     * happens during the first pass, before the label is touched; the
     * glyphs cached up to that point stay cached.
     */
    method Update() returns (r: Result<(), Fatal>)
      requires renderer.Valid()
      modifies this`texture, this`quad, renderer`cache
      ensures renderer.Valid()
      ensures Grows(old(renderer.cache), renderer.cache)
      ensures match LayoutText(renderer.faces, faceIndex, size, text)
        case Ok(box) => r == Ok(()) && texture == Rendered(box) && quad == Quad(box.width as real, box.height as real)
        case Err(e) => r == Err(e) && texture == old(texture) && quad == old(quad)
    {
      var boundingWidth, boundingHeight, aboveSize;
      ghost var gs, kern, stop;
      r, boundingWidth, boundingHeight, aboveSize, gs, kern, stop := Measure();
      if r.Err? {
        LayoutTextFailsWith(renderer.faces, faceIndex, size, text, stop, gs, r.error);
        return;
      }
      LayoutTextSucceeds(renderer.faces, faceIndex, size, text, gs, kern);
      r := Ok(());
      EntriesRasterise(renderer.faces, faceIndex, size, text);
      texture := LabelTexture(ToU32(boundingWidth), ToU32(boundingHeight), []);
      quad := Quad(boundingWidth as real, boundingHeight as real);
      Render(aboveSize, gs, kern);
    }

    /**
     * Layout is deterministic: updating twice with nothing changed in
     * between gives the same outcome both times, and a successful second
     * update leaves the same texture and quad as the first.
     */
    method UpdateTwice() returns (first: Result<(), Fatal>, second: Result<(), Fatal>)
      requires renderer.Valid()
      modifies this`texture, this`quad, renderer`cache
      ensures renderer.Valid()
      ensures first == second
      ensures match LayoutText(renderer.faces, faceIndex, size, text)
        case Ok(box) => texture == Rendered(box) && quad == Quad(box.width as real, box.height as real)
        case Err(e) => first == Err(e) && texture == old(texture) && quad == old(quad)
    {
      first := Update();
      second := Update();
    }

    /**
     * The first pass of Update: walks the characters with the pen, keeping
     * the running extents above and below the baseline and the right edge
     * of the latest glyph.
     */
    method Measure() returns (r: Result<(), Fatal>, boundingWidth: int, boundingHeight: int, aboveSize: real,
                              ghost gs: seq<GlyphEntry>, ghost kern: int, ghost stop: nat)
      requires renderer.Valid()
      modifies renderer`cache
      ensures renderer.Valid()
      ensures Grows(old(renderer.cache), renderer.cache)
      ensures r.Err? ==> StopsAt(renderer.faces, faceIndex, size, text, stop, gs, r.error)
      ensures r.Ok? ==>
        Completes(renderer.faces, faceIndex, size, text, gs, kern) &&
        boundingWidth == BoundingWidth(gs, kern) && boundingHeight == Ceil(MaxAbove(gs) + MaxBelow(gs)) && aboveSize == MaxAbove(gs)
    {
      var penX: real := 0.0;
      var penY: real := 0.0;
      var previousGlyphIndex: nat := 0;
      var first := true;
      aboveSize := 0.0;
      var belowSize: real := 0.0;
      boundingWidth := 0;
      boundingHeight := 0;
      gs := [];
      kern := 0;
      stop := 0;
      var i := 0;
      while i < |text|
        invariant 0 <= i <= |text|
        invariant renderer.Valid() && Grows(old(renderer.cache), renderer.cache)
        invariant Entries(renderer.faces, faceIndex, size, text[..i]) == Ok(gs)
        invariant first <==> i == 0
        invariant i > 0 ==> faceIndex < |renderer.faces| && renderer.faces[faceIndex].Kerning(0, gs[0].glyphIndex) == Some(kern)
        invariant i == 0 ==> kern == 0 && previousGlyphIndex == 0
        invariant Walked(gs, kern, penX, penY, aboveSize, belowSize)
        invariant boundingWidth == BoundingWidth(gs, kern)
      {
        ghost var before := renderer.cache;
        var entry;
        entry, previousGlyphIndex, penX, penY, aboveSize, belowSize, boundingWidth, kern :=
          MeasureGlyph(i, first, previousGlyphIndex, penX, penY, aboveSize, belowSize, gs, kern);
        GrowsTrans(old(renderer.cache), before, renderer.cache);
        if entry.Err? {
          stop := i;
          r := Err(entry.error);
          return;
        }
        EntriesSnoc(renderer.faces, faceIndex, size, text, i, gs, entry.value.Data());
        first := false;
        gs := gs + [entry.value.Data()];
        i := i + 1;
      }
      boundingHeight := Ceil(aboveSize + belowSize);
      assert text[..i] == text;
      r := Ok(());
    }

    /**
     * One character of the first pass: looks its glyph up, shifts the pen
     * by the kerning before the first glyph, takes the glyph's extents into
     * the running maxima and its right edge as the bounding width, and
     * advances the pen. It fails when the lookup fails or, for the first
     * glyph, when the kerning cannot be read.
     */
    method MeasureGlyph(i: nat, first: bool, previousGlyphIndex: nat, penX: real, penY: real, aboveSize: real, belowSize: real,
                        ghost gs: seq<GlyphEntry>, ghost kern: int)
      returns (entry: Result<CacheValue, Fatal>, glyphIndex: nat, nextPenX: real, nextPenY: real,
               nextAboveSize: real, nextBelowSize: real, right: int, ghost nextKern: int)
      requires renderer.Valid() && i < |text|
      requires first <==> gs == []
      requires first ==> previousGlyphIndex == 0
      requires Walked(gs, kern, penX, penY, aboveSize, belowSize)
      modifies renderer`cache
      ensures renderer.Valid() && Grows(old(renderer.cache), renderer.cache)
      ensures
        var key := CacheKey(faceIndex, size, text[i]);
        entry.Err? ==>
          Raster(renderer.faces, key) == Err(entry.error) ||
          (first && faceIndex < |renderer.faces| && Raster(renderer.faces, key).Ok? && entry.error == KerningFailure &&
           renderer.faces[faceIndex].Kerning(0, Raster(renderer.faces, key).value.glyphIndex).None?)
      ensures
        var key := CacheKey(faceIndex, size, text[i]);
        entry.Ok? ==>
          Raster(renderer.faces, key) == Ok(entry.value.Data()) &&
          glyphIndex == entry.value.glyphIndex &&
          (first ==> faceIndex < |renderer.faces| && renderer.faces[faceIndex].Kerning(0, entry.value.glyphIndex) == Some(nextKern)) &&
          (!first ==> nextKern == kern) &&
          Walked(gs + [entry.value.Data()], nextKern, nextPenX, nextPenY, nextAboveSize, nextBelowSize) &&
          right == BoundingWidth(gs + [entry.value.Data()], nextKern)
    {
      glyphIndex, nextPenX, nextPenY, nextAboveSize, nextBelowSize, right, nextKern :=
        previousGlyphIndex, penX, penY, aboveSize, belowSize, 0, kern;
      entry := Lookup(i);
      if entry.Err? {
        return;
      }
      var value := entry.value;
      var penX' := penX;
      if first {
        var kerning := renderer.faces[faceIndex].Kerning(previousGlyphIndex, value.glyphIndex);
        if kerning.None? {
          entry := Err(KerningFailure);
          return;
        }
        nextKern := kerning.value;
        penX' := penX' + kerning.value as real / 64.0;
      }
      var glyph := value.glyph;
      WalkStep(gs, value.Data(), nextKern, penX, penY, aboveSize, belowSize, penX');
      right := Ceil(penX' + glyph.left as real + glyph.bitmap.width as real);
      var thisAboveSize := penY + glyph.top as real;
      var thisBelowSize := glyph.bitmap.rows as real - thisAboveSize;
      nextAboveSize := if thisAboveSize > aboveSize then thisAboveSize else aboveSize;
      nextBelowSize := if thisBelowSize > belowSize then thisBelowSize else belowSize;
      glyphIndex := value.glyphIndex;
      nextPenX := penX' + glyph.advanceX as real / 65536.0;
      nextPenY := penY + glyph.advanceY as real / 65536.0;
    }

    /** The cache entry of character i of the text, as both passes look it up. */
    method Lookup(i: nat) returns (entry: Result<CacheValue, Fatal>)
      requires renderer.Valid() && i < |text|
      modifies renderer`cache
      ensures renderer.Valid() && Grows(old(renderer.cache), renderer.cache)
      ensures entry.Ok? ==> Raster(renderer.faces, CacheKey(faceIndex, size, text[i])) == Ok(entry.value.Data())
      ensures entry.Err? ==> Raster(renderer.faces, CacheKey(faceIndex, size, text[i])) == Err(entry.error)
    {
      var key := CacheKey(faceIndex, size, text[i]);
      entry := renderer.GetCacheEntry(key);
    }

    /**
     * The second pass of Update: walks the characters again with the same
     * pen progression and draws every glyph into the label's (cleared)
     * texture, hanging it from the baseline found by the first pass.
     */
    method Render(aboveSize: real, ghost gs: seq<GlyphEntry>, ghost kern: int)
      requires renderer.Valid() && |gs| == |text|
      requires forall i :: 0 <= i < |text| ==> Raster(renderer.faces, CacheKey(faceIndex, size, text[i])) == Ok(gs[i])
      requires text != [] ==> faceIndex < |renderer.faces| && renderer.faces[faceIndex].Kerning(0, gs[0].glyphIndex) == Some(kern)
      requires aboveSize == MaxAbove(gs)
      requires texture.draws == []
      modifies this`texture, renderer`cache
      ensures renderer.Valid()
      ensures Grows(old(renderer.cache), renderer.cache)
      ensures texture == old(texture).(draws := Layout(gs, kern).draws)
    {
      var penX: real := 0.0;
      var previousGlyphIndex: nat := 0;
      var first := true;
      var i := 0;
      while i < |text|
        invariant 0 <= i <= |text|
        invariant renderer.Valid() && Grows(old(renderer.cache), renderer.cache)
        invariant first <==> i == 0
        invariant i == 0 ==> previousGlyphIndex == 0
        invariant penX == if i == 0 then 0.0 else PenX(gs, kern, i)
        invariant texture == old(texture).(draws := Draws(gs, kern, i))
      {
        ghost var before := renderer.cache;
        previousGlyphIndex, penX := DrawGlyph(i, first, previousGlyphIndex, penX, aboveSize, gs, kern);
        GrowsTrans(old(renderer.cache), before, renderer.cache);
        first := false;
        i := i + 1;
      }
    }

    /**
     * One character of the second pass: looks its glyph up (the first pass
     * cached it), shifts the pen by the kerning before the first glyph,
     * draws the glyph at the pen and advances the pen. The pass also
     * advances a vertical pen that it never reads; that is not modelled.
     */
    method DrawGlyph(i: nat, first: bool, previousGlyphIndex: nat, penX: real, aboveSize: real,
                     ghost gs: seq<GlyphEntry>, ghost kern: int)
      returns (glyphIndex: nat, nextPenX: real)
      requires renderer.Valid() && i < |text| && i < |gs|
      requires Raster(renderer.faces, CacheKey(faceIndex, size, text[i])) == Ok(gs[i])
      requires first ==> faceIndex < |renderer.faces| && renderer.faces[faceIndex].Kerning(0, gs[0].glyphIndex) == Some(kern)
      requires first <==> i == 0
      requires i == 0 ==> previousGlyphIndex == 0
      requires penX == if i == 0 then 0.0 else PenX(gs, kern, i)
      requires aboveSize == MaxAbove(gs)
      requires texture.draws == Draws(gs, kern, i)
      modifies this`texture, renderer`cache
      ensures renderer.Valid() && Grows(old(renderer.cache), renderer.cache)
      ensures texture == old(texture).(draws := Draws(gs, kern, i + 1))
      ensures glyphIndex == gs[i].glyphIndex && nextPenX == PenX(gs, kern, i + 1)
    {
      var entry := Lookup(i);
      var value := entry.value;
      assert value.Data() == gs[i];
      PenStep(gs, kern, i);
      var penX := penX;
      if first {
        var kerning := renderer.faces[faceIndex].Kerning(previousGlyphIndex, value.glyphIndex);
        penX := penX + kerning.value as real / 64.0;
      }
      assert penX == PenX(gs, kern, i);
      var glyph := value.glyph;
      var left := penX + glyph.left as real;
      var top := aboveSize - glyph.top as real;
      var draw := GlyphDraw(value.texture, left, top);
      assert draw == GlyphDraw(gs[i].texture, PenX(gs, kern, i) + gs[i].glyph.left as real, MaxAbove(gs) - gs[i].glyph.top as real);
      DrawsSnoc(gs, kern, i);
      texture := texture.(draws := texture.draws + [draw]);
      glyphIndex := value.glyphIndex;
      nextPenX := penX + glyph.advanceX as real / 65536.0;
    }
  }

  /** A positionable, scalable, rotatable container around one drawable item. */
  class Widget<T> {
    const id: nat
    const item: T
    var pos: (i32, i32)
    var scale: (real, real)
    var rotation: real
    var visible: bool

    constructor (item: T, id: nat)
      ensures this.item == item && this.id == id
      ensures pos == (0, 0) && scale == (1.0, 1.0) && rotation == 0.0 && visible
    {
      this.id := id;
      this.item := item;
      pos := (0, 0);
      scale := (1.0, 1.0);
      rotation := 0.0;
      visible := true;
    }

    method SetPos(x: i32, y: i32)
      modifies this`pos
      ensures pos == (x, y)
    {
      pos := (x, y);
    }

    method SetScale(x: real, y: real)
      modifies this`scale
      ensures scale == (x, y)
    {
      scale := (x, y);
    }
  }

  /**
   * The GUI: the shared text renderer, the window size and the registry
   * of widgets by id. Ids are handed out by a counter, so every registered
   * id is below the counter and names the widget it was given to.
   */
  class Gui {
    const renderer: TextRenderer
    var width: int
    var height: int
    var widgets: map<nat, Widget<Label>>
    var nextId: nat

    ghost predicate Valid()
      reads this, renderer
    {
      renderer.Valid() &&
      forall id | id in widgets :: id < nextId && widgets[id].id == id && widgets[id].item.renderer == renderer
    }

    /** A GUI sized to the framebuffer, with no face, no glyph and no widget. */
    constructor (framebufferWidth: int, framebufferHeight: int)
      ensures Valid() && fresh(renderer)
      ensures renderer.faces == [] && renderer.cache == map[]
      ensures widgets == map[] && nextId == 0
      ensures width == framebufferWidth && height == framebufferHeight
    {
      renderer := new TextRenderer();
      width := 0;
      height := 0;
      widgets := map[];
      nextId := 0;
      new;
      Resize(framebufferWidth, framebufferHeight);
    }

    /** Takes the new framebuffer size (the projection matrix is not modelled). */
    method Resize(framebufferWidth: int, framebufferHeight: int)
      modifies this`width, this`height
      ensures width == framebufferWidth && height == framebufferHeight
    {
      width := framebufferWidth;
      height := framebufferHeight;
    }

    method LoadFace(loaded: Result<Face, FaceError>) returns (r: Result<nat, FaceError>)
      requires Valid()
      modifies renderer`faces
      ensures Valid()
      ensures loaded.Ok? ==> r == Ok(|old(renderer.faces)|) && renderer.faces == old(renderer.faces) + [loaded.value]
      ensures loaded.Err? ==> r == Err(loaded.error) && renderer.faces == old(renderer.faces)
    {
      r := renderer.LoadFace(loaded);
    }

    /** Hands out the current counter value and moves the counter on by one. */
    method MakeId() returns (id: nat)
      modifies this`nextId
      ensures id == old(nextId) && nextId == old(nextId) + 1
    {
      id := nextId;
      nextId := id + 1;
    }

    /**
     * Creates a label widget with a fresh id and registers it; the id was
     * not registered before and every other registration is kept.
     */
    method CreateLabel(faceIndex: nat) returns (widget: Widget<Label>)
      requires Valid()
      modifies this`nextId, this`widgets
      ensures Valid()
      ensures fresh(widget) && fresh(widget.item)
      ensures widget.id == old(nextId) && nextId == old(nextId) + 1
      ensures widget.id !in old(widgets) && widgets == old(widgets)[widget.id := widget]
      ensures widget.pos == (0, 0) && widget.scale == (1.0, 1.0) && widget.rotation == 0.0 && widget.visible
      ensures widget.item.renderer == renderer && widget.item.faceIndex == faceIndex
      ensures widget.item.text == "label" && widget.item.size == 16 && widget.item.color == Rgba(1.0, 1.0, 1.0, 1.0)
      ensures widget.item.texture == LabelTexture(16, 16, []) && widget.item.quad == Quad(16.0, 16.0)
    {
      var item := new Label(renderer, faceIndex);
      var id := MakeId();
      widget := new Widget(item, id);
      widgets := widgets[id := widget];
    }
  }
}
