/**
 * The glyph cache and the face registry of the text renderer (src/text.rs).
 *
 * FreeType is not part of this model: a loaded face is represented by the
 * answers of the three operations the renderer calls on it
 * (character-to-glyph-index lookup, rasterisation at a size, and kerning
 * between two glyph indices), and a texture upload by the pixels and
 * dimensions handed to the GPU.
 */
module Glyphs {
  import opened Wrappers

  /** FreeType's pixel modes (FT_Pixel_Mode). */
  datatype PixelMode = PixelNone | Mono | Gray | Gray2 | Gray4 | Lcd | LcdV | Bgra

  /**
   * A rasterised FreeType bitmap. `pitch` is the signed distance in bytes
   * between two rows: positive when rows are stored top-down, negative when
   * they are stored bottom-up.
   */
  datatype Bitmap = Bitmap(width: nat, rows: nat, pitch: int, mode: PixelMode, buffer: seq<bv8>)

  /** The reasons for which a call into the text engine panics. */
  datatype Fatal =
    | FaceIndexOutOfRange          // indexing the face list with a bad face index
    | FreeTypeFailure              // set_char_size, load_glyph, get_glyph or to_bitmap failed
    | KerningFailure               // get_kerning failed
    | PitchNotWidth                // "unsupported pitch != width"
    | FlowUpUnsupported            // "flow up unsupported": negative pitch
    | BgraPixelMode                // "Bgra pixel mode"
    | UnexpectedPixelMode(mode: PixelMode)

  /** The error FreeType reports when a face cannot be opened. */
  datatype FaceError = FaceError(code: int)

  /** A single-channel (8 bits per texel) texture as uploaded to the GPU. */
  datatype Texture = Texture(width: nat, height: nat, pixels: seq<bv8>)

  /** The texture dimensions a bitmap announces: its width and its row count. */
  function GetDimensions(b: Bitmap): (nat, nat)
  {
    (b.width, b.rows)
  }

  /**
   * The texel buffer a bitmap hands to the GPU. Only grayscale bitmaps
   * stored top-down without row padding are accepted; every other shape is
   * a panic, each with its own reason.
   */
  function IntoVec(b: Bitmap): (r: Result<seq<bv8>, Fatal>)
    ensures r.Ok? <==> b.mode == Gray && b.pitch >= 0 && b.pitch == b.width
    ensures r.Ok? ==> r.value == b.buffer
    ensures b.mode == Gray && b.pitch < 0 ==> r == Err(FlowUpUnsupported)
    ensures b.mode == Gray && b.pitch >= 0 && b.pitch != b.width ==> r == Err(PitchNotWidth)
    ensures b.mode == Bgra ==> r == Err(BgraPixelMode)
    ensures b.mode != Gray && b.mode != Bgra ==> r == Err(UnexpectedPixelMode(b.mode))
  {
    var flowDown := b.pitch >= 0;
    var pitch := if b.pitch < 0 then -b.pitch else b.pitch;
    match b.mode
    case Gray =>
      if flowDown then
        if pitch == b.width then Ok(b.buffer) else Err(PitchNotWidth)
      else
        Err(FlowUpUnsupported)
    case Bgra => Err(BgraPixelMode)
    case _ => Err(UnexpectedPixelMode(b.mode))
  }

  /**
   * Creating a texture from a bitmap: the dimensions come from
   * GetDimensions and the texels from IntoVec.
   */
  function TextureOf(b: Bitmap): (r: Result<Texture, Fatal>)
    ensures r.Ok? <==> b.mode == Gray && b.pitch == b.width
    ensures r.Ok? ==> r.value.width == b.width && r.value.height == b.rows && r.value.pixels == b.buffer
    ensures r.Err? ==> r == Err(IntoVec(b).error)
    // a well-formed top-down buffer of `pitch * rows` bytes yields exactly one byte per texel
    ensures r.Ok? && |b.buffer| == b.pitch * b.rows ==> |r.value.pixels| == r.value.width * r.value.height
  {
    var (w, h) := GetDimensions(b);
    match IntoVec(b)
    case Ok(pixels) => Ok(Texture(w, h, pixels))
    case Err(e) => Err(e)
  }

  /**
   * A glyph as the renderer reads it back from FreeType: the advance of the
   * FT_Glyph in 16.16 fixed point, and the bitmap glyph's offsets from the
   * pen position together with its bitmap.
   */
  datatype Glyph = Glyph(advanceX: int, advanceY: int, left: int, top: int, bitmap: Bitmap)

  /**
   * A loaded font face, as the answers of the three FreeType operations the
   * renderer uses, tabulated: `glyphIndices` maps characters to glyph
   * indices (a character the face does not map gets glyph index 0, as
   * FT_Get_Char_Index answers); `glyphs` holds, for a character size in
   * 26.6 fixed point and a glyph index, the glyph that setting the size and
   * loading, rendering and converting the glyph produces (no entry: one of
   * these steps fails); `kernings` holds the horizontal kerning (26.6 fixed
   * point) between two glyph indices (no entry: get_kerning fails).
   */
  datatype Face = Face(
    glyphIndices: map<char, nat>,
    glyphs: map<(int, nat), Glyph>,
    kernings: map<(nat, nat), int>)
  {
    function CharIndex(ch: char): nat
    {
      if ch in glyphIndices then glyphIndices[ch] else 0
    }

    function Render(charSize: int, glyphIndex: nat): Option<Glyph>
    {
      if (charSize, glyphIndex) in glyphs then Some(glyphs[(charSize, glyphIndex)]) else None
    }

    function Kerning(left: nat, right: nat): Option<int>
    {
      if (left, right) in kernings then Some(kernings[(left, right)]) else None
    }
  }

  /** The key of the glyph cache: structural equality over all three fields. */
  datatype CacheKey = CacheKey(faceIndex: nat, size: int, ch: char)

  /** The contents of a cache entry, as a value. */
  datatype GlyphEntry = GlyphEntry(texture: Texture, glyph: Glyph, glyphIndex: nat)

  /**
   * What a cache miss computes for `key`: the face is looked up by index,
   * the glyph is rendered at `size * 64` (26.6 fixed point) and its bitmap
   * is turned into a texture.
   */
  function Raster(faces: seq<Face>, key: CacheKey): (r: Result<GlyphEntry, Fatal>)
    ensures key.faceIndex >= |faces| ==> r == Err(FaceIndexOutOfRange)
    ensures r.Ok? ==> key.faceIndex < |faces|
    ensures r.Ok? ==>
      var b := r.value.glyph.bitmap;
      b.mode == Gray && b.pitch == b.width && r.value.texture == Texture(b.width, b.rows, b.buffer)
  {
    if key.faceIndex >= |faces| then Err(FaceIndexOutOfRange)
    else
      var face := faces[key.faceIndex];
      var glyphIndex := face.CharIndex(key.ch);
      match face.Render(key.size * 64, glyphIndex)
      case None => Err(FreeTypeFailure)
      case Some(glyph) =>
        match TextureOf(glyph.bitmap)
        case Err(e) => Err(e)
        case Ok(texture) => Ok(GlyphEntry(texture, glyph, glyphIndex))
  }

  /** Appending faces does not change what any valid key rasterises to. */
  lemma {:induction false} RasterStable(faces: seq<Face>, more: seq<Face>, key: CacheKey)
    requires key.faceIndex < |faces|
    ensures Raster(faces + more, key) == Raster(faces, key)
  {
    assert (faces + more)[key.faceIndex] == faces[key.faceIndex];
  }

  /** Every entry of `before` is still in `after`, unchanged: the cache only grows. */
  ghost predicate Grows(before: map<CacheKey, CacheValue>, after: map<CacheKey, CacheValue>)
  {
    forall k | k in before :: k in after && after[k] == before[k]
  }

  lemma GrowsTrans(a: map<CacheKey, CacheValue>, b: map<CacheKey, CacheValue>, c: map<CacheKey, CacheValue>)
    requires Grows(a, b) && Grows(b, c)
    ensures Grows(a, c)
  {
  }

  /**
   * A shared cache value. Identity matters: every lookup of the same key
   * hands out the same object, so a glyph is uploaded once.
   */
  class CacheValue {
    const texture: Texture
    const glyph: Glyph
    const glyphIndex: nat

    constructor (texture: Texture, glyph: Glyph, glyphIndex: nat)
      ensures Data() == GlyphEntry(texture, glyph, glyphIndex)
    {
      this.texture := texture;
      this.glyph := glyph;
      this.glyphIndex := glyphIndex;
    }

    function Data(): GlyphEntry
    {
      GlyphEntry(texture, glyph, glyphIndex)
    }
  }

  /**
   * The face registry and the glyph cache of the text renderer. The cache
   * is never evicted; every entry holds exactly what a miss on its key
   * would compute from the current face list.
   */
  class TextRenderer {
    var faces: seq<Face>
    var cache: map<CacheKey, CacheValue>

    ghost predicate Valid()
      reads this
    {
      forall k | k in cache :: Raster(faces, k) == Ok(cache[k].Data())
    }

    constructor ()
      ensures Valid()
      ensures faces == [] && cache == map[]
    {
      faces := [];
      cache := map[];
    }

    /**
     * Registers a face that FreeType opened (or reports the error it gave);
     * the new face's handle is its position in the face list.
     */
    method LoadFace(loaded: Result<Face, FaceError>) returns (r: Result<nat, FaceError>)
      requires Valid()
      modifies this`faces
      ensures Valid()
      ensures loaded.Ok? ==> r == Ok(|old(faces)|) && faces == old(faces) + [loaded.value]
      ensures loaded.Err? ==> r == Err(loaded.error) && faces == old(faces)
    {
      match loaded {
        case Ok(face) =>
          var index := |faces|;
          forall k | k in cache
            ensures Raster(faces + [face], k) == Raster(faces, k)
          {
            RasterStable(faces, [face], k);
          }
          faces := faces + [face];
          r := Ok(index);
        case Err(err) =>
          r := Err(err);
      }
    }

    /**
     * Returns the cached entry for `key`; on a miss, rasterises the glyph,
     * uploads its texture and inserts one new entry under `key`.
     */
    method GetCacheEntry(key: CacheKey) returns (r: Result<CacheValue, Fatal>)
      requires Valid()
      modifies this`cache
      ensures Valid() && Grows(old(cache), cache)
      ensures r.Ok? <==> Raster(faces, key).Ok?
      ensures r.Ok? ==> r.value.Data() == Raster(faces, key).value
      ensures r.Err? ==> r.error == Raster(faces, key).error
      ensures key in old(cache) ==> r == Ok(old(cache)[key]) && cache == old(cache)
      ensures key !in old(cache) && Raster(faces, key).Err? ==>
                r == Err(Raster(faces, key).error) && cache == old(cache)
      ensures key !in old(cache) && Raster(faces, key).Ok? ==>
                r.Ok? && fresh(r.value) && r.value.Data() == Raster(faces, key).value &&
                cache == old(cache)[key := r.value]
    {
      if key in cache {
        r := Ok(cache[key]);
        return;
      }
      if key.faceIndex >= |faces| {
        r := Err(FaceIndexOutOfRange);
        return;
      }
      var face := faces[key.faceIndex];
      var glyphIndex := face.CharIndex(key.ch);
      var rendered := face.Render(key.size * 64, glyphIndex);
      if rendered.None? {
        r := Err(FreeTypeFailure);
        return;
      }
      var glyph := rendered.value;
      var texture := TextureOf(glyph.bitmap);
      if texture.Err? {
        r := Err(texture.error);
        return;
      }
      var value := new CacheValue(texture.value, glyph, glyphIndex);
      cache := cache[key := value];
      r := Ok(value);
    }
  }

  /**
   * Two lookups of the same key, with nothing in between, hand out the very
   * same cache value: the glyph is rasterised and uploaded at most once.
   */
  method LookupTwice(renderer: TextRenderer, key: CacheKey)
    returns (first: Result<CacheValue, Fatal>, second: Result<CacheValue, Fatal>)
    requires renderer.Valid()
    modifies renderer
    ensures renderer.Valid()
    ensures first.Ok? ==> second == first && key in renderer.cache && renderer.cache[key] == first.value
    ensures first.Err? ==> second == first && renderer.cache == old(renderer.cache)
  {
    first := renderer.GetCacheEntry(key);
    second := renderer.GetCacheEntry(key);
  }
}
