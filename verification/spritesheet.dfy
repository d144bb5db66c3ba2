/**
 * A sprite sheet: one texture atlas holding many named images, each drawn
 * as a four-vertex triangle strip (src/spritesheet.cpp).
 *
 * Reading the resource bundle, decoding the PNG and every OpenGL call are
 * outside the model. The sheet is built from the image records the bundle
 * lists and the pixel size of the atlas; each image's record keeps, in
 * place of the vertex-array and buffer handles, the vertex and
 * texture-coordinate data uploaded into those buffers.
 */
module Sprites {
  import opened Wrappers

  /** An image record of the bundle: where it sits in the atlas and whether it is stored rotated. */
  datatype Image = Image(key: string, x: int, y: int, width: int, height: int,
                         anchorX: real, anchorY: real, r90: int)

  datatype Vertex = Vertex(x: real, y: real, z: real)

  datatype TexCoord = TexCoord(u: real, v: real)

  /** What the sheet remembers about one image. */
  datatype ImageInfo = ImageInfo(x: int, y: int, width: int, height: int,
                                 anchorX: real, anchorY: real, r90: bool,
                                 vertexes: seq<Vertex>, texCoords: seq<TexCoord>)

  /** The image is drawn rotated when its flag is non-zero. */
  predicate Rotated(image: Image) {
    image.r90 != 0
  }

  /**
   * The triangle strip of an image, in the image's own pixel units. Both
   * orders visit the four corners of the width-by-height box, all in the
   * plane z = 0; the rotated order swaps the first and last corners.
   */
  function QuadVertexes(image: Image): (r: seq<Vertex>)
    ensures |r| == 4
    ensures forall i | 0 <= i < 4 ::
      r[i].z == 0.0 &&
      (r[i].x == 0.0 || r[i].x == image.width as real) &&
      (r[i].y == 0.0 || r[i].y == image.height as real)
    ensures r[1] == Vertex(0.0, image.height as real, 0.0)
    ensures r[2] == Vertex(image.width as real, 0.0, 0.0)
    ensures Rotated(image) ==>
      r[0] == Vertex(image.width as real, image.height as real, 0.0) && r[3] == Vertex(0.0, 0.0, 0.0)
    ensures !Rotated(image) ==>
      r[0] == Vertex(0.0, 0.0, 0.0) && r[3] == Vertex(image.width as real, image.height as real, 0.0)
  {
    var w := image.width as real;
    var h := image.height as real;
    if Rotated(image) then
      [Vertex(w, h, 0.0), Vertex(0.0, h, 0.0), Vertex(w, 0.0, 0.0), Vertex(0.0, 0.0, 0.0)]
    else
      [Vertex(0.0, 0.0, 0.0), Vertex(0.0, h, 0.0), Vertex(w, 0.0, 0.0), Vertex(w, h, 0.0)]
  }

  /**
   * The atlas region of an image as normalised texture coordinates, for an
   * atlas of `fullWidth` by `fullHeight` pixels. The order does not depend
   * on the rotation flag.
   */
  function TexCoords(image: Image, fullWidth: real, fullHeight: real): (r: seq<TexCoord>)
    requires fullWidth > 0.0 && fullHeight > 0.0
    ensures |r| == 4
  {
    var left := image.x as real / fullWidth;
    var right := (image.x + image.width) as real / fullWidth;
    var top := image.y as real / fullHeight;
    var bottom := (image.y + image.height) as real / fullHeight;
    [TexCoord(left, bottom), TexCoord(left, top), TexCoord(right, bottom), TexCoord(right, top)]
  }

  /** The texture coordinates are the same whatever the rotation flag. */
  lemma {:induction false} TexCoordsIgnoreRotation(image: Image, fullWidth: real, fullHeight: real, flag: int)
    requires fullWidth > 0.0 && fullHeight > 0.0
    ensures TexCoords(image.(r90 := flag), fullWidth, fullHeight) == TexCoords(image, fullWidth, fullHeight)
  {
  }

  function InfoOf(image: Image, fullWidth: real, fullHeight: real): (r: ImageInfo)
    requires fullWidth > 0.0 && fullHeight > 0.0
    ensures r.x == image.x && r.y == image.y && r.width == image.width && r.height == image.height
    ensures r.anchorX == image.anchorX && r.anchorY == image.anchorY
    ensures r.r90 <==> image.r90 == 1
    ensures r.vertexes == QuadVertexes(image) && r.texCoords == TexCoords(image, fullWidth, fullHeight)
  {
    ImageInfo(image.x, image.y, image.width, image.height, image.anchorX, image.anchorY,
              image.r90 == 1, QuadVertexes(image), TexCoords(image, fullWidth, fullHeight))
  }

  /** The keys of a list of images. */
  ghost function KeysOf(images: seq<Image>): set<string> {
    set i | 0 <= i < |images| :: images[i].key
  }

  /**
   * The dictionary after putting every image's record under its key, in
   * order: a later image with the same key replaces an earlier one.
   */
  function InfoDict(images: seq<Image>, fullWidth: real, fullHeight: real): (r: map<string, ImageInfo>)
    requires fullWidth > 0.0 && fullHeight > 0.0
    ensures r.Keys == KeysOf(images)
  {
    if images == [] then map[]
    else
      var init := images[..|images| - 1];
      var last := images[|images| - 1];
      var r := InfoDict(init, fullWidth, fullHeight)[last.key := InfoOf(last, fullWidth, fullHeight)];
      assert KeysOf(images) == KeysOf(init) + {last.key} by {
        forall k | k in KeysOf(images) ensures k in KeysOf(init) + {last.key} {
          var i :| 0 <= i < |images| && images[i].key == k;
          if i < |images| - 1 {
            assert init[i] == images[i];
          }
        }
        forall k | k in KeysOf(init) ensures k in KeysOf(images) {
          var i :| 0 <= i < |init| && init[i].key == k;
          assert images[i] == init[i];
        }
      }
      r
  }

  /**
   * An image's key maps to the record of the LAST image listed with that key.
   */
  lemma {:induction false} LastImageWins(images: seq<Image>, fullWidth: real, fullHeight: real, i: int)
    requires fullWidth > 0.0 && fullHeight > 0.0
    requires 0 <= i < |images|
    requires forall j | i < j < |images| :: images[j].key != images[i].key
    ensures images[i].key in InfoDict(images, fullWidth, fullHeight)
    ensures InfoDict(images, fullWidth, fullHeight)[images[i].key] == InfoOf(images[i], fullWidth, fullHeight)
  {
    if i < |images| - 1 {
      var init := images[..|images| - 1];
      assert init[i] == images[i];
      forall j | i < j < |init| ensures init[j].key != init[i].key {
        assert init[j] == images[j];
      }
      LastImageWins(init, fullWidth, fullHeight, i);
    }
  }

  /** Every texture coordinate lies in the unit square when the image lies inside the atlas. */
  lemma {:induction false} TexCoordsInsideAtlas(image: Image, fullWidth: nat, fullHeight: nat)
    requires fullWidth > 0 && fullHeight > 0
    requires 0 <= image.x && 0 <= image.width && image.x + image.width <= fullWidth
    requires 0 <= image.y && 0 <= image.height && image.y + image.height <= fullHeight
    ensures forall c | c in TexCoords(image, fullWidth as real, fullHeight as real) ::
      0.0 <= c.u <= 1.0 && 0.0 <= c.v <= 1.0
  {
    var w := fullWidth as real;
    var h := fullHeight as real;
    UnitFraction(image.x as real, w);
    UnitFraction((image.x + image.width) as real, w);
    UnitFraction(image.y as real, h);
    UnitFraction((image.y + image.height) as real, h);
  }

  lemma UnitFraction(a: real, b: real)
    requires 0.0 <= a <= b && b > 0.0
    ensures 0.0 <= a / b <= 1.0
  {
  }

  /**
   * Without rotation each vertex samples the atlas point it covers, with the
   * texture's vertical axis running opposite to the quad's: vertex (vx, vy)
   * maps to pixel (x + vx, y + height - vy) of the atlas.
   */
  lemma {:induction false} PlainQuadSamplesItsRegion(image: Image, fullWidth: real, fullHeight: real, i: int)
    requires fullWidth > 0.0 && fullHeight > 0.0
    requires !Rotated(image) && 0 <= i < 4
    ensures TexCoords(image, fullWidth, fullHeight)[i] ==
      TexCoord((image.x as real + QuadVertexes(image)[i].x) / fullWidth,
               (image.y as real + image.height as real - QuadVertexes(image)[i].y) / fullHeight)
  {
  }

  /**
   * The stored rotation flag agrees with the drawn quad whenever the
   * bundle's flag is 0 or 1.
   */
  lemma {:induction false} RotationFlagAgrees(image: Image, fullWidth: real, fullHeight: real)
    requires fullWidth > 0.0 && fullHeight > 0.0
    requires image.r90 == 0 || image.r90 == 1
    ensures InfoOf(image, fullWidth, fullHeight).r90 <==> Rotated(image)
  {
  }

  /** Any other non-zero flag draws the quad rotated but records it as not rotated. */
  lemma {:induction false} RotationFlagDisagrees()
    ensures var image := Image("a", 0, 0, 1, 1, 0.0, 0.0, 2);
      Rotated(image) && !InfoOf(image, 1.0, 1.0).r90
  {
  }

  /** Fills the 4-by-3 vertex block of one image. */
  method FillVertexes(image: Image) returns (vertexes: array2<real>)
    ensures fresh(vertexes) && vertexes.Length0 == 4 && vertexes.Length1 == 3
    ensures forall i | 0 <= i < 4 ::
      vertexes[i, 0] == QuadVertexes(image)[i].x &&
      vertexes[i, 1] == QuadVertexes(image)[i].y &&
      vertexes[i, 2] == QuadVertexes(image)[i].z
  {
    vertexes := new real[4, 3];
    if image.r90 != 0 {
      vertexes[0, 0] := image.width as real;
      vertexes[0, 1] := image.height as real;
      vertexes[0, 2] := 0.0;

      vertexes[1, 0] := 0.0;
      vertexes[1, 1] := image.height as real;
      vertexes[1, 2] := 0.0;

      vertexes[2, 0] := image.width as real;
      vertexes[2, 1] := 0.0;
      vertexes[2, 2] := 0.0;

      vertexes[3, 0] := 0.0;
      vertexes[3, 1] := 0.0;
      vertexes[3, 2] := 0.0;
    } else {
      vertexes[0, 0] := 0.0;
      vertexes[0, 1] := 0.0;
      vertexes[0, 2] := 0.0;

      vertexes[1, 0] := 0.0;
      vertexes[1, 1] := image.height as real;
      vertexes[1, 2] := 0.0;

      vertexes[2, 0] := image.width as real;
      vertexes[2, 1] := 0.0;
      vertexes[2, 2] := 0.0;

      vertexes[3, 0] := image.width as real;
      vertexes[3, 1] := image.height as real;
      vertexes[3, 2] := 0.0;
    }
  }

  /** Fills the 4-by-2 texture-coordinate block of one image. */
  method FillTexCoords(image: Image, fullWidth: real, fullHeight: real) returns (coords: array2<real>)
    requires fullWidth > 0.0 && fullHeight > 0.0
    ensures fresh(coords) && coords.Length0 == 4 && coords.Length1 == 2
    ensures forall i | 0 <= i < 4 ::
      coords[i, 0] == TexCoords(image, fullWidth, fullHeight)[i].u &&
      coords[i, 1] == TexCoords(image, fullWidth, fullHeight)[i].v
  {
    coords := new real[4, 2];
    coords[0, 0] := image.x as real / fullWidth;
    coords[0, 1] := (image.y + image.height) as real / fullHeight;

    coords[1, 0] := image.x as real / fullWidth;
    coords[1, 1] := image.y as real / fullHeight;

    coords[2, 0] := (image.x + image.width) as real / fullWidth;
    coords[2, 1] := (image.y + image.height) as real / fullHeight;

    coords[3, 0] := (image.x + image.width) as real / fullWidth;
    coords[3, 1] := image.y as real / fullHeight;
  }

  /** Builds one image's record, uploading its two blocks as the buffers' contents. */
  method BuildInfo(image: Image, fullWidth: real, fullHeight: real) returns (info: ImageInfo)
    requires fullWidth > 0.0 && fullHeight > 0.0
    ensures info == InfoOf(image, fullWidth, fullHeight)
  {
    var vertexes := FillVertexes(image);
    var coords := FillTexCoords(image, fullWidth, fullHeight);
    var vertexData := seq(4, i requires 0 <= i < 4 reads vertexes =>
      Vertex(vertexes[i, 0], vertexes[i, 1], vertexes[i, 2]));
    var coordData := seq(4, i requires 0 <= i < 4 reads coords => TexCoord(coords[i, 0], coords[i, 1]));
    assert vertexData == QuadVertexes(image);
    assert coordData == TexCoords(image, fullWidth, fullHeight);
    info := ImageInfo(image.x, image.y, image.width, image.height, image.anchorX, image.anchorY,
                      image.r90 == 1, vertexData, coordData);
  }

  class Spritesheet {
    var infoDict: map<string, ImageInfo>

    /**
     * Builds the sheet from the bundle's image records and the atlas size
     * in pixels, putting one record per image in listing order.
     */
    constructor (images: seq<Image>, fullWidth: nat, fullHeight: nat)
      requires fullWidth > 0 && fullHeight > 0
      ensures infoDict == InfoDict(images, fullWidth as real, fullHeight as real)
    {
      var w := fullWidth as real;
      var h := fullHeight as real;
      infoDict := map[];
      new;
      var i := 0;
      while i < |images|
        invariant 0 <= i <= |images|
        invariant infoDict == InfoDict(images[..i], w, h)
      {
        var info := BuildInfo(images[i], w, h);
        assert images[..i + 1][..i] == images[..i];
        infoDict := infoDict[images[i].key := info];
        i := i + 1;
      }
      assert images[..|images|] == images;
    }

    /** The record stored under a key, or None for a key no image had. */
    function GetImageInfo(key: string): (r: Option<ImageInfo>)
      reads this
      ensures r.Some? <==> key in infoDict
      ensures r.Some? ==> r.value == infoDict[key]
    {
      if key in infoDict then Some(infoDict[key]) else None
    }
  }

  /**
   * After building a sheet, looking up an image's key yields that image's
   * record, provided no later image reuses the key, and looking up a key
   * no image has yields nothing.
   */
  lemma {:induction false} LookupAfterBuild(sheet: Spritesheet, images: seq<Image>, fullWidth: nat, fullHeight: nat, key: string)
    requires fullWidth > 0 && fullHeight > 0
    requires sheet.infoDict == InfoDict(images, fullWidth as real, fullHeight as real)
    ensures sheet.GetImageInfo(key).None? <==> forall i | 0 <= i < |images| :: images[i].key != key
    ensures forall i | 0 <= i < |images| && images[i].key == key &&
                     (forall j | i < j < |images| :: images[j].key != key) ::
      sheet.GetImageInfo(key) == Some(InfoOf(images[i], fullWidth as real, fullHeight as real))
  {
    forall i | 0 <= i < |images| && images[i].key == key &&
               (forall j | i < j < |images| :: images[j].key != key)
      ensures sheet.GetImageInfo(key) == Some(InfoOf(images[i], fullWidth as real, fullHeight as real))
    {
      LastImageWins(images, fullWidth as real, fullHeight as real, i);
    }
  }
}
