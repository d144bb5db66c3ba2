# genesis text and widget core, modelled in Dafny

This project models the core of the genesis GUI engine:

- the text renderer of `src/text.rs`. It has a registry of FreeType faces and a glyph cache keyed by (face index, size, character). The cache is never evicted; a miss rasterises the glyph and uploads it as a texture.
- the label update of `src/text.rs`. A first pass over the characters measures the bounding box from the pen walk and the extents above and below the baseline. The label's texture and quad are then resized to that box. A second pass draws every glyph at its place.
- the GUI's widget registry and its id counter (`src/text.rs`).
- the C++ widget's defaults and its reaction to changed size hints (`src/widget.cpp`).
- the sprite sheet of `src/spritesheet.cpp`. It computes the quad and the texture coordinates of every image in a texture atlas and keeps one record per image key.

Files:

- `wrappers.dfy` holds `Option` and `Result`.
- `glyph_cache.dfy` (module `Glyphs`) holds the bitmap validator, the faces, the cache miss `Raster` and the class `TextRenderer`. `TextRenderer` keeps the invariant that every cached entry equals what a miss on its key would compute.
- `text_layout.dfy` (module `TextLayout`) gives the layout in closed form: pen positions, running maxima, the bounding box and the placement of each glyph. The lemmas about the layout are here too.
- `labels.dfy` (module `Labels`) holds the classes `Label`, `Widget<T>` and `Gui`. `Label.Update` runs the two passes as loops. It is proved equal to the closed-form layout.
- `widget_geometry.dfy` (module `WidgetGeometry`) holds the C++ `Widget` and its size-hint clamping.
- `spritesheet.dfy` (module `Sprites`) holds the vertex and texture-coordinate blocks, filled into 2-D arrays, and the class `Spritesheet` with its image dictionary.

A panic of the program (`unwrap` on a failed FreeType call, an out-of-range face index, a rejected bitmap) is the error result `Err(Fatal)`. The state it leaves is the state at the panic point: the label is untouched, and glyphs cached before the panic stay cached. A FreeType face is given by its answers, as three finite tables:

- the character-to-glyph-index table; an unmapped character gets index 0;
- the glyph rendered for a (character size, glyph index) pair; no entry means that setting the size, or loading, rendering or converting the glyph, fails;
- the kerning for a pair of glyph indices; no entry means the call fails.

Arithmetic is over the reals and unbounded integers. The `f32 as u32` casts are written out as saturating conversions.

The layout follows the code:

- Kerning is applied once, before the first glyph, between the sentinel index 0 and that glyph (`PenStep`).
- The bounding width is the right edge of the LAST glyph, not the running maximum of the right edges. Appending a character can therefore shrink the width (`WidthCanShrink`), so the width is not monotone in the text.

## Model

| member | source | states |
|---|---|---|
| Glyphs.IntoVec | src/text.rs:477-501 | The bitmap's bytes are accepted exactly when the bitmap is grayscale, flows down (pitch >= 0) and has pitch equal to width. Each rejection is its own panic: flow up, pitch != width, BGRA, any other pixel mode. |
| Glyphs.TextureOf | src/text.rs:473-501 | A texture is made exactly when the bitmap is grayscale with pitch = width. Its size is (width, rows), as `GetDimensions` reports it, and its texels are the bitmap's buffer. A buffer of pitch*rows bytes gives one byte per texel. Otherwise the error is IntoVec's panic. |
| Glyphs.Raster | src/text.rs:285-298 | A cache miss panics on an out-of-range face index. A successful miss yields a grayscale glyph whose texture has the bitmap's dimensions and bytes. |
| Glyphs.RasterStable | src/text.rs:269-279 | Pushing faces onto the list does not change what any existing face index rasterises to, so cached entries stay right. |
| Glyphs.TextRenderer.constructor | src/text.rs:208-267 | A new renderer has no face and an empty cache. |
| Glyphs.TextRenderer.LoadFace | src/text.rs:269-279 | A successfully opened face is appended and its handle is its index. A load error is passed through with the face list unchanged. The cache invariant is kept. |
| Glyphs.TextRenderer.GetCacheEntry | src/text.rs:281-306 | A hit returns the stored shared value and leaves the cache unchanged. A miss that rasterises inserts one fresh value under the key and returns it. A miss that fails is the rasterisation's panic. The cache only grows, and every entry stays equal to what a miss would compute. |
| Glyphs.LookupTwice | src/text.rs:281-284 | Two lookups of one key hand out the same shared value, so a glyph is rasterised and uploaded at most once. |
| Glyphs.CacheValue.constructor | src/text.rs:299-304 | A cache value holds the texture, the glyph and the glyph index it was built from. |
| TextLayout.Ceil | src/text.rs:373 | Rounding up gives the least integer not below x. |
| TextLayout.RunningMaxBounds | src/text.rs:347-348 | A running maximum that starts from 0 is non-negative and bounds every value it has seen. |
| TextLayout.RunningMaxAttained | src/text.rs:376-377 | The running maximum is 0 or one of the values seen. |
| TextLayout.PenStep | src/text.rs:343-382 | The pen starts at the first-glyph kerning/64 on x and at 0 on y. Each glyph moves the pen by exactly its advance/65536. No kerning is applied between later pairs. |
| TextLayout.PenPrefix | src/text.rs:381-382 | Glyphs further on in the text do not move the pen at earlier glyphs. |
| TextLayout.ExtentsAt | src/text.rs:374-375 | Glyph i reaches pen_y+top above the baseline and rows minus that below it. |
| TextLayout.BoundingHeight | src/text.rs:384 | The bounding height is non-negative, covers the largest extent above plus the largest below, and is at least every glyph's row count. |
| TextLayout.Layout | src/text.rs:340-395 | The layout has one draw per glyph and a non-negative height. An empty run gives a 0x0 box. |
| TextLayout.WidthIsLastRightEdge | src/text.rs:373-378 | After any glyph, the bounding width is that glyph's right edge rounded up, whatever came before. |
| TextLayout.WidthCanShrink | src/text.rs:373-378 | A concrete pair of glyphs whose bounding width drops from 10 to 6 when the second is appended. |
| TextLayout.NoVerticalAdvance | src/text.rs:382 | With no vertical advances, the pen stays on the baseline. |
| TextLayout.HorizontalGlyphsFitVertically | src/text.rs:374-384 | For horizontal text every drawn glyph starts at or below the top of the box and ends at or above its bottom. |
| TextLayout.Entries | src/text.rs:350-356 | A successful run of cache lookups yields one entry per character. |
| TextLayout.EntriesRasterise | src/text.rs:350-356 | On success, entry i is what character i rasterises to. |
| TextLayout.EntriesFirstFailure | src/text.rs:350-356 | When characters before i rasterise and character i does not, the lookups fail with character i's error. |
| TextLayout.EntriesAllRasterise | src/text.rs:350-356 | When every character rasterises, the lookups succeed. |
| TextLayout.EntriesSnoc | src/text.rs:350-356 | One more successful lookup extends the entries of a prefix by its entry. |
| TextLayout.LayoutText | src/text.rs:340-384 | Empty text lays out to an empty 0x0 box. Non-empty text with a bad face index panics. Success gives one draw per character and a non-negative height. |
| TextLayout.MeasureStep | src/text.rs:373-382 | Appending a glyph adds its advances to the pen, takes the running maxima of its extents and makes its right edge the bounding width. |
| TextLayout.WalkStep | src/text.rs:358-382 | One iteration of the measuring loop maps the loop variables for a prefix of glyphs to those for the prefix plus one glyph. |
| TextLayout.LayoutTextFailsAt | src/text.rs:350-366 | The update panics with character i's error when the characters before it were looked up (with the kerning read, if there were any) and character i fails. |
| TextLayout.LayoutTextFailsWith | src/text.rs:350-366 | The update panics with the error of the step at which the measuring walk stops: a lookup, or the first-glyph kerning. |
| TextLayout.LayoutTextSucceeds | src/text.rs:340-384 | When all lookups and the kerning succeed, the update yields the closed-form layout of those entries. |
| TextLayout.PlacementAt | src/text.rs:426-427 | Glyph i is drawn with its own texture at left = pen_x + bitmap left and top = max_above - bitmap top. |
| TextLayout.DrawsAt | src/text.rs:404-449 | Draw i of the first n draws is the placement of glyph i. |
| Labels.Quad | src/text.rs:389-395 | The quad has four corners in triangle-strip order, with texture coordinates (0,0), (0,1), (1,0), (1,1), all at z = 0. Each corner's position is its texture coordinate scaled by the box size. |
| Labels.ToU32 | src/text.rs:386-387 | The texture dimension is the bounding value when it fits in u32, 0 when it is negative, and 0xFFFFFFFF when it is too large. |
| Labels.Label.constructor | src/text.rs:105-113 | A new label shows "label" at size 16 in opaque white, with a 16x16 empty texture and a 16x16 quad. |
| Labels.Label.SetText | src/text.rs:332-334 | Only the text changes; nothing is re-rendered. |
| Labels.Label.SetColor | src/text.rs:336-338 | Only the colour changes. |
| Labels.Label.Update | src/text.rs:340-451 | On success the texture is the layout's box with every glyph drawn in order, and the quad spans the box. On a panic the label is unchanged with the layout's error. The cache invariant is kept, and the cache only grows. |
| Labels.Label.UpdateTwice | src/text.rs:340-451 | Two updates with nothing changed in between have the same outcome, and the second leaves the layout's texture and quad. |
| Labels.Label.Measure | src/text.rs:341-384 | The first pass either stops at the failing step of the walk or completes, returning the bounding width, the rounded-up height and the extent above the baseline of all the glyphs. |
| Labels.Label.MeasureGlyph | src/text.rs:351-382 | One iteration of the first pass: the lookup (and the first-glyph kerning) either fails, or updates the pen, the extents and the bounding width as the walk over one more glyph. |
| Labels.Label.Lookup | src/text.rs:351-356 | Looking up character i returns the value that its key rasterises to, or that rasterisation's panic. |
| Labels.Label.Render | src/text.rs:397-450 | The second pass appends to the cleared texture the placements of all glyphs, in order. |
| Labels.Label.DrawGlyph | src/text.rs:404-449 | One iteration of the second pass appends glyph i's placement and moves the pen to where the first pass had it. |
| Labels.Widget.constructor | src/text.rs:152-162 | A new widget holds its item and id at position (0,0), scale (1,1), rotation 0, visible. |
| Labels.Widget.SetPos | src/text.rs:163-165 | The position is replaced. |
| Labels.Widget.SetScale | src/text.rs:166-168 | The scale is replaced. |
| Labels.Gui.constructor | src/text.rs:72-83 | A new GUI has a fresh renderer with no faces, no widgets and id counter 0, and is sized to the framebuffer. |
| Labels.Gui.Resize | src/text.rs:85-90 | The GUI takes the framebuffer size. |
| Labels.Gui.LoadFace | src/text.rs:92-94 | Forwards to the renderer: success appends the face and returns its index, and an error leaves the faces alone. |
| Labels.Gui.MakeId | src/text.rs:131-135 | Returns the counter and increments it. |
| Labels.Gui.CreateLabel | src/text.rs:96-119 | The new label widget gets the counter as id, an id not registered before. It is registered under that id, other registrations are kept, and it carries the default label and widget state. |
| WidgetGeometry.Clamp | src/widget.cpp:37-50 | The value is kept exactly when it lies in [min, max], and otherwise becomes min or max. It lies in the range when the hints are consistent. The minimum is tested first. |
| WidgetGeometry.ClampIdempotent | src/widget.cpp:37-50 | With consistent hints, clamping a clamped size changes nothing. |
| WidgetGeometry.InconsistentHintsOscillate | src/widget.cpp:37-43 | With min > max, a second clamp changes the width again (5 becomes 10, then 0). |
| WidgetGeometry.Widget.constructor | src/widget.cpp:5-16 | A new widget has no parent, is at (0,0), is 100x100, has set index -1 and is visible. |
| WidgetGeometry.Widget.OnSizeHintsChanged | src/widget.cpp:28-54 | A child asks its parent to resize and keeps its size; its own resize count and the parent's position, size and visibility are unchanged. A top-level widget clamps width and height independently and resizes itself exactly when either changed. Position and visibility are untouched. |
| WidgetGeometry.NotifyTwice | src/widget.cpp:28-54 | With consistent hints, the first notification brings the size into range and a second one does not resize again. |
| Sprites.QuadVertexes | src/spritesheet.cpp:74-108 | All four vertices are corners of the width x height box at z = 0. The middle two are (0,h) and (w,0). A rotated image starts at (w,h) and ends at (0,0); a plain one runs the other way. |
| Sprites.TexCoordsIgnoreRotation | src/spritesheet.cpp:115-127 | The texture coordinates are computed the same way whatever the rotation flag. |
| Sprites.TexCoordsInsideAtlas | src/spritesheet.cpp:115-127 | For an image lying inside the atlas, every texture coordinate is in the unit square. |
| Sprites.PlainQuadSamplesItsRegion | src/spritesheet.cpp:92-127 | Without rotation, vertex (vx, vy) samples atlas pixel (x + vx, y + height - vy): the image's own region, flipped vertically. |
| Sprites.RotationFlagAgrees | src/spritesheet.cpp:68-76 | For a bundle flag of 0 or 1, the stored rotation flag agrees with the drawn orientation. |
| Sprites.RotationFlagDisagrees | src/spritesheet.cpp:68-76 | For flag 2 the quad is drawn rotated but recorded as not rotated. |
| Sprites.InfoOf | src/spritesheet.cpp:61-72 | An image's record copies its position, size and anchors, and is flagged rotated exactly when the flag equals 1. It holds the image's quad and texture coordinates. |
| Sprites.InfoDict | src/spritesheet.cpp:50-72 | After all puts, the dictionary's keys are exactly the images' keys. |
| Sprites.LastImageWins | src/spritesheet.cpp:50-72 | A key maps to the record of the last image listed with that key. |
| Sprites.FillVertexes | src/spritesheet.cpp:74-108 | The 4x3 vertex block holds the image's quad, row by row. |
| Sprites.FillTexCoords | src/spritesheet.cpp:115-127 | The 4x2 coordinate block holds the image's texture coordinates, row by row. |
| Sprites.BuildInfo | src/spritesheet.cpp:51-132 | Builds exactly the image's record from the two blocks it filled. |
| Sprites.Spritesheet.constructor | src/spritesheet.cpp:44-133 | The dictionary is the result of putting every image's record in listing order. |
| Sprites.Spritesheet.GetImageInfo | src/spritesheet.cpp:156-158 | Looking up a key yields the stored record, or nothing when the key is absent. |
| Sprites.LookupAfterBuild | src/spritesheet.cpp:156-158 | After the sheet is built, a lookup finds nothing exactly when no image has the key. Otherwise it finds the last such image's record. |

## Left out

- GPU work is not modelled: shader programs, glium and OpenGL objects, projection and model matrices, `draw_frame`, `Widget::draw` and `Spritesheet::draw`. A texture is its size plus the ordered list of glyph textures drawn into it. Clearing it and drawing into it in place are modelled as assigning that value.
- FreeType's internals are not modelled. Faces are the finite tables described above, and opening a face file is a parameter (`LoadFace` takes the opened face or its error).
- Glyphs.Face.Kerning: the kerning is keyed by the glyph pair alone. FreeType scales the default kerning to the face's current character size, which is set by whichever cache miss came last; that hidden state is not modelled.
- Labels.Label.DrawGlyph: the pen it reaches equals the first pass's only because the kerning does not depend on the face's current character size. In the program a cache miss between the two reads can change that size, and the second pass can then place the text differently.
- Labels.Label.UpdateTwice: its agreement of the two outcomes rests on the same size-independent kerning.
- Labels.Label.Render and Labels.Label.Update: both passes read the first-glyph kerning from the size-independent table, so the layout is a function of the faces, the face index, the size and the text alone.
- 32-bit float rounding is not modelled: f32 arithmetic is computed over the reals.
- Integer widths are not modelled: `key.size * 64`, `i32` size fields, the u64 id counter and C++ `int` sums are unbounded.
- The `Weak` references of the widget set are not modelled. The registry stores the widgets themselves, and the liveness of dropped widgets is not represented.
- The second pass's pen_y is not modelled: it is computed but never read.
- Labels.Label.Render: a failing draw call (`ok().unwrap()`) is GPU work and is not modelled. Its lookups and its kerning read cannot fail, because the first pass succeeded on the same keys.
- Sprites.Spritesheet.constructor: finding the resource, opening and reading the texture and decoding the PNG (with their panics) are not modelled. The constructor takes the image records and the atlas size.
- Sprites.Spritesheet.constructor: an atlas of width or height 0 is excluded, because the float divisions would give infinities.
- The image record keeps the buffer contents in place of the vertex-array and buffer handles. The put therefore comes after the blocks are filled, where the code puts the handles first and fills the buffers after; the outcome is the same.
- Sprites.Spritesheet.GetImageInfo: the dictionary type's behaviour on a missing key is not part of this model. A missing key yields `None`.
- The C++ `Widget` destructor and `remove_widget` are not modelled: they unregister from the window and panic as unimplemented.
- The size-hint getters and `on_resize` are virtual. They are a parameter and a call counter respectively; whatever an override of `on_resize` does to the parent or to the widget (for instance relayout) is not modelled.
- `src/main.rs`, `src/id_map.cpp`, `src/sort_key.hpp`, `src/mixer_node.hpp` and `src/thread_safe_queue.hpp` are not part of this model.
