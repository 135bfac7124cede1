# Sprite-renderer layout model

A Dafny model of the integer layout logic in the sprite renderer of
`src/renderer.rs`: rounding texture sizes up to powers of two
(`make_power_2`), packing the source images or canvases into one texture
atlas on a single row, building the vertex and index buffers for a sprite
list (`Renderer::update_buffers`), and the single indexed draw issued by
`Renderer::render`.

Files:

- `results.dfy` — `Option` and `Result`. A Rust panic becomes the failure branch.
- `power_of_two.dfy` — module `PowerOfTwo`: the `u32` type, powers of two, `make_power_2`.
- `atlas.dfy` — module `Atlas`: `TexAtlasItem`, `TextureAtlas`, `TextureAtlas::empty` and the packing loop.
  The packing loop is written out twice in the source: once in `create_texture_with_images`
  (lines 164-179) and once in `create_texture_with_canvases` (lines 209-224). Only the type of the
  source differs, so `Atlas.Pack` models both.
- `buffers.dfy` — module `Buffers`: sprites, the vertex and index buffer layout, and the draw count.

Modelling choices:

- Integer overflow is modelled as it behaves in a debug build, where it panics.
  - `make_power_2(v)` panics exactly when `v > 2^31`, because `p * 2` overflows.
  - The running `total_width` panics when the widths sum past `u32::MAX`.
  - `i as u16 * 4` first panics at sprite 16384. The `as u16` truncation is written out as `i % 65536`.
- A panic discards the partial buffers. So `update_buffers` is modelled as either the first
  sprite whose iteration panics or the complete buffers. The checks are made in the order the
  loop body reaches them: the texture index (line 118), then `tex.x + tex.width` and
  `tex.y + tex.height` (lines 124-125), then the `u16` index (line 128).
- `Buffers.SpriteFloats` is the twenty-float slice literal of lines 122-127.
  `Buffers.QuadIndices` is the six-index slice literal of line 129.
- `f32` values (positions, pivot, rotation, sizes, alpha) are opaque 32-bit patterns. They are
  carried through and never computed with. The rotated corner positions of lines 119-126 come in
  as a function parameter, `layout: Sprite -> Quad`.
- Texture coordinates stay exact, as `Ratio(num, den)`. For example, `tex.x as f32 / atlas_width`
  is `Ratio(tex.x, atlas.width)`.

Sizes are taken as the code computes them:

- Zero-sized images are not rejected. They pack like any other image, and no images or all-zero
  sizes give a 1x1 atlas (`Atlas.PackNoImages`).
- The atlas dimensions are the least powers of two covering the width sum and the maximum
  height (`PowerOfTwo.MakePower2Least`). Packing fails above 2^31.

## Model

| member | source | states |
|---|---|---|
| `PowerOfTwo.Doubling` | src/renderer.rs:270-273 | The doubling loop, started from a power of two `p`, returns a power of two that is at least both `p` and `v`. That result is either `p` itself or has half below `v`. The loop fails (overflow of `p * 2`) exactly when `p < v` and `v > 2^31`. |
| `PowerOfTwo.MakePower2` | src/renderer.rs:268-274 | `make_power_2(v)` succeeds iff `v <= 2^31`. It then returns a power of two `p` with `v <= p <= 2^31` and `p == 1 \|\| p / 2 < v`. |
| `PowerOfTwo.PowerOfTwoInU32` | src/renderer.rs:271 | No power of two lies between 2^31 and `u32::MAX`. This is why `p * 2` overflows only once `p` has reached 2^31. |
| `PowerOfTwo.MakePower2OfZeroAndOne` | src/renderer.rs:268-274 | `make_power_2(0) == make_power_2(1) == 1`. |
| `PowerOfTwo.MakePower2Least` | src/renderer.rs:268-274 | The result is at most every power of two that is `>= v`, so it is the least such power. |
| `PowerOfTwo.MakePower2Unique` | src/renderer.rs:268-274 | Any power of two `q <= u32::MAX` with `q >= v` and (`q == 1` or `q / 2 < v`) is exactly what `make_power_2(v)` returns. |
| `PowerOfTwo.MakePower2FixesPowers` | src/renderer.rs:268-274 | A power of two in `u32` range is returned unchanged. |
| `PowerOfTwo.MakePower2Idempotent` | src/renderer.rs:268-274 | Rounding twice gives the same result as rounding once. |
| `Atlas.Empty` | src/renderer.rs:36-38 | `TextureAtlas::empty()` has no items. Its 0x0 dimensions are not powers of two. |
| `Atlas.PackRow` | src/renderer.rs:164-177 | The loop succeeds iff the widths sum to at most `u32::MAX`. The running width is then the sum of the widths, and the running height is the maximum height. Item `i` has `x` equal to the sum of the earlier widths, `y = 0`, and the image's own size, with one item per image in input order. |
| `Atlas.Pack` | src/renderer.rs:164-179 | Packing succeeds iff the width sum and the maximum height are both `<= 2^31`. A width-overflow error is reported iff the sum exceeds `u32::MAX`. Items are placed as in `PackRow`. The atlas width is `make_power_2(sum of widths)` and the height is `make_power_2(max height)`. Both are powers of two that cover the sum and the max. |
| `Atlas.MaxHeightIsMaximum` | src/renderer.rs:168-172 | The running `total_height` ends as the maximum height: every height is at most it, and it is 0 for no images or else one of the heights. |
| `Atlas.PackAdjacent` | src/renderer.rs:173-176 | Item `i+1` starts where item `i` ends: `items[i+1].x == items[i].x + items[i].width`. |
| `Atlas.PackDisjoint` | src/renderer.rs:173-176 | For `i < j`, item `i` ends at or before item `j` starts, so items never overlap. |
| `Atlas.PackWellFormed` | src/renderer.rs:173-179 | A packed atlas has power-of-two dimensions, and every item satisfies `x + width <= atlas.width` and `y + height <= atlas.height`. |
| `Atlas.PackNoImages` | src/renderer.rs:164-179 | No images give no items and a 1x1 atlas, which differs from `TextureAtlas::empty()`. |
| `Atlas.PackSixSquares` | src/renderer.rs:164-179 | Six 64x64 images pack into a 512x64 atlas, with image `i` at `x = 64·i`. |
| `Buffers.AsU16` | src/renderer.rs:128 | `i as u16` keeps values up to 65535 unchanged. |
| `Buffers.SpriteFault` | src/renderer.rs:118-128 | One loop iteration panics in the order its body reaches the checks. The texture index out of range (line 118) comes first; that alone gives `TextureOutOfRange`. Then `tex.x + tex.width` or `tex.y + tex.height` overflowing `u32` (lines 124-125) gives `CoordOverflow`. The iteration completes iff the texture is in range, both sums fit `u32`, and `i as u16 * 4` fits `u16`, that is `i mod 65536 < 16384` (line 128). A fault names the iteration's own index. |
| `Buffers.FirstFault` | src/renderer.rs:117-129 | When no sprite panics, there are at most 16384 sprites and every texture index is in range. A reported fault names a sprite of the list that really triggers that fault. |
| `Buffers.FirstFaultIsFirst` | src/renderer.rs:117-129 | There is no fault iff no sprite's iteration panics. A reported fault is the first: every earlier sprite passes. |
| `Buffers.VertexList` | src/renderer.rs:117-127 | The vertex buffer has 20 floats per sprite. |
| `Buffers.QuadList` | src/renderer.rs:128-129 | The index buffer has 6 indices per sprite. |
| `Buffers.UpdateBuffers` | src/renderer.rs:111-130 | On success there are at most 16384 sprites, `20·n` vertex floats and `6·n` indices. On failure the error names a sprite whose iteration panics with that error. |
| `Buffers.UpdateBuffersFailsAtFirstFault` | src/renderer.rs:117-130 | `update_buffers` completes iff no sprite's iteration panics. Otherwise it reports the first sprite that panics. |
| `Buffers.UpdateBuffersSucceeds` | src/renderer.rs:118-129 | With a well-formed atlas, `update_buffers` completes iff there are at most 16384 sprites and every `sprite.texture < atlas.items.len()`. |
| `Buffers.VertexListLayout` | src/renderer.rs:122-127 | Floats `20i .. 20i+19` are sprite `i`'s block: its four corners, each paired with the matching corner of its own atlas item. |
| `Buffers.QuadListLayout` | src/renderer.rs:128-129 | Indices `6i .. 6i+5` are the two triangles of quad `i`, whose first vertex is `4i`. |
| `Buffers.QuadListBounds` | src/renderer.rs:128-129 | Index `k` lies in `[4(k/6), 4(k/6)+3]`. |
| `Buffers.IndexLayout` | src/renderer.rs:128-129 | In the built index buffer, sprite `i`'s six indices are exactly `[4i, 4i+1, 4i+2, 4i, 4i+2, 4i+3]`. |
| `Buffers.IndicesAddressOwnQuad` | src/renderer.rs:128-129 | The vertex buffer holds `4n` vertices of 5 floats. Every index `k` names a vertex of sprite `k/6`, so every index is `< 4n`. |
| `Buffers.SpriteFloatsContents` | src/renderer.rs:122-127 | Vertex `c` of a sprite's block holds the quad's corner `c`, then item corner `c` divided by the atlas size, then the alpha. |
| `Buffers.VertexContents` | src/renderer.rs:118-127 | In the built buffer, vertex `c` of sprite `i` is `[corner.x, corner.y, u/atlas.width, v/atlas.height, alpha]`. Here `(u, v)` is `(x,y)`, `(x+w,y)`, `(x+w,y+h)` or `(x,y+h)` of the sprite's atlas item. |
| `Buffers.TexCoordsInUnitRange` | src/renderer.rs:122-127 | With a well-formed atlas, every texture coordinate `num/den` has `0 < den` and `num <= den`, so it lies in [0, 1]. |
| `Buffers.AsI32` | src/renderer.rs:263 | `n as i32` lies in `i32` range and is unchanged for `n <= i32::MAX`. |
| `Buffers.Render` | src/renderer.rs:253-265 | `render` succeeds iff `update_buffers` does, and fails with the same error otherwise. It uploads those buffers. The draw count `6 * len as i32` fits `i32` and equals the index buffer's length. Every drawn index names a vertex inside the uploaded vertex buffer. |
| `Buffers.RenderEmptyAtlas` | src/renderer.rs:36-38 | Over `TextureAtlas::empty()`, a frame renders iff there are no sprites. Otherwise the first sprite panics with its texture index out of range (line 118). |
| `Buffers.RenderPackedAtlas` | src/renderer.rs:253-263 | Over a packed atlas, a frame renders iff there are at most 16384 sprites and each names one of the packed images. It then draws `6·n` indices, with every texture coordinate at most 1. |

## Left out

- WebGL plumbing is not modelled, because these are foreign calls with no behaviour visible to
  the model. This covers context acquisition, shader compilation and linking with their error
  strings, buffer creation, binding and upload, attribute pointers, texture upload and mipmaps,
  the clear colour, and the shader sources.
- The drawing of each image onto the scratch canvas at its item rectangle
  (`draw_image_*`, canvas creation) is browser I/O and is not modelled.
  That canvas failing, or `create_texture` failing, are errors of the host. They are not modelled.
- `Projection::create`, the projection matrix, the `u_matrix` uniform and the viewport are not
  modelled, because they are `f32` arithmetic.
- The rotation arithmetic of lines 119-121, and the `f32` additions of the corner positions, are
  supplied by the `layout` parameter. The rotation (`src/geom.rs:44-45`) takes the sine and cosine
  with the host's `f64` `Math.sin`/`Math.cos`, casts them to `f32`, and multiplies in `f32`.
- Buffers.VertexContents: the texture coordinate is the exact quotient. The source converts
  `u32` to `f32` and divides in `f32`, which rounds (inexactly above 2^24).
- Release builds wrap on overflow instead of panicking, and this is not modelled:
  - in `make_power_2`, `p` becomes 0 and the loop never ends;
  - the running width wraps;
  - `i as u16 * 4` wraps and produces aliased indices.
- `Vec::with_capacity(sprites.len() * 20)` can overflow or fail to allocate before the loop
  starts. This only happens for sprite counts far above the 16384 the index check allows, and
  the model reports the index overflow instead.
- Logging (`log_info`, `log_debug`) is console output and is not modelled.
- `src/scene.rs`, `src/lib.rs`, `src/geom.rs`, `src/logger.rs`, `src/resource_manager.rs` and
  `src/scene/scene_loader.rs` are outside this model. They hold event wiring, bootstrap, the
  loading pulse, random numbers, `f32` geometry, console output and network fetches. The
  wind-driven snowflake simulation is not present in these sources at all.
