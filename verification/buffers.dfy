/** The vertex and index buffers `Renderer::update_buffers` builds from a
    sprite list and a texture atlas, and the single indexed draw issued by
    `Renderer::render` (src/renderer.rs). */
module Buffers {
  import opened Results
  import opened PowerOfTwo
  import opened Atlas

  /** Largest value of a Rust `u16`, the index buffer's element type. */
  const U16_MAX: int := 0xFFFF

  /** Largest value of a Rust `i32`, the draw call's count type. */
  const I32_MAX: int := 0x7FFF_FFFF

  /** A Rust `u16`. */
  type U16 = x: int | 0 <= x <= U16_MAX

  /** The bit pattern of an `f32`. Positions, angles and alphas are carried
      through unchanged and never computed with. */
  type F32 = bv32

  datatype Point = Point(x: F32, y: F32)

  /** One sprite: which atlas item it shows, where, and how transparent. */
  datatype Sprite = Sprite(texture: nat, position: Point, pivot: Point, rotation: F32,
                           width: F32, height: F32, alpha: F32)

  /** Screen positions of a sprite's corners: its origin, origin + rotated
      width, origin + rotated width + rotated height, origin + rotated height. */
  datatype Quad = Quad(p0: Point, p1: Point, p2: Point, p3: Point)

  /** One `f32` of the vertex buffer: either a sprite value passed through,
      or a texture coordinate kept as the integer quotient `num / den` that
      the code converts to `f32` and divides. */
  datatype VertexFloat = Bits(f: F32) | Ratio(num: nat, den: nat)

  /** Contents of the two GPU buffers. */
  datatype Buffers = Buffers(vertices: seq<VertexFloat>, indices: seq<U16>)

  /** Why `update_buffers` panics at sprite number `sprite`: its texture index
      is past the atlas items; `tex.x + tex.width` or `tex.y + tex.height`
      overflows a `u32`; or `i as u16 * 4` overflows a `u16`. */
  datatype BufferError = TextureOutOfRange(sprite: nat) | CoordOverflow(sprite: nat) | IndexOverflow(sprite: nat)

  /** Most sprites one index buffer of `u16` can address. */
  const MAX_SPRITES: int := 0x4000

  /** The panic, if any, that sprite `s` at position `i` triggers, checked in
      the order the loop body reaches them. */
  function SpriteFault(s: Sprite, i: nat, atlas: TextureAtlas): (f: Option<BufferError>)
    ensures f.Some? ==> f.value.sprite == i
    ensures f == Some(TextureOutOfRange(i)) <==> s.texture >= |atlas.items|
    ensures f == Some(CoordOverflow(i))
            <==> s.texture < |atlas.items|
                 && (atlas.items[s.texture].x + atlas.items[s.texture].width > U32_MAX
                     || atlas.items[s.texture].y + atlas.items[s.texture].height > U32_MAX)
    ensures f.None?
            <==> s.texture < |atlas.items|
                 && atlas.items[s.texture].x + atlas.items[s.texture].width <= U32_MAX
                 && atlas.items[s.texture].y + atlas.items[s.texture].height <= U32_MAX
                 && i % 0x1_0000 < MAX_SPRITES
  {
    if s.texture >= |atlas.items| then Some(TextureOutOfRange(i))
    else
      var t := atlas.items[s.texture];
      if t.x + t.width > U32_MAX || t.y + t.height > U32_MAX then Some(CoordOverflow(i))
      else if AsU16(i) * 4 > U16_MAX then Some(IndexOverflow(i))
      else None
  }

  /** `i as u16`: the low 16 bits of `i`. */
  function AsU16(i: nat): (r: U16)
    ensures i <= U16_MAX ==> r == i
  {
    i % 0x1_0000
  }

  /** The five floats of one vertex: position, texture coordinate, alpha. */
  function VertexFloats(p: Point, u: nat, v: nat, atlas: TextureAtlas, alpha: F32): seq<VertexFloat>
  {
    [Bits(p.x), Bits(p.y), Ratio(u, atlas.width), Ratio(v, atlas.height), Bits(alpha)]
  }

  /** The twenty floats one sprite contributes: its four corners, each
      paired with the matching corner of atlas item `t`. */
  function SpriteFloats(s: Sprite, t: TexAtlasItem, atlas: TextureAtlas, q: Quad): seq<VertexFloat>
  {
    VertexFloats(q.p0, t.x, t.y, atlas, s.alpha)
    + VertexFloats(q.p1, t.x + t.width, t.y, atlas, s.alpha)
    + VertexFloats(q.p2, t.x + t.width, t.y + t.height, atlas, s.alpha)
    + VertexFloats(q.p3, t.x, t.y + t.height, atlas, s.alpha)
  }

  /** The two triangles (n, n+1, n+2) and (n, n+2, n+3) of the quad whose
      first vertex is `n`. */
  function QuadIndices(n: U16): seq<U16>
    requires n + 3 <= U16_MAX
  {
    [n, n + 1, n + 2, n, n + 2, n + 3]
  }

  /** The first sprite, in list order, whose loop iteration panics. */
  function FirstFault(sprites: seq<Sprite>, atlas: TextureAtlas): (r: Option<BufferError>)
    ensures r.None? ==> |sprites| <= MAX_SPRITES
    ensures r.None? ==> forall i :: 0 <= i < |sprites| ==> sprites[i].texture < |atlas.items|
    ensures r.Some? ==> r.value.sprite < |sprites|
                        && SpriteFault(sprites[r.value.sprite], r.value.sprite, atlas) == r
  {
    if |sprites| == 0 then None
    else
      var n := |sprites| - 1;
      var prior := FirstFault(sprites[..n], atlas);
      if prior.Some? then
        assert sprites[..n][prior.value.sprite] == sprites[prior.value.sprite];
        prior
      else
        assert forall i :: 0 <= i < n ==> sprites[..n][i] == sprites[i];
        SpriteFault(sprites[n], n, atlas)
  }

  /** The vertex buffer for sprites whose textures all exist: twenty floats
      per sprite, in list order; `layout` supplies the corner positions,
      which the code computes by rotating in `f32`. */
  function VertexList(sprites: seq<Sprite>, atlas: TextureAtlas, layout: Sprite -> Quad): (r: seq<VertexFloat>)
    requires forall i :: 0 <= i < |sprites| ==> sprites[i].texture < |atlas.items|
    ensures |r| == 20 * |sprites|
  {
    if |sprites| == 0 then []
    else
      var n := |sprites| - 1;
      var s := sprites[n];
      VertexList(sprites[..n], atlas, layout) + SpriteFloats(s, atlas.items[s.texture], atlas, layout(s))
  }

  /** The index buffer for `n` sprites: quad after quad, 4 vertices apart. */
  function QuadList(n: nat): (r: seq<U16>)
    requires n <= MAX_SPRITES
    ensures |r| == 6 * n
  {
    if n == 0 then [] else QuadList(n - 1) + QuadIndices(4 * (n - 1))
  }

  /** `update_buffers`. The loop pushes twenty floats and six indices per
      sprite and panics at the first sprite whose iteration overflows or
      indexes past the atlas; a panic discards the partial buffers, so the
      outcome is that first fault or else the complete buffers. */
  function UpdateBuffers(sprites: seq<Sprite>, atlas: TextureAtlas, layout: Sprite -> Quad): (r: Result<Buffers, BufferError>)
    ensures r.Ok? ==> |sprites| <= MAX_SPRITES
    ensures r.Ok? ==> |r.value.vertices| == 20 * |sprites| && |r.value.indices| == 6 * |sprites|
    ensures r.Err? ==> && r.error.sprite < |sprites|
                       && SpriteFault(sprites[r.error.sprite], r.error.sprite, atlas) == Some(r.error)
  {
    match FirstFault(sprites, atlas)
    case Some(e) => Err(e)
    case None => Ok(Buffers(VertexList(sprites, atlas, layout), QuadList(|sprites|)))
  }

  /** `update_buffers` completes exactly when no sprite panics, and when
      it panics it is at the first sprite that does. */
  lemma {:induction false} FirstFaultIsFirst(sprites: seq<Sprite>, atlas: TextureAtlas)
    ensures FirstFault(sprites, atlas).None?
            <==> forall i :: 0 <= i < |sprites| ==> SpriteFault(sprites[i], i, atlas).None?
    ensures var f := FirstFault(sprites, atlas);
            f.Some? ==> forall j :: 0 <= j < f.value.sprite ==> SpriteFault(sprites[j], j, atlas).None?
  {
    if |sprites| > 0 {
      var n := |sprites| - 1;
      var prefix := sprites[..n];
      FirstFaultIsFirst(prefix, atlas);
      assert forall j :: 0 <= j < n ==> prefix[j] == sprites[j];
      var prior := FirstFault(prefix, atlas);
      assert FirstFault(sprites, atlas) == if prior.Some? then prior else SpriteFault(sprites[n], n, atlas);
    }
  }

  /** Hence `update_buffers` returns buffers exactly when no sprite's
      iteration panics, and otherwise reports the first one that does. */
  lemma UpdateBuffersFailsAtFirstFault(sprites: seq<Sprite>, atlas: TextureAtlas, layout: Sprite -> Quad)
    ensures UpdateBuffers(sprites, atlas, layout).Ok?
            <==> forall i :: 0 <= i < |sprites| ==> SpriteFault(sprites[i], i, atlas).None?
    ensures var r := UpdateBuffers(sprites, atlas, layout);
            r.Err? ==> forall j :: 0 <= j < r.error.sprite ==> SpriteFault(sprites[j], j, atlas).None?
  {
    FirstFaultIsFirst(sprites, atlas);
  }

  /** For a well-formed atlas the only ways `update_buffers` can fail are a
      texture index past the atlas items and more sprites than `u16`
      indices can address. */
  lemma UpdateBuffersSucceeds(sprites: seq<Sprite>, atlas: TextureAtlas, layout: Sprite -> Quad)
    requires WellFormed(atlas)
    ensures UpdateBuffers(sprites, atlas, layout).Ok?
            <==> |sprites| <= MAX_SPRITES && forall i :: 0 <= i < |sprites| ==> sprites[i].texture < |atlas.items|
  {
  }

  /** A slice of `a + b` lying wholly in `a` or exactly covering `b`. */
  lemma SliceOfAppend<T>(a: seq<T>, b: seq<T>, lo: nat, hi: nat)
    requires lo <= hi <= |a| || (lo == |a| && hi == |a| + |b|)
    ensures hi <= |a| ==> (a + b)[lo..hi] == a[lo..hi]
    ensures lo == |a| && hi == |a| + |b| ==> (a + b)[lo..hi] == b
  {
  }

  /** A slice of a slice is a slice of the original. */
  lemma SliceOfSlice<T>(a: seq<T>, lo: nat, hi: nat, lo2: nat, hi2: nat)
    requires lo <= hi <= |a| && lo2 <= hi2 <= hi - lo
    ensures a[lo..hi][lo2..hi2] == a[lo + lo2 .. lo + hi2]
  {
    var inner := a[lo..hi][lo2..hi2];
    var direct := a[lo + lo2 .. lo + hi2];
    assert |inner| == |direct|;
    forall k | 0 <= k < |inner|
      ensures inner[k] == direct[k]
    {
      assert inner[k] == a[lo..hi][lo2 + k];
    }
  }

  /** Sprite i owns floats 20i .. 20i+19, which hold its four corners, each
      paired with the matching corner of its atlas item, and its alpha. */
  lemma {:induction false} VertexListLayout(sprites: seq<Sprite>, atlas: TextureAtlas, layout: Sprite -> Quad, i: nat)
    requires forall i :: 0 <= i < |sprites| ==> sprites[i].texture < |atlas.items|
    requires i < |sprites|
    ensures VertexList(sprites, atlas, layout)[20 * i .. 20 * i + 20]
            == SpriteFloats(sprites[i], atlas.items[sprites[i].texture], atlas, layout(sprites[i]))
  {
    var n := |sprites| - 1;
    var s := sprites[n];
    var b := VertexList(sprites[..n], atlas, layout);
    var floats := SpriteFloats(s, atlas.items[s.texture], atlas, layout(s));
    if i < n {
      VertexListLayout(sprites[..n], atlas, layout, i);
      assert sprites[..n][i] == sprites[i];
    }
    SliceOfAppend(b, floats, 20 * i, 20 * i + 20);
  }

  /** Quad i of the index buffer sits at 6i .. 6i+5. */
  lemma {:induction false} QuadListLayout(n: nat, i: nat)
    requires n <= MAX_SPRITES && i < n
    ensures QuadList(n)[6 * i .. 6 * i + 6] == QuadIndices(4 * i)
  {
    if i < n - 1 {
      QuadListLayout(n - 1, i);
    }
    SliceOfAppend(QuadList(n - 1), QuadIndices(4 * (n - 1)), 6 * i, 6 * i + 6);
  }

  /** Entry k of the index buffer names a vertex of quad k / 6. */
  lemma {:induction false} QuadListBounds(n: nat)
    requires n <= MAX_SPRITES
    ensures forall k :: 0 <= k < 6 * n ==> 4 * (k / 6) <= QuadList(n)[k] < 4 * (k / 6) + 4
  {
    if n > 0 {
      QuadListBounds(n - 1);
      var last := QuadIndices(4 * (n - 1));
      forall k | 6 * (n - 1) <= k < 6 * n
        ensures 4 * (k / 6) <= QuadList(n)[k] < 4 * (k / 6) + 4
      {
        assert QuadList(n)[k] == last[k - 6 * (n - 1)];
        assert k / 6 == n - 1;
      }
    }
  }

  /** Sprite i owns indices 6i .. 6i+5: the two triangles (4i, 4i+1, 4i+2)
      and (4i, 4i+2, 4i+3) of its own four vertices. */
  lemma IndexLayout(sprites: seq<Sprite>, atlas: TextureAtlas, layout: Sprite -> Quad, i: nat)
    requires UpdateBuffers(sprites, atlas, layout).Ok?
    requires i < |sprites|
    ensures UpdateBuffers(sprites, atlas, layout).value.indices[6 * i .. 6 * i + 6]
            == [4 * i, 4 * i + 1, 4 * i + 2, 4 * i, 4 * i + 2, 4 * i + 3]
  {
    QuadListLayout(|sprites|, i);
  }

  /** Every index names one of the `4 * sprites.len()` uploaded vertices,
      and index k names a vertex of sprite k / 6, the sprite that emitted it. */
  lemma IndicesAddressOwnQuad(sprites: seq<Sprite>, atlas: TextureAtlas, layout: Sprite -> Quad)
    requires UpdateBuffers(sprites, atlas, layout).Ok?
    ensures |UpdateBuffers(sprites, atlas, layout).value.vertices| == 5 * (4 * |sprites|)
    ensures var ix := UpdateBuffers(sprites, atlas, layout).value.indices;
            forall k :: 0 <= k < |ix| ==> 4 * (k / 6) <= ix[k] < 4 * (k / 6) + 4 <= 4 * |sprites|
  {
    QuadListBounds(|sprites|);
  }

  /** Corner `c` of a sprite's quad: 0 origin, 1 after the width edge,
      2 the far corner, 3 after the height edge. */
  function Corner(q: Quad, c: nat): Point
    requires c < 4
  {
    if c == 0 then q.p0 else if c == 1 then q.p1 else if c == 2 then q.p2 else q.p3
  }

  /** Texture x numerator of corner `c` of item `t`: its left edge for
      corners 0 and 3, its right edge for 1 and 2. */
  function CornerU(t: TexAtlasItem, c: nat): nat
  {
    if c == 0 || c == 3 then t.x else t.x + t.width
  }

  /** Texture y numerator of corner `c` of item `t`: its top edge for
      corners 0 and 1, its bottom edge for 2 and 3. */
  function CornerV(t: TexAtlasItem, c: nat): nat
  {
    if c == 0 || c == 1 then t.y else t.y + t.height
  }

  /** Vertex `c` of one sprite's block: corner `c` of its quad, corner `c`
      of its atlas item over the atlas size, and its alpha. */
  lemma SpriteFloatsContents(s: Sprite, t: TexAtlasItem, atlas: TextureAtlas, q: Quad, c: nat)
    requires c < 4
    ensures SpriteFloats(s, t, atlas, q)[5 * c .. 5 * c + 5]
            == VertexFloats(Corner(q, c), CornerU(t, c), CornerV(t, c), atlas, s.alpha)
  {
  }

  /** Floats 20i+5c .. 20i+5c+4 are vertex `c` of sprite i: corner `c` of
      its quad, the matching corner of its atlas item over the atlas size
      ((x, y), (x + w, y), (x + w, y + h), (x, y + h) for c = 0, 1, 2, 3),
      and the sprite's alpha. */
  lemma VertexContents(sprites: seq<Sprite>, atlas: TextureAtlas, layout: Sprite -> Quad, i: nat, c: nat)
    requires UpdateBuffers(sprites, atlas, layout).Ok?
    requires i < |sprites| && c < 4
    ensures sprites[i].texture < |atlas.items|
    ensures var s := sprites[i];
            var t := atlas.items[s.texture];
            UpdateBuffers(sprites, atlas, layout).value.vertices[20 * i + 5 * c .. 20 * i + 5 * c + 5]
            == [Bits(Corner(layout(s), c).x), Bits(Corner(layout(s), c).y),
                Ratio(CornerU(t, c), atlas.width), Ratio(CornerV(t, c), atlas.height), Bits(s.alpha)]
  {
    var v := UpdateBuffers(sprites, atlas, layout).value.vertices;
    var s := sprites[i];
    var t := atlas.items[s.texture];
    var block := SpriteFloats(s, t, atlas, layout(s));
    assert v[20 * i .. 20 * i + 20] == block by {
      VertexListLayout(sprites, atlas, layout, i);
    }
    assert block[5 * c .. 5 * c + 5]
           == VertexFloats(Corner(layout(s), c), CornerU(t, c), CornerV(t, c), atlas, s.alpha) by {
      SpriteFloatsContents(s, t, atlas, layout(s), c);
    }
    SliceOfSlice(v, 20 * i, 20 * i + 20, 5 * c, 5 * c + 5);
  }

  /** With a well-formed atlas every texture coordinate is a fraction
      `num / den` with `0 < den` and `num <= den`, so it lies in [0, 1]. */
  lemma TexCoordsInUnitRange(sprites: seq<Sprite>, atlas: TextureAtlas, layout: Sprite -> Quad)
    requires WellFormed(atlas)
    requires UpdateBuffers(sprites, atlas, layout).Ok?
    ensures var v := UpdateBuffers(sprites, atlas, layout).value.vertices;
            forall k :: 0 <= k < |v| && v[k].Ratio? ==> 0 < v[k].den && v[k].num <= v[k].den
  {
    var v := UpdateBuffers(sprites, atlas, layout).value.vertices;
    forall k | 0 <= k < |v| && v[k].Ratio?
      ensures 0 < v[k].den && v[k].num <= v[k].den
    {
      var i := k / 20;
      var c := (k - 20 * i) / 5;
      var j := k - 20 * i - 5 * c;
      assert 0 <= i < |sprites| && 0 <= c < 4 && 0 <= j < 5;
      VertexContents(sprites, atlas, layout, i, c);
      var s := sprites[i];
      var t := atlas.items[s.texture];
      assert v[k] == [Bits(Corner(layout(s), c).x), Bits(Corner(layout(s), c).y),
                      Ratio(CornerU(t, c), atlas.width), Ratio(CornerV(t, c), atlas.height), Bits(s.alpha)][j] by {
        assert v[k] == v[20 * i + 5 * c .. 20 * i + 5 * c + 5][j];
      }
      assert CornerU(t, c) <= atlas.width && CornerV(t, c) <= atlas.height by {
        assert t.x + t.width <= atlas.width && t.y + t.height <= atlas.height;
      }
      assert 0 < atlas.width && 0 < atlas.height;
    }
  }

  /** `n as i32`: the low 32 bits of `n` read as two's complement. */
  function AsI32(n: nat): (r: int)
    ensures -I32_MAX - 1 <= r <= I32_MAX
    ensures n <= I32_MAX ==> r == n
  {
    var m := n % 0x1_0000_0000;
    if m > I32_MAX then m - 0x1_0000_0000 else m
  }

  /** What one frame submits: the uploaded buffers and the index count of
      the single `draw_elements` call. */
  datatype Frame = Frame(buffers: Buffers, drawCount: int)

  /** `render`: rebuild the buffers, then draw `6 * sprites.len() as i32`
      indices as triangles in one call. */
  function Render(sprites: seq<Sprite>, atlas: TextureAtlas, layout: Sprite -> Quad): (r: Result<Frame, BufferError>)
    ensures r.Ok? <==> UpdateBuffers(sprites, atlas, layout).Ok?
    ensures r.Err? ==> r.error == UpdateBuffers(sprites, atlas, layout).error
    ensures r.Ok? ==> r.value.buffers == UpdateBuffers(sprites, atlas, layout).value
    ensures r.Ok? ==> 0 <= r.value.drawCount <= I32_MAX
    ensures r.Ok? ==> r.value.drawCount == |r.value.buffers.indices|
    ensures r.Ok? ==> forall k :: 0 <= k < r.value.drawCount ==>
                        5 * r.value.buffers.indices[k] < |r.value.buffers.vertices|
  {
    match UpdateBuffers(sprites, atlas, layout)
    case Err(e) => Err(e)
    case Ok(b) =>
      IndicesAddressOwnQuad(sprites, atlas, layout);
      Ok(Frame(b, 6 * AsI32(|sprites|)))
  }

  /** A frame over an atlas packed from `images` renders exactly when every
      sprite names one of those images and there are at most 16384 sprites;
      it then draws six indices per sprite, every texture coordinate in
      [0, 1]. */
  /** `TextureAtlas::empty()` has no items, so a frame over it renders only
      when there are no sprites; otherwise the first sprite's texture index
      is out of range. */
  lemma RenderEmptyAtlas(sprites: seq<Sprite>, layout: Sprite -> Quad)
    ensures Render(sprites, Empty(), layout).Ok? <==> |sprites| == 0
    ensures |sprites| > 0 ==> Render(sprites, Empty(), layout) == Err(TextureOutOfRange(0))
  {
    FirstFaultIsFirst(sprites, Empty());
    if |sprites| > 0 {
      assert SpriteFault(sprites[0], 0, Empty()) == Some(TextureOutOfRange(0));
    }
  }

  lemma RenderPackedAtlas(images: seq<ImageSize>, sprites: seq<Sprite>, layout: Sprite -> Quad)
    requires Pack(images).Ok?
    ensures var r := Render(sprites, Pack(images).value, layout);
            r.Ok? <==> |sprites| <= MAX_SPRITES && forall i :: 0 <= i < |sprites| ==> sprites[i].texture < |images|
    ensures var r := Render(sprites, Pack(images).value, layout);
            r.Ok? ==> && r.value.drawCount == 6 * |sprites|
                      && forall k :: 0 <= k < |r.value.buffers.vertices| && r.value.buffers.vertices[k].Ratio? ==>
                           r.value.buffers.vertices[k].num <= r.value.buffers.vertices[k].den
  {
    var atlas := Pack(images).value;
    PackWellFormed(images);
    UpdateBuffersSucceeds(sprites, atlas, layout);
    if UpdateBuffers(sprites, atlas, layout).Ok? {
      TexCoordsInUnitRange(sprites, atlas, layout);
    }
  }
}
