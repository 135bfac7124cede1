/** Single-row texture-atlas packing of src/renderer.rs
    (`create_texture_with_images` and its identical twin
    `create_texture_with_canvases`), and `TextureAtlas::empty`. */
module Atlas {
  import opened Results
  import opened PowerOfTwo

  /** The integer width and height of one source image or canvas. */
  datatype ImageSize = ImageSize(width: U32, height: U32)

  /** Where one source image sits inside the atlas texture. */
  datatype TexAtlasItem = TexAtlasItem(x: U32, y: U32, width: U32, height: U32)

  /** The packed rectangles, in input order, and the texture's size. */
  datatype TextureAtlas = TextureAtlas(items: seq<TexAtlasItem>, width: U32, height: U32)

  /** Why packing panics: the running `total_width += width` overflowed a
      `u32`, or `make_power_2` overflowed while rounding a dimension up. */
  datatype PackError = WidthOverflow | PowerOverflow

  /** `TextureAtlas::empty()`: no items and a 0x0 texture. */
  function Empty(): (a: TextureAtlas)
    ensures |a.items| == 0
    ensures !IsPowerOf2(a.width) && !IsPowerOf2(a.height)
  {
    TextureAtlas([], 0, 0)
  }

  /** Sum of the widths, as an unbounded integer. */
  function SumWidths(images: seq<ImageSize>): nat
  {
    if |images| == 0 then 0 else SumWidths(images[..|images| - 1]) + images[|images| - 1].width
  }

  /** Largest height, 0 for no images. */
  function MaxHeight(images: seq<ImageSize>): nat
  {
    if |images| == 0 then 0
    else
      var m := MaxHeight(images[..|images| - 1]);
      if m < images[|images| - 1].height then images[|images| - 1].height else m
  }

  /** `items` places `images` on one row, left to right in input order:
      image i at x = the widths of images 0 .. i-1, y = 0, at its own size. */
  predicate PlacedInRow(items: seq<TexAtlasItem>, images: seq<ImageSize>)
  {
    && |items| == |images|
    && forall i :: 0 <= i < |images| ==>
         && items[i].x == SumWidths(images[..i])
         && items[i].y == 0
         && items[i].width == images[i].width
         && items[i].height == images[i].height
  }

  /** State of the packing loop: the items pushed so far and the running
      `total_width` and `total_height`. */
  datatype RowState = RowState(items: seq<TexAtlasItem>, totalWidth: U32, totalHeight: U32)

  /** The packing loop applied to `images` from an empty row: each image goes
      at the running width, on row 0, and the running width then grows by
      its width, panicking on `u32` overflow. */
  function PackRow(images: seq<ImageSize>): (r: Result<RowState, PackError>)
    ensures r.Ok? <==> SumWidths(images) <= U32_MAX
    ensures r.Err? ==> r.error == WidthOverflow
    ensures r.Ok? ==> r.value.totalWidth == SumWidths(images)
    ensures r.Ok? ==> r.value.totalHeight == MaxHeight(images)
    ensures r.Ok? ==> PlacedInRow(r.value.items, images)
  {
    if |images| == 0 then
      Ok(RowState([], 0, 0))
    else
      var image := images[|images| - 1];
      match PackRow(images[..|images| - 1])
      case Err(e) => Err(e)
      case Ok(st) =>
        var height := if st.totalHeight < image.height then image.height else st.totalHeight;
        var item := TexAtlasItem(st.totalWidth, 0, image.width, image.height);
        if st.totalWidth + image.width > U32_MAX then
          Err(WidthOverflow)
        else
          assert forall i :: 0 <= i < |images| - 1 ==> images[..|images| - 1][..i] == images[..i];
          Ok(RowState(st.items + [item], st.totalWidth + image.width, height))
  }

  /** The atlas layout computed by `create_texture_with_images` (and
      `create_texture_with_canvases`): one item per image in input order,
      packed left to right on row 0, in a texture whose width and height
      are `make_power_2` of the total width and of the largest height. */
  function Pack(images: seq<ImageSize>): (r: Result<TextureAtlas, PackError>)
    ensures r.Ok? <==> SumWidths(images) <= U32_TOP_POWER && MaxHeight(images) <= U32_TOP_POWER
    ensures r.Err? ==> (r.error == WidthOverflow <==> SumWidths(images) > U32_MAX)
    ensures r.Ok? ==> PlacedInRow(r.value.items, images)
    ensures r.Ok? ==> Some(r.value.width) == MakePower2(SumWidths(images))
    ensures r.Ok? ==> Some(r.value.height) == MakePower2(MaxHeight(images))
    ensures r.Ok? ==> IsPowerOf2(r.value.width) && SumWidths(images) <= r.value.width
    ensures r.Ok? ==> IsPowerOf2(r.value.height) && MaxHeight(images) <= r.value.height
  {
    match PackRow(images)
    case Err(e) => Err(e)
    case Ok(st) =>
      match MakePower2(st.totalHeight)
      case None => Err(PowerOverflow)
      case Some(height) =>
        match MakePower2(st.totalWidth)
        case None => Err(PowerOverflow)
        case Some(width) => Ok(TextureAtlas(st.items, width, height))
  }

  /** The running width only grows: every prefix sum is at most the total. */
  lemma {:induction false} SumWidthsPrefix(images: seq<ImageSize>, i: nat)
    requires i <= |images|
    ensures SumWidths(images[..i]) <= SumWidths(images)
    decreases |images|
  {
    if i < |images| {
      var n := |images| - 1;
      assert images[..n][..i] == images[..i];
      SumWidthsPrefix(images[..n], i);
    } else {
      assert images[..i] == images;
    }
  }

  /** One more image widens the prefix by exactly that image's width. */
  lemma SumWidthsStep(images: seq<ImageSize>, i: nat)
    requires i < |images|
    ensures SumWidths(images[..i + 1]) == SumWidths(images[..i]) + images[i].width
  {
    assert images[..i + 1][..i] == images[..i];
  }

  /** `MaxHeight` is an upper bound of every height, and the least one:
      it is 0 for no images and otherwise one of the heights. */
  lemma {:induction false} MaxHeightIsMaximum(images: seq<ImageSize>)
    ensures forall i :: 0 <= i < |images| ==> images[i].height <= MaxHeight(images)
    ensures |images| == 0 ==> MaxHeight(images) == 0
    ensures |images| > 0 ==> exists i :: 0 <= i < |images| && images[i].height == MaxHeight(images)
  {
    if |images| > 0 {
      var n := |images| - 1;
      MaxHeightIsMaximum(images[..n]);
      if MaxHeight(images) == images[n].height {
        assert images[n].height == MaxHeight(images);
      } else {
        var k :| 0 <= k < n && images[..n][k].height == MaxHeight(images[..n]);
        assert images[k].height == MaxHeight(images);
      }
    }
  }

  /** Consecutive items touch: item i+1 starts where item i ends. */
  lemma PackAdjacent(images: seq<ImageSize>, i: nat)
    requires Pack(images).Ok? && i + 1 < |images|
    ensures Pack(images).value.items[i + 1].x
            == Pack(images).value.items[i].x + Pack(images).value.items[i].width
  {
    SumWidthsStep(images, i);
  }

  /** Items never overlap: every earlier item ends at or before a later one starts. */
  lemma PackDisjoint(images: seq<ImageSize>, i: nat, j: nat)
    requires Pack(images).Ok? && i < j < |images|
    ensures Pack(images).value.items[i].x + Pack(images).value.items[i].width
            <= Pack(images).value.items[j].x
  {
    SumWidthsStep(images, i);
    assert images[..j][..i + 1] == images[..i + 1];
    SumWidthsPrefix(images[..j], i + 1);
  }

  /** Every item's rectangle lies inside the atlas texture. */
  predicate ItemsFit(a: TextureAtlas)
  {
    forall i :: 0 <= i < |a.items| ==>
      a.items[i].x + a.items[i].width <= a.width && a.items[i].y + a.items[i].height <= a.height
  }

  /** A texture the GPU accepts holding non-overlapping-in-x items: both
      dimensions are powers of two and every item fits inside. */
  predicate WellFormed(a: TextureAtlas)
  {
    IsPowerOf2(a.width) && IsPowerOf2(a.height) && ItemsFit(a)
  }

  /** Packing always produces a well-formed atlas. */
  lemma PackWellFormed(images: seq<ImageSize>)
    requires Pack(images).Ok?
    ensures WellFormed(Pack(images).value)
  {
    var a := Pack(images).value;
    MaxHeightIsMaximum(images);
    forall i | 0 <= i < |a.items|
      ensures a.items[i].x + a.items[i].width <= a.width && a.items[i].y + a.items[i].height <= a.height
    {
      SumWidthsStep(images, i);
      SumWidthsPrefix(images, i + 1);
    }
  }

  /** No images pack to no items in a 1x1 texture, unlike the 0x0
      `TextureAtlas::empty()`. */
  lemma PackNoImages()
    ensures Pack([]) == Ok(TextureAtlas([], 1, 1))
    ensures Pack([]).value != Empty()
  {
  }

  /** Six 64x64 images pack into a 512x64 texture, at x = 0, 64, ..., 320. */
  lemma PackSixSquares()
    ensures var images := seq(6, _ => ImageSize(64, 64));
            && Pack(images).Ok?
            && Pack(images).value.width == 512
            && Pack(images).value.height == 64
            && forall i :: 0 <= i < 6 ==> Pack(images).value.items[i].x == 64 * i
  {
    var images := seq(6, _ => ImageSize(64, 64));
    SixSquaresPrefixSums(images);
    assert SumWidths(images) == 384 by {
      assert images[..6] == images;
    }
    MaxHeightIsMaximum(images);
    assert MaxHeight(images) == 64;
    Pow2IsPowerOf2(9);
    Pow2IsPowerOf2(6);
    assert Pow2(6) == 64 && Pow2(9) == 512 by {
      Pow2Add(3, 3);
      Pow2Add(3, 6);
    }
    MakePower2Unique(384, 512);
    MakePower2FixesPowers(64);
    assert PlacedInRow(Pack(images).value.items, images);
  }

  /** Before the `i`-th of six 64-wide images the running width is `64 * i`. */
  lemma SixSquaresPrefixSums(images: seq<ImageSize>)
    requires images == seq(6, _ => ImageSize(64, 64))
    ensures forall i :: 0 <= i <= 6 ==> SumWidths(images[..i]) == 64 * i
  {
    assert SumWidths(images[..0]) == 0 by {
      assert images[..0] == [];
    }
    SumWidthsStep(images, 0);
    SumWidthsStep(images, 1);
    SumWidthsStep(images, 2);
    SumWidthsStep(images, 3);
    SumWidthsStep(images, 4);
    SumWidthsStep(images, 5);
  }
}
