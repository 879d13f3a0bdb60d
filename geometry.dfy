/**
 * The thumbnail-size and scale mapping of `generate_initial_mask`: the slide's
 * full-resolution dimensions are floor-divided by the configured scale to ask
 * for a thumbnail, and the realised per-axis scale factor is recomputed from
 * the shape of the thumbnail actually returned.
 */
module Geometry {
  import opened Options

  newtype byte = x: int | 0 <= x < 256

  /** One thumbnail pixel; the thumbnail the slide library renders is RGB. */
  datatype Rgb = Rgb(red: byte, green: byte, blue: byte)

  /** A thumbnail as a row-major array: `t[row][col]`, like the numpy array
      built from the rendered image. */
  type Thumbnail = seq<seq<Rgb>>

  /** A tissue validity mask, row-major like the thumbnail it is built from. */
  type Mask = seq<seq<bool>>

  /** `slide.dimensions`: full-resolution width and height in pixels. */
  datatype Dims = Dims(width: nat, height: nat)

  /** The `(width, height)` size handed to the thumbnail renderer. */
  datatype Size = Size(width: int, height: int)

  /** A numpy shape: `shape[0]` is the number of rows, `shape[1]` of columns. */
  datatype Shape = Shape(rows: nat, cols: nat)

  /** The realised scale factor `(sx, sy)`: slide pixels per thumbnail pixel. */
  datatype RealScale = RealScale(sx: real, sy: real)

  /** What `generate_initial_mask` returns: the mask and the realised scale. */
  datatype InitialMask = InitialMask(mask: Mask, scale: RealScale)

  /** The slide-decoding library, which is not modelled: the dimensions of the
      slide at a path and the thumbnail it renders for a requested size. */
  datatype Slides = Slides(dimensions: string -> Dims, thumbnail: (string, Size) -> Thumbnail)

  /** The two divisions of `generate_initial_mask` that can raise
      ZeroDivisionError: the floor division by the scale, and the division by
      a thumbnail side. */
  datatype GeometryError = ScaleIsZero | EmptyThumbnail

  /** Python's floor division `a // b`; Dafny's `/` is Euclidean, which agrees
      with it only for a positive divisor. */
  function FloorDiv(a: int, b: int): (q: int)
    requires b != 0
    ensures b > 0 ==> q * b <= a < q * b + b
    ensures b < 0 ==> q * b + b < a <= q * b
  {
    if b > 0 then a / b
    else
      var q := (-a) / (-b);
      assert (-b) * q <= -a < (-b) * q + (-b);
      q
  }

  /** Python defines `a // b` as the floor of the exact quotient. */
  lemma FloorDivIsFloorOfQuotient(a: int, b: int)
    requires b != 0
    ensures FloorDiv(a, b) == (a as real / b as real).Floor
  {
    var q := FloorDiv(a, b);
    if b > 0 {
      QuotientBetween(a, b, q);
    } else {
      assert q * (-b) <= -a < q * (-b) + (-b);
      QuotientBetween(-a, -b, q);
      assert (-a) as real / (-b) as real == a as real / b as real;
    }
    FloorIsUnique(a as real / b as real, q);
  }

  /** An integer `q` with `q*b <= a < q*b + b` lies within one below the
      exact quotient. */
  lemma QuotientBetween(a: int, b: int, q: int)
    requires b > 0 && q * b <= a < q * b + b
    ensures q as real <= a as real / b as real < (q + 1) as real
  {
    var x := a as real / b as real;
    var c := b as real;
    assert x * c == a as real;
    assert (q * b) as real == q as real * c;
    assert (q * b + b) as real == (q + 1) as real * c;
    MulMonotone(q as real, x, c);
    MulMonotone(x, (q + 1) as real, c);
  }

  /** Multiplying by a positive factor keeps the order of two reals. */
  lemma MulMonotone(u: real, v: real, c: real)
    requires c > 0.0
    ensures u <= v <==> u * c <= v * c
    ensures u < v <==> u * c < v * c
  {
    if u < v {
      assert (v - u) * c > 0.0;
    } else if v < u {
      assert (u - v) * c > 0.0;
    }
  }

  lemma FloorIsUnique(x: real, q: int)
    requires q as real <= x < (q + 1) as real
    ensures x.Floor == q
  {
  }

  /** The numpy shape of a thumbnail array (patch_miner.py:39): the number of
      rows, and the length of a row, which is every row's length when the
      array is rectangular. */
  function ShapeOf<T>(t: seq<seq<T>>): (r: Shape)
    ensures r.rows == |t|
    ensures (forall i, j :: 0 <= i < j < |t| ==> |t[i]| == |t[j]|) ==>
              forall i :: 0 <= i < |t| ==> |t[i]| == r.cols
  {
    Shape(|t|, if |t| == 0 then 0 else |t[0]|)
  }

  /** The size `(W // scale, H // scale)` requested from the renderer
      (patch_miner.py:38); the floor division raises when `scale` is zero. */
  function RequestedSize(dims: Dims, scale: int): (r: Result<Size, GeometryError>)
    ensures r.Err? <==> scale == 0
    ensures r.Err? ==> r.error == ScaleIsZero
    ensures r.Ok? ==> (r.value.width == (dims.width as real / scale as real).Floor
                       && r.value.height == (dims.height as real / scale as real).Floor)
  {
    if scale == 0 then Err(ScaleIsZero)
    else
      FloorDivIsFloorOfQuotient(dims.width, scale);
      FloorDivIsFloorOfQuotient(dims.height, scale);
      Ok(Size(FloorDiv(dims.width, scale), FloorDiv(dims.height, scale)))
  }

  /** For a scale of at least one, each requested side is the largest number
      of whole `scale` steps that fit in the slide's side, so it is at most
      that side. */
  lemma RequestedSizeWithinSlide(dims: Dims, scale: int)
    requires scale >= 1
    ensures var size := RequestedSize(dims, scale).value;
            && 0 <= size.width <= dims.width && 0 <= size.height <= dims.height
            && size.width * scale <= dims.width < (size.width + 1) * scale
            && size.height * scale <= dims.height < (size.height + 1) * scale
  {
    var size := RequestedSize(dims, scale).value;
    assert size == Size(FloorDiv(dims.width, scale), FloorDiv(dims.height, scale));
    QuotientBelowDividend(dims.width, scale);
    QuotientBelowDividend(dims.height, scale);
  }

  lemma QuotientBelowDividend(a: nat, b: int)
    requires b >= 1
    ensures 0 <= FloorDiv(a, b) <= a
  {
    var q := FloorDiv(a, b);
    assert q == a / b;
    assert q * b <= a;
    NonNegMulAtLeast(q, b);
  }

  lemma NonNegMulAtLeast(q: int, b: int)
    requires b >= 1
    ensures q >= 0 ==> q <= q * b
  {
    if q >= 0 {
      assert q * b == q + q * (b - 1);
    }
  }

  /** `(W / shape[1], H / shape[0])` (patch_miner.py:39): exact division, which
      raises when either side of the thumbnail is empty. */
  function RealisedScale(dims: Dims, shape: Shape): (r: Result<RealScale, GeometryError>)
    ensures r.Ok? <==> shape.rows > 0 && shape.cols > 0
    ensures r.Err? ==> r.error == EmptyThumbnail
    ensures r.Ok? ==> (shape.cols as real * r.value.sx == dims.width as real
                       && shape.rows as real * r.value.sy == dims.height as real)
  {
    if shape.cols == 0 || shape.rows == 0 then Err(EmptyThumbnail)
    else Ok(RealScale(dims.width as real / shape.cols as real, dims.height as real / shape.rows as real))
  }

  /** A side of the thumbnail no longer than the slide's side gives a factor
      of at least one, and conversely. */
  lemma ScaleAtLeastOne(dims: Dims, shape: Shape)
    requires shape.rows > 0 && shape.cols > 0
    ensures RealisedScale(dims, shape).value.sx >= 1.0 <==> shape.cols <= dims.width
    ensures RealisedScale(dims, shape).value.sy >= 1.0 <==> shape.rows <= dims.height
  {
    var s := RealisedScale(dims, shape).value;
    RatioAtLeastOne(dims.width as real, shape.cols as real, s.sx);
    RatioAtLeastOne(dims.height as real, shape.rows as real, s.sy);
  }

  lemma RatioAtLeastOne(whole: real, part: real, ratio: real)
    requires part > 0.0 && part * ratio == whole
    ensures ratio >= 1.0 <==> part <= whole
  {
    MulMonotone(1.0, ratio, part);
  }

  /** When the renderer returns exactly the requested width, the realised
      factor equals the configured scale only if the scale divides the slide
      width: otherwise reusing `scale` would misplace mask pixels. */
  lemma ConfiguredScaleExactOnlyWhenDivisible(width: nat, scale: int, cols: nat)
    requires scale >= 1 && cols > 0 && cols == FloorDiv(width, scale)
    ensures width as real / cols as real == scale as real <==> width % scale == 0
  {
    var sx := width as real / cols as real;
    assert cols as real * sx == width as real;
    assert width == cols * scale + width % scale;
    if sx == scale as real {
      assert (cols * scale) as real == cols as real * scale as real;
      assert width == cols * scale;
    }
    if width % scale == 0 {
      assert width as real == cols as real * scale as real;
      MulMonotone(sx, scale as real, cols as real);
      MulMonotone(scale as real, sx, cols as real);
    }
  }

  /** `generate_initial_mask(slide_path, scale)` (patch_miner.py:26-41): ask
      for the floor-divided thumbnail, recompute the factor from its shape and
      return the tissue mask of that thumbnail. */
  function GenerateInitialMask(slides: Slides, path: string, scale: int, tissueMask: Thumbnail -> Mask)
    : (r: Result<InitialMask, GeometryError>)
    ensures scale == 0 ==> r == Err(ScaleIsZero)
    ensures scale != 0 ==>
      var dims := slides.dimensions(path);
      var t := slides.thumbnail(path, RequestedSize(dims, scale).value);
      && (r.Ok? <==> ShapeOf(t).rows > 0 && ShapeOf(t).cols > 0)
      && (r.Err? ==> r.error == EmptyThumbnail)
      && (r.Ok? ==> (r.value.mask == tissueMask(t)
                     && RealisedScale(dims, ShapeOf(t)) == Ok(r.value.scale)))
  {
    var dims := slides.dimensions(path);
    match RequestedSize(dims, scale)
    case Err(e) => Err(e)
    case Ok(size) =>
      var thumbnail := slides.thumbnail(path, size);
      match RealisedScale(dims, ShapeOf(thumbnail))
      case Err(e) => Err(e)
      case Ok(realScale) => Ok(InitialMask(tissueMask(thumbnail), realScale))
  }

  /** The tissue detector returns a mask with the shape of its thumbnail. */
  ghost predicate PreservesShape(tissueMask: Thumbnail -> Mask)
  {
    forall t :: ShapeOf(tissueMask(t)) == ShapeOf(t)
  }

  /** With a shape-preserving tissue detector the returned factor is exactly
      the one realised from the mask's own shape, so by `RealisedScale` the
      mask scaled by `(sx, sy)` spans the whole slide. */
  lemma MaskSpansSlide(slides: Slides, path: string, scale: int, tissueMask: Thumbnail -> Mask)
    requires PreservesShape(tissueMask)
    requires GenerateInitialMask(slides, path, scale, tissueMask).Ok?
    ensures var im := GenerateInitialMask(slides, path, scale, tissueMask).value;
            RealisedScale(slides.dimensions(path), ShapeOf(im.mask)) == Ok(im.scale)
  {
    assert scale != 0;
    var dims := slides.dimensions(path);
    var t := slides.thumbnail(path, RequestedSize(dims, scale).value);
    var im := GenerateInitialMask(slides, path, scale, tissueMask).value;
    assert im.mask == tissueMask(t);
    assert ShapeOf(im.mask) == ShapeOf(t);
  }
}
