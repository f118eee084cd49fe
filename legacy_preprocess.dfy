/**
 * `Resize` of `hocrox/layer/preprocessing/resize.py`: an older stand-alone
 * class that resizes every image to `dim` with one of three interpolations.
 *
 * As written, `dim` is refused only when both sides are non-positive
 * (`dim[0] <= 0 and dim[1] <= 0`), so `(0, 100)` passes; `DimCheckAsWritten`
 * is that check and `DimCheck` the one that refuses any non-positive side,
 * which `New` uses.
 */
module LegacyResize {
  import opened Wrappers
  import opened Python
  import opened Images
  import opened Randomness
  import opened LayerBase
  import opened LayerValidity
  import opened Template
  import opened Pipeline
  import opened Layers

  datatype Resize = Resize(layer: Layer, dim: Value, interpolation: int)

  /** The parents `Resize` lists. */
  const ResizeParents: seq<string> :=
    ["resize", "greyscale", "rotate", "crop", "padding", "save", "horizontal_flip", "vertical_flip"]

  /**
   * `if dim[0] <= 0 and dim[1] <= 0: raise` on a tuple: indexing an empty
   * tuple raises `IndexError`, comparing a non-number with 0 raises
   * `TypeError`, and the second side is looked at only when the first is
   * non-positive.
   */
  function DimCheckAsWritten(dim: Value): (r: Outcome<ConfigError>)
    requires dim.TupleV?
  {
    if |dim.items| == 0 then Fail(TupleIndexError)
    else if !IsNumber(dim.items[0]) then Fail(ComparisonTypeError)
    else if AsReal(dim.items[0]) > 0.0 then Pass
    else if |dim.items| < 2 then Fail(TupleIndexError)
    else if !IsNumber(dim.items[1]) then Fail(ComparisonTypeError)
    else if AsReal(dim.items[1]) <= 0.0 then Fail(InvalidArgument("dim", dim))
    else Pass
  }

  /** `if dim[0] <= 0 or dim[1] <= 0: raise`: both sides must be positive numbers. */
  function DimCheck(dim: Value): (r: Outcome<ConfigError>)
    requires dim.TupleV?
    ensures r.Pass? <==>
      |dim.items| >= 2 && IsNumber(dim.items[0]) && IsNumber(dim.items[1]) &&
      AsReal(dim.items[0]) > 0.0 && AsReal(dim.items[1]) > 0.0
  {
    if |dim.items| == 0 then Fail(TupleIndexError)
    else if !IsNumber(dim.items[0]) then Fail(ComparisonTypeError)
    else if AsReal(dim.items[0]) <= 0.0 then Fail(InvalidArgument("dim", dim))
    else if |dim.items| < 2 then Fail(TupleIndexError)
    else if !IsNumber(dim.items[1]) then Fail(ComparisonTypeError)
    else if AsReal(dim.items[1]) <= 0.0 then Fail(InvalidArgument("dim", dim))
    else Pass
  }

  /**
   * The corrected check refuses everything the written one refuses, and the
   * written one lets through a size with a zero width, and a one-element
   * tuple, both of which the corrected check refuses.
   */
  lemma DimCheckAsWrittenIsWeaker(dim: Value)
    requires dim.TupleV?
    ensures DimCheck(dim).Pass? ==> DimCheckAsWritten(dim).Pass?
    ensures DimCheckAsWritten(TupleV([IntV(0), IntV(100)])).Pass?
    ensures DimCheck(TupleV([IntV(0), IntV(100)])) == Fail(InvalidArgument("dim", TupleV([IntV(0), IntV(100)])))
    ensures DimCheckAsWritten(TupleV([IntV(100)])).Pass?
    ensures DimCheck(TupleV([IntV(100)])) == Fail(TupleIndexError)
  {
  }

  /** `interpolation in ("INTER_LINEAR", "INTER_AREA", "INTER_CUBIC")` */
  predicate ValidInterpolation(interpolation: Value)
  {
    interpolation == StrV("INTER_LINEAR") || interpolation == StrV("INTER_AREA") || interpolation == StrV("INTER_CUBIC")
  }

  /** The OpenCV constant each accepted name selects. */
  function InterpolationCode(interpolation: Value): (code: int)
    requires ValidInterpolation(interpolation)
    ensures code in {INTER_LINEAR, INTER_AREA, INTER_CUBIC}
  {
    if interpolation == StrV("INTER_LINEAR") then INTER_LINEAR
    else if interpolation == StrV("INTER_AREA") then INTER_AREA
    else INTER_CUBIC
  }

  /** Each accepted name selects its own code, and it is the constant of the same name. */
  lemma InterpolationCodes(a: Value, b: Value)
    requires ValidInterpolation(a) && ValidInterpolation(b)
    ensures InterpolationCode(a) == InterpolationCode(b) <==> a == b
    ensures InterpolationCode(StrV("INTER_LINEAR")) == INTER_LINEAR
    ensures InterpolationCode(StrV("INTER_AREA")) == INTER_AREA
    ensures InterpolationCode(StrV("INTER_CUBIC")) == INTER_CUBIC
  {
  }

  /** `f"Dim: {dim}, Interpolation: {interpolation}"`, the interpolation shown as its code. */
  function ResizeParameters(dim: Value, code: int): string
  {
    "Dim: " + Show(dim) + ", Interpolation: " + IntToString(code)
  }

  /** `Resize.__init__` with the corrected or the written check on `dim`, then the interpolation, then the name. */
  function NewWith(corrected: bool, dim: Value, interpolation: Value, name: Value): (r: Result<Resize, ConfigError>)
  {
    if !dim.TupleV? then Failure(InvalidArgument("dim", dim))
    else if corrected && DimCheck(dim).Fail? then Failure(DimCheck(dim).error)
    else if !corrected && DimCheckAsWritten(dim).Fail? then Failure(DimCheckAsWritten(dim).error)
    else if !ValidInterpolation(interpolation) then Failure(InvalidArgument("interpolation", interpolation))
    else if !FalsyOrStr(name) then Failure(InvalidArgument("name", name))
    else
      var code := InterpolationCode(interpolation);
      Success(Resize(Standalone(name, "Resize Layer", "resize", Types(ResizeParents), ResizeParameters(dim, code)), dim, code))
  }

  /** `Resize.__init__` as written. */
  function NewAsWritten(dim: Value, interpolation: Value, name: Value): (r: Result<Resize, ConfigError>)
    ensures r.Success? <==>
      dim.TupleV? && DimCheckAsWritten(dim).Pass? && ValidInterpolation(interpolation) && FalsyOrStr(name)
  {
    NewWith(false, dim, interpolation, name)
  }

  /** `Resize.__init__` with the corrected size check. */
  function New(dim: Value, interpolation: Value, name: Value): (r: Result<Resize, ConfigError>)
    ensures r.Success? <==> dim.TupleV? && DimCheck(dim).Pass? && ValidInterpolation(interpolation) && FalsyOrStr(name)
    ensures !dim.TupleV? ==> r == Failure(InvalidArgument("dim", dim))
    ensures dim.TupleV? && DimCheck(dim).Pass? && !ValidInterpolation(interpolation) ==>
      r == Failure(InvalidArgument("interpolation", interpolation))
    ensures r.Success? ==>
      && |dim.items| >= 2 && AsReal(dim.items[0]) > 0.0 && AsReal(dim.items[1]) > 0.0
      && r.value.dim == dim && r.value.interpolation == InterpolationCode(interpolation)
      && r.value.layer.name == (if Truthy(name) then name.s else "Resize Layer")
      && r.value.layer.layerType == "resize" && r.value.layer.parents == Types(ResizeParents)
      && r.value.layer.parameters == ResizeParameters(dim, InterpolationCode(interpolation))
    ensures r.Success? ==> r == NewAsWritten(dim, interpolation, name)
  {
    if !dim.TupleV? then NewWith(true, dim, interpolation, name)
    else
      DimCheckAsWrittenIsWeaker(dim);
      NewWith(true, dim, interpolation, name)
  }

  function Op(c: Resize, lib: Library): Image -> Image
  {
    (img: Image) => lib.resize(img, c.dim, IntV(c.interpolation))
  }

  /** `apply_layer(images)`: every image resized, none dropped, in order. */
  function Output(c: Resize, images: seq<Image>, lib: Library): (out: seq<Image>)
    ensures |out| == |images|
    ensures forall k :: 0 <= k < |images| ==> out[k] == lib.resize(images[k], c.dim, IntV(c.interpolation))
  {
    MapLength(images, Op(c, lib), false);
    MapOut(images, Op(c, lib), false)
  }

  method Apply(c: Resize, images: seq<Image>, lib: Library) returns (out: seq<Image>)
    ensures out == Output(c, images, lib)
  {
    out := ApplyMap(images, Op(c, lib), false);
  }

  function AsStage(c: Resize): (s: Stage)
    ensures s.attrs == StandaloneAttributes && s.layer == c.layer && WritesNothing(s)
  {
    MapStage(StandaloneAttributes, c.layer, (images: seq<Image>, lib: Library, oracle: Oracle) => Output(c, images, lib))
  }
}

/**
 * `Crop` of `hocrox/layer/preprocessing/crop.py`: every image cut to
 * `image[x:x+w, y:y+h]`, so `x` and `w` run along the rows and `y` and `h`
 * along the columns; slices clamp to the image and empty crops are kept.
 */
module LegacyCrop {
  import opened Wrappers
  import opened Python
  import opened Images
  import opened Randomness
  import opened LayerBase
  import opened LayerValidity
  import opened Template
  import opened Pipeline
  import opened Layers

  /** The bounds are kept as given: a falsy value that is not an int passes the constructor. */
  datatype Crop = Crop(layer: Layer, x: Value, y: Value, w: Value, h: Value)

  const CropParents: seq<string> := ["resize", "greyscale", "rotate", "crop", "padding", "save", "horizontal_flip"]

  /** `not (v and not isinstance(v, int))` */
  predicate ValidBound(v: Value)
  {
    !(Truthy(v) && !IsInt(v))
  }

  /** `f"X: {x}, Y: {y}, W: {w}, H: {h}"` */
  function CropParameters(x: Value, y: Value, w: Value, h: Value): string
  {
    "X: " + Show(x) + ", Y: " + Show(y) + ", W: " + Show(w) + ", H: " + Show(h)
  }

  function New(x: Value, y: Value, w: Value, h: Value, name: Value): (r: Result<Crop, ConfigError>)
    ensures r.Success? <==> ValidBound(x) && ValidBound(y) && ValidBound(w) && ValidBound(h) && FalsyOrStr(name)
    ensures !ValidBound(x) ==> r == Failure(InvalidArgument("x", x))
    ensures ValidBound(x) && !ValidBound(y) ==> r == Failure(InvalidArgument("y", y))
    ensures ValidBound(x) && ValidBound(y) && !ValidBound(w) ==> r == Failure(InvalidArgument("w", w))
    ensures ValidBound(x) && ValidBound(y) && ValidBound(w) && !ValidBound(h) ==> r == Failure(InvalidArgument("h", h))
    ensures r.Success? ==>
      && r.value.x == x && r.value.y == y && r.value.w == w && r.value.h == h
      && r.value.layer.name == (if Truthy(name) then name.s else "Crop Layer")
      && r.value.layer.layerType == "crop" && r.value.layer.parents == Types(CropParents)
      && Description(r.value.layer).1 == CropParameters(x, y, w, h)
  {
    if !ValidBound(x) then Failure(InvalidArgument("x", x))
    else if !ValidBound(y) then Failure(InvalidArgument("y", y))
    else if !ValidBound(w) then Failure(InvalidArgument("w", w))
    else if !ValidBound(h) then Failure(InvalidArgument("h", h))
    else if !FalsyOrStr(name) then Failure(InvalidArgument("name", name))
    else Success(Crop(Standalone(name, "Crop Layer", "crop", Types(CropParents), CropParameters(x, y, w, h)), x, y, w, h))
  }

  /** `image[x:x + w, y:y + h]` with int bounds. */
  function Cropped(img: Image, x: int, y: int, w: int, h: int): Image
  {
    SliceColumns(SliceRows(img, x, x + w), y, y + h)
  }

  /** All four bounds are ints, so `x + w` and `y + h` are slice bounds. */
  predicate IntBounds(c: Crop)
  {
    IsInt(c.x) && IsInt(c.y) && IsInt(c.w) && IsInt(c.h)
  }

  function Op(c: Crop): Image -> Image
    requires IntBounds(c)
  {
    (img: Image) => Cropped(img, AsInt(c.x), AsInt(c.y), AsInt(c.w), AsInt(c.h))
  }

  /**
   * `apply_layer(images)`: a falsy bound that is not an int (`None`, `0.0`,
   * `""`) passed the constructor, and raises once there is an image to slice.
   */
  function Output(c: Crop, images: seq<Image>): (r: Result<seq<Image>, ExecError>)
    ensures r.Failure? <==> |images| > 0 && !IntBounds(c)
    ensures r.Failure? ==> r.error == SliceNotInt
    ensures r.Success? ==> |r.value| == |images|
    ensures r.Success? && IntBounds(c) ==>
      forall k :: 0 <= k < |images| ==> r.value[k] == Cropped(images[k], AsInt(c.x), AsInt(c.y), AsInt(c.w), AsInt(c.h))
  {
    if |images| == 0 then Success([])
    else if !IntBounds(c) then Failure(SliceNotInt)
    else
      MapLength(images, Op(c), false);
      Success(MapOut(images, Op(c), false))
  }

  method Apply(c: Crop, images: seq<Image>) returns (r: Result<seq<Image>, ExecError>)
    ensures r == Output(c, images)
  {
    if |images| == 0 {
      return Success([]);
    }
    if !IntBounds(c) {
      return Failure(SliceNotInt);
    }
    var out := ApplyMap(images, Op(c), false);
    return Success(out);
  }

  /**
   * A crop never grows an image, and a window that lies inside it is cut out
   * exactly: rows `x` to `x + w`, and in each of them columns `y` to `y + h`.
   */
  lemma CroppedWindow(img: Image, x: int, y: int, w: int, h: int)
    requires img.Pixels?
    ensures Cropped(img, x, y, w, h).Pixels?
    ensures |Cropped(img, x, y, w, h).rows| <= |img.rows|
    ensures 0 <= x && 0 <= w && x + w <= |img.rows| ==>
      && |Cropped(img, x, y, w, h).rows| == w
      && forall i :: 0 <= i < w ==> Cropped(img, x, y, w, h).rows[i] == Slice(img.rows[x + i], y, y + h)
    ensures 0 <= x && 0 <= w && x + w <= |img.rows| && 0 <= y && 0 <= h ==>
      forall i :: 0 <= i < w && y + h <= |img.rows[x + i]| ==> Cropped(img, x, y, w, h).rows[i] == img.rows[x + i][y..y + h]
  {
    var rows := SliceRows(img, x, x + w);
    assert |rows.rows| <= |img.rows|;
  }

  function AsStage(c: Crop): (s: Stage)
    ensures s.attrs == StandaloneAttributes && s.layer == c.layer && WritesNothing(s)
  {
    ResultStage(StandaloneAttributes, c.layer, (images: seq<Image>, lib: Library, oracle: Oracle) => Output(c, images))
  }
}

/** `Rotate` of `hocrox/layer/preprocessing/rotate.py`: every image rotated about its centre by a fixed angle. */
module LegacyRotate {
  import opened Wrappers
  import opened Python
  import opened Images
  import opened Randomness
  import opened LayerBase
  import opened LayerValidity
  import opened Template
  import opened Pipeline
  import opened Layers

  datatype Rotate = Rotate(layer: Layer, angle: real)

  const RotateParents: seq<string> := ["resize", "greyscale", "rotate", "crop", "padding", "save"]

  /** `isinstance(angle, int) or isinstance(angle, float)`, then the name. */
  function New(angle: Value, name: Value): (r: Result<Rotate, ConfigError>)
    ensures r.Success? <==> IsNumber(angle) && FalsyOrStr(name)
    ensures !IsNumber(angle) ==> r == Failure(InvalidArgument("angle", angle))
    ensures IsNumber(angle) && !FalsyOrStr(name) ==> r == Failure(InvalidArgument("name", name))
    ensures r.Success? ==>
      && r.value.angle == AsReal(angle)
      && r.value.layer.name == (if Truthy(name) then name.s else "Rotate Layer")
      && r.value.layer.layerType == "rotate" && r.value.layer.parents == Types(RotateParents)
      && Description(r.value.layer).1 == "Angle: " + Show(angle)
  {
    if !IsNumber(angle) then Failure(InvalidArgument("angle", angle))
    else if !FalsyOrStr(name) then Failure(InvalidArgument("name", name))
    else Success(Rotate(Standalone(name, "Rotate Layer", "rotate", Types(RotateParents), "Angle: " + Show(angle)), AsReal(angle)))
  }

  function Op(c: Rotate, lib: Library): Image -> Image
  {
    (img: Image) => lib.rotate(img, c.angle)
  }

  function Output(c: Rotate, images: seq<Image>, lib: Library): (out: seq<Image>)
    ensures |out| == |images|
    ensures forall k :: 0 <= k < |images| ==> out[k] == lib.rotate(images[k], c.angle)
  {
    MapLength(images, Op(c, lib), false);
    MapOut(images, Op(c, lib), false)
  }

  method Apply(c: Rotate, images: seq<Image>, lib: Library) returns (out: seq<Image>)
    ensures out == Output(c, images, lib)
  {
    out := ApplyMap(images, Op(c, lib), false);
  }

  function AsStage(c: Rotate): (s: Stage)
    ensures s.attrs == StandaloneAttributes && s.layer == c.layer && WritesNothing(s)
  {
    MapStage(StandaloneAttributes, c.layer, (images: seq<Image>, lib: Library, oracle: Oracle) => Output(c, images, lib))
  }
}

/**
 * The older stand-alone `Grayscale`, `HorizontalFlip` and `VerticalFlip` of
 * `hocrox/layer/preprocessing/`: the same operations as the newer classes,
 * with fixed default names, their own parent lists, and a plain map that
 * keeps every image.
 */
module LegacyPlainMaps {
  import opened Wrappers
  import opened Python
  import opened Images
  import opened Randomness
  import opened LayerBase
  import opened LayerValidity
  import opened Template
  import opened Pipeline
  import opened Layers
  import PlainMapLayers

  datatype LegacyMap = LegacyMap(layer: Layer, kind: PlainMapLayers.Kind)

  function DefaultNameOf(kind: PlainMapLayers.Kind): string
  {
    match kind
    case HorizontalFlip => "HorizontalFlip Layer"
    case VerticalFlip => "VerticalFlip Layer"
    case Grayscale => "Grayscale Layer"
  }

  /** The parents each class lists: only the grayscale one accepts `random_flip`, and the horizontal flip no random layer. */
  function ParentsOf(kind: PlainMapLayers.Kind): seq<string>
  {
    var common := ["resize", "greyscale", "rotate", "crop", "padding", "save", "horizontal_flip", "vertical_flip"];
    match kind
    case HorizontalFlip => common
    case VerticalFlip => common + ["random_rotate"]
    case Grayscale => common + ["random_rotate", "random_flip"]
  }

  function New(kind: PlainMapLayers.Kind, name: Value): (r: Result<LegacyMap, ConfigError>)
    ensures r.Success? <==> FalsyOrStr(name)
    ensures r.Failure? ==> r.error == InvalidArgument("name", name)
    ensures r.Success? ==>
      && r.value.kind == kind
      && r.value.layer.name == (if Truthy(name) then name.s else DefaultNameOf(kind))
      && r.value.layer.layerType == PlainMapLayers.TypeOf(kind) && r.value.layer.parents == Types(ParentsOf(kind))
      && Description(r.value.layer).1 == "-"
  {
    if !FalsyOrStr(name) then Failure(InvalidArgument("name", name))
    else Success(LegacyMap(Standalone(name, DefaultNameOf(kind), PlainMapLayers.TypeOf(kind), Types(ParentsOf(kind)), "-"), kind))
  }

  /** Which random layers each class may follow. */
  lemma RandomParents(c: LegacyMap)
    requires !c.layer.bypass && c.layer.parents == Types(ParentsOf(c.kind))
    ensures IsValidChild(c.layer, "random_rotate") <==> !c.kind.HorizontalFlip?
    ensures IsValidChild(c.layer, "random_flip") <==> c.kind.Grayscale?
    ensures !IsValidChild(c.layer, "read")
  {
    AcceptsListed(c.layer, ParentsOf(c.kind), "random_rotate");
    AcceptsListed(c.layer, ParentsOf(c.kind), "random_flip");
    AcceptsListed(c.layer, ParentsOf(c.kind), "read");
  }

  function Output(c: LegacyMap, images: seq<Image>, lib: Library): (out: seq<Image>)
    ensures |out| == |images|
    ensures forall k :: 0 <= k < |images| ==> out[k] == PlainMapLayers.Transformed(c.kind, lib, images[k])
  {
    MapLength(images, PlainMapLayers.Op(c.kind, lib), false);
    MapOut(images, PlainMapLayers.Op(c.kind, lib), false)
  }

  method Apply(c: LegacyMap, images: seq<Image>, lib: Library) returns (out: seq<Image>)
    ensures out == Output(c, images, lib)
  {
    out := ApplyMap(images, PlainMapLayers.Op(c.kind, lib), false);
  }

  /**
   * On inputs with no empty image and an operation that never empties one,
   * the older class and the newer one of the same kind return the same images.
   */
  lemma AgreesWithNewer(c: LegacyMap, d: PlainMapLayers.PlainMap, images: seq<Image>, lib: Library)
    requires c.kind == d.kind
    requires AllNonEmpty(images) && KeepsNonEmpty(PlainMapLayers.Op(c.kind, lib))
    ensures Output(c, images, lib) == PlainMapLayers.Output(d, images, lib)
  {
    MapNoDrop(images, PlainMapLayers.Op(c.kind, lib));
  }

  function AsStage(c: LegacyMap): (s: Stage)
    ensures s.attrs == StandaloneAttributes && s.layer == c.layer && WritesNothing(s)
  {
    MapStage(StandaloneAttributes, c.layer, (images: seq<Image>, lib: Library, oracle: Oracle) => Output(c, images, lib))
  }
}
