/**
 * `Padding` of `hocrox/layer/preprocessing/transformation/pading.py`: a
 * constant border of the given colour and widths around every non-empty
 * image; empty inputs and empty results are dropped.
 */
module PaddingLayer {
  import opened Wrappers
  import opened Python
  import opened Images
  import opened Randomness
  import opened LayerBase
  import opened LayerValidity
  import opened Template
  import opened Pipeline
  import opened Layers

  datatype Padding = Padding(layer: Layer, top: Value, bottom: Value, left: Value, right: Value, color: Value)

  /** `not (side and not isinstance(side, int))`: a falsy value such as 0 or `None` passes. */
  predicate ValidSide(side: Value)
  {
    !(Truthy(side) && !IsInt(side))
  }

  /** `isinstance(color, list) and len(color) == 3` */
  predicate ValidColor(color: Value)
  {
    color.ListV? && |color.items| == 3
  }

  /** `f"Top: {top}, Bottom: {bottom}, Left: {left}, Right: {right}"`: the colour is not shown. */
  function PaddingParameters(top: Value, bottom: Value, left: Value, right: Value): string
  {
    "Top: " + Show(top) + ", Bottom: " + Show(bottom) + ", Left: " + Show(left) + ", Right: " + Show(right)
  }

  /** `Padding.__init__`: the four sides in order, then the colour, then the name. */
  function New(top: Value, bottom: Value, left: Value, right: Value, color: Value, name: Value, standard: seq<Value>)
    : (r: Result<Padding, ConfigError>)
    ensures r.Success? <==>
      ValidSide(top) && ValidSide(bottom) && ValidSide(left) && ValidSide(right) && ValidColor(color) && FalsyOrStr(name)
    ensures !ValidSide(top) ==> r == Failure(InvalidArgument("top", top))
    ensures ValidSide(top) && !ValidSide(bottom) ==> r == Failure(InvalidArgument("bottom", bottom))
    ensures ValidSide(top) && ValidSide(bottom) && !ValidSide(left) ==> r == Failure(InvalidArgument("left", left))
    ensures ValidSide(top) && ValidSide(bottom) && ValidSide(left) && !ValidSide(right) ==>
      r == Failure(InvalidArgument("right", right))
    ensures ValidSide(top) && ValidSide(bottom) && ValidSide(left) && ValidSide(right) && !ValidColor(color) ==>
      r == Failure(InvalidArgument("color", color))
    ensures r.Success? ==>
      && r.value.top == top && r.value.bottom == bottom && r.value.left == left && r.value.right == right
      && r.value.color == color
      && r.value.layer.layerType == "padding" && r.value.layer.parents == standard
      && r.value.layer.parameters == PaddingParameters(top, bottom, left, right)
  {
    if !ValidSide(top) then Failure(InvalidArgument("top", top))
    else if !ValidSide(bottom) then Failure(InvalidArgument("bottom", bottom))
    else if !ValidSide(left) then Failure(InvalidArgument("left", left))
    else if !ValidSide(right) then Failure(InvalidArgument("right", right))
    else if !ValidColor(color) then Failure(InvalidArgument("color", color))
    else
      var layer :- Make(name, "padding", standard, PaddingParameters(top, bottom, left, right));
      Success(Padding(layer, top, bottom, left, right, color))
  }

  /** Zero and `None` are accepted as widths; a float or a string is not; a colour needs exactly three entries. */
  lemma SideExamples()
    ensures ValidSide(IntV(0)) && ValidSide(NoneV) && ValidSide(IntV(10))
    ensures !ValidSide(FloatV(1.5, "1.5")) && !ValidSide(StrV("10"))
    ensures ValidColor(ListV([IntV(255), IntV(255), IntV(255)])) && !ValidColor(TupleV([IntV(0), IntV(0), IntV(0)]))
    ensures !ValidColor(ListV([IntV(0), IntV(0)]))
  {
  }

  function Op(c: Padding, lib: Library): Image -> Image
  {
    (img: Image) => lib.copyMakeBorder(img, c.top, c.bottom, c.left, c.right, c.color)
  }

  function Output(c: Padding, images: seq<Image>, lib: Library): (out: seq<Image>)
    ensures |out| <= |images|
    ensures forall k :: 0 <= k < |out| ==> !IsEmpty(out[k])
  {
    MapLength(images, Op(c, lib), true);
    MapNonEmpty(images, Op(c, lib));
    MapOut(images, Op(c, lib), true)
  }

  method Apply(c: Padding, images: seq<Image>, lib: Library) returns (out: seq<Image>)
    ensures out == Output(c, images, lib)
  {
    out := ApplyMap(images, Op(c, lib), true);
  }

  /** Every image out is the padding of a non-empty image in; with nothing to drop, one per input, in order. */
  lemma OutputImages(c: Padding, images: seq<Image>, lib: Library)
    ensures forall k :: 0 <= k < |Output(c, images, lib)| ==> FromInput(Output(c, images, lib)[k], images, Op(c, lib), true)
    ensures AllNonEmpty(images) && KeepsNonEmpty(Op(c, lib)) ==>
      |Output(c, images, lib)| == |images| &&
      forall k :: 0 <= k < |images| ==>
        Output(c, images, lib)[k] == lib.copyMakeBorder(images[k], c.top, c.bottom, c.left, c.right, c.color)
  {
    MapOrigin(images, Op(c, lib), true);
    if AllNonEmpty(images) && KeepsNonEmpty(Op(c, lib)) {
      MapKeepsAll(images, Op(c, lib));
    }
  }

  function AsStage(c: Padding): (s: Stage)
    ensures IsValidLayer(s.attrs) && s.layer == c.layer && WritesNothing(s)
  {
    SubclassesAreValid();
    MapStage(SubclassAttributes, c.layer, (images: seq<Image>, lib: Library, oracle: Oracle) => Output(c, images, lib))
  }
}

/**
 * `Convolution` of `hocrox/layer/preprocessing/transformation/convolution.py`:
 * `cv2.filter2D` with the given depth and kernel. It registers itself under
 * the type `crop`, so every adjacency check treats it as a crop layer.
 */
module ConvolutionLayer {
  import opened Wrappers
  import opened Python
  import opened Images
  import opened Randomness
  import opened LayerBase
  import opened LayerValidity
  import opened Template
  import opened Pipeline
  import opened Layers

  datatype Convolution = Convolution(layer: Layer, ddepth: int, kernel: Value)

  /** `f"Ddepth: {ddepth}, Kernel: {kernel}"` */
  function ConvolutionParameters(ddepth: Value, kernel: Value): string
  {
    "Ddepth: " + Show(ddepth) + ", Kernel: " + Show(kernel)
  }

  /** `Convolution.__init__`: `ddepth` must be an int and `kernel` a NumPy array. */
  function New(ddepth: Value, kernel: Value, name: Value, standard: seq<Value>): (r: Result<Convolution, ConfigError>)
    ensures r.Success? <==> IsInt(ddepth) && kernel.ArrayV? && FalsyOrStr(name)
    ensures !IsInt(ddepth) ==> r == Failure(InvalidArgument("ddepth", ddepth))
    ensures IsInt(ddepth) && !kernel.ArrayV? ==> r == Failure(InvalidArgument("kernel", kernel))
    ensures r.Success? ==>
      && r.value.ddepth == AsInt(ddepth) && r.value.kernel == kernel
      && r.value.layer.layerType == "crop" && r.value.layer.parents == standard
      && r.value.layer.parameters == ConvolutionParameters(ddepth, kernel)
  {
    if !IsInt(ddepth) then Failure(InvalidArgument("ddepth", ddepth))
    else if !kernel.ArrayV? then Failure(InvalidArgument("kernel", kernel))
    else
      var layer :- Make(name, "crop", standard, ConvolutionParameters(ddepth, kernel));
      Success(Convolution(layer, AsInt(ddepth), kernel))
  }

  function Op(c: Convolution, lib: Library): Image -> Image
  {
    (img: Image) => lib.filter2D(img, c.ddepth, c.kernel)
  }

  function Output(c: Convolution, images: seq<Image>, lib: Library): (out: seq<Image>)
    ensures |out| <= |images|
    ensures forall k :: 0 <= k < |out| ==> !IsEmpty(out[k])
  {
    MapLength(images, Op(c, lib), true);
    MapNonEmpty(images, Op(c, lib));
    MapOut(images, Op(c, lib), true)
  }

  method Apply(c: Convolution, images: seq<Image>, lib: Library) returns (out: seq<Image>)
    ensures out == Output(c, images, lib)
  {
    out := ApplyMap(images, Op(c, lib), true);
  }

  /** Every image out is the filtering of a non-empty image in; with nothing to drop, one per input, in order. */
  lemma OutputImages(c: Convolution, images: seq<Image>, lib: Library)
    ensures forall k :: 0 <= k < |Output(c, images, lib)| ==> FromInput(Output(c, images, lib)[k], images, Op(c, lib), true)
    ensures AllNonEmpty(images) && KeepsNonEmpty(Op(c, lib)) ==>
      |Output(c, images, lib)| == |images| &&
      forall k :: 0 <= k < |images| ==> Output(c, images, lib)[k] == lib.filter2D(images[k], c.ddepth, c.kernel)
  {
    MapOrigin(images, Op(c, lib), true);
    if AllNonEmpty(images) && KeepsNonEmpty(Op(c, lib)) {
      MapKeepsAll(images, Op(c, lib));
    }
  }

  function AsStage(c: Convolution): (s: Stage)
    ensures IsValidLayer(s.attrs) && s.layer == c.layer && WritesNothing(s)
  {
    SubclassesAreValid();
    MapStage(SubclassAttributes, c.layer, (images: seq<Image>, lib: Library, oracle: Oracle) => Output(c, images, lib))
  }
}

/**
 * The argument-free map layers of `hocrox/layer/preprocessing/flip/` and
 * `hocrox/layer/preprocessing/color/grayscale.py`: `HorizontalFlip`
 * (`cv2.flip(image, 1)`), `VerticalFlip` (`cv2.flip(image, 0)`) and
 * `Grayscale` (registered as `greyscale`), each with the parameter string
 * "-" and the drop-empty map loop.
 */
module PlainMapLayers {
  import opened Wrappers
  import opened Python
  import opened Images
  import opened Randomness
  import opened LayerBase
  import opened LayerValidity
  import opened Template
  import opened Pipeline
  import opened Layers

  datatype Kind = HorizontalFlip | VerticalFlip | Grayscale

  /** The type each class registers. */
  function TypeOf(kind: Kind): string
  {
    match kind
    case HorizontalFlip => "horizontal_flip"
    case VerticalFlip => "vertical_flip"
    case Grayscale => "greyscale"
  }

  datatype PlainMap = PlainMap(layer: Layer, kind: Kind)

  /** The constructor takes only a name. */
  function New(kind: Kind, name: Value, standard: seq<Value>): (r: Result<PlainMap, ConfigError>)
    ensures r.Success? <==> FalsyOrStr(name)
    ensures r.Failure? ==> r.error == InvalidArgument("name", name)
    ensures r.Success? ==>
      && r.value.kind == kind
      && r.value.layer.layerType == TypeOf(kind) && r.value.layer.parents == standard
      && r.value.layer.parameters == "-"
      && r.value.layer.name == (if Truthy(name) then name.s else DefaultName(TypeOf(kind)))
  {
    var layer :- Make(name, TypeOf(kind), standard, "-");
    Success(PlainMap(layer, kind))
  }

  /** The three classes register three distinct types; the grayscale one uses the British spelling. */
  lemma DistinctTypes()
    ensures TypeOf(HorizontalFlip) != TypeOf(VerticalFlip)
    ensures TypeOf(HorizontalFlip) != TypeOf(Grayscale) && TypeOf(VerticalFlip) != TypeOf(Grayscale)
    ensures TypeOf(Grayscale) != "grayscale"
  {
  }

  /** `cv2.flip(image, 1)`, `cv2.flip(image, 0)` or `cv2.cvtColor(image, cv2.COLOR_BGR2GRAY)`. */
  function Transformed(kind: Kind, lib: Library, img: Image): Image
  {
    match kind
    case HorizontalFlip => lib.flip(img, 1)
    case VerticalFlip => lib.flip(img, 0)
    case Grayscale => lib.toGray(img)
  }

  function Op(kind: Kind, lib: Library): Image -> Image
  {
    (img: Image) => Transformed(kind, lib, img)
  }

  function Output(c: PlainMap, images: seq<Image>, lib: Library): (out: seq<Image>)
    ensures |out| <= |images|
    ensures forall k :: 0 <= k < |out| ==> !IsEmpty(out[k])
  {
    MapLength(images, Op(c.kind, lib), true);
    MapNonEmpty(images, Op(c.kind, lib));
    MapOut(images, Op(c.kind, lib), true)
  }

  method Apply(c: PlainMap, images: seq<Image>, lib: Library) returns (out: seq<Image>)
    ensures out == Output(c, images, lib)
  {
    out := ApplyMap(images, Op(c.kind, lib), true);
  }

  /**
   * Every image out comes from a non-empty image in; with nothing to drop,
   * image `k` out is image `k` in, flipped about the vertical axis (code 1),
   * about the horizontal axis (code 0), or converted to grey.
   */
  lemma OutputImages(c: PlainMap, images: seq<Image>, lib: Library)
    ensures forall k :: 0 <= k < |Output(c, images, lib)| ==> FromInput(Output(c, images, lib)[k], images, Op(c.kind, lib), true)
    ensures AllNonEmpty(images) && KeepsNonEmpty(Op(c.kind, lib)) ==>
      |Output(c, images, lib)| == |images| &&
      forall k :: 0 <= k < |images| ==> Output(c, images, lib)[k] == Transformed(c.kind, lib, images[k])
  {
    MapOrigin(images, Op(c.kind, lib), true);
    if AllNonEmpty(images) && KeepsNonEmpty(Op(c.kind, lib)) {
      MapKeepsAll(images, Op(c.kind, lib));
    }
  }

  function AsStage(c: PlainMap): (s: Stage)
    ensures IsValidLayer(s.attrs) && s.layer == c.layer && WritesNothing(s)
  {
    SubclassesAreValid();
    MapStage(SubclassAttributes, c.layer, (images: seq<Image>, lib: Library, oracle: Oracle) => Output(c, images, lib))
  }
}

/**
 * `Rescale` of `hocrox/layer/preprocessing/color/rescale.py`: every channel
 * value of every non-empty image multiplied by the factor; since that keeps
 * the shape, only empty inputs are dropped.
 */
module RescaleLayer {
  import opened Wrappers
  import opened Python
  import opened Images
  import opened Randomness
  import opened LayerBase
  import opened LayerValidity
  import opened Template
  import opened Pipeline
  import opened Layers

  datatype Rescale = Rescale(layer: Layer, factor: real)

  /** `Rescale.__init__`: the factor must be a float, so the int 1 is refused. */
  function New(rescale: Value, name: Value, standard: seq<Value>): (r: Result<Rescale, ConfigError>)
    ensures r.Success? <==> IsFloat(rescale) && FalsyOrStr(name)
    ensures !IsFloat(rescale) ==> r == Failure(InvalidArgument("rescale", rescale))
    ensures r.Success? ==>
      && r.value.factor == rescale.f
      && r.value.layer.layerType == "rescale" && r.value.layer.parents == standard
      && r.value.layer.parameters == "Rescale: " + Show(rescale)
  {
    if !IsFloat(rescale) then Failure(InvalidArgument("rescale", rescale))
    else
      var layer :- Make(name, "rescale", standard, "Rescale: " + Show(rescale));
      Success(Rescale(layer, rescale.f))
  }

  function Op(c: Rescale): Image -> Image
  {
    (img: Image) => Scaled(img, c.factor)
  }

  /** Multiplying by a factor keeps the shape, so a non-empty image stays non-empty. */
  lemma ScaledKeepsNonEmpty(factor: real)
    ensures KeepsNonEmpty((img: Image) => Scaled(img, factor))
  {
    forall img: Image | !IsEmpty(img)
      ensures !IsEmpty(Scaled(img, factor))
    {
      assert |Scaled(img, factor).rows| == |img.rows|;
    }
  }

  function Output(c: Rescale, images: seq<Image>): (out: seq<Image>)
    ensures |out| <= |images|
    ensures forall k :: 0 <= k < |out| ==> !IsEmpty(out[k])
  {
    MapLength(images, Op(c), true);
    MapNonEmpty(images, Op(c));
    MapOut(images, Op(c), true)
  }

  method Apply(c: Rescale, images: seq<Image>) returns (out: seq<Image>)
    ensures out == Output(c, images)
  {
    out := ApplyMap(images, Op(c), true);
  }

  /**
   * On non-empty inputs nothing is dropped: image `k` out has image `k`'s
   * shape, and each of its channel values is image `k`'s times the factor.
   */
  lemma OutputImages(c: Rescale, images: seq<Image>)
    requires AllNonEmpty(images)
    ensures |Output(c, images)| == |images|
    ensures forall k :: 0 <= k < |images| ==> Output(c, images)[k] == Scaled(images[k], c.factor)
    ensures forall k, i, j, ch ::
      (0 <= k < |images| && 0 <= i < |images[k].rows| && 0 <= j < |images[k].rows[i]| && 0 <= ch < |images[k].rows[i][j]|) ==>
        && |Output(c, images)[k].rows| == |images[k].rows|
        && |Output(c, images)[k].rows[i]| == |images[k].rows[i]|
        && |Output(c, images)[k].rows[i][j]| == |images[k].rows[i][j]|
        && Output(c, images)[k].rows[i][j][ch] == images[k].rows[i][j][ch] * c.factor
  {
    ScaledKeepsNonEmpty(c.factor);
    MapKeepsAll(images, Op(c));
  }

  function AsStage(c: Rescale): (s: Stage)
    ensures IsValidLayer(s.attrs) && s.layer == c.layer && WritesNothing(s)
  {
    SubclassesAreValid();
    MapStage(SubclassAttributes, c.layer, (images: seq<Image>, lib: Library, oracle: Oracle) => Output(c, images))
  }
}

/**
 * `Resscale` of `hocrox/layer/preprocessing/rescale.py`: the older rescale
 * layer, with its own parent list and a plain map that keeps every image.
 */
module LegacyRescale {
  import opened Wrappers
  import opened Python
  import opened Images
  import opened Randomness
  import opened LayerBase
  import opened LayerValidity
  import opened Template
  import opened Pipeline
  import opened Layers
  import RescaleLayer

  /** The parents `Resscale` lists: it may follow `read` and itself. */
  const RescaleParents: seq<string> := [
    "resize", "greyscale", "rotate", "crop", "padding", "save", "horizontal_flip", "vertical_flip",
    "random_rotate", "random_flip", "read", "rescale"]

  function New(rescale: Value, name: Value): (r: Result<RescaleLayer.Rescale, ConfigError>)
    ensures r.Success? <==> IsFloat(rescale) && FalsyOrStr(name)
    ensures !IsFloat(rescale) ==> r == Failure(InvalidArgument("rescale", rescale))
    ensures r.Success? ==>
      && r.value.factor == rescale.f
      && r.value.layer.layerType == "rescale" && r.value.layer.parents == Types(RescaleParents)
      && r.value.layer.parameters == "Rescale: " + Show(rescale)
  {
    RescaleLayer.New(rescale, name, Types(RescaleParents))
  }

  /** A `Resscale` may come straight after `read`, or after another rescale, but not after a random zoom. */
  lemma Adjacency(c: RescaleLayer.Rescale)
    requires !c.layer.bypass && c.layer.parents == Types(RescaleParents)
    ensures IsValidChild(c.layer, "read") && IsValidChild(c.layer, "rescale")
    ensures !IsValidChild(c.layer, "random_zoom")
  {
    AcceptsListed(c.layer, RescaleParents, "read");
    AcceptsListed(c.layer, RescaleParents, "rescale");
    AcceptsListed(c.layer, RescaleParents, "random_zoom");
  }

  function Output(c: RescaleLayer.Rescale, images: seq<Image>): (out: seq<Image>)
    ensures |out| == |images|
    ensures forall k :: 0 <= k < |images| ==> out[k] == Scaled(images[k], c.factor)
  {
    MapLength(images, RescaleLayer.Op(c), false);
    MapOut(images, RescaleLayer.Op(c), false)
  }

  method Apply(c: RescaleLayer.Rescale, images: seq<Image>) returns (out: seq<Image>)
    ensures out == Output(c, images)
  {
    out := ApplyMap(images, RescaleLayer.Op(c), false);
  }

  /** On inputs with no empty image, the older layer and the newer one agree. */
  lemma AgreesWithRescale(c: RescaleLayer.Rescale, images: seq<Image>)
    requires AllNonEmpty(images)
    ensures Output(c, images) == RescaleLayer.Output(c, images)
  {
    RescaleLayer.ScaledKeepsNonEmpty(c.factor);
    MapNoDrop(images, RescaleLayer.Op(c));
  }

  function AsStage(c: RescaleLayer.Rescale): (s: Stage)
    ensures IsValidLayer(s.attrs) && s.layer == c.layer && WritesNothing(s)
  {
    SubclassesAreValid();
    MapStage(SubclassAttributes, c.layer, (images: seq<Image>, lib: Library, oracle: Oracle) => Output(c, images))
  }
}
