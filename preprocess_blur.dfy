/**
 * `AverageBlur` of `hocrox/layer/preprocessing/blur/average.py`: `cv2.blur`
 * with the given kernel size on every non-empty image; empty inputs and empty
 * results are dropped.
 */
module AverageBlurLayer {
  import opened Wrappers
  import opened Python
  import opened Images
  import opened Randomness
  import opened LayerBase
  import opened LayerValidity
  import opened Template
  import opened Pipeline
  import opened Layers

  datatype AverageBlur = AverageBlur(layer: Layer, kernel: Value)

  /** `AverageBlur.__init__`: the kernel size must be a tuple; its contents are not checked. */
  function New(kernel: Value, name: Value, standard: seq<Value>): (r: Result<AverageBlur, ConfigError>)
    ensures r.Success? <==> kernel.TupleV? && FalsyOrStr(name)
    ensures !kernel.TupleV? ==> r == Failure(InvalidArgument("kernel_size", kernel))
    ensures r.Success? ==>
      && r.value.kernel == kernel
      && r.value.layer.layerType == "average_blur" && r.value.layer.parents == standard
      && r.value.layer.parameters == "Kernel Size: " + Show(kernel)
      && r.value.layer.name == (if Truthy(name) then name.s else DefaultName("average_blur"))
  {
    if !kernel.TupleV? then Failure(InvalidArgument("kernel_size", kernel))
    else
      var layer :- Make(name, "average_blur", standard, "Kernel Size: " + Show(kernel));
      Success(AverageBlur(layer, kernel))
  }

  function Op(c: AverageBlur, lib: Library): Image -> Image
  {
    (img: Image) => lib.blur(img, c.kernel)
  }

  function Output(c: AverageBlur, images: seq<Image>, lib: Library): (out: seq<Image>)
    ensures |out| <= |images|
    ensures forall k :: 0 <= k < |out| ==> !IsEmpty(out[k])
  {
    MapLength(images, Op(c, lib), true);
    MapNonEmpty(images, Op(c, lib));
    MapOut(images, Op(c, lib), true)
  }

  method Apply(c: AverageBlur, images: seq<Image>, lib: Library) returns (out: seq<Image>)
    ensures out == Output(c, images, lib)
  {
    out := ApplyMap(images, Op(c, lib), true);
  }

  /**
   * Every image out is the blur of a non-empty image in; on non-empty inputs
   * with a blur that never empties an image, image `k` out is image `k` in,
   * blurred.
   */
  lemma OutputImages(c: AverageBlur, images: seq<Image>, lib: Library)
    ensures forall k :: 0 <= k < |Output(c, images, lib)| ==> FromInput(Output(c, images, lib)[k], images, Op(c, lib), true)
    ensures AllNonEmpty(images) && KeepsNonEmpty(Op(c, lib)) ==>
      |Output(c, images, lib)| == |images| &&
      forall k :: 0 <= k < |images| ==> Output(c, images, lib)[k] == lib.blur(images[k], c.kernel)
  {
    MapOrigin(images, Op(c, lib), true);
    if AllNonEmpty(images) && KeepsNonEmpty(Op(c, lib)) {
      MapKeepsAll(images, Op(c, lib));
    }
  }

  function AsStage(c: AverageBlur): (s: Stage)
    ensures IsValidLayer(s.attrs) && s.layer == c.layer && WritesNothing(s)
  {
    SubclassesAreValid();
    MapStage(SubclassAttributes, c.layer, (images: seq<Image>, lib: Library, oracle: Oracle) => Output(c, images, lib))
  }
}

/**
 * `GaussianBlur` of `hocrox/layer/preprocessing/blur/gaussian.py`:
 * `cv2.GaussianBlur` with the given kernel size and deviations.
 *
 * As written, the two deviation checks test the truth of a two-element tuple,
 * `not (sigma_x, float)`, which is never false, so any value passes;
 * `NewAsWritten` is that constructor and `New` the one that checks the
 * deviations are numbers, as the documented types intend.
 */
module GaussianBlurLayer {
  import opened Wrappers
  import opened Python
  import opened Images
  import opened Randomness
  import opened LayerBase
  import opened LayerValidity
  import opened Template
  import opened Pipeline
  import opened Layers

  datatype GaussianBlur = GaussianBlur(layer: Layer, kernel: Value, sigmaX: Value, sigmaY: Value)

  /** `f"Kernel Size: {kernel_size}, Sigma X: {sigma_x}, Sigma Y: {sigma_y}"` */
  function GaussianParameters(kernel: Value, sigmaX: Value, sigmaY: Value): string
  {
    "Kernel Size: " + Show(kernel) + ", Sigma X: " + Show(sigmaX) + ", Sigma Y: " + Show(sigmaY)
  }

  /** `GaussianBlur.__init__` as written: only the kernel size and the name can be refused. */
  function NewAsWritten(kernel: Value, sigmaX: Value, sigmaY: Value, name: Value, standard: seq<Value>)
    : (r: Result<GaussianBlur, ConfigError>)
    ensures r.Success? <==> kernel.TupleV? && FalsyOrStr(name)
    ensures !kernel.TupleV? ==> r == Failure(InvalidArgument("kernel_size", kernel))
    ensures r.Success? ==>
      && r.value.kernel == kernel && r.value.sigmaX == sigmaX && r.value.sigmaY == sigmaY
      && r.value.layer.layerType == "gaussian_blur" && r.value.layer.parents == standard
      && r.value.layer.parameters == GaussianParameters(kernel, sigmaX, sigmaY)
  {
    if !kernel.TupleV? then Failure(InvalidArgument("kernel_size", kernel))
    else
      var layer :- Make(name, "gaussian_blur", standard, GaussianParameters(kernel, sigmaX, sigmaY));
      Success(GaussianBlur(layer, kernel, sigmaX, sigmaY))
  }

  /** `GaussianBlur.__init__` with the deviation checks it documents: numbers, as the default `sigma_y=0` is. */
  function New(kernel: Value, sigmaX: Value, sigmaY: Value, name: Value, standard: seq<Value>)
    : (r: Result<GaussianBlur, ConfigError>)
    ensures r.Success? <==> kernel.TupleV? && IsNumber(sigmaX) && IsNumber(sigmaY) && FalsyOrStr(name)
    ensures !kernel.TupleV? ==> r == Failure(InvalidArgument("kernel_size", kernel))
    ensures kernel.TupleV? && !IsNumber(sigmaX) ==> r == Failure(InvalidArgument("sigma_x", sigmaX))
    ensures kernel.TupleV? && IsNumber(sigmaX) && !IsNumber(sigmaY) ==> r == Failure(InvalidArgument("sigma_y", sigmaY))
    ensures r.Success? ==> r == NewAsWritten(kernel, sigmaX, sigmaY, name, standard)
  {
    if !kernel.TupleV? then Failure(InvalidArgument("kernel_size", kernel))
    else if !IsNumber(sigmaX) then Failure(InvalidArgument("sigma_x", sigmaX))
    else if !IsNumber(sigmaY) then Failure(InvalidArgument("sigma_y", sigmaY))
    else NewAsWritten(kernel, sigmaX, sigmaY, name, standard)
  }

  /**
   * As written, a deviation that is not a number, such as the string "a",
   * passes the constructor (the failure comes later, inside OpenCV); the
   * corrected constructor refuses it, and agrees with the original on every
   * argument list it accepts.
   */
  lemma SigmaCheckAsWritten(kernel: Value, name: Value, standard: seq<Value>)
    requires kernel.TupleV? && FalsyOrStr(name)
    ensures NewAsWritten(kernel, StrV("a"), IntV(0), name, standard).Success?
    ensures New(kernel, StrV("a"), IntV(0), name, standard) == Failure(InvalidArgument("sigma_x", StrV("a")))
    ensures NewAsWritten(kernel, FloatV(1.0, "1.0"), StrV("a"), name, standard).Success?
    ensures New(kernel, FloatV(1.0, "1.0"), StrV("a"), name, standard) == Failure(InvalidArgument("sigma_y", StrV("a")))
  {
  }

  function Op(c: GaussianBlur, lib: Library): Image -> Image
  {
    (img: Image) => lib.gaussianBlur(img, c.kernel, c.sigmaX, c.sigmaY)
  }

  function Output(c: GaussianBlur, images: seq<Image>, lib: Library): (out: seq<Image>)
    ensures |out| <= |images|
    ensures forall k :: 0 <= k < |out| ==> !IsEmpty(out[k])
  {
    MapLength(images, Op(c, lib), true);
    MapNonEmpty(images, Op(c, lib));
    MapOut(images, Op(c, lib), true)
  }

  method Apply(c: GaussianBlur, images: seq<Image>, lib: Library) returns (out: seq<Image>)
    ensures out == Output(c, images, lib)
  {
    out := ApplyMap(images, Op(c, lib), true);
  }

  /** Every image out is the blur of a non-empty image in; with nothing to drop, one per input, in order. */
  lemma OutputImages(c: GaussianBlur, images: seq<Image>, lib: Library)
    ensures forall k :: 0 <= k < |Output(c, images, lib)| ==> FromInput(Output(c, images, lib)[k], images, Op(c, lib), true)
    ensures AllNonEmpty(images) && KeepsNonEmpty(Op(c, lib)) ==>
      |Output(c, images, lib)| == |images| &&
      forall k :: 0 <= k < |images| ==> Output(c, images, lib)[k] == lib.gaussianBlur(images[k], c.kernel, c.sigmaX, c.sigmaY)
  {
    MapOrigin(images, Op(c, lib), true);
    if AllNonEmpty(images) && KeepsNonEmpty(Op(c, lib)) {
      MapKeepsAll(images, Op(c, lib));
    }
  }

  function AsStage(c: GaussianBlur): (s: Stage)
    ensures IsValidLayer(s.attrs) && s.layer == c.layer && WritesNothing(s)
  {
    SubclassesAreValid();
    MapStage(SubclassAttributes, c.layer, (images: seq<Image>, lib: Library, oracle: Oracle) => Output(c, images, lib))
  }
}

/**
 * `MedianBlur` of `hocrox/layer/preprocessing/blur/median.py`:
 * `cv2.medianBlur` with a positive odd aperture.
 */
module MedianBlurLayer {
  import opened Wrappers
  import opened Python
  import opened Images
  import opened Randomness
  import opened LayerBase
  import opened LayerValidity
  import opened Template
  import opened Pipeline
  import opened Layers

  datatype MedianBlur = MedianBlur(layer: Layer, kernel: int)

  /** `isinstance(kernel_size, int) and kernel_size > 0 and kernel_size % 2 != 0` */
  predicate ValidAperture(kernel: Value)
  {
    IsInt(kernel) && AsInt(kernel) > 0 && AsInt(kernel) % 2 != 0
  }

  function New(kernel: Value, name: Value, standard: seq<Value>): (r: Result<MedianBlur, ConfigError>)
    ensures r.Success? <==> ValidAperture(kernel) && FalsyOrStr(name)
    ensures !ValidAperture(kernel) ==> r == Failure(InvalidArgument("kernel_size", kernel))
    ensures r.Success? ==>
      && r.value.kernel == AsInt(kernel) && r.value.kernel > 0 && r.value.kernel % 2 == 1
      && r.value.layer.layerType == "median_blur" && r.value.layer.parents == standard
      && r.value.layer.parameters == "Kernel Size: " + Show(kernel)
  {
    if !ValidAperture(kernel) then Failure(InvalidArgument("kernel_size", kernel))
    else
      var layer :- Make(name, "median_blur", standard, "Kernel Size: " + Show(kernel));
      Success(MedianBlur(layer, AsInt(kernel)))
  }

  /** The apertures accepted are exactly 1, 3, 5, ...; `True` counts as 1. */
  lemma ApertureExamples()
    ensures ValidAperture(IntV(3)) && ValidAperture(BoolV(true))
    ensures !ValidAperture(IntV(4)) && !ValidAperture(IntV(-3)) && !ValidAperture(FloatV(3.0, "3.0"))
  {
  }

  function Op(c: MedianBlur, lib: Library): Image -> Image
  {
    (img: Image) => lib.medianBlur(img, c.kernel)
  }

  function Output(c: MedianBlur, images: seq<Image>, lib: Library): (out: seq<Image>)
    ensures |out| <= |images|
    ensures forall k :: 0 <= k < |out| ==> !IsEmpty(out[k])
  {
    MapLength(images, Op(c, lib), true);
    MapNonEmpty(images, Op(c, lib));
    MapOut(images, Op(c, lib), true)
  }

  method Apply(c: MedianBlur, images: seq<Image>, lib: Library) returns (out: seq<Image>)
    ensures out == Output(c, images, lib)
  {
    out := ApplyMap(images, Op(c, lib), true);
  }

  /** Every image out is the blur of a non-empty image in; with nothing to drop, one per input, in order. */
  lemma OutputImages(c: MedianBlur, images: seq<Image>, lib: Library)
    ensures forall k :: 0 <= k < |Output(c, images, lib)| ==> FromInput(Output(c, images, lib)[k], images, Op(c, lib), true)
    ensures AllNonEmpty(images) && KeepsNonEmpty(Op(c, lib)) ==>
      |Output(c, images, lib)| == |images| &&
      forall k :: 0 <= k < |images| ==> Output(c, images, lib)[k] == lib.medianBlur(images[k], c.kernel)
  {
    MapOrigin(images, Op(c, lib), true);
    if AllNonEmpty(images) && KeepsNonEmpty(Op(c, lib)) {
      MapKeepsAll(images, Op(c, lib));
    }
  }

  function AsStage(c: MedianBlur): (s: Stage)
    ensures IsValidLayer(s.attrs) && s.layer == c.layer && WritesNothing(s)
  {
    SubclassesAreValid();
    MapStage(SubclassAttributes, c.layer, (images: seq<Image>, lib: Library, oracle: Oracle) => Output(c, images, lib))
  }
}

/**
 * `BilateralBlur` of `hocrox/layer/preprocessing/blur/bilateral.py`:
 * `cv2.bilateralFilter` with the given diameter and deviations.
 *
 * As in the Gaussian blur, the two deviation checks are `not (sigma, float)`
 * and never fire; `NewAsWritten` is that constructor and `New` the one that
 * checks the deviations are numbers.
 */
module BilateralBlurLayer {
  import opened Wrappers
  import opened Python
  import opened Images
  import opened Randomness
  import opened LayerBase
  import opened LayerValidity
  import opened Template
  import opened Pipeline
  import opened Layers

  datatype BilateralBlur = BilateralBlur(layer: Layer, d: int, sigmaColor: Value, sigmaSpace: Value)

  /** `f"D: {d}, Sigma Space: {sigma_space}, Sigma Color: {sigma_color}"` */
  function BilateralParameters(d: Value, sigmaColor: Value, sigmaSpace: Value): string
  {
    "D: " + Show(d) + ", Sigma Space: " + Show(sigmaSpace) + ", Sigma Color: " + Show(sigmaColor)
  }

  function NewAsWritten(d: Value, sigmaColor: Value, sigmaSpace: Value, name: Value, standard: seq<Value>)
    : (r: Result<BilateralBlur, ConfigError>)
    ensures r.Success? <==> IsInt(d) && FalsyOrStr(name)
    ensures !IsInt(d) ==> r == Failure(InvalidArgument("d", d))
    ensures r.Success? ==>
      && r.value.d == AsInt(d) && r.value.sigmaColor == sigmaColor && r.value.sigmaSpace == sigmaSpace
      && r.value.layer.layerType == "bilateral_blur" && r.value.layer.parents == standard
      && r.value.layer.parameters == BilateralParameters(d, sigmaColor, sigmaSpace)
  {
    if !IsInt(d) then Failure(InvalidArgument("d", d))
    else
      var layer :- Make(name, "bilateral_blur", standard, BilateralParameters(d, sigmaColor, sigmaSpace));
      Success(BilateralBlur(layer, AsInt(d), sigmaColor, sigmaSpace))
  }

  function New(d: Value, sigmaColor: Value, sigmaSpace: Value, name: Value, standard: seq<Value>)
    : (r: Result<BilateralBlur, ConfigError>)
    ensures r.Success? <==> IsInt(d) && IsNumber(sigmaColor) && IsNumber(sigmaSpace) && FalsyOrStr(name)
    ensures !IsInt(d) ==> r == Failure(InvalidArgument("d", d))
    ensures IsInt(d) && !IsNumber(sigmaColor) ==> r == Failure(InvalidArgument("sigma_color", sigmaColor))
    ensures IsInt(d) && IsNumber(sigmaColor) && !IsNumber(sigmaSpace) ==> r == Failure(InvalidArgument("sigma_space", sigmaSpace))
    ensures r.Success? ==> r == NewAsWritten(d, sigmaColor, sigmaSpace, name, standard)
  {
    if !IsInt(d) then Failure(InvalidArgument("d", d))
    else if !IsNumber(sigmaColor) then Failure(InvalidArgument("sigma_color", sigmaColor))
    else if !IsNumber(sigmaSpace) then Failure(InvalidArgument("sigma_space", sigmaSpace))
    else NewAsWritten(d, sigmaColor, sigmaSpace, name, standard)
  }

  /** As written, `None` passes as either deviation; the corrected constructor refuses it. */
  lemma SigmaCheckAsWritten(d: Value, name: Value, standard: seq<Value>)
    requires IsInt(d) && FalsyOrStr(name)
    ensures NewAsWritten(d, NoneV, FloatV(75.0, "75.0"), name, standard).Success?
    ensures New(d, NoneV, FloatV(75.0, "75.0"), name, standard) == Failure(InvalidArgument("sigma_color", NoneV))
    ensures NewAsWritten(d, FloatV(75.0, "75.0"), NoneV, name, standard).Success?
    ensures New(d, FloatV(75.0, "75.0"), NoneV, name, standard) == Failure(InvalidArgument("sigma_space", NoneV))
  {
  }

  function Op(c: BilateralBlur, lib: Library): Image -> Image
  {
    (img: Image) => lib.bilateralFilter(img, c.d, c.sigmaColor, c.sigmaSpace)
  }

  function Output(c: BilateralBlur, images: seq<Image>, lib: Library): (out: seq<Image>)
    ensures |out| <= |images|
    ensures forall k :: 0 <= k < |out| ==> !IsEmpty(out[k])
  {
    MapLength(images, Op(c, lib), true);
    MapNonEmpty(images, Op(c, lib));
    MapOut(images, Op(c, lib), true)
  }

  method Apply(c: BilateralBlur, images: seq<Image>, lib: Library) returns (out: seq<Image>)
    ensures out == Output(c, images, lib)
  {
    out := ApplyMap(images, Op(c, lib), true);
  }

  /** Every image out is the filtered version of a non-empty image in; with nothing to drop, one per input, in order. */
  lemma OutputImages(c: BilateralBlur, images: seq<Image>, lib: Library)
    ensures forall k :: 0 <= k < |Output(c, images, lib)| ==> FromInput(Output(c, images, lib)[k], images, Op(c, lib), true)
    ensures AllNonEmpty(images) && KeepsNonEmpty(Op(c, lib)) ==>
      |Output(c, images, lib)| == |images| &&
      forall k :: 0 <= k < |images| ==> Output(c, images, lib)[k] == lib.bilateralFilter(images[k], c.d, c.sigmaColor, c.sigmaSpace)
  {
    MapOrigin(images, Op(c, lib), true);
    if AllNonEmpty(images) && KeepsNonEmpty(Op(c, lib)) {
      MapKeepsAll(images, Op(c, lib));
    }
  }

  function AsStage(c: BilateralBlur): (s: Stage)
    ensures IsValidLayer(s.attrs) && s.layer == c.layer && WritesNothing(s)
  {
    SubclassesAreValid();
    MapStage(SubclassAttributes, c.layer, (images: seq<Image>, lib: Library, oracle: Oracle) => Output(c, images, lib))
  }
}
