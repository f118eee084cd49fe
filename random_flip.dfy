/**
 * `RandomFlip` of `hocrox/layer/augmentation/flip/random_flip.py`: each slot
 * draws a flip code, 0 (about the horizontal axis) or 1 (about the vertical
 * axis), and flips the image with it when the probability gate fires; empty
 * inputs and empty results are dropped.
 */
module RandomFlipLayer {
  import opened Wrappers
  import opened Python
  import opened Images
  import opened Randomness
  import opened LayerBase
  import opened LayerValidity
  import opened Template
  import opened Pipeline
  import opened Layers
  import opened Augment

  /** `RandomFlip.__init__`, with `STANDARD_SUPPORTED_LAYERS` given as `standard`. */
  function New(probability: Value, outputs: Value, name: Value, standard: seq<Value>): (r: Result<Gated, ConfigError>)
    ensures r.Success? <==> ValidProbability(probability) && ValidOutputs(outputs) && FalsyOrStr(name)
    ensures r.Success? ==>
      && r.value.layer.layerType == "random_flip" && r.value.layer.parents == standard
      && r.value.layer.parameters == GatedParameters(probability, outputs)
      && r.value.outputs == AsInt(outputs)
  {
    NewGated("random_flip", probability, outputs, name, standard, GatedParameters(probability, outputs))
  }

  /** `_apply_layer(images)`: gated fan-out of randomly flipped copies, dropping empty inputs and results. */
  function Output(c: Gated, images: seq<Image>, lib: Library, oracle: Oracle): (out: seq<Image>)
    ensures |out| <= |images| * c.outputs
    ensures forall k :: 0 <= k < |out| ==> !IsEmpty(out[k])
  {
    FanOutLength(images, c.outputs, oracle, RandomlyFlipped(lib), Policy(true, true));
    FanOutNonEmpty(images, c.outputs, oracle, RandomlyFlipped(lib), Policy(true, true));
    FanOut(images, c.outputs, oracle, RandomlyFlipped(lib), Policy(true, true))
  }

  method Apply(c: Gated, images: seq<Image>, lib: Library, oracle: Oracle) returns (out: seq<Image>)
    ensures out == Output(c, images, lib, oracle)
  {
    out := ApplyFanOut(images, c.outputs, oracle, RandomlyFlipped(lib), Policy(true, true));
  }

  /**
   * On non-empty inputs, with a flip that never empties an image, output
   * `i * n + j` is input `i` flipped with the code slot `j` drew (0 or 1)
   * when the gate fired, and input `i` itself otherwise.
   */
  lemma OutputSlots(c: Gated, images: seq<Image>, lib: Library, oracle: Oracle, i: nat, j: nat)
    requires forall k :: 0 <= k < |images| ==> !IsEmpty(images[k])
    requires forall img: Image, code: int :: !IsEmpty(img) ==> !IsEmpty(lib.flip(img, code))
    requires i < |images| && j < c.outputs
    ensures |Output(c, images, lib, oracle)| == |images| * c.outputs
    ensures i * c.outputs + j < |Output(c, images, lib, oracle)|
    ensures Output(c, images, lib, oracle)[i * c.outputs + j] ==
      if oracle(i, j).gate then lib.flip(images[i], FlipCode(oracle(i, j))) else images[i]
    ensures FlipCode(oracle(i, j)) == 0 || FlipCode(oracle(i, j)) == 1
  {
    var op := RandomlyFlipped(lib);
    forall img: Image, d: Draw | !IsEmpty(img)
      ensures !IsEmpty(op(img, d))
    {
      assert op(img, d) == lib.flip(img, FlipCode(d));
    }
    var n := c.outputs;
    FanOutFullIndex(images, n, oracle, op, true, i, j);
    assert Output(c, images, lib, oracle) == FanOut(images, n, oracle, op, Policy(true, true));
  }

  function AsStage(c: Gated): (s: Stage)
    ensures IsValidLayer(s.attrs) && s.layer == c.layer && WritesNothing(s)
  {
    SubclassesAreValid();
    MapStage(SubclassAttributes, c.layer, (images: seq<Image>, lib: Library, oracle: Oracle) => Output(c, images, lib, oracle))
  }
}

/**
 * `RandomVerticalFlip` of `hocrox/layer/augmentation/flip/random_vertical_flip.py`:
 * `cv2.flip(image, 0)` in every slot whose gate fires; empty inputs and empty
 * results are dropped.
 */
module RandomVerticalFlipLayer {
  import opened Wrappers
  import opened Python
  import opened Images
  import opened Randomness
  import opened LayerBase
  import opened LayerValidity
  import opened Template
  import opened Pipeline
  import opened Layers
  import opened Augment

  function New(probability: Value, outputs: Value, name: Value, standard: seq<Value>): (r: Result<Gated, ConfigError>)
    ensures r.Success? <==> ValidProbability(probability) && ValidOutputs(outputs) && FalsyOrStr(name)
    ensures r.Success? ==>
      && r.value.layer.layerType == "random_vertical_flip" && r.value.layer.parents == standard
      && r.value.layer.parameters == GatedParameters(probability, outputs)
      && r.value.outputs == AsInt(outputs)
  {
    NewGated("random_vertical_flip", probability, outputs, name, standard, GatedParameters(probability, outputs))
  }

  function Output(c: Gated, images: seq<Image>, lib: Library, oracle: Oracle): (out: seq<Image>)
    ensures |out| <= |images| * c.outputs
    ensures forall k :: 0 <= k < |out| ==> !IsEmpty(out[k])
  {
    FanOutLength(images, c.outputs, oracle, FlippedBy(lib, 0), Policy(true, true));
    FanOutNonEmpty(images, c.outputs, oracle, FlippedBy(lib, 0), Policy(true, true));
    FanOut(images, c.outputs, oracle, FlippedBy(lib, 0), Policy(true, true))
  }

  method Apply(c: Gated, images: seq<Image>, lib: Library, oracle: Oracle) returns (out: seq<Image>)
    ensures out == Output(c, images, lib, oracle)
  {
    out := ApplyFanOut(images, c.outputs, oracle, FlippedBy(lib, 0), Policy(true, true));
  }

  /**
   * On non-empty inputs, with a flip that never empties an image, output
   * `i * n + j` is input `i` flipped about the horizontal axis when the gate
   * of slot `j` fired, and input `i` itself otherwise.
   */
  lemma OutputSlots(c: Gated, images: seq<Image>, lib: Library, oracle: Oracle, i: nat, j: nat)
    requires forall k :: 0 <= k < |images| ==> !IsEmpty(images[k])
    requires forall img: Image :: !IsEmpty(img) ==> !IsEmpty(lib.flip(img, 0))
    requires i < |images| && j < c.outputs
    ensures |Output(c, images, lib, oracle)| == |images| * c.outputs
    ensures i * c.outputs + j < |Output(c, images, lib, oracle)|
    ensures Output(c, images, lib, oracle)[i * c.outputs + j] ==
      if oracle(i, j).gate then lib.flip(images[i], 0) else images[i]
  {
    var op := FlippedBy(lib, 0);
    forall img: Image, d: Draw | !IsEmpty(img)
      ensures !IsEmpty(op(img, d))
    {
      assert op(img, d) == lib.flip(img, 0);
    }
    var n := c.outputs;
    FanOutFullIndex(images, n, oracle, op, true, i, j);
    assert Output(c, images, lib, oracle) == FanOut(images, n, oracle, op, Policy(true, true));
  }

  function AsStage(c: Gated): (s: Stage)
    ensures IsValidLayer(s.attrs) && s.layer == c.layer && WritesNothing(s)
  {
    SubclassesAreValid();
    MapStage(SubclassAttributes, c.layer, (images: seq<Image>, lib: Library, oracle: Oracle) => Output(c, images, lib, oracle))
  }
}

/**
 * `RandomHorizontalFlip` of `hocrox/layer/augmentation/flip/random_horizontal_flip.py`:
 * `cv2.flip(image, 1)` in every slot whose gate fires, and nothing is
 * dropped, so there are always exactly `number_of_outputs` images per input.
 */
module RandomHorizontalFlipLayer {
  import opened Wrappers
  import opened Python
  import opened Images
  import opened Randomness
  import opened LayerBase
  import opened LayerValidity
  import opened Template
  import opened Pipeline
  import opened Layers
  import opened Augment

  function New(probability: Value, outputs: Value, name: Value, standard: seq<Value>): (r: Result<Gated, ConfigError>)
    ensures r.Success? <==> ValidProbability(probability) && ValidOutputs(outputs) && FalsyOrStr(name)
    ensures r.Success? ==>
      && r.value.layer.layerType == "random_horizontal_flip" && r.value.layer.parents == standard
      && r.value.layer.parameters == GatedParameters(probability, outputs)
      && r.value.outputs == AsInt(outputs)
  {
    NewGated("random_horizontal_flip", probability, outputs, name, standard, GatedParameters(probability, outputs))
  }

  /** `_apply_layer(images)`: gated fan-out with no emptiness test. */
  function Output(c: Gated, images: seq<Image>, lib: Library, oracle: Oracle): (out: seq<Image>)
    ensures |out| == |images| * c.outputs
  {
    FanOutLength(images, c.outputs, oracle, FlippedBy(lib, 1), Policy(true, false));
    FanOut(images, c.outputs, oracle, FlippedBy(lib, 1), Policy(true, false))
  }

  method Apply(c: Gated, images: seq<Image>, lib: Library, oracle: Oracle) returns (out: seq<Image>)
    ensures out == Output(c, images, lib, oracle)
  {
    out := ApplyFanOut(images, c.outputs, oracle, FlippedBy(lib, 1), Policy(true, false));
  }

  /**
   * Output `i * n + j` is input `i` flipped about the vertical axis when the
   * gate of slot `j` fired, and input `i` itself otherwise; an empty input is
   * passed on like any other.
   */
  lemma OutputSlots(c: Gated, images: seq<Image>, lib: Library, oracle: Oracle, i: nat, j: nat)
    requires i < |images| && j < c.outputs
    ensures i * c.outputs + j < |Output(c, images, lib, oracle)|
    ensures Output(c, images, lib, oracle)[i * c.outputs + j] ==
      if oracle(i, j).gate then lib.flip(images[i], 1) else images[i]
  {
    var op := FlippedBy(lib, 1);
    var n := c.outputs;
    FanOutSlot(images, n, oracle, op, true, i, j);
    assert Output(c, images, lib, oracle) == FanOut(images, n, oracle, op, Policy(true, false));
  }

  function AsStage(c: Gated): (s: Stage)
    ensures IsValidLayer(s.attrs) && s.layer == c.layer && WritesNothing(s)
  {
    SubclassesAreValid();
    MapStage(SubclassAttributes, c.layer, (images: seq<Image>, lib: Library, oracle: Oracle) => Output(c, images, lib, oracle))
  }
}

/**
 * The older stand-alone `RandomFlip` of `hocrox/layer/augmentation/random_flip.py`:
 * one randomly flipped image per input, whatever `number_of_outputs` says,
 * with no gate and no dropping.
 */
module LegacyRandomFlip {
  import opened Wrappers
  import opened Python
  import opened Images
  import opened Randomness
  import opened LayerBase
  import opened LayerValidity
  import opened Template
  import opened Pipeline
  import opened Layers
  import opened Augment

  /** `number_of_outputs` only appears in the description. */
  datatype RandomFlip = RandomFlip(layer: Layer)

  function New(outputs: Value, name: Value): (r: Result<RandomFlip, ConfigError>)
    ensures r.Success? <==> LenientOutputs(outputs) && FalsyOrStr(name)
    ensures !LenientOutputs(outputs) ==> r == Failure(InvalidArgument("number_of_outputs", outputs))
    ensures r.Success? ==>
      && r.value.layer.name == (if Truthy(name) then name.s else "RandomFlip Layer")
      && r.value.layer.layerType == "random_flip" && r.value.layer.parents == Types(LegacyAugmentationParents)
      && r.value.layer.parameters == "Number of Outputs: " + Show(outputs) && !r.value.layer.bypass
  {
    if !LenientOutputs(outputs) then Failure(InvalidArgument("number_of_outputs", outputs))
    else if !FalsyOrStr(name) then Failure(InvalidArgument("name", name))
    else Success(RandomFlip(Standalone(name, "RandomFlip Layer", "random_flip", Types(LegacyAugmentationParents),
      "Number of Outputs: " + Show(outputs))))
  }

  /** The images `apply_layer` returns: image `i` flipped with the code drawn for it. */
  function Output(images: seq<Image>, lib: Library, oracle: Oracle): (out: seq<Image>)
    ensures |out| == |images|
    ensures forall k :: 0 <= k < |images| ==> out[k] == lib.flip(images[k], FlipCode(oracle(k, 0)))
  {
    var op := RandomlyFlipped(lib);
    FanOutLength(images, 1, oracle, op, Policy(false, false));
    forall k | 0 <= k < |images|
      ensures FanOut(images, 1, oracle, op, Policy(false, false))[k] == lib.flip(images[k], FlipCode(oracle(k, 0)))
    {
      FanOutSlot(images, 1, oracle, op, false, k, 0);
    }
    FanOut(images, 1, oracle, op, Policy(false, false))
  }

  /** `apply_layer(images)`: one draw and one flip per image. */
  method Apply(images: seq<Image>, lib: Library, oracle: Oracle) returns (out: seq<Image>)
    ensures out == Output(images, lib, oracle)
  {
    out := [];
    var i := 0;
    while i < |images|
      invariant 0 <= i <= |images|
      invariant |out| == i
      invariant forall k :: 0 <= k < i ==> out[k] == lib.flip(images[k], FlipCode(oracle(k, 0)))
    {
      var flip := FlipCode(oracle(i, 0));
      out := out + [lib.flip(images[i], flip)];
      i := i + 1;
    }
  }

  function AsStage(c: RandomFlip): (s: Stage)
    ensures s.attrs == StandaloneAttributes && s.layer == c.layer && WritesNothing(s)
  {
    MapStage(StandaloneAttributes, c.layer, (images: seq<Image>, lib: Library, oracle: Oracle) => Output(images, lib, oracle))
  }
}
