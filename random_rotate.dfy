/**
 * `RandomRotate` of `hocrox/layer/augmentation/transformation/random_rotate.py`:
 * each input image is fanned out to `number_of_outputs` slots, each rotated
 * by an angle drawn uniformly between the two bounds when the probability
 * gate fires; empty inputs and empty results are dropped.
 */
module RandomRotateLayer {
  import opened Wrappers
  import opened Python
  import opened Images
  import opened Randomness
  import opened LayerBase
  import opened LayerValidity
  import opened Template
  import opened Pipeline
  import opened Layers
  import opened Augment

  datatype RandomRotate = RandomRotate(layer: Layer, startAngle: real, endAngle: real, probability: real, outputs: nat)

  /** `RandomRotate.__init__`, with `STANDARD_SUPPORTED_LAYERS` given as `standard`. */
  function New(startAngle: Value, endAngle: Value, probability: Value, outputs: Value, name: Value, standard: seq<Value>)
    : (r: Result<RandomRotate, ConfigError>)
    ensures r.Success? <==>
      && IsNumber(startAngle) && IsNumber(endAngle) && AsReal(startAngle) <= AsReal(endAngle)
      && ValidProbability(probability) && ValidOutputs(outputs) && FalsyOrStr(name)
    ensures !IsNumber(startAngle) ==> r == Failure(InvalidArgument("start_angle", startAngle))
    ensures IsNumber(startAngle) && IsNumber(endAngle) && AsReal(startAngle) > AsReal(endAngle) ==>
      r == Failure(InvalidArgument("start_angle", startAngle))
    ensures r.Success? ==>
      && r.value.startAngle == AsReal(startAngle) && r.value.endAngle == AsReal(endAngle)
      && r.value.startAngle <= r.value.endAngle && r.value.outputs == AsInt(outputs) >= 1
      && r.value.layer.layerType == "random_rotate" && r.value.layer.parents == standard && !r.value.layer.bypass
      && r.value.layer.parameters == GatedParameters(probability, outputs)
  {
    if !IsNumber(startAngle) then Failure(InvalidArgument("start_angle", startAngle))
    else if !IsNumber(endAngle) then Failure(InvalidArgument("end_angle", endAngle))
    else if AsReal(startAngle) > AsReal(endAngle) then Failure(InvalidArgument("start_angle", startAngle))
    else
      var g :- NewGated("random_rotate", probability, outputs, name, standard, GatedParameters(probability, outputs));
      Success(RandomRotate(g.layer, AsReal(startAngle), AsReal(endAngle), g.probability, g.outputs))
  }

  /** `_apply_layer(images)`: gated fan-out dropping empty inputs and results. */
  function Output(c: RandomRotate, images: seq<Image>, lib: Library, oracle: Oracle): (out: seq<Image>)
    ensures |out| <= |images| * c.outputs
    ensures forall k :: 0 <= k < |out| ==> !IsEmpty(out[k])
  {
    FanOutLength(images, c.outputs, oracle, Rotated(lib, c.startAngle, c.endAngle), Policy(true, true));
    FanOutNonEmpty(images, c.outputs, oracle, Rotated(lib, c.startAngle, c.endAngle), Policy(true, true));
    FanOut(images, c.outputs, oracle, Rotated(lib, c.startAngle, c.endAngle), Policy(true, true))
  }

  method Apply(c: RandomRotate, images: seq<Image>, lib: Library, oracle: Oracle) returns (out: seq<Image>)
    ensures out == Output(c, images, lib, oracle)
  {
    out := ApplyFanOut(images, c.outputs, oracle, Rotated(lib, c.startAngle, c.endAngle), Policy(true, true));
  }

  /**
   * On non-empty inputs, with a rotation that never empties an image, every
   * slot yields an image: output `i * n + j` is input `i` rotated by the
   * angle slot `j` drew when the gate fired, and input `i` itself otherwise.
   */
  lemma OutputSlots(c: RandomRotate, images: seq<Image>, lib: Library, oracle: Oracle, i: nat, j: nat)
    requires forall k :: 0 <= k < |images| ==> !IsEmpty(images[k])
    requires forall img: Image, a: real :: !IsEmpty(img) ==> !IsEmpty(lib.rotate(img, a))
    requires i < |images| && j < c.outputs
    ensures |Output(c, images, lib, oracle)| == |images| * c.outputs
    ensures i * c.outputs + j < |Output(c, images, lib, oracle)|
    ensures Output(c, images, lib, oracle)[i * c.outputs + j] ==
      if oracle(i, j).gate then lib.rotate(images[i], RotationAngle(c.startAngle, c.endAngle, oracle(i, j))) else images[i]
  {
    var op := Rotated(lib, c.startAngle, c.endAngle);
    forall img: Image, d: Draw | !IsEmpty(img)
      ensures !IsEmpty(op(img, d))
    {
      assert op(img, d) == lib.rotate(img, RotationAngle(c.startAngle, c.endAngle, d));
    }
    var n := c.outputs;
    FanOutFullIndex(images, n, oracle, op, true, i, j);
    assert Output(c, images, lib, oracle) == FanOut(images, n, oracle, op, Policy(true, true));
  }

  function AsStage(c: RandomRotate): (s: Stage)
    ensures IsValidLayer(s.attrs) && s.layer == c.layer && WritesNothing(s)
  {
    SubclassesAreValid();
    MapStage(SubclassAttributes, c.layer, (images: seq<Image>, lib: Library, oracle: Oracle) => Output(c, images, lib, oracle))
  }
}

/**
 * The older stand-alone `RandomRotate` of
 * `hocrox/layer/augmentation/random_rotate.py`: no probability gate, no
 * dropping, and public `apply_layer`/`get_description` methods, so the model
 * refuses it.
 */
module LegacyRandomRotate {
  import opened Wrappers
  import opened Python
  import opened Images
  import opened Randomness
  import opened LayerBase
  import opened LayerValidity
  import opened Template
  import opened Pipeline
  import opened Layers
  import opened Augment

  /** `number_of_outputs` is kept only when it is an int: `range` of anything else raises. */
  datatype RandomRotate = RandomRotate(layer: Layer, startAngle: real, endAngle: real, outputs: Option<nat>)

  function New(startAngle: Value, endAngle: Value, outputs: Value, name: Value): (r: Result<RandomRotate, ConfigError>)
    ensures r.Success? <==>
      && IsNumber(startAngle) && IsNumber(endAngle) && AsReal(startAngle) <= AsReal(endAngle)
      && LenientOutputs(outputs) && FalsyOrStr(name)
    ensures IsNumber(startAngle) && IsNumber(endAngle) && AsReal(startAngle) > AsReal(endAngle) ==>
      r == Failure(InvalidArgument("start_angle", startAngle))
    ensures r.Success? ==>
      && r.value.startAngle <= r.value.endAngle
      && (r.value.outputs.Some? <==> IsInt(outputs))
      && (r.value.outputs.Some? ==> r.value.outputs.value == AsInt(outputs) >= 1)
      && r.value.layer.name == (if Truthy(name) then name.s else "Random Rotate Layer")
      && r.value.layer.layerType == "random_rotate" && r.value.layer.parents == Types(LegacyAugmentationParents) && !r.value.layer.bypass
      && r.value.layer.parameters ==
        "Start Angle: " + Show(startAngle) + ", End Angle: " + Show(endAngle) + ", Number of Outputs:" + Show(outputs) + " "
  {
    if !IsNumber(startAngle) then Failure(InvalidArgument("start_angle", startAngle))
    else if !IsNumber(endAngle) then Failure(InvalidArgument("end_angle", endAngle))
    else if AsReal(startAngle) > AsReal(endAngle) then Failure(InvalidArgument("start_angle", startAngle))
    else if !LenientOutputs(outputs) then Failure(InvalidArgument("number_of_outputs", outputs))
    else if !FalsyOrStr(name) then Failure(InvalidArgument("name", name))
    else
      var layer := Standalone(name, "Random Rotate Layer", "random_rotate", Types(LegacyAugmentationParents),
        "Start Angle: " + Show(startAngle) + ", End Angle: " + Show(endAngle) + ", Number of Outputs:" + Show(outputs) + " ");
      Success(RandomRotate(layer, AsReal(startAngle), AsReal(endAngle), if IsInt(outputs) then Some(Outputs(outputs)) else None))
  }

  /**
   * `apply_layer(images)`: every slot of every input rotated, with no gate
   * and no dropping; `range(number_of_outputs)` raises when the count is not
   * an int and there is an image to loop over.
   */
  function Output(c: RandomRotate, images: seq<Image>, lib: Library, oracle: Oracle): (r: Result<seq<Image>, ExecError>)
    ensures r.Failure? <==> |images| > 0 && c.outputs.None?
    ensures r.Success? && c.outputs.Some? ==> |r.value| == |images| * c.outputs.value
    ensures r.Success? && c.outputs.None? ==> r.value == []
  {
    match c.outputs
    case None => if |images| == 0 then Success([]) else Failure(OutputsNotInt)
    case Some(n) =>
      FanOutLength(images, n, oracle, Rotated(lib, c.startAngle, c.endAngle), Policy(false, false));
      Success(FanOut(images, n, oracle, Rotated(lib, c.startAngle, c.endAngle), Policy(false, false)))
  }

  method Apply(c: RandomRotate, images: seq<Image>, lib: Library, oracle: Oracle) returns (r: Result<seq<Image>, ExecError>)
    ensures r == Output(c, images, lib, oracle)
  {
    if c.outputs.None? {
      return if |images| == 0 then Success([]) else Failure(OutputsNotInt);
    }
    var out := ApplyFanOut(images, c.outputs.value, oracle, Rotated(lib, c.startAngle, c.endAngle), Policy(false, false));
    return Success(out);
  }

  /** Output `i * n + j` is input `i` rotated by the angle slot `j` drew. */
  lemma OutputSlots(c: RandomRotate, images: seq<Image>, lib: Library, oracle: Oracle, i: nat, j: nat)
    requires c.outputs.Some? && i < |images| && j < c.outputs.value
    ensures Output(c, images, lib, oracle).Success?
    ensures i * c.outputs.value + j < |Output(c, images, lib, oracle).value|
    ensures Output(c, images, lib, oracle).value[i * c.outputs.value + j] == lib.rotate(images[i], RotationAngle(c.startAngle, c.endAngle, oracle(i, j)))
  {
    var n := c.outputs.value;
    var op := Rotated(lib, c.startAngle, c.endAngle);
    var out := FanOut(images, n, oracle, op, Policy(false, false));
    FanOutSlot(images, n, oracle, op, false, i, j);
    assert Output(c, images, lib, oracle) == Success(out);
    assert out[i * n + j] == op(images[i], oracle(i, j));
  }

  /** What the model sees: the five public attributes of a stand-alone class. */
  function AsStage(c: RandomRotate): (s: Stage)
    ensures s.attrs == StandaloneAttributes && s.layer == c.layer && WritesNothing(s)
  {
    ResultStage(StandaloneAttributes, c.layer, (images: seq<Image>, lib: Library, oracle: Oracle) => Output(c, images, lib, oracle))
  }
}
