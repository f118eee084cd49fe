/**
 * `RandomBrightness` of `hocrox/layer/augmentation/color/random_brightness.py`:
 * in each slot whose gate fires, the saturation and value of the HSV image
 * are scaled by a factor drawn between `low` and `high` and capped at 255;
 * empty inputs and empty results are dropped.
 */
module RandomBrightnessLayer {
  import opened Wrappers
  import opened Python
  import opened Images
  import opened Randomness
  import opened LayerBase
  import opened LayerValidity
  import opened Template
  import opened Pipeline
  import opened Layers
  import opened Augment

  datatype RandomBrightness = RandomBrightness(gated: Gated, low: real, high: real)

  /** `RandomBrightness.__init__`: both bounds must be floats; their order is not checked. */
  function New(low: Value, high: Value, probability: Value, outputs: Value, name: Value, standard: seq<Value>)
    : (r: Result<RandomBrightness, ConfigError>)
    ensures r.Success? <==>
      IsFloat(low) && IsFloat(high) && ValidProbability(probability) && ValidOutputs(outputs) && FalsyOrStr(name)
    ensures !IsFloat(low) ==> r == Failure(InvalidArgument("low", low))
    ensures IsFloat(low) && !IsFloat(high) ==> r == Failure(InvalidArgument("high", high))
    ensures r.Success? ==>
      && r.value.low == low.f && r.value.high == high.f
      && r.value.gated.outputs == AsInt(outputs) && r.value.gated.probability == probability.f
      && r.value.gated.layer.layerType == "random_brightness" && r.value.gated.layer.parents == standard
      && r.value.gated.layer.parameters ==
        "Low: " + Show(low) + ", High:" + Show(high) + ", " + GatedParameters(probability, outputs)
  {
    if !IsFloat(low) then Failure(InvalidArgument("low", low))
    else if !IsFloat(high) then Failure(InvalidArgument("high", high))
    else
      var g :- NewGated("random_brightness", probability, outputs, name, standard,
        "Low: " + Show(low) + ", High:" + Show(high) + ", " + GatedParameters(probability, outputs));
      Success(RandomBrightness(g, low.f, high.f))
  }

  function Output(c: RandomBrightness, images: seq<Image>, lib: Library, oracle: Oracle): (out: seq<Image>)
    ensures |out| <= |images| * c.gated.outputs
    ensures forall k :: 0 <= k < |out| ==> !IsEmpty(out[k])
  {
    FanOutLength(images, c.gated.outputs, oracle, Brightened(lib, c.low, c.high), Policy(true, true));
    FanOutNonEmpty(images, c.gated.outputs, oracle, Brightened(lib, c.low, c.high), Policy(true, true));
    FanOut(images, c.gated.outputs, oracle, Brightened(lib, c.low, c.high), Policy(true, true))
  }

  method Apply(c: RandomBrightness, images: seq<Image>, lib: Library, oracle: Oracle) returns (out: seq<Image>)
    ensures out == Output(c, images, lib, oracle)
  {
    out := ApplyFanOut(images, c.gated.outputs, oracle, Brightened(lib, c.low, c.high), Policy(true, true));
  }

  /**
   * On non-empty inputs, with colour conversions that never empty an image,
   * output `i * n + j` is input `i` brightened by the factor slot `j` drew
   * when the gate fired, and input `i` itself otherwise.
   */
  lemma OutputSlots(c: RandomBrightness, images: seq<Image>, lib: Library, oracle: Oracle, i: nat, j: nat)
    requires forall k :: 0 <= k < |images| ==> !IsEmpty(images[k])
    requires forall img: Image, f: real :: !IsEmpty(img) ==> !IsEmpty(lib.fromHsv(BrightenedHsv(lib.toHsv(img), f)))
    requires i < |images| && j < c.gated.outputs
    ensures |Output(c, images, lib, oracle)| == |images| * c.gated.outputs
    ensures i * c.gated.outputs + j < |Output(c, images, lib, oracle)|
    ensures Output(c, images, lib, oracle)[i * c.gated.outputs + j] ==
      if oracle(i, j).gate then lib.fromHsv(BrightenedHsv(lib.toHsv(images[i]), Uniform(c.low, c.high, oracle(i, j).u)))
      else images[i]
  {
    var op := Brightened(lib, c.low, c.high);
    forall img: Image, d: Draw | !IsEmpty(img)
      ensures !IsEmpty(op(img, d))
    {
      assert op(img, d) == lib.fromHsv(BrightenedHsv(lib.toHsv(img), Uniform(c.low, c.high, d.u)));
    }
    var n := c.gated.outputs;
    FanOutFullIndex(images, n, oracle, op, true, i, j);
    assert Output(c, images, lib, oracle) == FanOut(images, n, oracle, op, Policy(true, true));
  }

  function AsStage(c: RandomBrightness): (s: Stage)
    ensures IsValidLayer(s.attrs) && s.layer == c.gated.layer && WritesNothing(s)
  {
    SubclassesAreValid();
    MapStage(SubclassAttributes, c.gated.layer, (images: seq<Image>, lib: Library, oracle: Oracle) => Output(c, images, lib, oracle))
  }
}

/**
 * `Brightness` of `hocrox/layer/preprocessing/color/brightness.py`: a
 * `RandomBrightness` with probability 1.0 and one output, which keeps the
 * type "random_brightness".
 */
module BrightnessLayer {
  import opened Wrappers
  import opened Python
  import opened Images
  import opened Randomness
  import opened LayerBase
  import opened Layers
  import opened Template
  import opened Augment
  import RandomBrightnessLayer

  function New(low: Value, high: Value, name: Value, standard: seq<Value>)
    : (r: Result<RandomBrightnessLayer.RandomBrightness, ConfigError>)
    ensures r.Success? <==> IsFloat(low) && IsFloat(high) && FalsyOrStr(name)
    ensures r.Success? ==>
      && r.value.gated.outputs == 1 && r.value.gated.probability == 1.0
      && r.value.gated.layer.layerType == "random_brightness"
      && r.value.gated.layer.parameters ==
        "Low: " + Show(low) + ", High:" + Show(high) + ", " + "Probability: 1.0, Number of Outputs: 1"
  {
    FixedGatedParameters();
    RandomBrightnessLayer.New(low, high, FloatV(1.0, "1.0"), IntV(1), name, standard)
  }

  /**
   * When every gate fires, as probability 1.0 intends, each non-empty input
   * yields exactly one image: itself brightened by the factor drawn for it.
   */
  lemma OneImagePerInput(low: Value, high: Value, name: Value, standard: seq<Value>, images: seq<Image>, lib: Library, oracle: Oracle)
    requires New(low, high, name, standard).Success?
    requires forall k :: 0 <= k < |images| ==> !IsEmpty(images[k]) && oracle(k, 0).gate
    requires forall img: Image, f: real :: !IsEmpty(img) ==> !IsEmpty(lib.fromHsv(BrightenedHsv(lib.toHsv(img), f)))
    ensures var c := New(low, high, name, standard).value;
      var out := RandomBrightnessLayer.Output(c, images, lib, oracle);
      && |out| == |images|
      && forall k :: 0 <= k < |images| ==>
        out[k] == lib.fromHsv(BrightenedHsv(lib.toHsv(images[k]), Uniform(low.f, high.f, oracle(k, 0).u)))
  {
    var c := New(low, high, name, standard).value;
    var op, p := Brightened(lib, c.low, c.high), Policy(true, true);
    forall k | 0 <= k < |images|
      ensures Slot(images[k], oracle(k, 0), op, p) ==
        Some(lib.fromHsv(BrightenedHsv(lib.toHsv(images[k]), Uniform(low.f, high.f, oracle(k, 0).u))))
    {
      assert op(images[k], oracle(k, 0)) == lib.fromHsv(BrightenedHsv(lib.toHsv(images[k]), Uniform(c.low, c.high, oracle(k, 0).u)));
    }
    FanOutSingle(images, oracle, op, p);
    assert RandomBrightnessLayer.Output(c, images, lib, oracle) == FanOut(images, 1, oracle, op, p);
  }
}

/**
 * The older `RandomBrightness` of `hocrox/layer/augmentation/random_brightness.py`:
 * a subclass of the newer base with its parents listed, no gate and no
 * dropping, so exactly `number_of_outputs` brightened images per input.
 */
module LegacyRandomBrightness {
  import opened Wrappers
  import opened Python
  import opened Images
  import opened Randomness
  import opened LayerBase
  import opened LayerValidity
  import opened Template
  import opened Pipeline
  import opened Layers
  import opened Augment

  datatype RandomBrightness = RandomBrightness(layer: Layer, low: real, high: real, outputs: nat)

  function New(low: Value, high: Value, outputs: Value, name: Value): (r: Result<RandomBrightness, ConfigError>)
    ensures r.Success? <==> IsFloat(low) && IsFloat(high) && ValidOutputs(outputs) && FalsyOrStr(name)
    ensures IsFloat(low) && IsFloat(high) && !ValidOutputs(outputs) ==> r == Failure(InvalidArgument("number_of_outputs", outputs))
    ensures r.Success? ==>
      && r.value.low == low.f && r.value.high == high.f && r.value.outputs == AsInt(outputs)
      && r.value.layer.layerType == "random_brightness" && r.value.layer.parents == Types(AugmentationParents)
      && r.value.layer.parameters == "Low: " + Show(low) + ", High:" + Show(high) + ", Number of Outputs: " + Show(outputs)
  {
    if !IsFloat(low) then Failure(InvalidArgument("low", low))
    else if !IsFloat(high) then Failure(InvalidArgument("high", high))
    else if !ValidOutputs(outputs) then Failure(InvalidArgument("number_of_outputs", outputs))
    else
      var layer :- Make(name, "random_brightness", Types(AugmentationParents),
        "Low: " + Show(low) + ", High:" + Show(high) + ", Number of Outputs: " + Show(outputs));
      Success(RandomBrightness(layer, low.f, high.f, Outputs(outputs)))
  }

  function Output(c: RandomBrightness, images: seq<Image>, lib: Library, oracle: Oracle): (out: seq<Image>)
    ensures |out| == |images| * c.outputs
  {
    FanOutLength(images, c.outputs, oracle, Brightened(lib, c.low, c.high), Policy(false, false));
    FanOut(images, c.outputs, oracle, Brightened(lib, c.low, c.high), Policy(false, false))
  }

  method Apply(c: RandomBrightness, images: seq<Image>, lib: Library, oracle: Oracle) returns (out: seq<Image>)
    ensures out == Output(c, images, lib, oracle)
  {
    out := ApplyFanOut(images, c.outputs, oracle, Brightened(lib, c.low, c.high), Policy(false, false));
  }

  /** Output `i * n + j` is input `i` brightened by the factor slot `j` drew. */
  lemma OutputSlots(c: RandomBrightness, images: seq<Image>, lib: Library, oracle: Oracle, i: nat, j: nat)
    requires i < |images| && j < c.outputs
    ensures i * c.outputs + j < |Output(c, images, lib, oracle)|
    ensures Output(c, images, lib, oracle)[i * c.outputs + j] ==
      lib.fromHsv(BrightenedHsv(lib.toHsv(images[i]), Uniform(c.low, c.high, oracle(i, j).u)))
  {
    var op := Brightened(lib, c.low, c.high);
    var n := c.outputs;
    FanOutSlot(images, n, oracle, op, false, i, j);
    assert Output(c, images, lib, oracle) == FanOut(images, n, oracle, op, Policy(false, false));
  }

  function AsStage(c: RandomBrightness): (s: Stage)
    ensures IsValidLayer(s.attrs) && s.layer == c.layer && WritesNothing(s)
  {
    SubclassesAreValid();
    MapStage(SubclassAttributes, c.layer, (images: seq<Image>, lib: Library, oracle: Oracle) => Output(c, images, lib, oracle))
  }
}

/**
 * `RandomChannelShift` of `hocrox/layer/augmentation/color/random_channel_shift.py`:
 * in each slot whose gate fires, a value drawn between `low` and `high` is
 * added to every channel, clamped to [0, 255] and truncated to a whole
 * number; empty inputs are dropped.
 */
module RandomChannelShiftLayer {
  import opened Wrappers
  import opened Python
  import opened Images
  import opened Randomness
  import opened LayerBase
  import opened LayerValidity
  import opened Template
  import opened Pipeline
  import opened Layers
  import opened Augment

  datatype RandomChannelShift = RandomChannelShift(gated: Gated, low: int, high: int)

  /** `RandomChannelShift.__init__`: both bounds must be ints (a bool is one); their order is not checked. */
  function New(low: Value, high: Value, probability: Value, outputs: Value, name: Value, standard: seq<Value>)
    : (r: Result<RandomChannelShift, ConfigError>)
    ensures r.Success? <==>
      IsInt(low) && IsInt(high) && ValidProbability(probability) && ValidOutputs(outputs) && FalsyOrStr(name)
    ensures !IsInt(low) ==> r == Failure(InvalidArgument("low", low))
    ensures IsInt(low) && !IsInt(high) ==> r == Failure(InvalidArgument("high", high))
    ensures r.Success? ==>
      && r.value.low == AsInt(low) && r.value.high == AsInt(high)
      && r.value.gated.outputs == AsInt(outputs) && r.value.gated.probability == probability.f
      && r.value.gated.layer.layerType == "random_channel_shift" && r.value.gated.layer.parents == standard
      && r.value.gated.layer.parameters ==
        "Low: " + Show(low) + ", High:" + Show(high) + ", " + GatedParameters(probability, outputs)
  {
    if !IsInt(low) then Failure(InvalidArgument("low", low))
    else if !IsInt(high) then Failure(InvalidArgument("high", high))
    else
      var g :- NewGated("random_channel_shift", probability, outputs, name, standard,
        "Low: " + Show(low) + ", High:" + Show(high) + ", " + GatedParameters(probability, outputs));
      Success(RandomChannelShift(g, AsInt(low), AsInt(high)))
  }

  function Output(c: RandomChannelShift, images: seq<Image>, oracle: Oracle): (out: seq<Image>)
    ensures |out| <= |images| * c.gated.outputs
    ensures forall k :: 0 <= k < |out| ==> !IsEmpty(out[k])
  {
    FanOutLength(images, c.gated.outputs, oracle, ChannelShiftedBy(c.low, c.high), Policy(true, true));
    FanOutNonEmpty(images, c.gated.outputs, oracle, ChannelShiftedBy(c.low, c.high), Policy(true, true));
    FanOut(images, c.gated.outputs, oracle, ChannelShiftedBy(c.low, c.high), Policy(true, true))
  }

  method Apply(c: RandomChannelShift, images: seq<Image>, oracle: Oracle) returns (out: seq<Image>)
    ensures out == Output(c, images, oracle)
  {
    out := ApplyFanOut(images, c.gated.outputs, oracle, ChannelShiftedBy(c.low, c.high), Policy(true, true));
  }

  /**
   * A channel shift never empties an image, so on non-empty inputs every slot
   * yields one: output `i * n + j` is input `i` shifted by the value slot `j`
   * drew when the gate fired, and input `i` itself otherwise.
   */
  lemma OutputSlots(c: RandomChannelShift, images: seq<Image>, oracle: Oracle, i: nat, j: nat)
    requires forall k :: 0 <= k < |images| ==> !IsEmpty(images[k])
    requires i < |images| && j < c.gated.outputs
    ensures |Output(c, images, oracle)| == |images| * c.gated.outputs
    ensures i * c.gated.outputs + j < |Output(c, images, oracle)|
    ensures Output(c, images, oracle)[i * c.gated.outputs + j] ==
      if oracle(i, j).gate then ChannelShifted(images[i], Uniform(c.low as real, c.high as real, oracle(i, j).u))
      else images[i]
  {
    var op := ChannelShiftedBy(c.low, c.high);
    forall img: Image, d: Draw | !IsEmpty(img)
      ensures !IsEmpty(op(img, d))
    {
      ChannelShiftClamped(img, Uniform(c.low as real, c.high as real, d.u));
    }
    var n := c.gated.outputs;
    FanOutFullIndex(images, n, oracle, op, true, i, j);
    assert Output(c, images, oracle) == FanOut(images, n, oracle, op, Policy(true, true));
  }

  function AsStage(c: RandomChannelShift): (s: Stage)
    ensures IsValidLayer(s.attrs) && s.layer == c.gated.layer && WritesNothing(s)
  {
    SubclassesAreValid();
    MapStage(SubclassAttributes, c.gated.layer, (images: seq<Image>, lib: Library, oracle: Oracle) => Output(c, images, oracle))
  }
}

/**
 * `ChannelShift` of `hocrox/layer/preprocessing/color/channel_shift.py`: a
 * `RandomChannelShift` with probability 1.0 and one output, which keeps the
 * type "random_channel_shift".
 */
module ChannelShiftLayer {
  import opened Wrappers
  import opened Python
  import opened Images
  import opened Randomness
  import opened LayerBase
  import opened Layers
  import opened Template
  import opened Augment
  import RandomChannelShiftLayer

  function New(low: Value, high: Value, name: Value, standard: seq<Value>)
    : (r: Result<RandomChannelShiftLayer.RandomChannelShift, ConfigError>)
    ensures r.Success? <==> IsInt(low) && IsInt(high) && FalsyOrStr(name)
    ensures r.Success? ==>
      && r.value.gated.outputs == 1 && r.value.gated.probability == 1.0
      && r.value.gated.layer.layerType == "random_channel_shift"
      && r.value.gated.layer.parameters ==
        "Low: " + Show(low) + ", High:" + Show(high) + ", " + "Probability: 1.0, Number of Outputs: 1"
  {
    FixedGatedParameters();
    RandomChannelShiftLayer.New(low, high, FloatV(1.0, "1.0"), IntV(1), name, standard)
  }

  /**
   * When every gate fires, as probability 1.0 intends, each non-empty input
   * yields exactly one image: itself shifted by the value drawn for it.
   */
  lemma OneImagePerInput(low: Value, high: Value, name: Value, standard: seq<Value>, images: seq<Image>, oracle: Oracle)
    requires New(low, high, name, standard).Success?
    requires forall k :: 0 <= k < |images| ==> !IsEmpty(images[k]) && oracle(k, 0).gate
    ensures var c := New(low, high, name, standard).value;
      var out := RandomChannelShiftLayer.Output(c, images, oracle);
      && |out| == |images|
      && forall k :: 0 <= k < |images| ==>
        out[k] == ChannelShifted(images[k], Uniform(AsInt(low) as real, AsInt(high) as real, oracle(k, 0).u))
  {
    var c := New(low, high, name, standard).value;
    var op, p := ChannelShiftedBy(c.low, c.high), Policy(true, true);
    forall k | 0 <= k < |images|
      ensures Slot(images[k], oracle(k, 0), op, p) ==
        Some(ChannelShifted(images[k], Uniform(AsInt(low) as real, AsInt(high) as real, oracle(k, 0).u)))
    {
      ChannelShiftClamped(images[k], Uniform(c.low as real, c.high as real, oracle(k, 0).u));
    }
    FanOutSingle(images, oracle, op, p);
    assert RandomChannelShiftLayer.Output(c, images, oracle) == FanOut(images, 1, oracle, op, p);
  }
}

/**
 * The older `RandomChannelShift` of `hocrox/layer/augmentation/random_channel_shift.py`:
 * no gate and no dropping, and the lenient count check, so a count that is
 * not an int is accepted and only fails once there is an image to loop over.
 */
module LegacyRandomChannelShift {
  import opened Wrappers
  import opened Python
  import opened Images
  import opened Randomness
  import opened LayerBase
  import opened LayerValidity
  import opened Template
  import opened Pipeline
  import opened Layers
  import opened Augment

  datatype RandomChannelShift = RandomChannelShift(layer: Layer, low: int, high: int, outputs: Option<nat>)

  function New(low: Value, high: Value, outputs: Value, name: Value): (r: Result<RandomChannelShift, ConfigError>)
    ensures r.Success? <==> IsInt(low) && IsInt(high) && LenientOutputs(outputs) && FalsyOrStr(name)
    ensures r.Success? ==>
      && (r.value.outputs.Some? <==> IsInt(outputs))
      && (r.value.outputs.Some? ==> r.value.outputs.value == AsInt(outputs) >= 1)
      && r.value.layer.layerType == "random_channel_shift" && r.value.layer.parents == Types(AugmentationParents)
      && r.value.layer.parameters == "Low: " + Show(low) + ", High:" + Show(high) + ", Number of Outputs: " + Show(outputs)
  {
    if !IsInt(low) then Failure(InvalidArgument("low", low))
    else if !IsInt(high) then Failure(InvalidArgument("high", high))
    else if !LenientOutputs(outputs) then Failure(InvalidArgument("number_of_outputs", outputs))
    else
      var layer :- Make(name, "random_channel_shift", Types(AugmentationParents),
        "Low: " + Show(low) + ", High:" + Show(high) + ", Number of Outputs: " + Show(outputs));
      Success(RandomChannelShift(layer, AsInt(low), AsInt(high), if IsInt(outputs) then Some(Outputs(outputs)) else None))
  }

  function Output(c: RandomChannelShift, images: seq<Image>, oracle: Oracle): (r: Result<seq<Image>, ExecError>)
    ensures r.Failure? <==> |images| > 0 && c.outputs.None?
    ensures r.Success? && c.outputs.Some? ==> |r.value| == |images| * c.outputs.value
    ensures r.Success? && c.outputs.None? ==> r.value == []
  {
    match c.outputs
    case None => if |images| == 0 then Success([]) else Failure(OutputsNotInt)
    case Some(n) =>
      FanOutLength(images, n, oracle, ChannelShiftedBy(c.low, c.high), Policy(false, false));
      Success(FanOut(images, n, oracle, ChannelShiftedBy(c.low, c.high), Policy(false, false)))
  }

  method Apply(c: RandomChannelShift, images: seq<Image>, oracle: Oracle) returns (r: Result<seq<Image>, ExecError>)
    ensures r == Output(c, images, oracle)
  {
    if c.outputs.None? {
      return if |images| == 0 then Success([]) else Failure(OutputsNotInt);
    }
    var out := ApplyFanOut(images, c.outputs.value, oracle, ChannelShiftedBy(c.low, c.high), Policy(false, false));
    return Success(out);
  }

  /** Output `i * n + j` is input `i` shifted by the value slot `j` drew. */
  lemma OutputSlots(c: RandomChannelShift, images: seq<Image>, oracle: Oracle, i: nat, j: nat)
    requires c.outputs.Some? && i < |images| && j < c.outputs.value
    ensures Output(c, images, oracle).Success?
    ensures i * c.outputs.value + j < |Output(c, images, oracle).value|
    ensures Output(c, images, oracle).value[i * c.outputs.value + j] ==
      ChannelShifted(images[i], Uniform(c.low as real, c.high as real, oracle(i, j).u))
  {
    var n := c.outputs.value;
    var op := ChannelShiftedBy(c.low, c.high);
    var out := FanOut(images, n, oracle, op, Policy(false, false));
    FanOutSlot(images, n, oracle, op, false, i, j);
    assert Output(c, images, oracle) == Success(out);
  }

  function AsStage(c: RandomChannelShift): (s: Stage)
    ensures IsValidLayer(s.attrs) && s.layer == c.layer && WritesNothing(s)
  {
    SubclassesAreValid();
    ResultStage(SubclassAttributes, c.layer, (images: seq<Image>, lib: Library, oracle: Oracle) => Output(c, images, oracle))
  }
}
