/**
 * `RandomVerticalShift` of `hocrox/layer/augmentation/shift/random_vertical_shift.py`:
 * in each slot whose gate fires, a ratio is drawn between `-ratio` and
 * `ratio`; a positive one cuts rows off the bottom, a negative one cuts rows
 * off the top, and what is left is resized back to the image's size. An
 * empty trim is returned as it is, and empty inputs and empty results are
 * dropped.
 */
module RandomVerticalShiftLayer {
  import opened Wrappers
  import opened Python
  import opened Images
  import opened Randomness
  import opened LayerBase
  import opened LayerValidity
  import opened Template
  import opened Pipeline
  import opened Layers
  import opened Augment

  datatype RandomVerticalShift = RandomVerticalShift(gated: Gated, ratio: real)

  /** `f"Ratio:{ratio}, Probability: {probability}, Number of Outputs: {number_of_outputs}"` */
  function ShiftParameters(ratio: Value, probability: Value, outputs: Value): string
  {
    "Ratio:" + Show(ratio) + ", " + GatedParameters(probability, outputs)
  }

  /** `RandomVerticalShift.__init__`: the ratio must be a float, of any sign and size. */
  function New(ratio: Value, probability: Value, outputs: Value, name: Value, standard: seq<Value>)
    : (r: Result<RandomVerticalShift, ConfigError>)
    ensures r.Success? <==> IsFloat(ratio) && ValidProbability(probability) && ValidOutputs(outputs) && FalsyOrStr(name)
    ensures !IsFloat(ratio) ==> r == Failure(InvalidArgument("ratio", ratio))
    ensures r.Success? ==>
      && r.value.ratio == ratio.f
      && r.value.gated.outputs == AsInt(outputs) && r.value.gated.probability == probability.f
      && r.value.gated.layer.layerType == "random_vertical_shift" && r.value.gated.layer.parents == standard
      && r.value.gated.layer.parameters == ShiftParameters(ratio, probability, outputs)
  {
    if !IsFloat(ratio) then Failure(InvalidArgument("ratio", ratio))
    else
      var g :- NewGated("random_vertical_shift", probability, outputs, name, standard, ShiftParameters(ratio, probability, outputs));
      Success(RandomVerticalShift(g, ratio.f))
  }

  /** The transformation of one slot. */
  function Shift(c: RandomVerticalShift, lib: Library): RandomOp
  {
    VerticallyShifted(lib, c.ratio, false)
  }

  function Output(c: RandomVerticalShift, images: seq<Image>, lib: Library, oracle: Oracle): (out: seq<Image>)
    ensures |out| <= |images| * c.gated.outputs
    ensures forall k :: 0 <= k < |out| ==> !IsEmpty(out[k])
  {
    FanOutLength(images, c.gated.outputs, oracle, Shift(c, lib), Policy(true, true));
    FanOutNonEmpty(images, c.gated.outputs, oracle, Shift(c, lib), Policy(true, true));
    FanOut(images, c.gated.outputs, oracle, Shift(c, lib), Policy(true, true))
  }

  method Apply(c: RandomVerticalShift, images: seq<Image>, lib: Library, oracle: Oracle) returns (out: seq<Image>)
    ensures out == Output(c, images, lib, oracle)
  {
    out := ApplyFanOut(images, c.gated.outputs, oracle, Shift(c, lib), Policy(true, true));
  }

  /**
   * One image in one slot whose gate fires: the rows kept are a run from the
   * top for a positive draw and a run from the bottom for a negative one; a
   * trim that keeps no row yields nothing, any other yields the trim resized
   * to the image's width and height, unless the resize comes back empty.
   */
  lemma ShiftedSlot(c: RandomVerticalShift, img: Image, lib: Library, oracle: Oracle)
    requires c.gated.outputs == 1 && !IsEmpty(img) && oracle(0, 0).gate
    ensures var r := ShiftRatio(c.ratio, oracle(0, 0));
      var t := VerticalTrim(img, r);
      var resized := ResizeTo(lib, t, Width(img), Height(img));
      && t.Pixels? && |t.rows| <= |img.rows|
      && (r > 0.0 ==> t.rows == img.rows[..|t.rows|])
      && (r < 0.0 ==> t.rows == img.rows[|img.rows| - |t.rows|..])
      && (IsEmpty(t) ==> Output(c, [img], lib, oracle) == [])
      && (!IsEmpty(t) && !IsEmpty(resized) ==> Output(c, [img], lib, oracle) == [resized])
  {
    var op := Shift(c, lib);
    var p := Policy(true, true);
    FanOutGrowth([], img, 1, oracle, op, p);
    assert [] + [img] == [img];
    assert Copies(img, 0, 1, oracle, op, p) == Emit(Slot(img, oracle(0, 0), op, p));
  }

  function AsStage(c: RandomVerticalShift): (s: Stage)
    ensures IsValidLayer(s.attrs) && s.layer == c.gated.layer && WritesNothing(s)
  {
    SubclassesAreValid();
    MapStage(SubclassAttributes, c.gated.layer, (images: seq<Image>, lib: Library, oracle: Oracle) => Output(c, images, lib, oracle))
  }
}

/**
 * `VerticalShift` of `hocrox/layer/preprocessing/shift/vertical_shift.py`: a
 * `RandomVerticalShift` with probability 1.0 and one output, which keeps the
 * type "random_vertical_shift".
 */
module VerticalShiftLayer {
  import opened Wrappers
  import opened Python
  import opened Images
  import opened Randomness
  import opened LayerBase
  import opened Template
  import opened Layers
  import opened Augment
  import RandomVerticalShiftLayer

  function New(ratio: Value, name: Value, standard: seq<Value>)
    : (r: Result<RandomVerticalShiftLayer.RandomVerticalShift, ConfigError>)
    ensures r.Success? <==> IsFloat(ratio) && FalsyOrStr(name)
    ensures r.Success? ==>
      && r.value.gated.outputs == 1 && r.value.gated.probability == 1.0 && r.value.ratio == ratio.f
      && r.value.gated.layer.layerType == "random_vertical_shift"
      && r.value.gated.layer.parameters == "Ratio:" + Show(ratio) + ", " + "Probability: 1.0, Number of Outputs: 1"
  {
    FixedGatedParameters();
    RandomVerticalShiftLayer.New(ratio, FloatV(1.0, "1.0"), IntV(1), name, standard)
  }

  /**
   * When every gate fires, as probability 1.0 intends, and every input's
   * shift leaves a non-empty image, each input yields exactly one image: its
   * own shifted and resized version.
   */
  lemma OneImagePerInput(ratio: Value, name: Value, standard: seq<Value>, images: seq<Image>, lib: Library, oracle: Oracle)
    requires New(ratio, name, standard).Success?
    requires forall k :: 0 <= k < |images| ==>
      && !IsEmpty(images[k]) && oracle(k, 0).gate
      && !IsEmpty(VerticallyShifted(lib, ratio.f, false)(images[k], oracle(k, 0)))
    ensures var c := New(ratio, name, standard).value;
      var out := RandomVerticalShiftLayer.Output(c, images, lib, oracle);
      && |out| == |images|
      && forall k :: 0 <= k < |images| ==> out[k] == VerticallyShifted(lib, ratio.f, false)(images[k], oracle(k, 0))
  {
    var c := New(ratio, name, standard).value;
    var op := RandomVerticalShiftLayer.Shift(c, lib);
    assert op == VerticallyShifted(lib, ratio.f, false);
    FanOutSingle(images, oracle, op, Policy(true, true));
  }
}

/**
 * The older `RandomVerticalShift` of
 * `hocrox/layer/augmentation/random_vertical_shift.py`: no gate, no
 * dropping, and every trim is resized, an empty one included.
 */
module LegacyRandomVerticalShift {
  import opened Wrappers
  import opened Python
  import opened Images
  import opened Randomness
  import opened LayerBase
  import opened LayerValidity
  import opened Template
  import opened Pipeline
  import opened Layers
  import opened Augment

  datatype RandomVerticalShift = RandomVerticalShift(layer: Layer, ratio: real, outputs: nat)

  /** `f"Ratio:{ratio}, Number of Outputs: {number_of_outputs}"` */
  function ShiftParameters(ratio: Value, outputs: Value): string
  {
    "Ratio:" + Show(ratio) + ", Number of Outputs: " + Show(outputs)
  }

  function New(ratio: Value, outputs: Value, name: Value): (r: Result<RandomVerticalShift, ConfigError>)
    ensures r.Success? <==> IsFloat(ratio) && ValidOutputs(outputs) && FalsyOrStr(name)
    ensures !IsFloat(ratio) ==> r == Failure(InvalidArgument("ratio", ratio))
    ensures IsFloat(ratio) && !ValidOutputs(outputs) ==> r == Failure(InvalidArgument("number_of_outputs", outputs))
    ensures r.Success? ==>
      && r.value.ratio == ratio.f && r.value.outputs == AsInt(outputs) >= 1
      && r.value.layer.layerType == "random_vertical_shift" && r.value.layer.parents == Types(AugmentationParents)
      && r.value.layer.parameters == ShiftParameters(ratio, outputs)
  {
    if !IsFloat(ratio) then Failure(InvalidArgument("ratio", ratio))
    else if !ValidOutputs(outputs) then Failure(InvalidArgument("number_of_outputs", outputs))
    else
      var layer :- Make(name, "random_vertical_shift", Types(AugmentationParents), ShiftParameters(ratio, outputs));
      Success(RandomVerticalShift(layer, ratio.f, Outputs(outputs)))
  }

  function Output(c: RandomVerticalShift, images: seq<Image>, lib: Library, oracle: Oracle): (out: seq<Image>)
    ensures |out| == |images| * c.outputs
  {
    FanOutLength(images, c.outputs, oracle, VerticallyShifted(lib, c.ratio, true), Policy(false, false));
    FanOut(images, c.outputs, oracle, VerticallyShifted(lib, c.ratio, true), Policy(false, false))
  }

  method Apply(c: RandomVerticalShift, images: seq<Image>, lib: Library, oracle: Oracle) returns (out: seq<Image>)
    ensures out == Output(c, images, lib, oracle)
  {
    out := ApplyFanOut(images, c.outputs, oracle, VerticallyShifted(lib, c.ratio, true), Policy(false, false));
  }

  /** Output `i * n + j` is input `i` trimmed by the ratio slot `j` drew and resized to its width and height. */
  lemma OutputSlots(c: RandomVerticalShift, images: seq<Image>, lib: Library, oracle: Oracle, i: nat, j: nat)
    requires i < |images| && j < c.outputs
    ensures i * c.outputs + j < |images| * c.outputs
    ensures Output(c, images, lib, oracle)[i * c.outputs + j] ==
      ResizeTo(lib, VerticalTrim(images[i], ShiftRatio(c.ratio, oracle(i, j))), Width(images[i]), Height(images[i]))
  {
    var n := c.outputs;
    var op := VerticallyShifted(lib, c.ratio, true);
    FanOutSlot(images, n, oracle, op, false, i, j);
    assert Output(c, images, lib, oracle) == FanOut(images, n, oracle, op, Policy(false, false));
  }

  function AsStage(c: RandomVerticalShift): (s: Stage)
    ensures IsValidLayer(s.attrs) && s.layer == c.layer && WritesNothing(s)
  {
    SubclassesAreValid();
    MapStage(SubclassAttributes, c.layer, (images: seq<Image>, lib: Library, oracle: Oracle) => Output(c, images, lib, oracle))
  }
}

/**
 * The older `RandomHorizontalShift` of
 * `hocrox/layer/augmentation/random_horizontal_shift.py`: a drawn ratio cuts
 * columns off the right (positive) or the left (negative) and the rest is
 * resized. No gate, no dropping, and the lenient count check.
 *
 * As written, the class registers itself as "random_channel_shift" and
 * passes `(h, w)` as the `(width, height)` size of `cv2.resize`; `New` and
 * `Output` are the corrected versions the model uses, `NewAsWritten` and
 * `OutputAsWritten` the code as it stands.
 */
module LegacyRandomHorizontalShift {
  import opened Wrappers
  import opened Python
  import opened Images
  import opened Randomness
  import opened LayerBase
  import opened LayerValidity
  import opened Template
  import opened Pipeline
  import opened Layers
  import opened Augment

  /** `number_of_outputs` is kept only when it is an int: `range` of anything else raises. */
  datatype RandomHorizontalShift = RandomHorizontalShift(layer: Layer, ratio: real, outputs: Option<nat>)

  /** The parents it lists: the later augmentation parents up to "random_channel_shift". */
  const HorizontalShiftParents: seq<string> := AugmentationParents[..15]

  function ShiftParameters(ratio: Value, outputs: Value): string
  {
    "Ratio:" + Show(ratio) + ", Number of Outputs: " + Show(outputs)
  }

  /** The constructor's checks, then `super().__init__` with the given type. */
  function NewOfType(layerType: string, ratio: Value, outputs: Value, name: Value): (r: Result<RandomHorizontalShift, ConfigError>)
    ensures r.Success? <==> IsFloat(ratio) && LenientOutputs(outputs) && FalsyOrStr(name)
    ensures !IsFloat(ratio) ==> r == Failure(InvalidArgument("ratio", ratio))
    ensures IsFloat(ratio) && !LenientOutputs(outputs) ==> r == Failure(InvalidArgument("number_of_outputs", outputs))
    ensures r.Success? ==>
      && r.value.ratio == ratio.f
      && (r.value.outputs.Some? <==> IsInt(outputs))
      && (r.value.outputs.Some? ==> r.value.outputs.value == AsInt(outputs) >= 1)
      && r.value.layer.layerType == layerType && r.value.layer.parents == Types(HorizontalShiftParents)
      && r.value.layer.parameters == ShiftParameters(ratio, outputs)
      && r.value.layer.name == (if Truthy(name) then name.s else DefaultName(layerType))
  {
    if !IsFloat(ratio) then Failure(InvalidArgument("ratio", ratio))
    else if !LenientOutputs(outputs) then Failure(InvalidArgument("number_of_outputs", outputs))
    else
      var layer :- Make(name, layerType, Types(HorizontalShiftParents), ShiftParameters(ratio, outputs));
      Success(RandomHorizontalShift(layer, ratio.f, if IsInt(outputs) then Some(Outputs(outputs)) else None))
  }

  /** `RandomHorizontalShift.__init__` as written: registered as "random_channel_shift". */
  function NewAsWritten(ratio: Value, outputs: Value, name: Value): (r: Result<RandomHorizontalShift, ConfigError>)
    ensures r.Success? ==> r.value.layer.layerType == "random_channel_shift"
  {
    NewOfType("random_channel_shift", ratio, outputs, name)
  }

  /** `RandomHorizontalShift.__init__` registering the class's own type. */
  function New(ratio: Value, outputs: Value, name: Value): (r: Result<RandomHorizontalShift, ConfigError>)
    ensures r.Success? ==> r.value.layer.layerType == "random_horizontal_shift"
  {
    NewOfType("random_horizontal_shift", ratio, outputs, name)
  }

  /**
   * As written, the layer passes for a channel shift: it reports the wrong
   * type, and, left unnamed, a name other than its own; a layer accepting
   * channel shifts but not horizontal shifts takes it as a parent. The
   * corrected constructor accepts the same arguments and differs only there.
   */
  lemma TypeAsWritten(ratio: Value, outputs: Value, name: Value, child: Layer)
    requires NewAsWritten(ratio, outputs, name).Success?
    requires !child.bypass && StrV("random_channel_shift") in child.parents && StrV("random_horizontal_shift") !in child.parents
    ensures New(ratio, outputs, name).Success?
    ensures var wrong := NewAsWritten(ratio, outputs, name).value.layer;
      var right := New(ratio, outputs, name).value.layer;
      && wrong.layerType != right.layerType
      && (!Truthy(name) ==> wrong.name != right.name)
      && wrong.parameters == right.parameters && wrong.parents == right.parents
      && IsValidChild(child, wrong.layerType) && !IsValidChild(child, right.layerType)
  {
    var wrong := NewAsWritten(ratio, outputs, name).value.layer;
    var right := New(ratio, outputs, name).value.layer;
    assert |wrong.layerType| == 20 && |right.layerType| == 23;
    if !Truthy(name) {
      DefaultNamesDiffer();
    }
  }

  /** The default names of the two types differ: they are as long as the types plus " Layer". */
  lemma DefaultNamesDiffer()
    ensures DefaultName("random_channel_shift") != DefaultName("random_horizontal_shift")
  {
    DefaultNameShape("random_channel_shift");
    DefaultNameShape("random_horizontal_shift");
  }

  /** `__horizontal_shift` as written: the size handed to `cv2.resize` is `(h, w)`. */
  function ShiftedAsWritten(lib: Library, ratio: real): RandomOp
  {
    (img: Image, d: Draw) => ResizeTo(lib, HorizontalTrim(img, ShiftRatio(ratio, d)), Height(img), Width(img))
  }

  /** `__horizontal_shift` resizing back to the input's width and height. */
  function Shifted(lib: Library, ratio: real): RandomOp
  {
    (img: Image, d: Draw) => ResizeTo(lib, HorizontalTrim(img, ShiftRatio(ratio, d)), Width(img), Height(img))
  }

  /** `apply_layer` over a given slot transformation; `range` raises when the count is not an int. */
  function Run(c: RandomHorizontalShift, images: seq<Image>, oracle: Oracle, op: RandomOp): (r: Result<seq<Image>, ExecError>)
    ensures r.Failure? <==> |images| > 0 && c.outputs.None?
    ensures r.Success? && c.outputs.Some? ==> |r.value| == |images| * c.outputs.value
    ensures r.Success? && c.outputs.None? ==> r.value == []
  {
    match c.outputs
    case None => if |images| == 0 then Success([]) else Failure(OutputsNotInt)
    case Some(n) =>
      FanOutLength(images, n, oracle, op, Policy(false, false));
      Success(FanOut(images, n, oracle, op, Policy(false, false)))
  }

  function OutputAsWritten(c: RandomHorizontalShift, images: seq<Image>, lib: Library, oracle: Oracle): Result<seq<Image>, ExecError>
  {
    Run(c, images, oracle, ShiftedAsWritten(lib, c.ratio))
  }

  function Output(c: RandomHorizontalShift, images: seq<Image>, lib: Library, oracle: Oracle): Result<seq<Image>, ExecError>
  {
    Run(c, images, oracle, Shifted(lib, c.ratio))
  }

  method Apply(c: RandomHorizontalShift, images: seq<Image>, lib: Library, oracle: Oracle) returns (r: Result<seq<Image>, ExecError>)
    ensures r == Output(c, images, lib, oracle)
  {
    if c.outputs.None? {
      return if |images| == 0 then Success([]) else Failure(OutputsNotInt);
    }
    var out := ApplyFanOut(images, c.outputs.value, oracle, Shifted(lib, c.ratio), Policy(false, false));
    return Success(out);
  }

  /** `cv2.resize(img, (w, h))` came back `h` rows high and `w` columns wide. */
  ghost predicate ResizedTo(lib: Library, img: Image, w: nat, h: nat)
  {
    Height(ResizeTo(lib, img, w, h)) == h && Width(ResizeTo(lib, img, w, h)) == w
  }

  /** A `cv2.resize` that returns an image of exactly the requested width and height. */
  ghost predicate ResizeHonoursSize(lib: Library)
  {
    forall img: Image, w: nat, h: nat :: w > 0 && h > 0 ==> ResizedTo(lib, img, w, h)
  }

  /** As written, output `i * n + j` is input `i`'s trim resized to its height by its width. */
  lemma SlotAsWritten(c: RandomHorizontalShift, images: seq<Image>, lib: Library, oracle: Oracle, i: nat, j: nat)
    requires c.outputs.Some? && i < |images| && j < c.outputs.value
    ensures OutputAsWritten(c, images, lib, oracle).Success?
    ensures i * c.outputs.value + j < |images| * c.outputs.value
    ensures var t := HorizontalTrim(images[i], ShiftRatio(c.ratio, oracle(i, j)));
      OutputAsWritten(c, images, lib, oracle).value[i * c.outputs.value + j] == ResizeTo(lib, t, Height(images[i]), Width(images[i]))
  {
    var n := c.outputs.value;
    var op := ShiftedAsWritten(lib, c.ratio);
    FanOutSlot(images, n, oracle, op, false, i, j);
    assert OutputAsWritten(c, images, lib, oracle) == Success(FanOut(images, n, oracle, op, Policy(false, false)));
    var t := HorizontalTrim(images[i], ShiftRatio(c.ratio, oracle(i, j)));
    assert op(images[i], oracle(i, j)) == ResizeTo(lib, t, Height(images[i]), Width(images[i]));
  }

  /**
   * As written, with a resize that honours the size it is given, output
   * `i * n + j` has the input's width as its height and the input's height as
   * its width: every image that is not square comes out transposed in shape.
   */
  lemma ShapeAsWritten(c: RandomHorizontalShift, images: seq<Image>, lib: Library, oracle: Oracle, i: nat, j: nat)
    requires ResizeHonoursSize(lib)
    requires c.outputs.Some? && i < |images| && j < c.outputs.value
    requires Height(images[i]) > 0 && Width(images[i]) > 0
    ensures OutputAsWritten(c, images, lib, oracle).Success?
    ensures i * c.outputs.value + j < |images| * c.outputs.value
    ensures var out := OutputAsWritten(c, images, lib, oracle).value[i * c.outputs.value + j];
      Height(out) == Width(images[i]) && Width(out) == Height(images[i])
  {
    SlotAsWritten(c, images, lib, oracle, i, j);
    var t := HorizontalTrim(images[i], ShiftRatio(c.ratio, oracle(i, j)));
    assert ResizedTo(lib, t, Height(images[i]), Width(images[i]));
  }

  /** A 2-row, 3-column image comes out with 3 rows and 2 columns, whatever the draw. */
  lemma TransposedExample(lib: Library, ratio: Value, oracle: Oracle)
    requires ResizeHonoursSize(lib) && NewAsWritten(ratio, IntV(1), NoneV).Success?
    ensures var img := Pixels([[[0.0], [0.0], [0.0]], [[0.0], [0.0], [0.0]]]);
      var out := OutputAsWritten(NewAsWritten(ratio, IntV(1), NoneV).value, [img], lib, oracle);
      && out.Success? && |out.value| == 1
      && Height(out.value[0]) == 3 && Width(out.value[0]) == 2
  {
    var img := Pixels([[[0.0], [0.0], [0.0]], [[0.0], [0.0], [0.0]]]);
    var c := NewAsWritten(ratio, IntV(1), NoneV).value;
    ShapeAsWritten(c, [img], lib, oracle, 0, 0);
  }

  /**
   * Corrected, with a resize that honours the size it is given, every output
   * has its input's height and width, and the columns kept before the resize
   * are a run from the left for a positive draw and from the right for a
   * negative one.
   */
  lemma OutputSlots(c: RandomHorizontalShift, images: seq<Image>, lib: Library, oracle: Oracle, i: nat, j: nat)
    requires c.outputs.Some? && i < |images| && j < c.outputs.value
    ensures Output(c, images, lib, oracle).Success?
    ensures i * c.outputs.value + j < |images| * c.outputs.value
    ensures var t := HorizontalTrim(images[i], ShiftRatio(c.ratio, oracle(i, j)));
      Output(c, images, lib, oracle).value[i * c.outputs.value + j] == ResizeTo(lib, t, Width(images[i]), Height(images[i]))
    ensures ResizeHonoursSize(lib) && Height(images[i]) > 0 && Width(images[i]) > 0 ==>
      var out := Output(c, images, lib, oracle).value[i * c.outputs.value + j];
      Height(out) == Height(images[i]) && Width(out) == Width(images[i])
  {
    var n := c.outputs.value;
    var op := Shifted(lib, c.ratio);
    FanOutSlot(images, n, oracle, op, false, i, j);
    assert Output(c, images, lib, oracle) == Success(FanOut(images, n, oracle, op, Policy(false, false)));
    var t := HorizontalTrim(images[i], ShiftRatio(c.ratio, oracle(i, j)));
    assert op(images[i], oracle(i, j)) == ResizeTo(lib, t, Width(images[i]), Height(images[i]));
    if ResizeHonoursSize(lib) && Height(images[i]) > 0 && Width(images[i]) > 0 {
      assert ResizedTo(lib, t, Width(images[i]), Height(images[i]));
    }
  }

  function AsStage(c: RandomHorizontalShift): (s: Stage)
    ensures IsValidLayer(s.attrs) && s.layer == c.layer && WritesNothing(s)
  {
    SubclassesAreValid();
    ResultStage(SubclassAttributes, c.layer, (images: seq<Image>, lib: Library, oracle: Oracle) => Output(c, images, lib, oracle))
  }
}
