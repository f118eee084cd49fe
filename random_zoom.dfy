/**
 * `RandomZoom` of `hocrox/layer/augmentation/transformation/random_zoom.py`:
 * in each slot whose gate fires, a window whose sides are a drawn fraction of
 * the image's is cut out at a drawn offset and resized back to the image's
 * size; an empty window is returned as it is, and empty inputs and empty
 * results are dropped.
 */
module RandomZoomLayer {
  import opened Wrappers
  import opened Python
  import opened Images
  import opened Randomness
  import opened LayerBase
  import opened LayerValidity
  import opened Template
  import opened Pipeline
  import opened Layers
  import opened Augment

  datatype RandomZoom = RandomZoom(gated: Gated, start: Fraction, end: Fraction)

  /** `isinstance(start, float) and start >= 0 and start < 1` */
  predicate ValidStart(start: Value)
  {
    start.FloatV? && 0.0 <= start.f < 1.0
  }

  /** `isinstance(end, float) and end > 0 and end <= 1` */
  predicate ValidEnd(end: Value)
  {
    end.FloatV? && 0.0 < end.f <= 1.0
  }

  /** `f"Start: {start}, end:{end}, Probability: {probability}, Number of Outputs: {number_of_outputs}"` */
  function ZoomParameters(start: Value, end: Value, probability: Value, outputs: Value): string
  {
    "Start: " + Show(start) + ", end:" + Show(end) + ", " + GatedParameters(probability, outputs)
  }

  /**
   * `RandomZoom.__init__`: the bounds are checked one by one, each on its
   * own; `start` may exceed `end`.
   */
  function New(start: Value, end: Value, probability: Value, outputs: Value, name: Value, standard: seq<Value>)
    : (r: Result<RandomZoom, ConfigError>)
    ensures r.Success? <==>
      ValidStart(start) && ValidEnd(end) && ValidProbability(probability) && ValidOutputs(outputs) && FalsyOrStr(name)
    ensures !ValidStart(start) ==> r == Failure(InvalidArgument("start", start))
    ensures ValidStart(start) && !ValidEnd(end) ==> r == Failure(InvalidArgument("end", end))
    ensures r.Success? ==>
      && r.value.start == start.f && r.value.end == end.f
      && r.value.start < 1.0 && 0.0 < r.value.end
      && r.value.gated.outputs == AsInt(outputs) && r.value.gated.probability == probability.f
      && r.value.gated.layer.layerType == "random_zoom" && r.value.gated.layer.parents == standard
      && r.value.gated.layer.parameters == ZoomParameters(start, end, probability, outputs)
  {
    if !ValidStart(start) then Failure(InvalidArgument("start", start))
    else if !ValidEnd(end) then Failure(InvalidArgument("end", end))
    else
      var g :- NewGated("random_zoom", probability, outputs, name, standard, ZoomParameters(start, end, probability, outputs));
      Success(RandomZoom(g, start.f, end.f))
  }

  function Output(c: RandomZoom, images: seq<Image>, lib: Library, oracle: Oracle): (out: seq<Image>)
    ensures |out| <= |images| * c.gated.outputs
    ensures forall k :: 0 <= k < |out| ==> !IsEmpty(out[k])
  {
    FanOutLength(images, c.gated.outputs, oracle, Zoomed(lib, c.start, c.end, false), Policy(true, true));
    FanOutNonEmpty(images, c.gated.outputs, oracle, Zoomed(lib, c.start, c.end, false), Policy(true, true));
    FanOut(images, c.gated.outputs, oracle, Zoomed(lib, c.start, c.end, false), Policy(true, true))
  }

  method Apply(c: RandomZoom, images: seq<Image>, lib: Library, oracle: Oracle) returns (out: seq<Image>)
    ensures out == Output(c, images, lib, oracle)
  {
    out := ApplyFanOut(images, c.gated.outputs, oracle, Zoomed(lib, c.start, c.end, false), Policy(true, true));
  }

  /**
   * One image in one slot whose gate fires: a window too small to hold a row
   * yields nothing; any other window yields the window resized to the
   * image's width and height, unless the resize itself comes back empty.
   */
  lemma ZoomedSlot(c: RandomZoom, img: Image, lib: Library, oracle: Oracle)
    requires c.gated.outputs == 1 && !IsEmpty(img) && oracle(0, 0).gate
    ensures var win := ZoomWindow(Height(img), Width(img), c.start, c.end, oracle(0, 0));
      var resized := ResizeTo(lib, Crop(img, win), Width(img), Height(img));
      && (win.height == 0 ==> Output(c, [img], lib, oracle) == [])
      && (win.height > 0 && !IsEmpty(resized) ==> Output(c, [img], lib, oracle) == [resized])
      && (win.height > 0 && IsEmpty(resized) ==> Output(c, [img], lib, oracle) == [])
  {
    var op := Zoomed(lib, c.start, c.end, false);
    var p := Policy(true, true);
    FanOutGrowth([], img, 1, oracle, op, p);
    assert [] + [img] == [img];
    assert Copies(img, 0, 1, oracle, op, p) == Emit(Slot(img, oracle(0, 0), op, p));
  }

  /** A closed gate hands a non-empty image through untouched. */
  lemma GateClosedSlot(c: RandomZoom, img: Image, lib: Library, oracle: Oracle)
    requires c.gated.outputs == 1 && !IsEmpty(img) && !oracle(0, 0).gate
    ensures Output(c, [img], lib, oracle) == [img]
  {
    var op := Zoomed(lib, c.start, c.end, false);
    var p := Policy(true, true);
    FanOutGrowth([], img, 1, oracle, op, p);
    assert [] + [img] == [img];
    assert Copies(img, 0, 1, oracle, op, p) == Emit(Slot(img, oracle(0, 0), op, p));
  }

  function AsStage(c: RandomZoom): (s: Stage)
    ensures IsValidLayer(s.attrs) && s.layer == c.gated.layer && WritesNothing(s)
  {
    SubclassesAreValid();
    MapStage(SubclassAttributes, c.gated.layer, (images: seq<Image>, lib: Library, oracle: Oracle) => Output(c, images, lib, oracle))
  }
}

/**
 * The older `RandomZoom` of `hocrox/layer/augmentation/random_zoom.py`: the
 * probability is neither checked nor kept in range, and every slot's image
 * is kept, an empty window being resized like any other.
 */
module LegacyRandomZoom {
  import opened Wrappers
  import opened Python
  import opened Images
  import opened Randomness
  import opened LayerBase
  import opened LayerValidity
  import opened Template
  import opened Pipeline
  import opened Layers
  import opened Augment
  import RandomZoomLayer

  /** The probability is kept as given: nothing checks it. */
  datatype RandomZoom = RandomZoom(layer: Layer, start: Fraction, end: Fraction, probability: Value, outputs: nat)

  function New(start: Value, end: Value, probability: Value, outputs: Value, name: Value): (r: Result<RandomZoom, ConfigError>)
    ensures r.Success? <==>
      RandomZoomLayer.ValidStart(start) && RandomZoomLayer.ValidEnd(end) && ValidOutputs(outputs) && FalsyOrStr(name)
    ensures r.Success? ==>
      && r.value.start == start.f && r.value.end == end.f && r.value.probability == probability
      && r.value.outputs == AsInt(outputs) >= 1
      && r.value.layer.layerType == "random_zoom" && r.value.layer.parents == Types(AugmentationParents)
      && r.value.layer.parameters == RandomZoomLayer.ZoomParameters(start, end, probability, outputs)
      && r.value.layer.name == (if Truthy(name) then name.s else DefaultName("random_zoom"))
  {
    if !RandomZoomLayer.ValidStart(start) then Failure(InvalidArgument("start", start))
    else if !RandomZoomLayer.ValidEnd(end) then Failure(InvalidArgument("end", end))
    else if !ValidOutputs(outputs) then Failure(InvalidArgument("number_of_outputs", outputs))
    else
      var layer :- Make(name, "random_zoom", Types(AugmentationParents), RandomZoomLayer.ZoomParameters(start, end, probability, outputs));
      Success(RandomZoom(layer, start.f, end.f, probability, Outputs(outputs)))
  }

  function Output(c: RandomZoom, images: seq<Image>, lib: Library, oracle: Oracle): (out: seq<Image>)
    ensures |out| == |images| * c.outputs
  {
    FanOutLength(images, c.outputs, oracle, Zoomed(lib, c.start, c.end, true), Policy(true, false));
    FanOut(images, c.outputs, oracle, Zoomed(lib, c.start, c.end, true), Policy(true, false))
  }

  method Apply(c: RandomZoom, images: seq<Image>, lib: Library, oracle: Oracle) returns (out: seq<Image>)
    ensures out == Output(c, images, lib, oracle)
  {
    out := ApplyFanOut(images, c.outputs, oracle, Zoomed(lib, c.start, c.end, true), Policy(true, false));
  }

  /**
   * Output `i * n + j` is input `i`'s window drawn by slot `j`, resized to
   * the input's width and height, when the gate fired, and input `i`
   * otherwise; the window lies inside the image.
   */
  lemma OutputSlots(c: RandomZoom, images: seq<Image>, lib: Library, oracle: Oracle, i: nat, j: nat)
    requires i < |images| && j < c.outputs
    ensures i * c.outputs + j < |images| * c.outputs
    ensures var img := images[i];
      var win := ZoomWindow(Height(img), Width(img), c.start, c.end, oracle(i, j));
      && 0 <= win.top && win.top + win.height <= Height(img)
      && 0 <= win.left && win.left + win.width <= Width(img)
      && Output(c, images, lib, oracle)[i * c.outputs + j] ==
        if oracle(i, j).gate then ResizeTo(lib, Crop(img, win), Width(img), Height(img)) else img
  {
    var n := c.outputs;
    var op := Zoomed(lib, c.start, c.end, true);
    var out := FanOut(images, n, oracle, op, Policy(true, false));
    FanOutSlot(images, n, oracle, op, true, i, j);
    assert Output(c, images, lib, oracle) == out;
    var img := images[i];
    var win := ZoomWindow(Height(img), Width(img), c.start, c.end, oracle(i, j));
    assert op(img, oracle(i, j)) == ResizeTo(lib, Crop(img, win), Width(img), Height(img));
  }

  function AsStage(c: RandomZoom): (s: Stage)
    ensures IsValidLayer(s.attrs) && s.layer == c.layer && WritesNothing(s)
  {
    SubclassesAreValid();
    MapStage(SubclassAttributes, c.layer, (images: seq<Image>, lib: Library, oracle: Oracle) => Output(c, images, lib, oracle))
  }
}
