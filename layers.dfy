/**
 * What the layer classes share: the argument checks that recur in their
 * constructors, the attribute sets `is_valid_layer` sees on them, and the
 * way a layer whose `_apply_layer` only maps images takes part in a run.
 */
module Layers {
  import opened Wrappers
  import opened Python
  import opened Images
  import opened Randomness
  import opened LayerBase
  import opened LayerValidity
  import opened Pipeline
  import Models

  /** `isinstance(probability, float) and 0.0 <= probability <= 1.0` */
  predicate ValidProbability(p: Value)
  {
    p.FloatV? && 0.0 <= p.f <= 1.0
  }

  /** `isinstance(number_of_outputs, int) and number_of_outputs >= 1` */
  predicate ValidOutputs(n: Value)
  {
    IsInt(n) && AsInt(n) >= 1
  }

  /**
   * The lenient check of some older layers,
   * `not (isinstance(number_of_outputs, int) and number_of_outputs < 1)`:
   * a value that is not an int passes.
   */
  predicate LenientOutputs(n: Value)
  {
    !(IsInt(n) && AsInt(n) < 1)
  }

  /** The number of slots `range(number_of_outputs)` yields, once the strict check has passed. */
  function Outputs(n: Value): (r: nat)
    requires LenientOutputs(n) && IsInt(n)
    ensures r >= 1 && r == AsInt(n)
  {
    AsInt(n)
  }

  /** The strict check accepts exactly the ints the lenient one accepts. */
  lemma LenientAcceptsMore(n: Value)
    ensures ValidOutputs(n) ==> LenientOutputs(n)
    ensures LenientOutputs(n) && IsInt(n) <==> ValidOutputs(n)
    ensures LenientOutputs(StrV("3")) && !ValidOutputs(StrV("3"))
  {
  }

  /** What a newer augmentation layer keeps once its probability and count have passed. */
  datatype Gated = Gated(layer: Layer, probability: real, outputs: nat)

  /** `f"Probability: {probability}, Number of Outputs: {number_of_outputs}"` */
  function GatedParameters(probability: Value, outputs: Value): string
  {
    "Probability: " + Show(probability) + ", Number of Outputs: " + Show(outputs)
  }

  /** The description tail of the layers that fix the probability at 1.0 and the count at 1. */
  lemma FixedGatedParameters()
    ensures GatedParameters(FloatV(1.0, "1.0"), IntV(1)) == "Probability: 1.0, Number of Outputs: 1"
  {
    assert Show(IntV(1)) == "1" by { assert NatToString(1) == "1"; }
  }

  /**
   * The checks a newer augmentation layer's constructor ends with, in order:
   * the probability, the number of outputs, then the name in the base class.
   */
  function NewGated(layerType: string, probability: Value, outputs: Value, name: Value, standard: seq<Value>, parameters: string)
    : (r: Result<Gated, ConfigError>)
    ensures r.Success? <==> ValidProbability(probability) && ValidOutputs(outputs) && FalsyOrStr(name)
    ensures !ValidProbability(probability) ==> r == Failure(InvalidArgument("probability", probability))
    ensures ValidProbability(probability) && !ValidOutputs(outputs) ==> r == Failure(InvalidArgument("number_of_outputs", outputs))
    ensures ValidProbability(probability) && ValidOutputs(outputs) && !FalsyOrStr(name) ==> r == Failure(InvalidArgument("name", name))
    ensures r.Success? ==>
      && 0.0 <= r.value.probability <= 1.0 && r.value.probability == probability.f
      && r.value.outputs >= 1 && r.value.outputs == AsInt(outputs)
      && r.value.layer.layerType == layerType && r.value.layer.parents == standard
      && r.value.layer.parameters == parameters && !r.value.layer.bypass
      && r.value.layer.name == (if Truthy(name) then name.s else DefaultName(layerType))
  {
    if !ValidProbability(probability) then Failure(InvalidArgument("probability", probability))
    else if !ValidOutputs(outputs) then Failure(InvalidArgument("number_of_outputs", outputs))
    else
      var layer :- Make(name, layerType, standard, parameters);
      Success(Gated(layer, probability.f, Outputs(outputs)))
  }

  /** The attributes of a subclass of the newer `Layer` base that defines `_apply_layer`. */
  const SubclassAttributes: set<string> := LayerBaseAttributes + {"_apply_layer"}

  lemma SubclassesAreValid()
    ensures IsValidLayer(SubclassAttributes)
  {
    LayerSubclassValid({"_apply_layer"});
  }

  /**
   * A stand-alone class (public `apply_layer` and `get_description`, a
   * `type` attribute) is refused by `Model.add` on an unfrozen model,
   * whatever the model holds.
   */
  lemma StandaloneRefused(s: Stage, layers: seq<Stage>)
    requires s.attrs == StandaloneAttributes
    ensures Models.AddCheck(false, layers, s) == Fail(Models.NotALayer)
  {
    StandaloneInvalid();
  }

  /**
   * A stand-alone object that `load` installed last makes every later `add`
   * of a valid layer raise AttributeError: the previous layer's `_get_type`
   * is looked up before the parent check.
   */
  lemma StandaloneBlocksAdd(layers: seq<Stage>, s: Stage, t: Stage)
    requires s.attrs == StandaloneAttributes && IsValidLayer(t.attrs)
    ensures Models.AddCheck(false, layers + [s], t) == Fail(Models.MissingAttribute("_get_type"))
  {
    assert (layers + [s])[|layers + [s]| - 1] == s;
    assert "_get_type" !in StandaloneAttributes;
  }

  /**
   * The same object, installed by `load`, which checks nothing: `transform()`
   * looks up `_apply_layer`, which it lacks, so the item's run ends there.
   */
  lemma StandaloneStopsRun(a: seq<Stage>, s: Stage, b: seq<Stage>, images: seq<Image>, path: string, env: Environment, item: nat, index: nat)
    requires s.attrs == StandaloneAttributes
    ensures !IsValidLayer(s.attrs)
    ensures var ta := Chain(a, images, path, env, item, index);
      Chain(a + [s] + b, images, path, env, item, index) ==
        if ta.Raised? then ta else Raised(NoApplyLayer, ta.writes)
  {
    StandaloneInvalid();
    MissingApplyLayerStops(a, s, b, images, path, env, item, index);
  }

  /** How `_apply_layer(images, path)` of a layer that neither fails nor writes takes part in a run. */
  function MapStage(attrs: set<string>, layer: Layer, out: (seq<Image>, Library, Oracle) -> seq<Image>): (s: Stage)
    ensures s.attrs == attrs && s.layer == layer && s.behaviour.Transformer?
    ensures WritesNothing(s)
  {
    Stage(attrs, layer, Transformer((images: seq<Image>, path: string, lib: Library, o: Oracle) =>
      Success(Step(out(images, lib, o), []))))
  }

  /** The same for a layer whose `_apply_layer` can raise once it loops over the images. */
  function ResultStage(attrs: set<string>, layer: Layer, out: (seq<Image>, Library, Oracle) -> Result<seq<Image>, ExecError>)
    : (s: Stage)
    ensures s.attrs == attrs && s.layer == layer && s.behaviour.Transformer?
    ensures WritesNothing(s)
  {
    Stage(attrs, layer, Transformer((images: seq<Image>, path: string, lib: Library, o: Oracle) =>
      match out(images, lib, o)
      case Success(result) => Success(Step(result, []))
      case Failure(e) => Failure(e)))
  }

  /**
   * A stand-alone class's configuration as the model holds it: the name it
   * keeps (the given one when truthy, its fixed default otherwise) and what
   * it sets as `type`, `supported_parent_layer` and `bypass_validation`.
   */
  function Standalone(name: Value, default: string, layerType: string, parents: seq<Value>, parameters: string): (l: Layer)
    requires FalsyOrStr(name)
    ensures l.name == (if Truthy(name) then name.s else default)
    ensures l.layerType == layerType && l.parents == parents && l.parameters == parameters && !l.bypass
  {
    Layer(if Truthy(name) then name.s else default, layerType, parents, parameters, false)
  }

  /** A list of parent types as the layer classes write them. */
  function Types(types: seq<string>): (r: seq<Value>)
    ensures |r| == |types|
    ensures forall k :: 0 <= k < |types| ==> r[k] == StrV(types[k])
  {
    seq(|types|, k requires 0 <= k < |types| => StrV(types[k]))
  }

  /** A layer listing `Types(types)` as parents accepts exactly the listed types. */
  lemma AcceptsListed(l: Layer, types: seq<string>, previousType: string)
    requires !l.bypass && l.parents == Types(types)
    ensures IsValidChild(l, previousType) <==> previousType in types
  {
    if previousType in types {
      var k :| 0 <= k < |types| && types[k] == previousType;
      assert l.parents[k] == StrV(previousType);
    }
    if IsValidChild(l, previousType) {
      var k :| 0 <= k < |l.parents| && l.parents[k] == StrV(previousType);
      assert types[k] == previousType;
    }
  }

  /** The parents of the older stand-alone `RandomRotate` and `RandomFlip`. */
  const LegacyAugmentationParents: seq<string> := [
    "resize", "greyscale", "rotate", "crop", "padding", "save", "horizontal_flip", "vertical_flip",
    "random_rotate", "random_flip"]

  /** The parents of the later augmentation layers that list them explicitly. */
  const AugmentationParents: seq<string> := [
    "resize", "greyscale", "rotate", "crop", "padding", "save", "horizontal_flip", "vertical_flip",
    "random_rotate", "random_flip", "read", "rescale", "random_zoom", "random_brightness",
    "random_channel_shift", "random_horizontal_shift", "random_vertical_shift"]
}
