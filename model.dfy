/**
 * The `Model` class of `hocrox/model/model.py`: an append-only list of
 * layers guarded by the composition rules of `add`, a frozen flag, the
 * summary table, the transformation run, and pickling to a file.
 */
module Models {
  import opened Wrappers
  import opened Python
  import opened LayerBase
  import opened LayerValidity
  import opened Pipeline
  import opened Images
  import LegacyLayerBase

  /** What `add` raises. */
  datatype CompositionError =
    | ModelFrozen
    | NotALayer
    | FirstNotRead
    | UnsupportedParent(layerType: string, parentType: string)
    | MissingAttribute(attribute: string)   // AttributeError: the previous layer, installed by `load`, has no such method

  function Message(e: CompositionError): string
  {
    match e
    case ModelFrozen => "Model is frozen"
    case NotALayer => "The layer is not a valid layer"
    case FirstNotRead => "The first layer needed to be a read layer"
    case UnsupportedParent(t, p) =>
      "The layer of type '" + t + "' does not support layer of type '" + p + "' as parent layer"
    case MissingAttribute(a) => "object has no attribute '" + a + "'"
  }

  /**
   * The checks of `add`, in order, on the state before the call. The new
   * layer's `_get_type` and `_is_valid_child` exist once `is_valid_layer`
   * passed; the previous layer's `_get_type` is looked up without a check,
   * and a layer that `load` installed may lack it.
   */
  function AddCheck(frozen: bool, layers: seq<Stage>, s: Stage): (r: Outcome<CompositionError>)
    ensures r.Pass? <==>
      && !frozen
      && IsValidLayer(s.attrs)
      && (|layers| == 0 ==> s.layer.layerType == "read")
      && (|layers| > 0 ==> "_get_type" in layers[|layers| - 1].attrs)
      && (|layers| > 0 ==> IsValidChild(s.layer, layers[|layers| - 1].layer.layerType))
    ensures frozen ==> r == Fail(ModelFrozen)
    ensures !frozen && !IsValidLayer(s.attrs) ==> r == Fail(NotALayer)
    ensures !frozen && IsValidLayer(s.attrs) && |layers| == 0 && s.layer.layerType != "read" ==> r == Fail(FirstNotRead)
    ensures !frozen && IsValidLayer(s.attrs) && |layers| > 0 && "_get_type" !in layers[|layers| - 1].attrs ==>
      r == Fail(MissingAttribute("_get_type"))
    ensures (!frozen && IsValidLayer(s.attrs) && |layers| > 0 && "_get_type" in layers[|layers| - 1].attrs
      && !IsValidChild(s.layer, layers[|layers| - 1].layer.layerType)) ==>
      r == Fail(UnsupportedParent(s.layer.layerType, layers[|layers| - 1].layer.layerType))
  {
    if frozen then Fail(ModelFrozen)
    else if !IsValidLayer(s.attrs) then Fail(NotALayer)
    else if |layers| == 0 && s.layer.layerType != "read" then Fail(FirstNotRead)
    else if |layers| > 0 && "_get_type" !in layers[|layers| - 1].attrs then Fail(MissingAttribute("_get_type"))
    else if |layers| > 0 && !IsValidChild(s.layer, layers[|layers| - 1].layer.layerType) then
      Fail(UnsupportedParent(s.layer.layerType, layers[|layers| - 1].layer.layerType))
    else Pass
  }

  /**
   * The shape every model built by `add` has: each layer passes
   * `is_valid_layer`, the first has type "read", and each later one accepts
   * the type of the one before it.
   */
  predicate WellFormed(layers: seq<Stage>)
  {
    && (|layers| > 0 ==> layers[0].layer.layerType == "read")
    && (forall k :: 0 <= k < |layers| ==> IsValidLayer(layers[k].attrs))
    && (forall k :: 0 < k < |layers| ==> IsValidChild(layers[k].layer, layers[k - 1].layer.layerType))
  }

  /** Every layer of a well-formed model has the methods `add`, `summary` and `transform` look up. */
  lemma WellFormedHasMethods(layers: seq<Stage>)
    requires WellFormed(layers)
    ensures forall k :: 0 <= k < |layers| ==>
      "_get_type" in layers[k].attrs && "_get_description" in layers[k].attrs && "_apply_layer" in layers[k].attrs
  {
    assert Required[0] == "_get_description" && Required[2] == "_get_type" && Required[4] == "_apply_layer";
    forall k | 0 <= k < |layers|
      ensures "_get_type" in layers[k].attrs && "_get_description" in layers[k].attrs && "_apply_layer" in layers[k].attrs
    {
      assert IsValidLayer(layers[k].attrs);
    }
  }

  /** On an unfrozen well-formed model, `add` accepts exactly the layers that keep it well-formed. */
  lemma AddKeepsWellFormed(frozen: bool, layers: seq<Stage>, s: Stage)
    requires WellFormed(layers)
    ensures AddCheck(frozen, layers, s).Pass? <==> !frozen && WellFormed(layers + [s])
  {
    WellFormedHasMethods(layers);
    var extended := layers + [s];
    if !frozen && WellFormed(extended) {
      assert extended[|layers|] == s;
      if |layers| > 0 {
        assert extended[|layers| - 1] == layers[|layers| - 1];
      }
    }
    if AddCheck(frozen, layers, s).Pass? {
      forall k | 0 < k < |extended|
        ensures IsValidChild(extended[k].layer, extended[k - 1].layer.layerType)
      {
        if k < |layers| {
          assert extended[k] == layers[k] && extended[k - 1] == layers[k - 1];
        }
      }
    }
  }

  /** One row of the summary table. */
  datatype Row = Row(index: string, name: string, parameters: string)

  /** What `pickle.dump` writes: the frozen flag and the layers. */
  datatype Pickle = Pickle(frozen: bool, layers: seq<Stage>)

  /** What `save` and `load` raise. */
  datatype PersistError = PathNotValid | FileNotFound

  /** `save(path)`: the file written and its content. */
  function SaveRecord(path: Value, frozen: bool, layers: seq<Stage>): (r: Result<(string, Pickle), PersistError>)
    ensures r.Success? <==> IsStr(path)
    ensures r.Failure? ==> r.error == PathNotValid
    ensures r.Success? ==> r.value.0 == path.s && r.value.1.frozen == frozen && r.value.1.layers == layers
  {
    if !IsStr(path) then Failure(PathNotValid) else Success((path.s, Pickle(frozen, layers)))
  }

  /** `load(path)`: the content read from the files present. */
  function LoadRecord(path: Value, files: map<string, Pickle>): (r: Result<Pickle, PersistError>)
    ensures !IsStr(path) ==> r == Failure(PathNotValid)
    ensures IsStr(path) && path.s !in files ==> r == Failure(FileNotFound)
    ensures IsStr(path) && path.s in files ==> r == Success(files[path.s])
  {
    if !IsStr(path) then Failure(PathNotValid)
    else if path.s !in files then Failure(FileNotFound)
    else Success(files[path.s])
  }

  /** Loading what was saved under the same path restores the frozen flag and the layers. */
  lemma SaveLoadRoundTrip(path: Value, frozen: bool, layers: seq<Stage>, files: map<string, Pickle>)
    requires SaveRecord(path, frozen, layers).Success?
    ensures var (file, content) := SaveRecord(path, frozen, layers).value;
      LoadRecord(path, files[file := content]) == Success(Pickle(frozen, layers))
  {
  }

  /**
   * `load` checks nothing about what it reads: a pickle holding a layer that
   * `add` would have refused still becomes the model's layer list.
   */
  lemma LoadSkipsAddChecks(s: Stage)
    requires !IsValidLayer(s.attrs)
    ensures LoadRecord(StrV("m"), map["m" := Pickle(false, [s])]).Success?
    ensures !WellFormed(LoadRecord(StrV("m"), map["m" := Pickle(false, [s])]).value.layers)
  {
    assert Pickle(false, [s]).layers[0] == s;
  }

  class Model {
    var frozen: bool
    var layers: seq<Stage>

    constructor()
      ensures !frozen && layers == []
    {
      frozen := false;
      layers := [];
    }

    /** `add(layer)`: appends the layer if the composition rules allow it, otherwise raises and changes nothing. */
    method Add(s: Stage) returns (outcome: Outcome<CompositionError>)
      modifies this
      ensures outcome == AddCheck(old(frozen), old(layers), s)
      ensures frozen == old(frozen)
      ensures layers == if outcome.Pass? then old(layers) + [s] else old(layers)
    {
      outcome := AddCheck(frozen, layers, s);
      if outcome.Pass? {
        layers := layers + [s];
      }
    }

    /** `freeze()` */
    method Freeze()
      modifies this
      ensures frozen && layers == old(layers)
    {
      frozen := true;
    }

    /**
     * `summary()`: one row per layer, numbered from 1, with its description;
     * `_get_description` is looked up on every layer in order, so a layer
     * that `load` installed without it raises AttributeError.
     */
    method Summary() returns (r: Result<seq<Row>, LegacyLayerBase.AttributeError>)
      ensures r.Success? <==> forall k :: 0 <= k < |layers| ==> "_get_description" in layers[k].attrs
      ensures r.Failure? ==> r.error == LegacyLayerBase.MissingAttribute("_get_description")
      ensures r.Success? ==> |r.value| == |layers|
      ensures r.Success? ==> forall k :: 0 <= k < |layers| ==>
        r.value[k] == Row("#" + IntToString(k + 1), Description(layers[k].layer).0, Description(layers[k].layer).1)
    {
      var rows := [];
      var index := 0;
      while index < |layers|
        invariant 0 <= index <= |layers|
        invariant |rows| == index
        invariant forall k :: 0 <= k < index ==> "_get_description" in layers[k].attrs
        invariant forall k :: 0 <= k < index ==>
          rows[k] == Row("#" + IntToString(k + 1), Description(layers[k].layer).0, Description(layers[k].layer).1)
      {
        if "_get_description" !in layers[index].attrs {
          return Failure(LegacyLayerBase.MissingAttribute("_get_description"));
        }
        var (name, parameters) := Description(layers[index].layer);
        rows := rows + [Row("#" + IntToString(index + 1), name, parameters)];
        index := index + 1;
      }
      return Success(rows);
    }

    /** `transform()`: every item the read layer yields, through every later layer. */
    method Transform(env: Environment) returns (run: Run)
      ensures run == Pipeline.Transform(layers, env)
    {
      if |layers| == 0 {
        return Run([], Some(NoLayers));
      }
      var first := layers[0];
      if "_apply_layer" !in first.attrs {
        return Run([], Some(NoApplyLayer));
      }
      if first.behaviour.Transformer? {
        return Run([], Some(SourceExpected));
      }
      var listed := first.behaviour.read(env.fs);
      if listed.Failure? {
        return Run([], Some(listed.error));
      }
      var items := listed.value;
      var stages := layers[1..];
      var writes: seq<FileWrite> := [];
      var k := 0;
      while k < |items|
        invariant 0 <= k <= |items|
        invariant RunItems(items, stages, env, 0) ==
          var rest := RunItems(items[k..], stages, env, k); Run(writes + rest.writes, rest.error)
      {
        assert items[k..][0] == items[k];
        assert items[k..][1..] == items[k + 1..];
        var trace := RunLayers(stages, items[k], env, k);
        if trace.Raised? {
          return Run(writes + trace.writes, Some(trace.error));
        }
        var rest := RunItems(items[k + 1..], stages, env, k + 1);
        assert writes + (trace.writes + rest.writes) == (writes + trace.writes) + rest.writes;
        writes := writes + trace.writes;
        k := k + 1;
      }
      assert writes + [] == writes;
      return Run(writes, None);
    }

    /** `save(path)`: refuses a path that is not a string; otherwise the file and what is pickled into it. */
    method Save(path: Value) returns (r: Result<(string, Pickle), PersistError>)
      ensures r == SaveRecord(path, frozen, layers)
    {
      if !IsStr(path) {
        return Failure(PathNotValid);
      }
      return Success((path.s, Pickle(frozen, layers)));
    }

    /** `load(path)`: replaces the layers and the frozen flag by what the file holds, frozen or not. */
    method Load(path: Value, files: map<string, Pickle>) returns (outcome: Outcome<PersistError>)
      modifies this
      ensures var r := LoadRecord(path, files);
        && (r.Failure? ==> outcome == Fail(r.error) && frozen == old(frozen) && layers == old(layers))
        && (r.Success? ==> outcome == Pass && frozen == r.value.frozen && layers == r.value.layers)
    {
      if !IsStr(path) {
        return Fail(PathNotValid);
      }
      if path.s !in files {
        return Fail(FileNotFound);
      }
      var content := files[path.s];
      layers := content.layers;
      frozen := content.frozen;
      return Pass;
    }
  }

  /** Building a model with `add` only ever yields a well-formed model. */
  method AddAll(m: Model, candidates: seq<Stage>)
    requires WellFormed(m.layers)
    modifies m
    ensures WellFormed(m.layers)
    ensures m.frozen == old(m.frozen)
  {
    var i := 0;
    while i < |candidates|
      invariant 0 <= i <= |candidates|
      invariant WellFormed(m.layers) && m.frozen == old(m.frozen)
    {
      AddKeepsWellFormed(m.frozen, m.layers, candidates[i]);
      var _ := m.Add(candidates[i]);
      i := i + 1;
    }
  }
}
