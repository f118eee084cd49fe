/**
 * The older `Sequential` model of `hocrox/model/sequential.py`: `add` checks
 * only the frozen flag, `summary` calls the public `get_description`, and
 * `transform`, `transform_generator`, `save` and `load` do nothing.
 */
module SequentialModels {
  import opened Wrappers
  import opened Python
  import opened LayerBase
  import opened Pipeline
  import Models
  import LegacyLayerBase

  /**
   * What `layer.get_description()` yields for a stage: an `AttributeError`
   * when the object has no such method, or when the method reads a `type`
   * attribute the object lacks; otherwise the name with the type and the
   * parameter string.
   */
  function LegacyDescription(s: Stage): (r: Result<(string, string), LegacyLayerBase.AttributeError>)
    ensures r.Success? <==> "get_description" in s.attrs && "type" in s.attrs
    ensures r.Success? ==> r.value == Description(s.layer)
    ensures "get_description" !in s.attrs ==> r == Failure(LegacyLayerBase.MissingAttribute("get_description"))
  {
    if "get_description" !in s.attrs then Failure(LegacyLayerBase.MissingAttribute("get_description"))
    else if "type" !in s.attrs then Failure(LegacyLayerBase.MissingAttribute("type"))
    else Success(Description(s.layer))
  }

  class Sequential {
    var frozen: bool
    var layers: seq<Stage>

    constructor()
      ensures !frozen && layers == []
    {
      frozen := false;
      layers := [];
    }

    /** `add(layer)`: any object is appended unless the model is frozen. */
    method Add(s: Stage) returns (outcome: Outcome<Models.CompositionError>)
      modifies this
      ensures old(frozen) <==> outcome == Fail(Models.ModelFrozen)
      ensures !old(frozen) ==> outcome == Pass
      ensures frozen == old(frozen)
      ensures layers == if old(frozen) then old(layers) else old(layers) + [s]
    {
      if frozen {
        return Fail(Models.ModelFrozen);
      }
      layers := layers + [s];
      return Pass;
    }

    /** `freeze()` */
    method Freeze()
      modifies this
      ensures frozen && layers == old(layers)
    {
      frozen := true;
    }

    /**
     * The rows of `summary()`, or the `AttributeError` of the first layer
     * whose description cannot be obtained.
     */
    method Summary() returns (r: Result<seq<Models.Row>, LegacyLayerBase.AttributeError>)
      ensures r.Success? <==> forall k :: 0 <= k < |layers| ==> LegacyDescription(layers[k]).Success?
      ensures r.Failure? ==>
        exists k :: (0 <= k < |layers| && LegacyDescription(layers[k]) == Failure(r.error)
          && forall m :: 0 <= m < k ==> LegacyDescription(layers[m]).Success?)
      ensures r.Success? ==> |r.value| == |layers|
      ensures r.Success? ==> forall k :: 0 <= k < |layers| ==>
        r.value[k] == Models.Row("#" + IntToString(k + 1), Description(layers[k].layer).0, Description(layers[k].layer).1)
    {
      var rows: seq<Models.Row> := [];
      var index := 0;
      while index < |layers|
        invariant 0 <= index <= |layers|
        invariant |rows| == index
        invariant forall k :: 0 <= k < index ==> LegacyDescription(layers[k]).Success?
        invariant forall k :: 0 <= k < index ==>
          rows[k] == Models.Row("#" + IntToString(k + 1), Description(layers[k].layer).0, Description(layers[k].layer).1)
      {
        var d := LegacyDescription(layers[index]);
        if d.Failure? {
          return Failure(d.error);
        }
        var (name, parameters) := d.value;
        rows := rows + [Models.Row("#" + IntToString(index + 1), name, parameters)];
        index := index + 1;
      }
      return Success(rows);
    }

    /** `transform()`, `transform_generator()`, `save()` and `load()` are empty: nothing changes. */
    method Transform()
      ensures unchanged(this)
    {
    }

    method TransformGenerator()
      ensures unchanged(this)
    {
    }

    method Save()
      ensures unchanged(this)
    {
    }

    method Load()
      ensures unchanged(this)
    {
    }
  }
}
