/**
 * `is_valid_layer` of `hocrox/utils/is_valid_layer.py`: a layer is accepted
 * by the model when it has the five underscore-prefixed attributes. A layer
 * object is seen here only through the set of its attribute names.
 */
module LayerValidity {

  /** The attributes `is_valid_layer` asks for, in the order it asks. */
  const Required: seq<string> := ["_get_description", "_get_name", "_get_type", "_is_valid_child", "_apply_layer"]

  /** What a subclass of the newer `Layer` base inherits. */
  const LayerBaseAttributes: set<string> := {"_get_description", "_is_valid_child", "_get_name", "_get_type"}

  /** What a subclass of the older `Layer` base inherits. */
  const LegacyBaseAttributes: set<string> :=
    {"get_description", "get_name", "get_type", "get_supported_parent_layer", "get_bypass_validation"}

  /** What a stand-alone layer class that sets `self.type` has. */
  const StandaloneAttributes: set<string> :=
    {"apply_layer", "get_description", "type", "supported_parent_layer", "bypass_validation"}

  /** The `hasattr` checks in order. */
  function IsValidLayer(attrs: set<string>): (r: bool)
    ensures r <==> forall k :: 0 <= k < |Required| ==> Required[k] in attrs
  {
    assert Required[0] == "_get_description" && Required[1] == "_get_name" && Required[2] == "_get_type"
      && Required[3] == "_is_valid_child" && Required[4] == "_apply_layer";
    if "_get_description" !in attrs then false
    else if "_get_name" !in attrs then false
    else if "_get_type" !in attrs then false
    else if "_is_valid_child" !in attrs then false
    else "_apply_layer" in attrs
  }

  /** A subclass of the newer base is valid exactly when it defines `_apply_layer`. */
  lemma LayerSubclassValid(own: set<string>)
    ensures IsValidLayer(LayerBaseAttributes + own) <==> "_apply_layer" in own
  {
    assert "_apply_layer" !in LayerBaseAttributes;
    if "_apply_layer" in own {
      assert forall k :: 0 <= k < |Required| ==> Required[k] in LayerBaseAttributes + own;
    }
  }

  /** The older base contributes nothing to validity: its subclasses are judged by their own attributes. */
  lemma LegacySubclassValid(own: set<string>)
    ensures IsValidLayer(LegacyBaseAttributes + own) <==> IsValidLayer(own)
  {
    assert forall k :: 0 <= k < |Required| ==> Required[k] !in LegacyBaseAttributes;
  }

  /** Stand-alone layer classes are never accepted by the model. */
  lemma StandaloneInvalid()
    ensures !IsValidLayer(StandaloneAttributes)
  {
    assert Required[0] !in StandaloneAttributes;
  }
}
