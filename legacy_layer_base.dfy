/**
 * The older `Layer` base class of `hocrox/utils/Layer.py`: public getters
 * without the leading underscore, a name that must be a string, and a
 * `get_description` that reads an attribute `type` the class never sets.
 */
module LegacyLayerBase {
  import opened Wrappers
  import opened Python
  import LayerBase

  /**
   * The stored configuration, and the public attribute `type`, which only a
   * subclass could set (`None` when it is absent).
   */
  datatype LegacyLayer = LegacyLayer(
    name: string, layerType: string, parents: seq<Value>, parameters: string, bypass: bool,
    typeAttribute: Option<string>)

  /** An `AttributeError` naming the attribute that was missing. */
  datatype AttributeError = MissingAttribute(attribute: string)

  /** `Layer.__init__` of the older base: the same five checks, except that the name must be a string. */
  function New(name: Value, layerType: Value, parents: Value, parameterStr: Value, bypass: Value): (r: Result<LegacyLayer, LayerBase.ConfigError>)
    ensures r.Success? <==> IsStr(name) && IsStr(layerType) && parents.ListV? && IsStr(parameterStr) && bypass.BoolV?
    ensures !IsStr(name) ==> r == Failure(LayerBase.InvalidArgument("name", name))
    ensures IsStr(name) && !IsStr(layerType) ==> r == Failure(LayerBase.InvalidArgument("type", layerType))
    ensures IsStr(name) && IsStr(layerType) && !parents.ListV? ==>
      r == Failure(LayerBase.InvalidArgument("supported_parent_layer", parents))
    ensures IsStr(name) && IsStr(layerType) && parents.ListV? && !IsStr(parameterStr) ==>
      r == Failure(LayerBase.InvalidArgument("parameter_str", parameterStr))
    ensures IsStr(name) && IsStr(layerType) && parents.ListV? && IsStr(parameterStr) && !bypass.BoolV? ==>
      r == Failure(LayerBase.InvalidArgument("bypass_validation", bypass))
    ensures r.Success? ==>
      r.value == LegacyLayer(name.s, layerType.s, parents.items, parameterStr.s, bypass.b, None)
  {
    if !IsStr(name) then Failure(LayerBase.InvalidArgument("name", name))
    else if !IsStr(layerType) then Failure(LayerBase.InvalidArgument("type", layerType))
    else if !parents.ListV? then Failure(LayerBase.InvalidArgument("supported_parent_layer", parents))
    else if !IsStr(parameterStr) then Failure(LayerBase.InvalidArgument("parameter_str", parameterStr))
    else if !bypass.BoolV? then Failure(LayerBase.InvalidArgument("bypass_validation", bypass))
    else Success(LegacyLayer(name.s, layerType.s, parents.items, parameterStr.s, bypass.b, None))
  }

  /**
   * The older base accepts fewer names than `LayerBase.New`: every name it
   * accepts the newer base accepts too, and the default `None` is refused.
   */
  lemma NameStricterThanLayerBase(name: Value, layerType: Value, parents: Value, parameterStr: Value, bypass: Value)
    ensures New(name, layerType, parents, parameterStr, bypass).Success? ==>
      LayerBase.New(name, layerType, parents, parameterStr, bypass).Success?
    ensures New(NoneV, layerType, parents, parameterStr, bypass).Failure?
    ensures IsStr(layerType) && parents.ListV? && IsStr(parameterStr) && bypass.BoolV? ==>
      LayerBase.New(NoneV, layerType, parents, parameterStr, bypass).Success?
  {
  }

  /** `get_description()` as written: it reads `self.type`, not the stored type. */
  function GetDescription(l: LegacyLayer): (r: Result<(string, string), AttributeError>)
    ensures l.typeAttribute.None? <==> r.Failure?
    ensures r.Failure? ==> r.error == MissingAttribute("type")
    ensures r.Success? ==> r.value.1 == l.parameters
  {
    match l.typeAttribute
    case None => Failure(MissingAttribute("type"))
    case Some(t) => Success((l.name + "(" + t + ")", l.parameters))
  }

  /** Every layer the older base constructs fails `get_description`. */
  lemma GetDescriptionFailsOnConstructed(name: Value, layerType: Value, parents: Value, parameterStr: Value, bypass: Value)
    requires New(name, layerType, parents, parameterStr, bypass).Success?
    ensures GetDescription(New(name, layerType, parents, parameterStr, bypass).value) == Failure(MissingAttribute("type"))
  {
  }

  /** A concrete layer that shows it: `Layer("crop", "crop", [], "-")`. */
  lemma GetDescriptionExample()
    ensures GetDescription(New(StrV("crop"), StrV("crop"), ListV([]), StrV("-"), BoolV(false)).value).Failure?
  {
  }

  /** `get_description()` reading the stored type, as the newer base does. */
  function Description(l: LegacyLayer): (r: (string, string))
    ensures r == LayerBase.Description(LayerBase.Layer(l.name, l.layerType, l.parents, l.parameters, l.bypass))
  {
    (l.name + "(" + l.layerType + ")", l.parameters)
  }

  /** The corrected description names the type the layer was constructed with. */
  lemma DescriptionNamesStoredType(name: Value, layerType: Value, parents: Value, parameterStr: Value, bypass: Value)
    requires New(name, layerType, parents, parameterStr, bypass).Success?
    ensures Description(New(name, layerType, parents, parameterStr, bypass).value) == (name.s + "(" + layerType.s + ")", parameterStr.s)
  {
  }

  function GetName(l: LegacyLayer): string { l.name }
  function GetType(l: LegacyLayer): string { l.layerType }
  function GetSupportedParentLayer(l: LegacyLayer): seq<Value> { l.parents }
  function GetBypassValidation(l: LegacyLayer): bool { l.bypass }

  /** The getters return what the constructor was given. */
  lemma GettersReturnArguments(name: Value, layerType: Value, parents: Value, parameterStr: Value, bypass: Value)
    requires New(name, layerType, parents, parameterStr, bypass).Success?
    ensures var l := New(name, layerType, parents, parameterStr, bypass).value;
      GetName(l) == name.s && GetType(l) == layerType.s && GetSupportedParentLayer(l) == parents.items
      && GetBypassValidation(l) == bypass.b
  {
  }
}
