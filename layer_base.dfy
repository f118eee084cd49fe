/**
 * The `Layer` base class of `hocrox/utils/layer.py`: argument validation, the
 * default name derived from the type, the summary description and the
 * parent-type check the model uses when a layer is added.
 */
module LayerBase {
  import opened Wrappers
  import opened Python

  /** What a constructor raises. */
  datatype ConfigError =
    | InvalidArgument(argument: string, value: Value)   // ValueError("The value … for the argument … is not valid")
    | ComparisonTypeError                                // TypeError from comparing a non-number with a number
    | TupleIndexError                                    // IndexError from indexing a short tuple

  /** The configuration every layer keeps: what the getters return. */
  datatype Layer = Layer(name: string, layerType: string, parents: seq<Value>, parameters: string, bypass: bool)

  function UpperAscii(c: char): char
  {
    if 'a' <= c <= 'z' then (c as int - 32) as char else c
  }

  function LowerAscii(c: char): char
  {
    if 'A' <= c <= 'Z' then (c as int + 32) as char else c
  }

  /** `str.capitalize()` on ASCII text: first character upper case, the rest lower case. */
  function Capitalize(s: string): (r: string)
    ensures |r| == |s|
    ensures |s| > 0 ==> r[0] == UpperAscii(s[0])
    ensures forall k :: 0 < k < |s| ==> r[k] == LowerAscii(s[k])
  {
    if s == [] then [] else [UpperAscii(s[0])] + seq(|s| - 1, k requires 0 <= k < |s| - 1 => LowerAscii(s[k + 1]))
  }

  /** `str.replace('_', ' ')` */
  function UnderscoresToSpaces(s: string): (r: string)
    ensures |r| == |s|
    ensures forall k :: 0 <= k < |s| ==> r[k] == (if s[k] == '_' then ' ' else s[k])
  {
    seq(|s|, k requires 0 <= k < |s| => if s[k] == '_' then ' ' else s[k])
  }

  /** `f"{type.capitalize().replace('_', ' ')} Layer"` */
  function DefaultName(layerType: string): string
  {
    UnderscoresToSpaces(Capitalize(layerType)) + " Layer"
  }

  /** The default name keeps the type's length, has no underscore and ends in " Layer". */
  lemma DefaultNameShape(layerType: string)
    ensures |DefaultName(layerType)| == |layerType| + 6
    ensures DefaultName(layerType)[|layerType|..] == " Layer"
    ensures forall k :: 0 <= k < |layerType| ==> DefaultName(layerType)[k] != '_'
    ensures forall k :: 0 < k < |layerType| && 'a' <= layerType[k] <= 'z' ==> DefaultName(layerType)[k] == layerType[k]
  {
    var c := Capitalize(layerType);
    assert forall k :: 0 <= k < |layerType| ==> DefaultName(layerType)[k] == UnderscoresToSpaces(c)[k];
  }

  /** `Layer.__init__`: the five checks in order, then the stored configuration. */
  function New(name: Value, layerType: Value, parents: Value, parameterStr: Value, bypass: Value): (r: Result<Layer, ConfigError>)
    ensures r.Success? <==> FalsyOrStr(name) && IsStr(layerType) && parents.ListV? && IsStr(parameterStr) && bypass.BoolV?
    ensures !FalsyOrStr(name) ==> r == Failure(InvalidArgument("name", name))
    ensures FalsyOrStr(name) && !IsStr(layerType) ==> r == Failure(InvalidArgument("type", layerType))
    ensures FalsyOrStr(name) && IsStr(layerType) && !parents.ListV? ==>
      r == Failure(InvalidArgument("supported_parent_layer", parents))
    ensures FalsyOrStr(name) && IsStr(layerType) && parents.ListV? && !IsStr(parameterStr) ==>
      r == Failure(InvalidArgument("parameter_str", parameterStr))
    ensures FalsyOrStr(name) && IsStr(layerType) && parents.ListV? && IsStr(parameterStr) && !bypass.BoolV? ==>
      r == Failure(InvalidArgument("bypass_validation", bypass))
    ensures r.Success? ==>
      && r.value.layerType == layerType.s && r.value.parents == parents.items
      && r.value.parameters == parameterStr.s && r.value.bypass == bypass.b
    ensures r.Success? && Truthy(name) ==> r.value.name == name.s
    ensures r.Success? && !Truthy(name) ==> r.value.name == DefaultName(layerType.s)
    ensures r.Success? ==> r.value.name != []
  {
    if !FalsyOrStr(name) then Failure(InvalidArgument("name", name))
    else if !IsStr(layerType) then Failure(InvalidArgument("type", layerType))
    else if !parents.ListV? then Failure(InvalidArgument("supported_parent_layer", parents))
    else if !IsStr(parameterStr) then Failure(InvalidArgument("parameter_str", parameterStr))
    else if !bypass.BoolV? then Failure(InvalidArgument("bypass_validation", bypass))
    else
      var n := if Truthy(name) then name.s else DefaultName(layerType.s);
      assert |DefaultName(layerType.s)| == |layerType.s| + 6;
      Success(Layer(n, layerType.s, parents.items, parameterStr.s, bypass.b))
  }

  /**
   * `super().__init__(name, type, parents, parameter_str)` as every layer
   * calls it: only the name can be rejected.
   */
  function Make(name: Value, layerType: string, parents: seq<Value>, parameterStr: string): (r: Result<Layer, ConfigError>)
    ensures r.Success? <==> FalsyOrStr(name)
    ensures r.Failure? ==> r.error == InvalidArgument("name", name)
    ensures r.Success? ==>
      && r.value.layerType == layerType && r.value.parents == parents
      && r.value.parameters == parameterStr && !r.value.bypass
      && r.value.name == (if Truthy(name) then name.s else DefaultName(layerType))
  {
    New(name, StrV(layerType), ListV(parents), StrV(parameterStr), BoolV(false))
  }

  /** `_get_description()`: the name with the type in parentheses, and the parameter string. */
  function Description(l: Layer): (string, string)
  {
    (l.name + "(" + l.layerType + ")", l.parameters)
  }

  /** The description starts with the layer's name and carries its parameters unchanged. */
  lemma DescriptionShape(l: Layer)
    ensures |Description(l).0| == |l.name| + |l.layerType| + 2
    ensures Description(l).0[..|l.name|] == l.name
    ensures Description(l).0[|l.name| + 1..|l.name| + 1 + |l.layerType|] == l.layerType
    ensures Description(l).1 == l.parameters
  {
    var d := Description(l).0;
    assert d == l.name + ("(" + l.layerType + ")");
    assert d[|l.name|..] == "(" + l.layerType + ")";
  }

  /** `_is_valid_child(previous_layer_type)` */
  predicate IsValidChild(l: Layer, previousType: string)
  {
    l.bypass || StrV(previousType) in l.parents
  }

  /** A layer that bypasses validation accepts every parent; otherwise exactly the listed types. */
  lemma IsValidChildMeaning(l: Layer, previousType: string)
    ensures l.bypass ==> IsValidChild(l, previousType)
    ensures !l.bypass ==> (IsValidChild(l, previousType) <==> exists k :: 0 <= k < |l.parents| && l.parents[k] == StrV(previousType))
  {
    if !l.bypass && IsValidChild(l, previousType) {
      var k :| 0 <= k < |l.parents| && l.parents[k] == StrV(previousType);
    }
  }
}
