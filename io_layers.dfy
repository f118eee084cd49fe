/**
 * `Read` of `hocrox/layer/read.py`: the source of every model. It lists a
 * directory and reads each entry as a one-image batch, in listing order.
 */
module ReadLayer {
  import opened Wrappers
  import opened Python
  import opened Images
  import opened LayerBase
  import opened LayerValidity
  import opened Pipeline
  import opened Layers
  import Models

  datatype Read = Read(layer: Layer, path: Value)

  /** `Read.__init__`: a truthy path must be a string; the read layer accepts no parent. */
  function New(path: Value, name: Value): (r: Result<Read, ConfigError>)
    ensures r.Success? <==> FalsyOrStr(path) && FalsyOrStr(name)
    ensures !FalsyOrStr(path) ==> r == Failure(InvalidArgument("path", path))
    ensures FalsyOrStr(path) && !FalsyOrStr(name) ==> r == Failure(InvalidArgument("name", name))
    ensures r.Success? ==>
      && r.value.path == path
      && r.value.layer.layerType == "read" && r.value.layer.parents == [] && !r.value.layer.bypass
      && r.value.layer.parameters == "Path: " + Show(path)
  {
    if !FalsyOrStr(path) then Failure(InvalidArgument("path", path))
    else
      var layer :- Make(name, "read", [], "Path: " + Show(path));
      Success(Read(layer, path))
  }

  /** The batch `__read_image_gen` yields for one listing entry. */
  function ItemFor(path: string, entry: string, fs: FileSystem): Item
  {
    Item(entry, [fs.imread(PathJoin(path, entry))])
  }

  /**
   * `_apply_layer()` and the generator the model drains: one batch per
   * listing entry, in listing order, each holding the one image read from
   * the entry's path. Joining a path that is not a string raises as soon as
   * there is an entry to join.
   */
  function Items(c: Read, fs: FileSystem): (r: Result<seq<Item>, ExecError>)
    ensures r.Failure? <==> |fs.listdir(c.path)| > 0 && !IsStr(c.path)
    ensures r.Failure? ==> r.error == PathNotString
    ensures r.Success? ==> |r.value| == |fs.listdir(c.path)|
    ensures r.Success? ==> forall k :: 0 <= k < |r.value| ==>
      && r.value[k].path == fs.listdir(c.path)[k]
      && |r.value[k].images| == 1
      && r.value[k].images[0] == fs.imread(PathJoin(c.path.s, fs.listdir(c.path)[k]))
  {
    var listing := fs.listdir(c.path);
    if |listing| == 0 then Success([])
    else if !IsStr(c.path) then Failure(PathNotString)
    else Success(seq(|listing|, k requires 0 <= k < |listing| => ItemFor(c.path.s, listing[k], fs)))
  }

  /** The generator loop, one entry at a time. */
  method ReadAll(c: Read, fs: FileSystem) returns (r: Result<seq<Item>, ExecError>)
    ensures r == Items(c, fs)
  {
    var listing := fs.listdir(c.path);
    if |listing| == 0 {
      return Success([]);
    }
    if !IsStr(c.path) {
      return Failure(PathNotString);
    }
    var items: seq<Item> := [];
    var i := 0;
    while i < |listing|
      invariant 0 <= i <= |listing|
      invariant |items| == i
      invariant forall k :: 0 <= k < i ==> items[k] == ItemFor(c.path.s, listing[k], fs)
    {
      items := items + [ItemFor(c.path.s, listing[i], fs)];
      i := i + 1;
    }
    assert items == Items(c, fs).value;
    return Success(items);
  }

  function AsStage(c: Read): (s: Stage)
    ensures IsValidLayer(s.attrs) && s.layer == c.layer && s.behaviour.Source?
  {
    SubclassesAreValid();
    Stage(SubclassAttributes, c.layer, Source((fs: FileSystem) => Items(c, fs)))
  }

  /**
   * With no parent types and no bypass, a read layer accepts no predecessor:
   * `add` takes it as the first layer of a model and refuses it anywhere else,
   * with an AttributeError when the previous layer has no `_get_type`.
   */
  lemma OnlyFirst(c: Read, layers: seq<Stage>)
    requires c.layer.layerType == "read" && c.layer.parents == [] && !c.layer.bypass
    ensures forall t :: !IsValidChild(c.layer, t)
    ensures |layers| == 0 ==> Models.AddCheck(false, layers, AsStage(c)) == Pass
    ensures |layers| > 0 ==> Models.AddCheck(false, layers, AsStage(c)).Fail?
    ensures |layers| > 0 && "_get_type" in layers[|layers| - 1].attrs ==>
      Models.AddCheck(false, layers, AsStage(c)) ==
        Fail(Models.UnsupportedParent("read", layers[|layers| - 1].layer.layerType))
    ensures |layers| > 0 && "_get_type" !in layers[|layers| - 1].attrs ==>
      Models.AddCheck(false, layers, AsStage(c)) == Fail(Models.MissingAttribute("_get_type"))
  {
  }
}

/**
 * `Save` of `hocrox/layer/save.py`, the save layer the package exports: a
 * stand-alone class that writes the whole batch to one file per item.
 *
 * As written, its format check is inverted (`format in ("npy", "img")`
 * raises), so the two documented formats, the default `"npy"` among them,
 * are refused and any other value is accepted; `NewAsWritten` is that
 * constructor and `New` the one that accepts exactly the two formats.
 */
module SaveLayer {
  import opened Wrappers
  import opened Python
  import opened Images
  import opened Randomness
  import opened LayerBase
  import opened LayerValidity
  import opened Pipeline
  import opened Layers

  datatype Save = Save(layer: Layer, path: Value, format: Value)

  const SaveParents: seq<string> := ["resize", "greyscale", "rotate", "crop", "padding", "save"]

  /** `format in ("npy", "img")` */
  predicate KnownFormat(format: Value)
  {
    format == StrV("npy") || format == StrV("img")
  }

  /** `f"Path: {path}, Format: {format}"` */
  function SaveParameters(path: Value, format: Value): string
  {
    "Path: " + Show(path) + ", Format: " + Show(format)
  }

  /** `Save.__init__` with the format check as written (`inverted`) or as intended. */
  function NewWith(inverted: bool, path: Value, format: Value, name: Value): (r: Result<Save, ConfigError>)
  {
    if !FalsyOrStr(path) then Failure(InvalidArgument("path", path))
    else if KnownFormat(format) == inverted then Failure(InvalidArgument("format", format))
    else if !FalsyOrStr(name) then Failure(InvalidArgument("name", name))
    else Success(Save(Standalone(name, "Save Layer", "save", Types(SaveParents), SaveParameters(path, format)), path, format))
  }

  function NewAsWritten(path: Value, format: Value, name: Value): (r: Result<Save, ConfigError>)
    ensures r.Success? <==> FalsyOrStr(path) && !KnownFormat(format) && FalsyOrStr(name)
    ensures r.Success? ==> r.value.format == format && r.value.path == path
  {
    NewWith(true, path, format, name)
  }

  function New(path: Value, format: Value, name: Value): (r: Result<Save, ConfigError>)
    ensures r.Success? <==> FalsyOrStr(path) && KnownFormat(format) && FalsyOrStr(name)
    ensures !FalsyOrStr(path) ==> r == Failure(InvalidArgument("path", path))
    ensures FalsyOrStr(path) && !KnownFormat(format) ==> r == Failure(InvalidArgument("format", format))
    ensures r.Success? ==>
      && r.value.path == path && r.value.format == format
      && r.value.layer.name == (if Truthy(name) then name.s else "Save Layer")
      && r.value.layer.layerType == "save" && r.value.layer.parents == Types(SaveParents)
      && Description(r.value.layer).1 == SaveParameters(path, format)
  {
    NewWith(false, path, format, name)
  }

  /**
   * As written, the default format `"npy"` is refused whatever the other
   * arguments, and so is `"img"`; the corrected constructor accepts both.
   */
  lemma FormatCheckAsWritten(path: Value, name: Value)
    requires FalsyOrStr(path) && FalsyOrStr(name)
    ensures NewAsWritten(path, StrV("npy"), name) == Failure(InvalidArgument("format", StrV("npy")))
    ensures NewAsWritten(path, StrV("img"), name) == Failure(InvalidArgument("format", StrV("img")))
    ensures New(path, StrV("npy"), name).Success? && New(path, StrV("img"), name).Success?
  {
  }

  /** How the file is written: `np.save` only for the format `"npy"`. */
  function FormatOf(format: Value): Format
  {
    if format == StrV("npy") then NumpyArray else EncodedImage
  }

  /** `f"{name}_{type}_{context}"`, with ".npy" added for the NumPy format. */
  function FileName(c: Save, context: string): string
  {
    c.layer.name + "_" + c.layer.layerType + "_" + context + (if FormatOf(c.format) == NumpyArray then ".npy" else "")
  }

  /**
   * `apply_layer(img, name)`: the whole batch written to one file, and the
   * batch handed on unchanged. Joining a path that is not a string raises.
   */
  function Output(c: Save, images: seq<Image>, context: string): (r: Result<Step, ExecError>)
    ensures r.Failure? <==> !IsStr(c.path)
    ensures r.Success? ==> r.value.images == images && |r.value.writes| == 1
    ensures r.Success? ==> r.value.writes[0] == FileWrite(FormatOf(c.format), PathJoin(c.path.s, FileName(c, context)), images)
  {
    if !IsStr(c.path) then Failure(PathNotString)
    else Success(Step(images, [FileWrite(FormatOf(c.format), PathJoin(c.path.s, FileName(c, context)), images)]))
  }

  /**
   * Every layer the written constructor builds takes the image branch: the
   * NumPy branch of `apply_layer` cannot be reached.
   */
  lemma NumpyBranchUnreachable(path: Value, format: Value, name: Value, images: seq<Image>, context: string)
    requires NewAsWritten(path, format, name).Success?
    ensures var r := Output(NewAsWritten(path, format, name).value, images, context);
      r.Success? ==> r.value.writes[0].format == EncodedImage
  {
  }

  function AsStage(c: Save): (s: Stage)
    ensures s.attrs == StandaloneAttributes && s.layer == c.layer && s.behaviour.Transformer?
  {
    Stage(StandaloneAttributes, c.layer, Transformer((images: seq<Image>, path: string, lib: Library, o: Oracle) =>
      Output(c, images, path)))
  }
}

/**
 * The older `Save` of `hocrox/layer/preprocessing/save.py`: one file per
 * image, named after the layer, the image's position in the batch and the
 * item, and the batch handed on unchanged.
 */
module LegacySave {
  import opened Wrappers
  import opened Python
  import opened Images
  import opened Randomness
  import opened LayerBase
  import opened LayerValidity
  import opened Pipeline
  import opened Layers
  import SaveLayer

  datatype Save = Save(layer: Layer, path: Value, format: Format)

  /** Its nine parents: `random_rotate` but not `random_flip`. */
  const SaveParents: seq<string> :=
    ["resize", "greyscale", "rotate", "crop", "padding", "save", "horizontal_flip", "vertical_flip", "random_rotate"]

  function New(path: Value, format: Value, name: Value): (r: Result<Save, ConfigError>)
    ensures r.Success? <==> FalsyOrStr(path) && SaveLayer.KnownFormat(format) && FalsyOrStr(name)
    ensures !FalsyOrStr(path) ==> r == Failure(InvalidArgument("path", path))
    ensures FalsyOrStr(path) && !SaveLayer.KnownFormat(format) ==> r == Failure(InvalidArgument("format", format))
    ensures r.Success? ==>
      && r.value.path == path && r.value.format == SaveLayer.FormatOf(format)
      && r.value.layer.name == (if Truthy(name) then name.s else "Save Layer")
      && r.value.layer.layerType == "save" && r.value.layer.parents == Types(SaveParents)
      && Description(r.value.layer).1 == SaveLayer.SaveParameters(path, format)
  {
    if !FalsyOrStr(path) then Failure(InvalidArgument("path", path))
    else if !SaveLayer.KnownFormat(format) then Failure(InvalidArgument("format", format))
    else if !FalsyOrStr(name) then Failure(InvalidArgument("name", name))
    else Success(Save(Standalone(name, "Save Layer", "save", Types(SaveParents), SaveLayer.SaveParameters(path, format)),
      path, SaveLayer.FormatOf(format)))
  }

  /** `f"{name}_{index}_{context}"`, with ".npy" added for the NumPy format. */
  function FileName(c: Save, index: nat, context: string): string
  {
    c.layer.name + "_" + NatToString(index) + "_" + context + (if c.format == NumpyArray then ".npy" else "")
  }

  /** The write for batch position `index`. */
  function WriteFor(c: Save, path: string, images: seq<Image>, index: nat, context: string): FileWrite
    requires index < |images|
  {
    FileWrite(c.format, PathJoin(path, FileName(c, index, context)), [images[index]])
  }

  /**
   * `apply_layer(images, name)`: one write per image, in batch order, and the
   * batch handed on unchanged; joining a path that is not a string raises
   * once there is an image to write.
   */
  function Output(c: Save, images: seq<Image>, context: string): (r: Result<Step, ExecError>)
    ensures r.Failure? <==> |images| > 0 && !IsStr(c.path)
    ensures r.Failure? ==> r.error == PathNotString
    ensures r.Success? ==> r.value.images == images && |r.value.writes| == |images|
    ensures r.Success? ==> forall k :: 0 <= k < |images| ==>
      && r.value.writes[k].format == c.format
      && r.value.writes[k].data == [images[k]]
      && r.value.writes[k].file == PathJoin(c.path.s, FileName(c, k, context))
  {
    if |images| == 0 then Success(Step(images, []))
    else if !IsStr(c.path) then Failure(PathNotString)
    else Success(Step(images, seq(|images|, k requires 0 <= k < |images| => WriteFor(c, c.path.s, images, k, context))))
  }

  /** The `for index, image in enumerate(images)` loop. */
  method Apply(c: Save, images: seq<Image>, context: string) returns (r: Result<Step, ExecError>)
    ensures r == Output(c, images, context)
  {
    if |images| == 0 {
      return Success(Step(images, []));
    }
    if !IsStr(c.path) {
      return Failure(PathNotString);
    }
    var writes: seq<FileWrite> := [];
    var index := 0;
    while index < |images|
      invariant 0 <= index <= |images|
      invariant |writes| == index
      invariant forall k :: 0 <= k < index ==> writes[k] == WriteFor(c, c.path.s, images, k, context)
    {
      writes := writes + [WriteFor(c, c.path.s, images, index, context)];
      index := index + 1;
    }
    assert writes == Output(c, images, context).value.writes;
    return Success(Step(images, writes));
  }

  /** Different batch positions get different file names. */
  lemma FileNamesDistinct(c: Save, i: nat, j: nat, context: string)
    requires i != j
    ensures FileName(c, i, context) != FileName(c, j, context)
  {
    var head := c.layer.name + "_";
    var tail := "_" + context + (if c.format == NumpyArray then ".npy" else "");
    var si, sj := NatToString(i), NatToString(j);
    assert FileName(c, i, context) == head + si + tail;
    assert FileName(c, j, context) == head + sj + tail;
    if |si| == |sj| {
      NatToStringInjective(i, j);
      assert (head + si + tail)[|head|..|head| + |si|] == si;
      assert (head + sj + tail)[|head|..|head| + |sj|] == sj;
    }
  }

  /** No image of a batch overwrites another: every write of one call goes to its own file. */
  lemma FilesDistinct(c: Save, images: seq<Image>, context: string)
    requires Output(c, images, context).Success?
    ensures var writes := Output(c, images, context).value.writes;
      forall i, j :: 0 <= i < j < |writes| ==> writes[i].file != writes[j].file
  {
    var writes := Output(c, images, context).value.writes;
    forall i, j | 0 <= i < j < |writes|
      ensures writes[i].file != writes[j].file
    {
      var a, b := FileName(c, i, context), FileName(c, j, context);
      FileNamesDistinct(c, i, j, context);
      assert a[..|c.layer.name| + 1] == c.layer.name + "_" == b[..|c.layer.name| + 1];
      assert a[0] == b[0];
      PathJoinInjective(c.path.s, a, b);
    }
  }

  function AsStage(c: Save): (s: Stage)
    ensures s.attrs == StandaloneAttributes && s.layer == c.layer && s.behaviour.Transformer?
  {
    Stage(StandaloneAttributes, c.layer, Transformer((images: seq<Image>, path: string, lib: Library, o: Oracle) =>
      Output(c, images, path)))
  }
}
