/**
 * What `Model.transform()` does with the layers it holds: the first layer
 * (the read layer) is called without arguments and yields one
 * `(path, [image])` item per directory entry; every further layer is called
 * on the item's image list and path, in order, and the result is passed on.
 * Layers only ever act on the outside world by writing files (the save
 * layers), so a run is described by the files it wrote and the exception, if
 * any, that ended it.
 */
module Pipeline {
  import opened Wrappers
  import opened Python
  import opened Images
  import opened Randomness
  import opened LayerBase

  /** Exceptions raised while the pipeline runs. */
  datatype ExecError =
    | NoApplyLayer                // `layer._apply_layer` on an object that has no such attribute: AttributeError
    | NoLayers                    // `self.__layers[0]` on a model without layers: IndexError
    | SourceExpected              // `_apply_layer()` without arguments on a layer that needs images: TypeError
    | TransformerExpected         // `_apply_layer(image, path)` on the read layer: TypeError
    | PathNotString               // `os.path.join` of a path that is not a string: TypeError
    | OutputsNotInt               // `range(number_of_outputs)` of a value that is not an int: TypeError
    | SliceNotInt                 // a slice bound that is not an int (or `None + int`): TypeError

  /** The directory listing and image decoding the read layer uses. */
  datatype FileSystem = FileSystem(listdir: Value -> seq<string>, imread: string -> Image)

  /**
   * Everything `transform()` takes from outside the model: the filesystem,
   * the OpenCV functions, and the random draws of layer `j` on item `k`,
   * `draws(k, j)`.
   */
  datatype Environment = Environment(fs: FileSystem, lib: Library, draws: (nat, nat) -> Oracle)

  /** One value the read layer's generator yields. */
  datatype Item = Item(path: string, images: seq<Image>)

  /** What one `_apply_layer(images, path)` call returns and writes. */
  datatype Step = Step(images: seq<Image>, writes: seq<FileWrite>)

  /** How a layer takes part in a run. */
  datatype Behaviour =
    | Source(read: FileSystem -> Result<seq<Item>, ExecError>)
    | Transformer(apply: (seq<Image>, string, Library, Oracle) -> Result<Step, ExecError>)

  /**
   * A layer object as the model holds it: the names of its attributes
   * (for `is_valid_layer`), its configuration, and what it does.
   */
  datatype Stage = Stage(attrs: set<string>, layer: Layer, behaviour: Behaviour)

  /** The layers after the read layer, run on one item: the result, or the exception, with the files written on the way. */
  datatype Trace = Done(images: seq<Image>, writes: seq<FileWrite>) | Raised(error: ExecError, writes: seq<FileWrite>)

  /** What a whole `transform()` call does. */
  datatype Run = Run(writes: seq<FileWrite>, error: Option<ExecError>)

  function AfterWrites(w: seq<FileWrite>, t: Trace): (r: Trace)
    ensures r.Done? <==> t.Done?
    ensures r.writes == w + t.writes
  {
    match t
    case Done(images, writes) => Done(images, w + writes)
    case Raised(e, writes) => Raised(e, w + writes)
  }

  /**
   * `for layer in stages: image = layer._apply_layer(image, path)`, where the
   * first of `stages` is layer number `index` of the model, on item `item`.
   */
  function Chain(stages: seq<Stage>, images: seq<Image>, path: string, env: Environment, item: nat, index: nat): Trace
    decreases |stages|
  {
    if stages == [] then Done(images, [])
    else if "_apply_layer" !in stages[0].attrs then Raised(NoApplyLayer, [])
    else match stages[0].behaviour
      case Source(_) => Raised(TransformerExpected, [])
      case Transformer(apply) =>
        match apply(images, path, env.lib, env.draws(item, index))
        case Failure(e) => Raised(e, [])
        case Success(step) => AfterWrites(step.writes, Chain(stages[1..], step.images, path, env, item, index + 1))
  }

  /** Running `a + b` is running `a`, then `b` on what `a` produced. */
  lemma {:induction false} ChainAppend(a: seq<Stage>, b: seq<Stage>, images: seq<Image>, path: string, env: Environment, item: nat, index: nat)
    ensures var ta := Chain(a, images, path, env, item, index);
      Chain(a + b, images, path, env, item, index) ==
        if ta.Raised? then ta else AfterWrites(ta.writes, Chain(b, ta.images, path, env, item, index + |a|))
    decreases |a|
  {
    if a == [] {
      assert a + b == b;
      var t := Chain(b, images, path, env, item, index);
      assert AfterWrites([], t) == t by {
        assert [] + t.writes == t.writes;
      }
    } else {
      assert (a + b)[0] == a[0];
      assert (a + b)[1..] == a[1..] + b;
      if "_apply_layer" in a[0].attrs {
        match a[0].behaviour
        case Source(_) =>
        case Transformer(apply) =>
          match apply(images, path, env.lib, env.draws(item, index))
          case Failure(e) =>
          case Success(step) =>
            ChainAppend(a[1..], b, step.images, path, env, item, index + 1);
            var ta1 := Chain(a[1..], step.images, path, env, item, index + 1);
            if ta1.Done? {
              var tb := Chain(b, ta1.images, path, env, item, index + |a|);
              assert AfterWrites(step.writes, AfterWrites(ta1.writes, tb)) == AfterWrites(step.writes + ta1.writes, tb) by {
                assert step.writes + (ta1.writes + tb.writes) == (step.writes + ta1.writes) + tb.writes;
              }
            }
      }
    }
  }

  /**
   * A layer object without `_apply_layer` (a stand-alone class that `load`
   * installed unchecked) ends the item's run as soon as it is reached: the
   * attribute lookup raises, so neither it nor any later layer writes a file.
   */
  lemma MissingApplyLayerStops(a: seq<Stage>, s: Stage, b: seq<Stage>, images: seq<Image>, path: string, env: Environment, item: nat, index: nat)
    requires "_apply_layer" !in s.attrs
    ensures var ta := Chain(a, images, path, env, item, index);
      Chain(a + [s] + b, images, path, env, item, index) ==
        if ta.Raised? then ta else Raised(NoApplyLayer, ta.writes)
  {
    assert a + [s] + b == a + ([s] + b);
    ChainAppend(a, [s] + b, images, path, env, item, index);
    var ta := Chain(a, images, path, env, item, index);
    if ta.Done? {
      assert ([s] + b)[0] == s;
      assert Chain([s] + b, ta.images, path, env, item, index + |a|) == Raised(NoApplyLayer, []);
      assert ta.writes + [] == ta.writes;
    }
  }

  /** The items from position `item` on, each through `stages`, stopping at the first exception. */
  function RunItems(items: seq<Item>, stages: seq<Stage>, env: Environment, item: nat): (r: Run)
    decreases |items|
  {
    if items == [] then Run([], None)
    else match Chain(stages, items[0].images, items[0].path, env, item, 1)
      case Raised(e, w) => Run(w, Some(e))
      case Done(_, w) =>
        var rest := RunItems(items[1..], stages, env, item + 1);
        Run(w + rest.writes, rest.error)
  }

  /** `Model.transform()` on the layers `layers`. */
  function Transform(layers: seq<Stage>, env: Environment): Run
  {
    if layers == [] then Run([], Some(NoLayers))
    else if "_apply_layer" !in layers[0].attrs then Run([], Some(NoApplyLayer))
    else match layers[0].behaviour
      case Transformer(_) => Run([], Some(SourceExpected))
      case Source(read) =>
        match read(env.fs)
        case Failure(e) => Run([], Some(e))
        case Success(items) => RunItems(items, layers[1..], env, 0)
  }

  /**
   * Items are independent and processed in order: a run over `a + b` is the
   * run over `a`, then, if `a` raised nothing, the run over `b`.
   */
  lemma {:induction false} RunItemsAppend(a: seq<Item>, b: seq<Item>, stages: seq<Stage>, env: Environment, item: nat)
    ensures var ra := RunItems(a, stages, env, item);
      RunItems(a + b, stages, env, item) ==
        if ra.error.Some? then ra
        else var rb := RunItems(b, stages, env, item + |a|); Run(ra.writes + rb.writes, rb.error)
    decreases |a|
  {
    if a == [] {
      assert a + b == b;
    } else {
      assert (a + b)[0] == a[0];
      assert (a + b)[1..] == a[1..] + b;
      RunItemsAppend(a[1..], b, stages, env, item + 1);
      var t := Chain(stages, a[0].images, a[0].path, env, item, 1);
      if t.Done? {
        var ra1 := RunItems(a[1..], stages, env, item + 1);
        if ra1.error.None? {
          var rb := RunItems(b, stages, env, item + |a|);
          assert t.writes + (ra1.writes + rb.writes) == (t.writes + ra1.writes) + rb.writes;
        }
      }
    }
  }

  /**
   * A model whose second layer has no `_apply_layer` raises on the first item
   * the read layer yields, before any file is written.
   */
  lemma MissingApplyLayerRaisesAtOnce(layers: seq<Stage>, env: Environment)
    requires 2 <= |layers| && "_apply_layer" in layers[0].attrs && layers[0].behaviour.Source?
    requires var listed := layers[0].behaviour.read(env.fs); listed.Success? && listed.value != []
    requires "_apply_layer" !in layers[1].attrs
    ensures Transform(layers, env) == Run([], Some(NoApplyLayer))
  {
    var items := layers[0].behaviour.read(env.fs).value;
    assert layers[1..][0] == layers[1];
    assert Chain(layers[1..], items[0].images, items[0].path, env, 0, 1) == Raised(NoApplyLayer, []);
  }

  /** A stage that transforms without writing files. */
  ghost predicate WritesNothing(s: Stage)
  {
    s.behaviour.Transformer? &&
    forall images: seq<Image>, path: string, lib: Library, o: Oracle ::
      var r := s.behaviour.apply(images, path, lib, o); r.Success? ==> r.value.writes == []
  }

  /** Layers that write nothing leave no file behind, however the run ends. */
  lemma {:induction false} ChainWritesNothing(stages: seq<Stage>, images: seq<Image>, path: string, env: Environment, item: nat, index: nat)
    requires forall k :: 0 <= k < |stages| ==> WritesNothing(stages[k])
    ensures Chain(stages, images, path, env, item, index).writes == []
    decreases |stages|
  {
    if stages != [] && "_apply_layer" in stages[0].attrs {
      var apply := stages[0].behaviour.apply;
      var r := apply(images, path, env.lib, env.draws(item, index));
      if r.Success? {
        ChainWritesNothing(stages[1..], r.value.images, path, env, item, index + 1);
      }
    }
  }

  lemma {:induction false} RunItemsWritesNothing(items: seq<Item>, stages: seq<Stage>, env: Environment, item: nat)
    requires forall k :: 0 <= k < |stages| ==> WritesNothing(stages[k])
    ensures RunItems(items, stages, env, item).writes == []
    decreases |items|
  {
    if items != [] {
      ChainWritesNothing(stages, items[0].images, items[0].path, env, item, 1);
      RunItemsWritesNothing(items[1..], stages, env, item + 1);
    }
  }

  lemma AfterWritesTwice(w1: seq<FileWrite>, w2: seq<FileWrite>, t: Trace)
    ensures AfterWrites(w1, AfterWrites(w2, t)) == AfterWrites(w1 + w2, t)
  {
    assert w1 + (w2 + t.writes) == (w1 + w2) + t.writes;
  }

  /** The inner loop of `transform()`: the layers after the read layer, on item number `item`. */
  method RunLayers(stages: seq<Stage>, it: Item, env: Environment, item: nat) returns (t: Trace)
    ensures t == Chain(stages, it.images, it.path, env, item, 1)
  {
    var images := it.images;
    var writes: seq<FileWrite> := [];
    var j := 0;
    while j < |stages|
      invariant 0 <= j <= |stages|
      invariant Chain(stages, it.images, it.path, env, item, 1) ==
        AfterWrites(writes, Chain(stages[j..], images, it.path, env, item, j + 1))
    {
      assert stages[j..][0] == stages[j];
      assert stages[j..][1..] == stages[j + 1..];
      if "_apply_layer" !in stages[j].attrs {
        assert writes + [] == writes;
        return Raised(NoApplyLayer, writes);
      }
      match stages[j].behaviour
      case Source(_) =>
        assert writes + [] == writes;
        return Raised(TransformerExpected, writes);
      case Transformer(apply) =>
        var r := apply(images, it.path, env.lib, env.draws(item, j + 1));
        if r.Failure? {
          assert writes + [] == writes;
          return Raised(r.error, writes);
        }
        AfterWritesTwice(writes, r.value.writes, Chain(stages[j + 1..], r.value.images, it.path, env, item, j + 2));
        writes := writes + r.value.writes;
        images := r.value.images;
      j := j + 1;
    }
    assert writes + [] == writes;
    return Done(images, writes);
  }
}
