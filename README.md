# hocrox in Dafny

hocrox builds image pipelines for computer-vision datasets. A `Model` holds
an ordered list of layers. The first layer is the `Read` layer, which lists
a directory and decodes every file into an image. Every later layer either
maps each image to a new one (blur, padding, convolution, flips, grayscale,
rescale, resize, crop, rotate), produces several randomly augmented copies
of each image (random flip, rotate, zoom, brightness, channel shift, shift),
or writes images to disk (`Save`). `Model.add` lets a layer in only when the
model is not frozen, when the layer object has the five underscore-prefixed
methods `is_valid_layer` asks for, when the first layer is a read layer, and
when every later layer lists the type of the layer before it among its
supported parents. `Model.transform` reads every entry of the directory and
sends it through the remaining layers in order. `Model.save` and
`Model.load` pickle the layer list and the frozen flag.

The Dafny model follows the code file by file:

- `python.dfy` gives the Python semantics the layers rely on: dynamic
  argument values, `isinstance` and truthiness, `str()` of the values that
  appear in parameter strings, slicing, `int()` of a float and `os.path.join`.
- `images.dfy` defines images as rows of pixels of channel values, or the
  `None` that `cv2.imread` returns for an unreadable file. The OpenCV calls
  are uninterpreted functions of a `Library` value. The NumPy arithmetic
  the layers write themselves (slicing, `image * r`, the clamps) is defined
  concretely.
- `randomness.dfy` turns randomness into an oracle. Every output slot gets a
  `Draw`: the probability gate's answer and three values of `random.random()`.
  `random.uniform` is computed from these as CPython defines it.
  `random.randint` is computed by scaling one draw. This gives the same range
  of integers as CPython, but not the same draw, since CPython's
  `_randbelow` uses `getrandbits` with rejection.
- `layer_base.dfy` and `legacy_layer_base.dfy` model the two `Layer` base
  classes. `is_valid_layer.dfy` models `is_valid_layer`, which sees a layer
  object only through the set of its attribute names. `layers.dfy` holds
  the checks the layer constructors share.
- `template.dfy` gives the two loops every `_apply_layer` is written as: the
  fan-out loop of the augmentation layers and the map loop of the
  preprocessing layers. Each loop is a method proved equal to a recursive
  specification function. The properties of these functions (length,
  order, position of every slot, dropped empty images, a closed gate) are
  proved once as lemmas.
- `pipeline.dfy` models what `transform()` does with the layers. `model.dfy`
  models the `Model` class and `sequential.dfy` the older `Sequential` class.
- There is one module per layer class. `augment.dfy` holds the arithmetic
  the augmentation layers share. `random_*.dfy` hold the augmentation
  layers. `preprocess_blur.dfy`, `preprocess_transform.dfy` and
  `legacy_preprocess.dfy` hold the preprocessing layers. `io_layers.dfy`
  holds the read layer and the two save layers.

Each layer module has the same parts:

- `New` is the constructor's argument checks, in the source's order, with
  the exception each one raises. It also gives the stored configuration:
  name, type, supported parents and parameter string.
- `Output` is what the layer's apply method returns, stated as a function.
  For the newer classes this is `_apply_layer`. For the stand-alone classes
  it is `apply_layer`, which a user can call directly but `transform()`
  never reaches: `transform()` looks up `_apply_layer` and raises
  AttributeError on these objects.
- `Apply` is the loop, proved to compute `Output`.
- A lemma such as `OutputSlots` or `OutputImages` says what every output
  image is in terms of the inputs and the draws.
- `AsStage` is how the layer object takes part in a `Model`: whether
  `is_valid_layer` accepts it, and whether its run can raise or write files.

Exceptions are modelled as `Result` values. An exception that the source
raises while a pipeline runs ends the run (`Pipeline.ExecError`). The files
written before it are kept.

The project verifies with `dafny verify *.dfy` run from this directory.
It also verifies with `--resource-limit 2000000 --verification-time-limit 0
--warn-contradictory-assumptions` added.

## Model

| member | source | states |
|---|---|---|
| Models.AddCheck | hocrox/model/model.py:51-67 | `add`'s checks in order: frozen, then `is_valid_layer`, then "the first layer must have type read", then the lookup of the previous layer's `_get_type` (AttributeError when a layer installed by `load` lacks it), then "the new layer accepts the previous layer's type". The outcome passes exactly when all of these hold, and each failing check gives its own error, the parent check naming both types |
| Models.WellFormedHasMethods | hocrox/model/model.py:60-61 | every layer of a well-formed model has `_get_type`, `_get_description` and `_apply_layer`, so `add`, `summary` and `transform` raise no AttributeError on it |
| Models.AddKeepsWellFormed | hocrox/model/model.py:51-69 | on a well-formed layer list, `add` accepts a layer exactly when the model is not frozen and the extended list is still well-formed (every layer valid, read first, each layer accepts its predecessor) |
| Models.SaveRecord | hocrox/model/model.py:172-178 | `save` refuses exactly the paths that are not strings; otherwise it writes that path with the frozen flag and the layers |
| Models.LoadRecord | hocrox/model/model.py:204-211 | `load` refuses a non-string path, fails on a missing file, and otherwise returns the pickled content |
| Models.SaveLoadRoundTrip | hocrox/model/model.py:172-211 | loading the file that `save` wrote restores the same frozen flag and the same layers |
| Models.LoadSkipsAddChecks | hocrox/model/model.py:207-211 | `load` installs whatever layers the file holds, including a layer `is_valid_layer` refuses, so a loaded model need not be well-formed |
| Models.Model.constructor | hocrox/model/model.py:34-37 | a new model is unfrozen and has no layers |
| Models.Model.Add | hocrox/model/model.py:39-69 | the outcome is `AddCheck` on the state before the call, including the AttributeError for a previous layer without `_get_type`; on a pass the layer is appended, otherwise the layers are unchanged; the frozen flag never changes |
| Models.Model.Freeze | hocrox/model/model.py:126-144 | the model is frozen afterwards and its layers are unchanged |
| Models.Model.Summary | hocrox/model/model.py:92-99 | succeeds exactly when every layer has `_get_description`, and otherwise raises AttributeError for it (a layer installed by `load` may lack it). On success: one row per layer, in order, numbered "#1", "#2", …, holding the layer's name with its type and its parameter string |
| Models.Model.Transform | hocrox/model/model.py:119-124 | the loop over the read layer's items and the later layers yields exactly the run `Pipeline.Transform` specifies: the files written and the exception that stopped it, if any. A first layer without `_apply_layer` raises AttributeError before anything is read |
| Models.Model.Save | hocrox/model/model.py:172-178 | returns `SaveRecord` of the current state |
| Models.Model.Load | hocrox/model/model.py:204-211 | on failure nothing changes; on success the layers and the frozen flag become the file's, even when the model was frozen |
| Models.AddAll | hocrox/model/model.py:39-69 | any sequence of `add` calls on a well-formed model leaves it well-formed and keeps its frozen flag |
| Pipeline.ChainAppend | hocrox/model/model.py:123-124 | running layers `a + b` on an item is running `a`, then (unless `a` raised) `b` on what `a` returned; the files written are concatenated |
| Pipeline.RunItemsAppend | hocrox/model/model.py:122-124 | items are processed independently and in order: a run over items `a + b` is the run over `a`, then, when that raised nothing, the run over `b` |
| Pipeline.ChainWritesNothing | hocrox/model/model.py:123-124 | layers that never write files leave no file behind on an item, however the item's run ends |
| Pipeline.RunItemsWritesNothing | hocrox/model/model.py:122-124 | a model with no writing layer after the read layer writes nothing in a whole run |
| Pipeline.RunLayers | hocrox/model/model.py:123-124 | the inner loop of `transform()` computes the specification `Chain`. Each layer gets the previous layer's output. A layer object without `_apply_layer` raises AttributeError when the loop reaches it. The first exception stops the item, keeping the files written so far |
| Pipeline.MissingApplyLayerStops | hocrox/model/model.py:123-124 | a layer without `_apply_layer` ends the item's run when it is reached: the files written are those of the layers before it, and no later layer runs |
| Pipeline.MissingApplyLayerRaisesAtOnce | hocrox/model/model.py:119-124 | when the layer after the read layer has no `_apply_layer`, `transform()` raises AttributeError on the first item, before any file is written |
| SequentialModels.LegacyDescription | hocrox/model/sequential.py:18-22 | `layer.get_description()` succeeds exactly when the object has `get_description` and a `type` attribute, and then gives the layer's description; without the method it is an `AttributeError` |
| SequentialModels.Sequential.constructor | hocrox/model/sequential.py:5-7 | a new model is unfrozen and empty |
| SequentialModels.Sequential.Add | hocrox/model/sequential.py:9-13 | raises exactly when frozen; otherwise appends any object, with no validity or parent check |
| SequentialModels.Sequential.Freeze | hocrox/model/sequential.py:40-41 | the model is frozen afterwards and its layers are unchanged |
| SequentialModels.Sequential.Summary | hocrox/model/sequential.py:15-32 | succeeds exactly when every layer's `get_description` succeeds, with one numbered row per layer; otherwise fails with the error of the first layer that fails |
| SequentialModels.Sequential.Transform | hocrox/model/sequential.py:34-35 | changes nothing |
| SequentialModels.Sequential.TransformGenerator | hocrox/model/sequential.py:37-38 | changes nothing |
| SequentialModels.Sequential.Save | hocrox/model/sequential.py:43-44 | changes nothing |
| SequentialModels.Sequential.Load | hocrox/model/sequential.py:46-47 | changes nothing |
| LayerValidity.IsValidLayer | hocrox/utils/is_valid_layer.py:4-30 | true exactly when all five of `_get_description`, `_get_name`, `_get_type`, `_is_valid_child` and `_apply_layer` are attributes of the layer |
| LayerValidity.LayerSubclassValid | hocrox/utils/is_valid_layer.py:4-30 | a subclass of the newer `Layer` base is valid exactly when it defines `_apply_layer` |
| LayerValidity.LegacySubclassValid | hocrox/utils/is_valid_layer.py:4-30 | the older base's public getters contribute none of the required attributes |
| LayerValidity.StandaloneInvalid | hocrox/utils/is_valid_layer.py:15-16 | a stand-alone layer class with public `apply_layer` and `get_description` is never valid |
| LayerBase.Capitalize | hocrox/utils/layer.py:94 | `str.capitalize()` on ASCII text, which every layer type string is: same length, first character upper case, the rest lower case |
| LayerBase.UnderscoresToSpaces | hocrox/utils/layer.py:94 | `replace('_', ' ')`: same length, each underscore becomes a space and every other character is kept |
| LayerBase.DefaultNameShape | hocrox/utils/layer.py:94 | the default name is the type, capitalized, without underscores, followed by " Layer" |
| LayerBase.New | hocrox/utils/layer.py:79-98 | the five argument checks in order, each failing with the argument it names; success exactly when all pass; the stored configuration is the arguments, and a falsy name is replaced by the default name |
| LayerBase.Make | hocrox/utils/layer.py:61-98 | as the layer classes call the base (type, parent list and parameter string fixed, bypass off), only the name can be refused |
| LayerBase.DescriptionShape | hocrox/utils/layer.py:100-108 | `_get_description()` is the name followed by the type in parentheses, with the parameter string unchanged |
| LayerBase.IsValidChildMeaning | hocrox/utils/layer.py:110-122 | with bypass on, every parent type is accepted; otherwise exactly the types in the supported-parent list |
| LegacyLayerBase.New | hocrox/utils/Layer.py:2-22 | the same five checks in order, except that the name must be a string; the getters' configuration on success |
| LegacyLayerBase.NameStricterThanLayerBase | hocrox/utils/Layer.py:3-4 | every argument list the older base accepts is accepted by the newer one; the default name `None` is refused by the older and accepted by the newer |
| LegacyLayerBase.GetDescription | hocrox/utils/Layer.py:24-25 | `get_description()` as written reads the attribute `type`, and fails with `AttributeError` exactly when nothing set it |
| LegacyLayerBase.GetDescriptionFailsOnConstructed | hocrox/utils/Layer.py:18-25 | every object the older base constructs fails `get_description`, because the constructor stores the type only under its private name |
| LegacyLayerBase.GetDescriptionExample | hocrox/utils/Layer.py:24-25 | a concrete layer on which `get_description` fails |
| LegacyLayerBase.Description | hocrox/utils/Layer.py:24-25 | the corrected description (read the stored type) equals the newer base's description of the same configuration |
| LegacyLayerBase.DescriptionNamesStoredType | hocrox/utils/Layer.py:18-25 | the corrected description of a constructed layer is its name with the constructor's type, and its parameter string |
| LegacyLayerBase.GettersReturnArguments | hocrox/utils/Layer.py:27-37 | the four getters return the arguments the constructor was given |
| Layers.LenientAcceptsMore | hocrox/layer/augmentation/random_flip.py:17-18 | the older layers' check `isinstance(n, int) and n < 1` accepts every count the newer strict check accepts, and also non-integers such as "3"; on ints the two checks agree |
| Layers.NewGated | hocrox/layer/augmentation/flip/random_flip.py:44-58 | the probability check (a float in [0, 1]), then the count check (an int ≥ 1), then the name check, each with its error; on success the probability, the count, the type, the standard parents and the parameter string are kept |
| Layers.SubclassesAreValid | hocrox/utils/is_valid_layer.py:4-30 | every layer class built on the newer base with `_apply_layer` passes `is_valid_layer` |
| Layers.StandaloneRefused | hocrox/model/model.py:54-55 | `Model.add` refuses a stand-alone layer class with "not a valid layer", whatever the model holds |
| Layers.StandaloneBlocksAdd | hocrox/model/model.py:60-61 | after `load` installs a stand-alone layer last, `add` of any valid layer raises AttributeError on the stand-alone layer's missing `_get_type` |
| Layers.StandaloneStopsRun | hocrox/model/model.py:122-124 | a stand-alone layer object, which `is_valid_layer` refuses but `load` can install, ends a run when it is reached: `layer._apply_layer` raises AttributeError, so it writes nothing and no later layer runs |
| Layers.MapStage | hocrox/model/model.py:123-124 | a layer whose `_apply_layer` only maps images takes part in a run without raising and without writing files |
| Layers.ResultStage | hocrox/model/model.py:123-124 | a layer whose `_apply_layer` can raise passes its exception on and writes no file |
| Layers.Standalone | hocrox/layer/augmentation/random_flip.py:20-39 | a stand-alone class keeps the given name when it is truthy and its fixed default otherwise, with its own type, parents and parameters and bypass off |
| Layers.AcceptsListed | hocrox/utils/layer.py:119-122 | a layer whose supported parents are the listed type names accepts exactly those types |
| Template.Slot | hocrox/layer/augmentation/flip/random_flip.py:75-81 | one slot emits nothing for an empty input or an empty result; otherwise it emits the transformed image when the gate fires and the untouched input when it declines |
| Template.ApplyFanOut | hocrox/layer/augmentation/flip/random_flip.py:70-83 | the nested loop computes `FanOut`, and emits at most `number_of_outputs` images per input |
| Template.FanOutGrowth | hocrox/layer/augmentation/flip/random_flip.py:72-81 | a further input adds its slots after all earlier outputs; an empty input adds nothing |
| Template.FanOutSingle | hocrox/layer/augmentation/flip/random_flip.py:72-81 | with one output per input and every slot emitting, output `k` is input `k`'s slot |
| Template.FanOutLength | hocrox/layer/augmentation/flip/random_flip.py:72-81 | at most `inputs × number_of_outputs` images, and exactly that many when the layer drops nothing |
| Template.FanOutIndex | hocrox/layer/augmentation/flip/random_flip.py:72-81 | without dropping, output `i × n + j` is slot `j` of input `i` |
| Template.FanOutNonEmpty | hocrox/layer/augmentation/flip/random_flip.py:77-81 | a layer that drops empty images never emits one |
| Template.FanOutGateClosed | hocrox/layer/augmentation/flip/random_flip.py:75-78 | when the gate never fires, the output is every non-empty input repeated `n` times, untouched |
| Template.FanOutNoDrop | hocrox/layer/augmentation/flip/random_flip.py:77-81 | on non-empty inputs and a transformation that never empties an image, dropping removes nothing |
| Template.FanOutFullIndex | hocrox/layer/augmentation/flip/random_flip.py:72-81 | on non-empty inputs and a non-emptying transformation, a dropping layer emits `inputs × n` images, and output `i × n + j` is the transformation of input `i` when the gate fires and input `i` itself otherwise |
| Template.FanOutSlot | hocrox/layer/augmentation/random_rotate.py:82-89 | without dropping, output `i × n + j` is the transformation of input `i` when the gate fires (always, for an ungated layer), and input `i` otherwise |
| Template.ApplyMap | hocrox/layer/preprocessing/blur/average.py:62-71 | the map loop computes `MapOut` and emits at most one image per input |
| Template.MapLength | hocrox/layer/preprocessing/blur/average.py:62-71 | without dropping, exactly one output per input, the transformation of that input, in order |
| Template.MapNonEmpty | hocrox/layer/preprocessing/blur/average.py:65-69 | a map that drops empty images never emits one |
| Template.MapNoDrop | hocrox/layer/preprocessing/blur/average.py:65-69 | on non-empty inputs and a non-emptying transformation, dropping removes nothing |
| Template.MapKeepsAll | hocrox/layer/preprocessing/blur/average.py:62-71 | on non-empty inputs and a non-emptying transformation, a dropping map gives exactly the transformation of every input, in order |
| Template.MapOrigin | hocrox/layer/preprocessing/blur/average.py:62-71 | every image a map emits is the transformation of one of its inputs, and of a non-empty one when it drops |
| Randomness.Uniform | hocrox/layer/augmentation/transformation/random_rotate.py:107 | `random.uniform(a, b)` lies between `a` and `b`, in whichever order they are given |
| Randomness.RandInt | hocrox/layer/augmentation/flip/random_flip.py:74 | `random.randint(a, b)` lies in `[a, b]` |
| Augment.RotationAngle | hocrox/layer/augmentation/transformation/random_rotate.py:107 | the drawn angle lies between the start and end angles |
| Augment.FlipCode | hocrox/layer/augmentation/flip/random_flip.py:74-78 | the drawn flip code is 0 (about the x axis) or 1 (about the y axis) |
| Augment.BrightnessBounds | hocrox/layer/augmentation/color/random_brightness.py:109-117 | the drawn brightness factor lies between `low` and `high`; hue is kept and the scaled saturation and value never exceed 255 |
| Augment.ChannelShiftClamped | hocrox/layer/augmentation/color/random_channel_shift.py:110-116 | a channel-shifted image keeps the input's shape, and every channel value is a whole number in [0, 255] |
| Augment.ZoomWindow | hocrox/layer/augmentation/transformation/random_zoom.py:108-116 | the zoom window is `int(z × h)` by `int(z × w)` and lies entirely inside the image, whatever the draws |
| Augment.Crop | hocrox/layer/augmentation/transformation/random_zoom.py:118 | the cropped image has the window's height, and each row is the window's slice of the source row |
| Augment.ShiftRatio | hocrox/layer/augmentation/shift/random_vertical_shift.py:101 | the drawn shift lies between `-ratio` and `ratio` |
| Augment.ShiftCounts | hocrox/layer/augmentation/shift/random_vertical_shift.py:103-109 | for a shift in [-1, 1], the number of rows kept by a positive shift and the number dropped by a negative one both lie in [0, h] |
| Augment.VerticalTrim | hocrox/layer/augmentation/shift/random_vertical_shift.py:103-109 | a positive shift keeps a run of rows from the top, a negative one a run from the bottom, and a zero shift keeps the image |
| Augment.VerticalTrimRows | hocrox/layer/augmentation/shift/random_vertical_shift.py:103-109 | a positive shift keeps `int(h - h × r)` rows and a negative one keeps `h - int(-h × r)` rows |
| Augment.HorizontalTrim | hocrox/layer/augmentation/random_horizontal_shift.py:107-112 | every row is kept; a positive shift keeps the first `int(w - w × r)` columns of each row, a negative one drops the first `int(-w × r)` |
| Images.ShiftedChannel | hocrox/layer/augmentation/color/random_channel_shift.py:112-116 | a shifted channel value is clamped to [0, 255] and truncated to a whole number |
| Images.BrightenedPixel | hocrox/layer/augmentation/color/random_brightness.py:114-117 | the brightness arithmetic keeps the pixel's channel count |
| Images.BrightenedHsv | hocrox/layer/augmentation/color/random_brightness.py:111-119 | the brightness arithmetic keeps the HSV image's shape and changes each pixel as `BrightenedPixel` says |
| RandomFlipLayer.New | hocrox/layer/augmentation/flip/random_flip.py:44-58 | accepted exactly when the probability is a float in [0, 1], the count an int ≥ 1 and the name falsy or a string; the type is "random_flip", the parents the standard list, and the parameters "Probability: …, Number of Outputs: …" |
| RandomFlipLayer.Output | hocrox/layer/augmentation/flip/random_flip.py:70-83 | at most `number_of_outputs` images per input, none of them empty |
| RandomFlipLayer.Apply | hocrox/layer/augmentation/flip/random_flip.py:70-83 | the loop computes `Output` |
| RandomFlipLayer.OutputSlots | hocrox/layer/augmentation/flip/random_flip.py:72-81 | on non-empty inputs, output `i × n + j` is input `i` flipped with the code slot `j` drew (0 or 1) when the gate fired, and input `i` otherwise |
| RandomFlipLayer.AsStage | hocrox/layer/augmentation/flip/random_flip.py:8 | the layer passes `is_valid_layer` and writes no file |
| RandomVerticalFlipLayer.New | hocrox/layer/augmentation/flip/random_vertical_flip.py:42-56 | the same checks as `RandomFlip`, with type "random_vertical_flip" |
| RandomVerticalFlipLayer.Output | hocrox/layer/augmentation/flip/random_vertical_flip.py:68-80 | at most `number_of_outputs` images per input, none of them empty |
| RandomVerticalFlipLayer.Apply | hocrox/layer/augmentation/flip/random_vertical_flip.py:68-80 | the loop computes `Output` |
| RandomVerticalFlipLayer.OutputSlots | hocrox/layer/augmentation/flip/random_vertical_flip.py:70-78 | on non-empty inputs, output `i × n + j` is input `i` flipped with code 0 when the gate fired, and input `i` otherwise |
| RandomVerticalFlipLayer.AsStage | hocrox/layer/augmentation/flip/random_vertical_flip.py:7 | the layer passes `is_valid_layer` and writes no file |
| RandomHorizontalFlipLayer.New | hocrox/layer/augmentation/flip/random_horizontal_flip.py:42-56 | the same checks as `RandomFlip`, with type "random_horizontal_flip" |
| RandomHorizontalFlipLayer.Output | hocrox/layer/augmentation/flip/random_horizontal_flip.py:68-76 | exactly `number_of_outputs` images per input, because this layer never drops an image |
| RandomHorizontalFlipLayer.Apply | hocrox/layer/augmentation/flip/random_horizontal_flip.py:68-76 | the loop computes `Output` |
| RandomHorizontalFlipLayer.OutputSlots | hocrox/layer/augmentation/flip/random_horizontal_flip.py:70-74 | output `i × n + j` is input `i` flipped with code 1 when the gate fired, and input `i` otherwise, even for an empty input |
| RandomHorizontalFlipLayer.AsStage | hocrox/layer/augmentation/flip/random_horizontal_flip.py:7 | the layer passes `is_valid_layer` and writes no file |
| LegacyRandomFlip.New | hocrox/layer/augmentation/random_flip.py:17-39 | refused exactly when the count is an int below 1 or the name is a truthy non-string; otherwise the default name "RandomFlip Layer", type "random_flip", the ten listed parents and "Number of Outputs: …" |
| LegacyRandomFlip.Output | hocrox/layer/augmentation/random_flip.py:49-55 | one image per input whatever `number_of_outputs` says: input `k` flipped with the code drawn for it |
| LegacyRandomFlip.Apply | hocrox/layer/augmentation/random_flip.py:49-55 | the loop computes `Output` |
| LegacyRandomFlip.AsStage | hocrox/layer/augmentation/random_flip.py:6 | the stand-alone class has `apply_layer` and `get_description` only, so `is_valid_layer` refuses it, and `transform()` raises when it reaches it (`Layers.StandaloneStopsRun`); its `apply_layer` writes no file |
| RandomRotateLayer.New | hocrox/layer/augmentation/transformation/random_rotate.py:66-91 | accepted exactly when both angles are numbers with start ≤ end, the probability is a float in [0, 1], the count an int ≥ 1 and the name falsy or a string; a start above the end is reported against `start_angle`; the angles, count, type "random_rotate" and parameters are kept |
| RandomRotateLayer.Output | hocrox/layer/augmentation/transformation/random_rotate.py:103-116 | at most `number_of_outputs` images per input, none of them empty |
| RandomRotateLayer.Apply | hocrox/layer/augmentation/transformation/random_rotate.py:103-116 | the loop computes `Output` |
| RandomRotateLayer.OutputSlots | hocrox/layer/augmentation/transformation/random_rotate.py:105-114 | on non-empty inputs, output `i × n + j` is input `i` rotated by the angle slot `j` drew when the gate fired, and input `i` otherwise |
| RandomRotateLayer.AsStage | hocrox/layer/augmentation/transformation/random_rotate.py:86-91 | the layer passes `is_valid_layer` and writes no file |
| LegacyRandomRotate.New | hocrox/layer/augmentation/random_rotate.py:39-72 | accepted exactly when both angles are numbers with start ≤ end, the count is not an int below 1, and the name is falsy or a string; the default name is "Random Rotate Layer" and the description text is kept as the class prints it |
| LegacyRandomRotate.Output | hocrox/layer/augmentation/random_rotate.py:82-89 | raises exactly when there is an image and the count is not an int; otherwise exactly `number_of_outputs` rotated images per input, with no gate and no dropping |
| LegacyRandomRotate.Apply | hocrox/layer/augmentation/random_rotate.py:82-89 | the loop computes `Output` |
| LegacyRandomRotate.OutputSlots | hocrox/layer/augmentation/random_rotate.py:84-87 | output `i × n + j` is input `i` rotated by the angle slot `j` drew |
| LegacyRandomRotate.AsStage | hocrox/layer/augmentation/random_rotate.py:7 | the stand-alone class is refused by `is_valid_layer`, and `transform()` raises when it reaches it (`Layers.StandaloneStopsRun`); its `apply_layer` can raise and writes no file |
| RandomBrightnessLayer.New | hocrox/layer/augmentation/color/random_brightness.py:49-71 | accepted exactly when both bounds are floats (their order is not checked), the probability a float in [0, 1], the count an int ≥ 1 and the name falsy or a string; the bounds, count, probability, type "random_brightness" and the parameter text "Low: …, High:…, Probability: …, Number of Outputs: …" are kept |
| RandomBrightnessLayer.Output | hocrox/layer/augmentation/color/random_brightness.py:83-95 | at most `number_of_outputs` images per input, none of them empty |
| RandomBrightnessLayer.Apply | hocrox/layer/augmentation/color/random_brightness.py:83-95 | the loop computes `Output` |
| RandomBrightnessLayer.OutputSlots | hocrox/layer/augmentation/color/random_brightness.py:85-93 | on non-empty inputs, output `i × n + j` is input `i` converted to HSV, with saturation and value scaled by the factor slot `j` drew and capped, and converted back, when the gate fired; input `i` otherwise |
| RandomBrightnessLayer.AsStage | hocrox/layer/augmentation/color/random_brightness.py:61-66 | the layer passes `is_valid_layer` and writes no file |
| BrightnessLayer.New | hocrox/layer/preprocessing/color/brightness.py:28-41 | `Brightness` is `RandomBrightness` with probability 1.0 and one output: accepted exactly when both bounds are floats and the name is valid, and it keeps the type "random_brightness" |
| BrightnessLayer.OneImagePerInput | hocrox/layer/preprocessing/color/brightness.py:41 | when every gate fires, as probability 1.0 intends, each non-empty input yields exactly one image, brightened by the factor drawn for it |
| LegacyRandomBrightness.New | hocrox/layer/augmentation/random_brightness.py:46-82 | accepted exactly when both bounds are floats, the count an int ≥ 1 and the name valid; the seventeen listed parents and "Low: …, High:…, Number of Outputs: …" are kept |
| LegacyRandomBrightness.Output | hocrox/layer/augmentation/random_brightness.py:94-100 | exactly `number_of_outputs` images per input: no gate and no dropping |
| LegacyRandomBrightness.Apply | hocrox/layer/augmentation/random_brightness.py:94-100 | the loop computes `Output` |
| LegacyRandomBrightness.OutputSlots | hocrox/layer/augmentation/random_brightness.py:96-98 | output `i × n + j` is input `i` brightened by the factor slot `j` drew |
| LegacyRandomBrightness.AsStage | hocrox/layer/augmentation/random_brightness.py:55-78 | the layer passes `is_valid_layer` and writes no file |
| RandomChannelShiftLayer.New | hocrox/layer/augmentation/color/random_channel_shift.py:48-70 | accepted exactly when both bounds are ints (a bool counts as one), the probability a float in [0, 1], the count an int ≥ 1 and the name valid; the bounds, type "random_channel_shift" and parameters are kept |
| RandomChannelShiftLayer.Output | hocrox/layer/augmentation/color/random_channel_shift.py:82-96 | at most `number_of_outputs` images per input, none of them empty |
| RandomChannelShiftLayer.Apply | hocrox/layer/augmentation/color/random_channel_shift.py:82-96 | the loop computes `Output` |
| RandomChannelShiftLayer.OutputSlots | hocrox/layer/augmentation/color/random_channel_shift.py:84-94 | a channel shift never empties an image, so on non-empty inputs output `i × n + j` is input `i` shifted by the value slot `j` drew when the gate fired, and input `i` otherwise |
| RandomChannelShiftLayer.AsStage | hocrox/layer/augmentation/color/random_channel_shift.py:60-65 | the layer passes `is_valid_layer` and writes no file |
| ChannelShiftLayer.New | hocrox/layer/preprocessing/color/channel_shift.py:28-41 | `ChannelShift` is `RandomChannelShift` with probability 1.0 and one output, keeping the type "random_channel_shift" |
| ChannelShiftLayer.OneImagePerInput | hocrox/layer/preprocessing/color/channel_shift.py:41 | when every gate fires, each non-empty input yields exactly one image, shifted by the value drawn for it |
| LegacyRandomChannelShift.New | hocrox/layer/augmentation/random_channel_shift.py:45-81 | accepted exactly when both bounds are ints, the count is not an int below 1, and the name is valid; a count that is not an int is kept as "no count" |
| LegacyRandomChannelShift.Output | hocrox/layer/augmentation/random_channel_shift.py:93-99 | raises exactly when there is an image and the count is not an int; otherwise exactly `number_of_outputs` shifted images per input |
| LegacyRandomChannelShift.Apply | hocrox/layer/augmentation/random_channel_shift.py:93-99 | the loop computes `Output` |
| LegacyRandomChannelShift.OutputSlots | hocrox/layer/augmentation/random_channel_shift.py:95-97 | output `i × n + j` is input `i` shifted by the value slot `j` drew |
| LegacyRandomChannelShift.AsStage | hocrox/layer/augmentation/random_channel_shift.py:54-77 | the layer passes `is_valid_layer`; its run can raise and writes no file |
| RandomZoomLayer.New | hocrox/layer/augmentation/transformation/random_zoom.py:48-70 | accepted exactly when `start` is a float in [0, 1), `end` a float in (0, 1] (each checked on its own, so start may exceed end), the probability a float in [0, 1], the count an int ≥ 1 and the name valid; the bounds, type "random_zoom" and "Start: …, end:…, Probability: …, Number of Outputs: …" are kept |
| RandomZoomLayer.Output | hocrox/layer/augmentation/transformation/random_zoom.py:82-94 | at most `number_of_outputs` images per input, none of them empty |
| RandomZoomLayer.Apply | hocrox/layer/augmentation/transformation/random_zoom.py:82-94 | the loop computes `Output` |
| RandomZoomLayer.ZoomedSlot | hocrox/layer/augmentation/transformation/random_zoom.py:108-125 | when the gate fires on a non-empty image: a window with no rows yields nothing; any other window yields the window resized back to the image's width and height, unless the resize comes back empty |
| RandomZoomLayer.GateClosedSlot | hocrox/layer/augmentation/transformation/random_zoom.py:86-92 | a closed gate passes a non-empty image through untouched |
| RandomZoomLayer.AsStage | hocrox/layer/augmentation/transformation/random_zoom.py:60-65 | the layer passes `is_valid_layer` and writes no file |
| LegacyRandomZoom.New | hocrox/layer/augmentation/random_zoom.py:47-84 | the same start and end checks and the strict count check, but the probability is neither checked nor converted; the seventeen listed parents are kept |
| LegacyRandomZoom.Output | hocrox/layer/augmentation/random_zoom.py:96-104 | exactly `number_of_outputs` images per input: nothing is dropped |
| LegacyRandomZoom.Apply | hocrox/layer/augmentation/random_zoom.py:96-104 | the loop computes `Output` |
| LegacyRandomZoom.OutputSlots | hocrox/layer/augmentation/random_zoom.py:98-129 | output `i × n + j` is the window drawn by slot `j`, which lies inside input `i`, resized to the input's size (even when it is empty) if the gate fired, and input `i` otherwise |
| LegacyRandomZoom.AsStage | hocrox/layer/augmentation/random_zoom.py:56-79 | the layer passes `is_valid_layer` and writes no file |
| RandomVerticalShiftLayer.New | hocrox/layer/augmentation/shift/random_vertical_shift.py:46-64 | accepted exactly when the ratio is a float (of any sign), the probability a float in [0, 1], the count an int ≥ 1 and the name valid; a ratio that is not a float is the first error reported; type "random_vertical_shift" and "Ratio:…, Probability: …, Number of Outputs: …" are kept |
| RandomVerticalShiftLayer.Output | hocrox/layer/augmentation/shift/random_vertical_shift.py:76-88 | at most `number_of_outputs` images per input, none of them empty |
| RandomVerticalShiftLayer.Apply | hocrox/layer/augmentation/shift/random_vertical_shift.py:76-88 | the loop computes `Output` |
| RandomVerticalShiftLayer.ShiftedSlot | hocrox/layer/augmentation/shift/random_vertical_shift.py:101-114 | when the gate fires: a positive draw keeps a run of rows from the top, a negative one a run from the bottom; a trim with no row yields nothing, any other the trim resized to the image's width and height unless that is empty |
| RandomVerticalShiftLayer.AsStage | hocrox/layer/augmentation/shift/random_vertical_shift.py:55-60 | the layer passes `is_valid_layer` and writes no file |
| VerticalShiftLayer.New | hocrox/layer/preprocessing/shift/vertical_shift.py:28-39 | accepted exactly when the ratio is a float and the name valid; probability 1.0, one output, and the type "random_vertical_shift" with the matching description |
| VerticalShiftLayer.OneImagePerInput | hocrox/layer/preprocessing/shift/vertical_shift.py:39 | when every gate fires and every shift is non-empty, each input yields exactly its own shifted image, in order |
| LegacyRandomVerticalShift.New | hocrox/layer/augmentation/random_vertical_shift.py:43-75 | accepted exactly when the ratio is a float, the count an int ≥ 1 and the name valid, with the ratio error first; the seventeen listed parents are kept |
| LegacyRandomVerticalShift.Output | hocrox/layer/augmentation/random_vertical_shift.py:87-93 | exactly `number_of_outputs` images per input |
| LegacyRandomVerticalShift.Apply | hocrox/layer/augmentation/random_vertical_shift.py:87-93 | the loop computes `Output` |
| LegacyRandomVerticalShift.OutputSlots | hocrox/layer/augmentation/random_vertical_shift.py:89-116 | output `i × n + j` is input `i` trimmed by the ratio slot `j` drew and resized to its width and height, an empty trim included |
| LegacyRandomVerticalShift.AsStage | hocrox/layer/augmentation/random_vertical_shift.py:49-72 | the layer passes `is_valid_layer` and writes no file |
| LegacyRandomHorizontalShift.NewOfType | hocrox/layer/augmentation/random_horizontal_shift.py:44-74 | accepted exactly when the ratio is a float, the count is not an int below 1 (a non-int passes) and the name valid; the count is kept only when it is an int; the fifteen listed parents are kept |
| LegacyRandomHorizontalShift.NewAsWritten | hocrox/layer/augmentation/random_horizontal_shift.py:50-52 | as written, the layer registers the type "random_channel_shift" |
| LegacyRandomHorizontalShift.New | hocrox/layer/augmentation/random_horizontal_shift.py:50-52 | corrected, the layer registers "random_horizontal_shift" |
| LegacyRandomHorizontalShift.TypeAsWritten | hocrox/layer/augmentation/random_horizontal_shift.py:50-52 | the two constructors accept the same arguments and keep the same parents and description, but differ in type and, when unnamed, in name; a child accepting channel shifts but not horizontal shifts takes the as-written layer only |
| LegacyRandomHorizontalShift.Run | hocrox/layer/augmentation/random_horizontal_shift.py:86-92 | `range` of a count that is not an int raises as soon as there is an input; otherwise exactly `number_of_outputs` images per input |
| LegacyRandomHorizontalShift.Apply | hocrox/layer/augmentation/random_horizontal_shift.py:86-92 | the loop computes the corrected `Output` |
| LegacyRandomHorizontalShift.SlotAsWritten | hocrox/layer/augmentation/random_horizontal_shift.py:105-114 | as written, output `i × n + j` is the trim resized to the input's height by its width |
| LegacyRandomHorizontalShift.ShapeAsWritten | hocrox/layer/augmentation/random_horizontal_shift.py:107-114 | as written, with a resize that honours its size, each output has the input's width as its height and its height as its width |
| LegacyRandomHorizontalShift.TransposedExample | hocrox/layer/augmentation/random_horizontal_shift.py:114 | a 2-row, 3-column image comes out 3 rows high and 2 columns wide |
| LegacyRandomHorizontalShift.OutputSlots | hocrox/layer/augmentation/random_horizontal_shift.py:105-114 | corrected, output `i × n + j` is the trim resized to the input's width and height, and then has the input's height and width |
| LegacyRandomHorizontalShift.AsStage | hocrox/layer/augmentation/random_horizontal_shift.py:50-71 | the layer passes `is_valid_layer` and writes no file |
| AverageBlurLayer.New | hocrox/layer/preprocessing/blur/average.py:40-50 | accepted exactly when the kernel size is a tuple (its contents unchecked) and the name valid; type "average_blur" and "Kernel Size: …" are kept |
| AverageBlurLayer.Output | hocrox/layer/preprocessing/blur/average.py:62-71 | at most one image per input, none of them empty |
| AverageBlurLayer.Apply | hocrox/layer/preprocessing/blur/average.py:62-71 | the loop computes `Output` |
| AverageBlurLayer.OutputImages | hocrox/layer/preprocessing/blur/average.py:64-69 | every image out is `cv2.blur` of a non-empty image in; with non-empty inputs and a blur that empties nothing, image `k` out is image `k` in, blurred |
| AverageBlurLayer.AsStage | hocrox/layer/preprocessing/blur/average.py:45-50 | the layer passes `is_valid_layer` and writes no file |
| GaussianBlurLayer.NewAsWritten | hocrox/layer/preprocessing/blur/gaussian.py:46-64 | as written, accepted exactly when the kernel size is a tuple and the name valid, whatever the deviations are |
| GaussianBlurLayer.New | hocrox/layer/preprocessing/blur/gaussian.py:46-64 | corrected, the deviations must also be numbers, checked in the order kernel, `sigma_x`, `sigma_y`; on what it accepts it builds the same layer as written |
| GaussianBlurLayer.SigmaCheckAsWritten | hocrox/layer/preprocessing/blur/gaussian.py:49-53 | the string "a" as either deviation passes as written and is refused by the corrected constructor |
| GaussianBlurLayer.Output | hocrox/layer/preprocessing/blur/gaussian.py:76-85 | at most one image per input, none of them empty |
| GaussianBlurLayer.Apply | hocrox/layer/preprocessing/blur/gaussian.py:76-85 | the loop computes `Output` |
| GaussianBlurLayer.OutputImages | hocrox/layer/preprocessing/blur/gaussian.py:78-83 | every image out is `cv2.GaussianBlur` of a non-empty image in; with nothing to drop, one per input, in order |
| GaussianBlurLayer.AsStage | hocrox/layer/preprocessing/blur/gaussian.py:59-64 | the layer passes `is_valid_layer` and writes no file |
| MedianBlurLayer.New | hocrox/layer/preprocessing/blur/median.py:40-49 | accepted exactly when the aperture is a positive odd int and the name valid |
| MedianBlurLayer.ApertureExamples | hocrox/layer/preprocessing/blur/median.py:40 | 3 and `True` are accepted; 4, -3 and 3.0 are not |
| MedianBlurLayer.Output | hocrox/layer/preprocessing/blur/median.py:61-70 | at most one image per input, none of them empty |
| MedianBlurLayer.Apply | hocrox/layer/preprocessing/blur/median.py:61-70 | the loop computes `Output` |
| MedianBlurLayer.OutputImages | hocrox/layer/preprocessing/blur/median.py:63-68 | every image out is `cv2.medianBlur` of a non-empty image in; with nothing to drop, one per input, in order |
| MedianBlurLayer.AsStage | hocrox/layer/preprocessing/blur/median.py:44-49 | the layer passes `is_valid_layer` and writes no file |
| BilateralBlurLayer.NewAsWritten | hocrox/layer/preprocessing/blur/bilateral.py:50-68 | as written, accepted exactly when `d` is an int and the name valid, whatever the deviations are; the description lists the space deviation before the colour one |
| BilateralBlurLayer.New | hocrox/layer/preprocessing/blur/bilateral.py:50-68 | corrected, the deviations must also be numbers, checked in the order `d`, `sigma_color`, `sigma_space`; on what it accepts it builds the same layer as written |
| BilateralBlurLayer.SigmaCheckAsWritten | hocrox/layer/preprocessing/blur/bilateral.py:53-57 | `None` as either deviation passes as written and is refused by the corrected constructor |
| BilateralBlurLayer.Output | hocrox/layer/preprocessing/blur/bilateral.py:80-89 | at most one image per input, none of them empty |
| BilateralBlurLayer.Apply | hocrox/layer/preprocessing/blur/bilateral.py:80-89 | the loop computes `Output` |
| BilateralBlurLayer.OutputImages | hocrox/layer/preprocessing/blur/bilateral.py:82-87 | every image out is `cv2.bilateralFilter` of a non-empty image in; with nothing to drop, one per input, in order |
| BilateralBlurLayer.AsStage | hocrox/layer/preprocessing/blur/bilateral.py:63-68 | the layer passes `is_valid_layer` and writes no file |
| PaddingLayer.New | hocrox/layer/preprocessing/transformation/pading.py:48-74 | each side is refused only when truthy and not an int, checked top, bottom, left, right, then the colour must be a list of three; the first failing argument is the error reported; the description names the four sides and not the colour |
| PaddingLayer.SideExamples | hocrox/layer/preprocessing/transformation/pading.py:48-61 | 0, `None` and 10 pass as widths, 1.5 and "10" do not; a three-entry list passes as the colour, a tuple or a two-entry list does not |
| PaddingLayer.Output | hocrox/layer/preprocessing/transformation/pading.py:86-97 | at most one image per input, none of them empty |
| PaddingLayer.Apply | hocrox/layer/preprocessing/transformation/pading.py:86-97 | the loop computes `Output` |
| PaddingLayer.OutputImages | hocrox/layer/preprocessing/transformation/pading.py:88-95 | every image out is `cv2.copyMakeBorder` of a non-empty image in, with the stored widths and colour; with nothing to drop, one per input, in order |
| PaddingLayer.AsStage | hocrox/layer/preprocessing/transformation/pading.py:69-74 | the layer passes `is_valid_layer` and writes no file |
| ConvolutionLayer.New | hocrox/layer/preprocessing/transformation/convolution.py:48-62 | accepted exactly when `ddepth` is an int, the kernel a NumPy array and the name valid, in that order; the layer registers the type "crop" |
| ConvolutionLayer.Output | hocrox/layer/preprocessing/transformation/convolution.py:74-83 | at most one image per input, none of them empty |
| ConvolutionLayer.Apply | hocrox/layer/preprocessing/transformation/convolution.py:74-83 | the loop computes `Output` |
| ConvolutionLayer.OutputImages | hocrox/layer/preprocessing/transformation/convolution.py:76-81 | every image out is `cv2.filter2D` of a non-empty image in; with nothing to drop, one per input, in order |
| ConvolutionLayer.AsStage | hocrox/layer/preprocessing/transformation/convolution.py:57-62 | the layer passes `is_valid_layer` and writes no file |
| PlainMapLayers.New | hocrox/layer/preprocessing/flip/horizontal_flip.py:31-44 | the three argument-free layers (horizontal flip, vertical flip, greyscale) refuse only a bad name; each keeps its own type and the description "-" |
| PlainMapLayers.DistinctTypes | hocrox/layer/preprocessing/color/grayscale.py:37-42 | the three types differ, and the greyscale one is spelt "greyscale" |
| PlainMapLayers.Output | hocrox/layer/preprocessing/flip/horizontal_flip.py:56-66 | at most one image per input, none of them empty |
| PlainMapLayers.Apply | hocrox/layer/preprocessing/flip/horizontal_flip.py:56-66 | the loop computes `Output` |
| PlainMapLayers.OutputImages | hocrox/layer/preprocessing/flip/vertical_flip.py:54-63 | every image out comes from a non-empty image in; with nothing to drop, image `k` out is image `k` in flipped with code 1, with code 0, or converted to grey |
| PlainMapLayers.AsStage | hocrox/layer/preprocessing/flip/vertical_flip.py:37-42 | each layer passes `is_valid_layer` and writes no file |
| RescaleLayer.New | hocrox/layer/preprocessing/color/rescale.py:38-48 | accepted exactly when the factor is a float (the int 1 is refused) and the name valid; type "rescale" and "Rescale: …" are kept |
| RescaleLayer.ScaledKeepsNonEmpty | hocrox/layer/preprocessing/color/rescale.py:64 | multiplying by a factor keeps a non-empty image non-empty |
| RescaleLayer.Output | hocrox/layer/preprocessing/color/rescale.py:60-69 | at most one image per input, none of them empty |
| RescaleLayer.Apply | hocrox/layer/preprocessing/color/rescale.py:60-69 | the loop computes `Output` |
| RescaleLayer.OutputImages | hocrox/layer/preprocessing/color/rescale.py:62-67 | on non-empty inputs nothing is dropped, and every channel value out is the matching value in times the factor, at the same row, column and channel |
| RescaleLayer.AsStage | hocrox/layer/preprocessing/color/rescale.py:43-48 | the layer passes `is_valid_layer` and writes no file |
| LegacyRescale.New | hocrox/layer/preprocessing/rescale.py:38-61 | the same checks as the newer rescale, with the twelve listed parents |
| LegacyRescale.Adjacency | hocrox/layer/preprocessing/rescale.py:46-59 | the older rescale may follow a read or a rescale but not a random zoom |
| LegacyRescale.Output | hocrox/layer/preprocessing/rescale.py:73-78 | one image per input, kept whether empty or not, each scaled by the factor |
| LegacyRescale.Apply | hocrox/layer/preprocessing/rescale.py:73-78 | the loop computes `Output` |
| LegacyRescale.AgreesWithRescale | hocrox/layer/preprocessing/rescale.py:75-76 | on inputs with no empty image the older and newer rescale produce the same images |
| LegacyRescale.AsStage | hocrox/layer/preprocessing/rescale.py:43-61 | the layer passes `is_valid_layer` and writes no file |
| LegacyResize.DimCheck | hocrox/layer/preprocessing/resize.py:21-22 | corrected, the size passes exactly when it has two sides and both are positive numbers |
| LegacyResize.DimCheckAsWrittenIsWeaker | hocrox/layer/preprocessing/resize.py:21-22 | as written, every size the corrected check passes also passes; `(0, 100)` and the one-element `(100,)` pass as written but are refused by the corrected check |
| LegacyResize.InterpolationCode | hocrox/layer/preprocessing/resize.py:33-38 | each accepted interpolation name maps to one of the three OpenCV constants |
| LegacyResize.InterpolationCodes | hocrox/layer/preprocessing/resize.py:33-38 | two names map to the same code exactly when they are the same name, and each name maps to the constant it names |
| LegacyResize.NewAsWritten | hocrox/layer/preprocessing/resize.py:18-51 | as written, accepted exactly when `dim` is a tuple passing the written size check, the interpolation is one of the three names and the name valid |
| LegacyResize.New | hocrox/layer/preprocessing/resize.py:18-51 | corrected, accepted exactly when `dim` is a tuple of two positive numbers, the interpolation valid and the name valid, with errors in that order; keeps the code, the default name "Resize Layer", type "resize", the eight listed parents and "Dim: …, Interpolation: <code>"; on what it accepts it agrees with the written constructor |
| LegacyResize.Output | hocrox/layer/preprocessing/resize.py:61-66 | one image per input, in order, each `cv2.resize` of the input with the stored size and code |
| LegacyResize.Apply | hocrox/layer/preprocessing/resize.py:61-66 | the loop computes `Output` |
| LegacyResize.AsStage | hocrox/layer/preprocessing/resize.py:5 | the stage carries the attributes of a class without the underscored methods: `is_valid_layer` refuses it, and `transform()` raises when it reaches it (`Layers.StandaloneStopsRun`) |
| LegacyCrop.New | hocrox/layer/preprocessing/crop.py:21-44 | each bound is refused only when truthy and not an int, checked x, y, w, h, then the name; keeps the bounds as given, the default name "Crop Layer", type "crop" and the seven listed parents |
| LegacyCrop.Output | hocrox/layer/preprocessing/crop.py:54-59 | one image per input, in order, each `image[x:x+w, y:y+h]`; a falsy bound that is not an int raises once there is an image to slice |
| LegacyCrop.Apply | hocrox/layer/preprocessing/crop.py:54-59 | the loop computes `Output` |
| LegacyCrop.CroppedWindow | hocrox/layer/preprocessing/crop.py:57 | a crop never adds rows, and a window inside the image is cut exactly: rows `x` to `x+w`, and in each columns `y` to `y+h` |
| LegacyCrop.AsStage | hocrox/layer/preprocessing/crop.py:4 | the stage carries the attributes of a class without the underscored methods: `is_valid_layer` refuses it, and `transform()` raises when it reaches it (`Layers.StandaloneStopsRun`) |
| LegacyRotate.New | hocrox/layer/preprocessing/rotate.py:33-44 | accepted exactly when the angle is an int or a float and the name valid, with the angle error first; keeps the default name "Rotate Layer", type "rotate", the six listed parents and "Angle: …" |
| LegacyRotate.Output | hocrox/layer/preprocessing/rotate.py:54-59 | one image per input, in order, each rotated about its centre by the stored angle |
| LegacyRotate.Apply | hocrox/layer/preprocessing/rotate.py:54-59 | the loop computes `Output` |
| LegacyRotate.AsStage | hocrox/layer/preprocessing/rotate.py:6 | the stage carries the attributes of a class without the underscored methods: `is_valid_layer` refuses it, and `transform()` raises when it reaches it (`Layers.StandaloneStopsRun`) |
| LegacyPlainMaps.New | hocrox/layer/preprocessing/grayscale.py:14-32 | the older grayscale, horizontal flip and vertical flip refuse only a bad name; each keeps its fixed default name, its type and its own parent list |
| LegacyPlainMaps.RandomParents | hocrox/layer/preprocessing/vertical_flip.py:20-30 | the grayscale and the vertical flip may follow a random rotate, the horizontal flip may not; only the grayscale may follow a random flip; none may follow a read |
| LegacyPlainMaps.Output | hocrox/layer/preprocessing/horizontal_flip.py:40-45 | one image per input, in order, each flipped or converted to grey, empty or not |
| LegacyPlainMaps.Apply | hocrox/layer/preprocessing/horizontal_flip.py:40-45 | the loop computes `Output` |
| LegacyPlainMaps.AgreesWithNewer | hocrox/layer/preprocessing/grayscale.py:42-47 | on non-empty inputs with an operation that empties nothing, the older class and the newer one of the same kind produce the same images |
| LegacyPlainMaps.AsStage | hocrox/layer/preprocessing/vertical_flip.py:5 | the stage carries the attributes of a class without the underscored methods: `is_valid_layer` refuses it, and `transform()` raises when it reaches it (`Layers.StandaloneStopsRun`) |
| ReadLayer.New | hocrox/layer/read.py:39-49 | accepted exactly when a truthy path is a string and the name valid, path error first; type "read", no parents and "Path: …" |
| ReadLayer.Items | hocrox/layer/read.py:60-74 | one batch per directory entry, in listing order, each named by the entry and holding the one image read from the joined path; a path that is not a string raises once there is an entry to join |
| ReadLayer.ReadAll | hocrox/layer/read.py:60-63 | the generator loop computes `Items` |
| ReadLayer.AsStage | hocrox/layer/read.py:44-49 | the layer passes `is_valid_layer` and acts as a source |
| ReadLayer.OnlyFirst | hocrox/layer/read.py:47 | a read layer accepts no predecessor, so `add` takes it as the first layer and refuses it after any other: naming both types, or with an AttributeError when the previous layer has no `_get_type` |
| SaveLayer.NewAsWritten | hocrox/layer/save.py:16-31 | as written, accepted exactly when a truthy path is a string, the format is neither "npy" nor "img", and the name valid |
| SaveLayer.New | hocrox/layer/save.py:16-31 | corrected, accepted exactly when the path is valid, the format is "npy" or "img" and the name valid, errors in that order; keeps the default name "Save Layer", type "save" and the six listed parents |
| SaveLayer.FormatCheckAsWritten | hocrox/layer/save.py:19-20 | as written, "npy" (the default) and "img" are both refused; the corrected constructor accepts both |
| SaveLayer.Output | hocrox/layer/save.py:41-47 | the whole batch goes to one file named `<name>_save_<context>` (plus ".npy" for the NumPy format) under the path, and is handed on unchanged; a path that is not a string raises |
| SaveLayer.NumpyBranchUnreachable | hocrox/layer/save.py:42-45 | every layer the written constructor builds writes an encoded image, never a NumPy file |
| SaveLayer.AsStage | hocrox/layer/save.py:7 | the stage carries the attributes of a stand-alone class without the underscored methods. `is_valid_layer` refuses it, and `transform()` raises when it reaches it (`Layers.StandaloneStopsRun`). Its behaviour is `apply_layer`, which only a direct call reaches |
| LegacySave.New | hocrox/layer/preprocessing/save.py:16-41 | accepted exactly when the path is valid, the format is "npy" or "img" and the name valid, errors in that order; keeps the default name "Save Layer", type "save" and the nine listed parents |
| LegacySave.Output | hocrox/layer/preprocessing/save.py:51-59 | one write per image, in batch order, to `<name>_<index>_<context>` (plus ".npy" for the NumPy format), and the batch handed on unchanged; a path that is not a string raises once there is an image |
| LegacySave.Apply | hocrox/layer/preprocessing/save.py:51-59 | the loop computes `Output` |
| LegacySave.FileNamesDistinct | hocrox/layer/preprocessing/save.py:52 | different batch positions get different file names |
| LegacySave.FilesDistinct | hocrox/layer/preprocessing/save.py:51-57 | no two writes of one call go to the same file |
| LegacySave.AsStage | hocrox/layer/preprocessing/save.py:7 | the stage carries the attributes of a stand-alone class without the underscored methods. `is_valid_layer` refuses it, and `transform()` raises when it reaches it (`Layers.StandaloneStopsRun`). Its behaviour is `apply_layer`, which only a direct call reaches |
| Python.Trunc | hocrox/layer/augmentation/shift/random_vertical_shift.py:107-109 | `int()` of a float truncates toward zero: the result lies within one of the float, on the same side of zero |
| Python.Slice | hocrox/layer/augmentation/shift/random_vertical_shift.py:107-109 | a Python slice never grows the sequence, and with bounds inside it is exactly the sub-sequence between them |
| Python.PathJoin | hocrox/layer/read.py:61 | `os.path.join` keeps an absolute second part as it is, and otherwise puts one separator between the two parts |
| Python.PathJoinInjective | hocrox/layer/preprocessing/save.py:55-57 | joining one directory with two different relative names gives two different paths |
| Python.NatToStringInjective | hocrox/layer/preprocessing/save.py:52 | different naturals print as different decimal strings |
| Images.SliceRows | hocrox/layer/augmentation/shift/random_vertical_shift.py:107-109 | `img[a:b, :, :]` keeps the rows between the bounds and leaves a missing image missing |
| Images.SliceColumns | hocrox/layer/augmentation/random_horizontal_shift.py:110-112 | `img[:, a:b, :]` keeps every row and slices each of them the same way |
| Images.MapChannels | hocrox/layer/preprocessing/color/rescale.py:64 | an element-wise NumPy operation keeps the shape and changes each channel value on its own |

## Left out

- Pixel operations: every OpenCV call (`resize`, `flip`, `warpAffine` and `getRotationMatrix2D`, the four blurs, `filter2D`, `copyMakeBorder`, `cvtColor` and the HSV conversions, `imread`, `imwrite`) is an uninterpreted total function of the `Library` value. Only the NumPy expressions the layers write themselves are defined.
- Exceptions that OpenCV or NumPy raise on an image that could not be read (`None`) or on malformed arguments are not modelled. A missing image passes through the library functions.
- Image rank: every model image has three axes (rows, columns, channels). `cv2.cvtColor(…, COLOR_BGR2GRAY)` in the grayscale layers (`hocrox/layer/preprocessing/color/grayscale.py:58`) returns a two-axis array. The older channel-shift, zoom, vertical-shift, horizontal-shift and brightness layers list "greyscale" among their parents (`hocrox/layer/augmentation/random_channel_shift.py:59`, `random_zoom.py:61`, `random_vertical_shift.py:54`, `random_horizontal_shift.py:55`, `random_brightness.py:60`). On a two-axis image, the source raises IndexError in their three-axis indexing, e.g. `img[:, :, :]` (`random_channel_shift.py:116-117`, `color/random_channel_shift.py:113-114`) and `img[a:b, …, :]` (`random_zoom.py:128`, `random_vertical_shift.py:112-114`, `random_horizontal_shift.py:110-112`), and OpenCV refuses the HSV conversion. The model returns images for these layers, so `LegacyRandomChannelShift.Output`, `LegacyRandomZoom.Output`, `LegacyRandomVerticalShift.Output`, `LegacyRandomHorizontalShift.Run` and `LegacyRandomBrightness.Output` do not capture that exception after a grayscale layer.
- Randomness: `random.random` values are the oracle's draws, and `random.uniform` is computed from them as CPython defines it. `random.randint` is computed by scaling one draw. This gives the same range of integers, not CPython's own draw (`_randbelow` with `getrandbits` and rejection). The probability gate `_get_probability` is not defined in `hocrox/utils/layer.py`, so the oracle gives its answer directly and the probability value only bounds the arguments.
- `STANDARD_SUPPORTED_LAYERS` is not defined in `hocrox/utils/layer.py`. It is a parameter (`standard`) of every newer layer's constructor.
- Floats are `real`, with no rounding. The text `str()` prints for a float is carried with the value and taken as given.
- Integer width: Python integers are unbounded, and so are the model's.
- The channel-shift layers' `astype(np.uint8)` follows their own clamp to [0, 255], so it is modelled as truncation of the clamped value (`Images.ShiftedChannel`).
- The brightness layers' `np.array(hsv, dtype=np.uint8)` is not modelled. `Images.BrightenedPixel` scales saturation and value and caps them at 255, as `hocrox/layer/augmentation/color/random_brightness.py:114-117` does. It has no floor at 0, so a negative factor gives negative values, and it does not truncate. The `uint8` cast (line 119) and the conversion back to BGR are both inside the uninterpreted `fromHsv`.
- `pickle`, `open`, PrettyTable rendering and tqdm progress are left out. `save` and `load` store and restore the pair (frozen flag, layer list) in a map from paths to records. `summary` returns its rows rather than a rendered table.
- `os.listdir` is the `FileSystem` parameter's listing. Its errors (a missing directory, a `None` path) are not modelled. Writes are returned as a log of `FileWrite` records, and a failing `cv2.imwrite` is not modelled.
- Layer objects are values, as the layers never change after construction. Aliasing of one layer object between two models is not modelled.
- The third positional argument of `cv2.resize` is `dst`, not the interpolation. The random zoom and shift layers pass `cv2.INTER_CUBIC` where OpenCV expects an output array. The older resize layer does the same with its interpolation code (`hocrox/layer/preprocessing/resize.py:64`), so the code `LegacyResize.New` checks never reaches OpenCV as an interpolation. The argument goes into the uninterpreted resize, and its effect is not modelled.
- `hocrox/layer/preprocessing/shift/horizontal_shift.py` wraps a `RandomHorizontalShift` from `hocrox/layer/augmentation/shift/`, which is not part of this model, so it is left out.
- The single-image layers `hocrox/layer/resize.py`, `hocrox/layer/grayscale.py`, `hocrox/layer/rotate.py` and `hocrox/layer/preprocessing/pading.py` are left out. No package imports them, and each is one library call on one image.
- Examples, packaging and the `__init__.py` re-exports are left out.
- The first-layer check of `Model.add` tests the type name `"read"` (`hocrox/model/model.py:57-58`). `ReadLayer.OnlyFirst` shows that the read layer is accepted first and refused after any other layer.
- `Augment.BrightnessBounds` states only the range of the drawn factor and the 255 cap on saturation and value, not the HSV round trip, which is an OpenCV call.
- `Augment.ChannelShiftClamped` states the shape and that every value is a whole number in [0, 255], not which value each pixel gets.
- `Augment.RotationAngle` bounds the angle only when the start does not exceed the end. With the bounds reversed, `random.uniform` still returns a value between them, and the model computes it.
- `Augment.ShiftCounts` bounds the kept and dropped counts only for a ratio within [-1, 1]. A larger ratio is accepted by the constructors, and Python's slice clamping (`Python.Slice`) then applies.
- `RandomZoomLayer.Output`, `RandomVerticalShiftLayer.Output` and the other gated, dropping `Output` functions state only the bound on the count and that nothing empty is kept. What each kept image is follows from `Template.FanOutFullIndex` and the per-layer slot lemmas.
- `PlainMapLayers.Output`, `AverageBlurLayer.Output` and the other drop-empty map `Output` functions state the bound and non-emptiness. Order and provenance are in their `OutputImages` lemmas.
- `LayerBase.Capitalize` handles ASCII letters only. Python's `str.capitalize` also changes non-ASCII letters and can change the length (`"ßa".capitalize()` is `"Ssa"`). Every type string the layer classes pass is ASCII.
- `Models.Model.Summary` gives the rows as (index, name with type, parameters) tuples, not their PrettyTable rendering.
- Timing and concurrency: none in the source.

## Findings

| source | as written | input that shows it | evidently intended | confidence | as-written member | corrected member |
|---|---|---|---|---|---|---|
| hocrox/utils/Layer.py:24-25 | `get_description` reads `self.type`, which the older base class never sets | any layer built by the older base, e.g. `Layer("crop", "crop", [], "-")`, raises `AttributeError` | the stored `__type`, as in the newer base | high, not executed | LegacyLayerBase.GetDescriptionFailsOnConstructed | LegacyLayerBase.DescriptionNamesStoredType |
| hocrox/layer/preprocessing/blur/gaussian.py:49-53 | `if not (sigma_x, float)` tests a non-empty tuple, so it never raises | `sigma_x="a"` passes the constructor | `isinstance` checks on the deviations | high, not executed | GaussianBlurLayer.SigmaCheckAsWritten | GaussianBlurLayer.New |
| hocrox/layer/preprocessing/blur/bilateral.py:53-57 | the same tuple test for `sigma_color` and `sigma_space` | `sigma_color=None` passes the constructor | `isinstance` checks on the deviations | high, not executed | BilateralBlurLayer.SigmaCheckAsWritten | BilateralBlurLayer.New |
| hocrox/layer/preprocessing/resize.py:21-22 | a size is refused only when both sides are non-positive | `dim=(0, 100)` passes, and so does `(100,)` | refuse any non-positive side (`or`) | medium, not executed | LegacyResize.DimCheckAsWrittenIsWeaker | LegacyResize.New |
| hocrox/layer/save.py:19-20 | `format in ("npy", "img")` raises, the inverse of the intended check | the default `format="npy"` raises | `format not in (...)`, as in `hocrox/layer/preprocessing/save.py:19` | high, not executed | SaveLayer.FormatCheckAsWritten | SaveLayer.New |
| hocrox/layer/augmentation/random_horizontal_shift.py:52 | the layer registers the type `random_channel_shift` | an unnamed layer is named "Random channel shift Layer" and is accepted after any layer that accepts channel shifts | the type `random_horizontal_shift` | high, not executed | LegacyRandomHorizontalShift.TypeAsWritten | LegacyRandomHorizontalShift.New |
| hocrox/layer/augmentation/random_horizontal_shift.py:114 | `cv2.resize(img, (h, w))` passes height and width swapped, since OpenCV's size is (width, height) | a 2-row, 3-column image comes out 3 rows high and 2 columns wide | `(w, h)`, as the vertical shift has | high, not executed | LegacyRandomHorizontalShift.TransposedExample | LegacyRandomHorizontalShift.OutputSlots |
