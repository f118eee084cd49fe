/**
 * The two loops every image layer's `_apply_layer` is written as.
 *
 * Fan-out (augmentation layers): for each input image and each of the
 * `number_of_outputs` slots, draw, then emit the transformed image, the
 * untouched image when the probability gate declines, or nothing when the
 * input or the result is `None`/empty.
 *
 * Map (preprocessing layers): for each input image emit the transformed
 * image, again skipping empty inputs and empty results when the layer checks
 * for them.
 */
module Template {
  import opened Wrappers
  import opened Images
  import opened Randomness

  /**
   * How a layer's loop treats its slot: `gated` when the transformation runs
   * only if `_get_probability` says so; `dropEmpty` when both the input and
   * the result are tested with `is not None and len(...) != 0`.
   */
  datatype Policy = Policy(gated: bool, dropEmpty: bool)

  /** The random transformation a fan-out layer applies in one slot. */
  type RandomOp = (Image, Draw) -> Image

  function Emit(o: Option<Image>): (r: seq<Image>)
    ensures |r| <= 1
    ensures o.Some? <==> |r| == 1
    ensures o.Some? ==> r[0] == o.value
  {
    if o.Some? then [o.value] else []
  }

  /** The image one slot contributes, if any. */
  function Slot(img: Image, d: Draw, op: RandomOp, p: Policy): (r: Option<Image>)
    ensures !p.dropEmpty ==> r.Some?
    ensures p.dropEmpty && r.Some? ==> !IsEmpty(r.value)
    ensures p.dropEmpty && IsEmpty(img) ==> r.None?
    ensures p.gated && !d.gate && !(p.dropEmpty && IsEmpty(img)) ==> r == Some(img)
  {
    if p.dropEmpty && IsEmpty(img) then None
    else
      var t := if !p.gated || d.gate then op(img, d) else img;
      if p.dropEmpty && IsEmpty(t) then None else Some(t)
  }

  /** The images input number `i` contributes through its first `n` slots. */
  function Copies(img: Image, i: nat, n: nat, oracle: Oracle, op: RandomOp, p: Policy): (r: seq<Image>)
    ensures |r| <= n
  {
    if n == 0 then [] else Copies(img, i, n - 1, oracle, op, p) + Emit(Slot(img, oracle(i, n - 1), op, p))
  }

  /** The output of a fan-out layer on `images` with `n` outputs per image. */
  function FanOut(images: seq<Image>, n: nat, oracle: Oracle, op: RandomOp, p: Policy): seq<Image>
  {
    if |images| == 0 then []
    else
      var k := |images| - 1;
      FanOut(images[..k], n, oracle, op, p) + Copies(images[k], k, n, oracle, op, p)
  }

  /**
   * Appending an input appends its slots after everything the earlier inputs
   * produced; with dropping, an empty input adds nothing.
   */
  lemma FanOutGrowth(images: seq<Image>, img: Image, n: nat, oracle: Oracle, op: RandomOp, p: Policy)
    ensures FanOut(images + [img], n, oracle, op, p) ==
      FanOut(images, n, oracle, op, p) + Copies(img, |images|, n, oracle, op, p)
    ensures p.dropEmpty && IsEmpty(img) ==> FanOut(images + [img], n, oracle, op, p) == FanOut(images, n, oracle, op, p)
  {
    assert (images + [img])[..|images|] == images;
    CopiesLength(img, |images|, n, oracle, op, p);
  }

  /**
   * With one output per image and every slot yielding an image, output `k`
   * is what input `k`'s slot yielded, even when the layer drops empty images.
   */
  lemma {:induction false} FanOutSingle(images: seq<Image>, oracle: Oracle, op: RandomOp, p: Policy)
    requires forall k :: 0 <= k < |images| ==> Slot(images[k], oracle(k, 0), op, p).Some?
    ensures |FanOut(images, 1, oracle, op, p)| == |images|
    ensures forall k :: 0 <= k < |images| ==> FanOut(images, 1, oracle, op, p)[k] == Slot(images[k], oracle(k, 0), op, p).value
  {
    if |images| > 0 {
      var m := |images| - 1;
      var prefix, img := images[..m], images[m];
      assert forall k :: 0 <= k < m ==> prefix[k] == images[k];
      FanOutSingle(prefix, oracle, op, p);
      SingleCopy(img, m, oracle, op, p);
      var rest, out := FanOut(prefix, 1, oracle, op, p), FanOut(images, 1, oracle, op, p);
      assert out == rest + [Slot(img, oracle(m, 0), op, p).value];
      forall k | 0 <= k < |images|
        ensures out[k] == Slot(images[k], oracle(k, 0), op, p).value
      {
        if k < m {
          assert out[k] == rest[k] == Slot(prefix[k], oracle(k, 0), op, p).value;
        }
      }
    }
  }

  /** With one output, an input contributes exactly what its slot yields. */
  lemma SingleCopy(img: Image, i: nat, oracle: Oracle, op: RandomOp, p: Policy)
    requires Slot(img, oracle(i, 0), op, p).Some?
    ensures Copies(img, i, 1, oracle, op, p) == [Slot(img, oracle(i, 0), op, p).value]
  {
    assert Copies(img, i, 0, oracle, op, p) == [];
  }

  /** The fan-out loop, proved to produce `FanOut`. */
  method ApplyFanOut(images: seq<Image>, n: nat, oracle: Oracle, op: RandomOp, p: Policy) returns (out: seq<Image>)
    ensures out == FanOut(images, n, oracle, op, p)
    ensures |out| <= |images| * n
  {
    out := [];
    var i := 0;
    while i < |images|
      invariant 0 <= i <= |images|
      invariant out == FanOut(images[..i], n, oracle, op, p)
    {
      var j := 0;
      var before := out;
      while j < n
        invariant 0 <= j <= n
        invariant out == before + Copies(images[i], i, j, oracle, op, p)
      {
        var slot := Slot(images[i], oracle(i, j), op, p);
        if slot.Some? {
          out := out + [slot.value];
        }
        j := j + 1;
      }
      assert images[..i + 1][..i] == images[..i];
      i := i + 1;
    }
    assert images[..i] == images;
    FanOutLength(images, n, oracle, op, p);
  }

  lemma {:induction false} CopiesLength(img: Image, i: nat, n: nat, oracle: Oracle, op: RandomOp, p: Policy)
    ensures !p.dropEmpty ==> |Copies(img, i, n, oracle, op, p)| == n
    ensures p.dropEmpty && IsEmpty(img) ==> Copies(img, i, n, oracle, op, p) == []
  {
    if n > 0 {
      CopiesLength(img, i, n - 1, oracle, op, p);
    }
  }

  /** At most `number_of_outputs` images per input, and exactly that many when nothing is dropped. */
  lemma {:induction false} FanOutLength(images: seq<Image>, n: nat, oracle: Oracle, op: RandomOp, p: Policy)
    ensures |FanOut(images, n, oracle, op, p)| <= |images| * n
    ensures !p.dropEmpty ==> |FanOut(images, n, oracle, op, p)| == |images| * n
  {
    if |images| > 0 {
      var k := |images| - 1;
      FanOutLength(images[..k], n, oracle, op, p);
      CopiesLength(images[k], k, n, oracle, op, p);
      MulSucc(k, n);
    }
  }

  lemma MulSucc(k: nat, n: nat)
    ensures (k + 1) * n == k * n + n
  {
  }

  lemma {:induction false} CopiesIndex(img: Image, i: nat, n: nat, oracle: Oracle, op: RandomOp, p: Policy, j: nat)
    requires !p.dropEmpty && j < n
    ensures |Copies(img, i, n, oracle, op, p)| == n
    ensures Copies(img, i, n, oracle, op, p)[j] == Slot(img, oracle(i, j), op, p).value
  {
    CopiesLength(img, i, n, oracle, op, p);
    CopiesLength(img, i, n - 1, oracle, op, p);
    if j < n - 1 {
      CopiesIndex(img, i, n - 1, oracle, op, p, j);
    }
  }

  /**
   * Without dropping, output `i * n + j` is slot `j` of input `i`: the outputs
   * come input by input, slot by slot.
   */
  lemma {:induction false} FanOutIndex(images: seq<Image>, n: nat, oracle: Oracle, op: RandomOp, p: Policy, i: nat, j: nat)
    requires !p.dropEmpty && i < |images| && j < n
    ensures i * n + j < |FanOut(images, n, oracle, op, p)|
    ensures FanOut(images, n, oracle, op, p)[i * n + j] == Slot(images[i], oracle(i, j), op, p).value
  {
    var k := |images| - 1;
    FanOutLength(images, n, oracle, op, p);
    FanOutLength(images[..k], n, oracle, op, p);
    CopiesIndex(images[k], k, n, oracle, op, p, j);
    assert |images| * n == k * n + n;
    if i < k {
      assert i * n + j < k * n by { MulStrict(i, k, n, j); }
      FanOutIndex(images[..k], n, oracle, op, p, i, j);
    } else {
      assert i * n + j - k * n == j;
    }
  }

  lemma MulStrict(i: nat, k: nat, n: nat, j: nat)
    requires i < k && j < n
    ensures i * n + j < k * n
  {
    assert (i + 1) * n <= k * n by { MulMono(i + 1, k, n); }
  }

  lemma {:induction false} MulMono(a: nat, b: nat, n: nat)
    requires a <= b
    ensures a * n <= b * n
  {
    if a < b {
      MulMono(a, b - 1, n);
    }
  }

  /** Every image a dropping fan-out emits is non-empty. */
  lemma {:induction false} FanOutNonEmpty(images: seq<Image>, n: nat, oracle: Oracle, op: RandomOp, p: Policy)
    requires p.dropEmpty
    ensures forall k :: 0 <= k < |FanOut(images, n, oracle, op, p)| ==> !IsEmpty(FanOut(images, n, oracle, op, p)[k])
  {
    if |images| > 0 {
      var k := |images| - 1;
      FanOutNonEmpty(images[..k], n, oracle, op, p);
      CopiesNonEmpty(images[k], k, n, oracle, op, p);
    }
  }

  lemma {:induction false} CopiesNonEmpty(img: Image, i: nat, n: nat, oracle: Oracle, op: RandomOp, p: Policy)
    requires p.dropEmpty
    ensures forall k :: 0 <= k < |Copies(img, i, n, oracle, op, p)| ==> !IsEmpty(Copies(img, i, n, oracle, op, p)[k])
  {
    if n > 0 {
      CopiesNonEmpty(img, i, n - 1, oracle, op, p);
    }
  }

  /** Every input image kept, each repeated `n` times, empty inputs left out. */
  function Replicated(images: seq<Image>, n: nat): seq<Image>
  {
    if |images| == 0 then []
    else
      var k := |images| - 1;
      Replicated(images[..k], n) + (if IsEmpty(images[k]) then [] else Repeat(images[k], n))
  }

  function Repeat(img: Image, n: nat): (r: seq<Image>)
    ensures |r| == n
    ensures forall k :: 0 <= k < n ==> r[k] == img
  {
    if n == 0 then [] else Repeat(img, n - 1) + [img]
  }

  /**
   * A gated layer whose gate never fires (probability 0) passes every
   * non-empty image through `n` times, whatever the transformation.
   */
  lemma {:induction false} FanOutGateClosed(images: seq<Image>, n: nat, oracle: Oracle, op: RandomOp)
    requires forall i: nat, j: nat :: !oracle(i, j).gate
    ensures FanOut(images, n, oracle, op, Policy(true, true)) == Replicated(images, n)
  {
    if |images| > 0 {
      var k := |images| - 1;
      FanOutGateClosed(images[..k], n, oracle, op);
      CopiesGateClosed(images[k], k, n, oracle, op);
    }
  }

  lemma {:induction false} CopiesGateClosed(img: Image, i: nat, n: nat, oracle: Oracle, op: RandomOp)
    requires forall j: nat :: !oracle(i, j).gate
    ensures Copies(img, i, n, oracle, op, Policy(true, true)) == (if IsEmpty(img) then [] else Repeat(img, n))
  {
    if n > 0 {
      CopiesGateClosed(img, i, n - 1, oracle, op);
    }
  }

  /**
   * When the inputs are non-empty and the transformation never empties an
   * image, dropping changes nothing: exactly `n` outputs per input.
   */
  lemma {:induction false} FanOutNoDrop(images: seq<Image>, n: nat, oracle: Oracle, op: RandomOp, gated: bool)
    requires forall k :: 0 <= k < |images| ==> !IsEmpty(images[k])
    requires forall img: Image, d: Draw :: !IsEmpty(img) ==> !IsEmpty(op(img, d))
    ensures FanOut(images, n, oracle, op, Policy(gated, true)) == FanOut(images, n, oracle, op, Policy(gated, false))
  {
    if |images| > 0 {
      var k := |images| - 1;
      FanOutNoDrop(images[..k], n, oracle, op, gated);
      CopiesNoDrop(images[k], k, n, oracle, op, gated);
    }
  }

  lemma {:induction false} CopiesNoDrop(img: Image, i: nat, n: nat, oracle: Oracle, op: RandomOp, gated: bool)
    requires !IsEmpty(img)
    requires forall img: Image, d: Draw :: !IsEmpty(img) ==> !IsEmpty(op(img, d))
    ensures Copies(img, i, n, oracle, op, Policy(gated, true)) == Copies(img, i, n, oracle, op, Policy(gated, false))
  {
    if n > 0 {
      CopiesNoDrop(img, i, n - 1, oracle, op, gated);
    }
  }

  /**
   * On non-empty inputs and a transformation that never empties an image, a
   * dropping fan-out emits all `n` slots of every input: slot `j` of input
   * `i` is at position `i * n + j`, transformed when the gate fires and the
   * input itself when it declines.
   */
  lemma FanOutFullIndex(images: seq<Image>, n: nat, oracle: Oracle, op: RandomOp, gated: bool, i: nat, j: nat)
    requires forall k :: 0 <= k < |images| ==> !IsEmpty(images[k])
    requires forall img: Image, d: Draw :: !IsEmpty(img) ==> !IsEmpty(op(img, d))
    requires i < |images| && j < n
    ensures |FanOut(images, n, oracle, op, Policy(gated, true))| == |images| * n
    ensures i * n + j < |images| * n
    ensures FanOut(images, n, oracle, op, Policy(gated, true))[i * n + j] ==
      if !gated || oracle(i, j).gate then op(images[i], oracle(i, j)) else images[i]
  {
    FanOutNoDrop(images, n, oracle, op, gated);
    FanOutLength(images, n, oracle, op, Policy(gated, false));
    FanOutIndex(images, n, oracle, op, Policy(gated, false), i, j);
  }

  /**
   * Without dropping, slot `j` of input `i` is at position `i * n + j`:
   * transformed when the gate fires (always, for an ungated layer), the input
   * itself otherwise.
   */
  lemma FanOutSlot(images: seq<Image>, n: nat, oracle: Oracle, op: RandomOp, gated: bool, i: nat, j: nat)
    requires i < |images| && j < n
    ensures |FanOut(images, n, oracle, op, Policy(gated, false))| == |images| * n
    ensures i * n + j < |images| * n
    ensures FanOut(images, n, oracle, op, Policy(gated, false))[i * n + j] ==
      if !gated || oracle(i, j).gate then op(images[i], oracle(i, j)) else images[i]
  {
    FanOutLength(images, n, oracle, op, Policy(gated, false));
    FanOutIndex(images, n, oracle, op, Policy(gated, false), i, j);
  }

  /** The output of a map layer. */
  function MapOut(images: seq<Image>, op: Image -> Image, dropEmpty: bool): seq<Image>
  {
    if |images| == 0 then []
    else
      var k := |images| - 1;
      var t := op(images[k]);
      MapOut(images[..k], op, dropEmpty)
        + (if dropEmpty && (IsEmpty(images[k]) || IsEmpty(t)) then [] else [t])
  }

  /** The map loop, proved to produce `MapOut`. */
  method ApplyMap(images: seq<Image>, op: Image -> Image, dropEmpty: bool) returns (out: seq<Image>)
    ensures out == MapOut(images, op, dropEmpty)
    ensures |out| <= |images|
  {
    out := [];
    var i := 0;
    while i < |images|
      invariant 0 <= i <= |images|
      invariant out == MapOut(images[..i], op, dropEmpty)
    {
      var image := images[i];
      if !(dropEmpty && IsEmpty(image)) {
        var t := op(image);
        if !(dropEmpty && IsEmpty(t)) {
          out := out + [t];
        }
      }
      assert images[..i + 1][..i] == images[..i];
      i := i + 1;
    }
    assert images[..i] == images;
    MapLength(images, op, dropEmpty);
  }

  /** One image out per image in, in order, when nothing is dropped. */
  lemma {:induction false} MapLength(images: seq<Image>, op: Image -> Image, dropEmpty: bool)
    ensures |MapOut(images, op, dropEmpty)| <= |images|
    ensures !dropEmpty ==> |MapOut(images, op, dropEmpty)| == |images|
    ensures !dropEmpty ==> forall k :: 0 <= k < |images| ==> MapOut(images, op, dropEmpty)[k] == op(images[k])
  {
    if |images| > 0 {
      var k := |images| - 1;
      MapLength(images[..k], op, dropEmpty);
    }
  }

  /** Every image a dropping map emits is non-empty. */
  lemma {:induction false} MapNonEmpty(images: seq<Image>, op: Image -> Image)
    ensures forall k :: 0 <= k < |MapOut(images, op, true)| ==> !IsEmpty(MapOut(images, op, true)[k])
  {
    if |images| > 0 {
      MapNonEmpty(images[..|images| - 1], op);
    }
  }

  /**
   * On non-empty inputs and a transformation that never empties an image, a
   * dropping map is the plain map: `op` of every input, in order.
   */
  lemma {:induction false} MapNoDrop(images: seq<Image>, op: Image -> Image)
    requires forall k :: 0 <= k < |images| ==> !IsEmpty(images[k])
    requires forall img: Image :: !IsEmpty(img) ==> !IsEmpty(op(img))
    ensures MapOut(images, op, true) == MapOut(images, op, false)
  {
    if |images| > 0 {
      MapNoDrop(images[..|images| - 1], op);
    }
  }

  /** No image in `images` is empty. */
  predicate AllNonEmpty(images: seq<Image>)
  {
    forall k :: 0 <= k < |images| ==> !IsEmpty(images[k])
  }

  /** `op` never turns a non-empty image into an empty one. */
  ghost predicate KeepsNonEmpty(op: Image -> Image)
  {
    forall img: Image :: !IsEmpty(img) ==> !IsEmpty(op(img))
  }

  /**
   * On non-empty inputs and a transformation that never empties an image, a
   * dropping map emits exactly one image per input, in order.
   */
  lemma MapKeepsAll(images: seq<Image>, op: Image -> Image)
    requires AllNonEmpty(images) && KeepsNonEmpty(op)
    ensures |MapOut(images, op, true)| == |images|
    ensures forall k :: 0 <= k < |images| ==> MapOut(images, op, true)[k] == op(images[k])
  {
    MapNoDrop(images, op);
    MapLength(images, op, false);
  }

  /** `img` is the transformation of one of `images`, a non-empty one when the map drops. */
  ghost predicate FromInput(img: Image, images: seq<Image>, op: Image -> Image, dropEmpty: bool)
  {
    exists m :: 0 <= m < |images| && img == op(images[m]) && (dropEmpty ==> !IsEmpty(images[m]))
  }

  /** Every image a map emits is the transformation of one of its inputs. */
  lemma {:induction false} MapOrigin(images: seq<Image>, op: Image -> Image, dropEmpty: bool)
    ensures forall k :: 0 <= k < |MapOut(images, op, dropEmpty)| ==> FromInput(MapOut(images, op, dropEmpty)[k], images, op, dropEmpty)
  {
    if |images| > 0 {
      var last := |images| - 1;
      var front := images[..last];
      MapOrigin(front, op, dropEmpty);
      var out := MapOut(images, op, dropEmpty);
      var head := MapOut(front, op, dropEmpty);
      var t := op(images[last]);
      var dropped := dropEmpty && (IsEmpty(images[last]) || IsEmpty(t));
      assert out == head + (if dropped then [] else [t]);
      forall k | 0 <= k < |out|
        ensures FromInput(out[k], images, op, dropEmpty)
      {
        if k < |head| {
          assert FromInput(head[k], front, op, dropEmpty);
          var m :| 0 <= m < |front| && head[k] == op(front[m]) && (dropEmpty ==> !IsEmpty(front[m]));
          assert images[m] == front[m] && out[k] == head[k];
        } else {
          assert !dropped && out[k] == op(images[last]);
        }
      }
    }
  }
}
