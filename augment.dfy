/**
 * The random transformations the augmentation layers apply in one output
 * slot, shared by the newer layers and their older counterparts: what each
 * draws and what it does with the image.
 */
module Augment {
  import opened Python
  import opened Images
  import opened Randomness
  import opened Template

  /** A zoom bound: `start` and `end` are checked to lie in [0, 1]. */
  type Fraction = r: real | 0.0 <= r <= 1.0

  /** `random.uniform(start_angle, end_angle)` */
  function RotationAngle(start: real, end: real, d: Draw): (a: real)
    ensures start <= end ==> start <= a <= end
  {
    Uniform(start, end, d.u)
  }

  /** `__rotate_image(image, angle)` with a freshly drawn angle. */
  function Rotated(lib: Library, start: real, end: real): RandomOp
  {
    (img: Image, d: Draw) => lib.rotate(img, RotationAngle(start, end, d))
  }

  /** `random.randint(0, 1)`: the flip code of the random flip layers. */
  function FlipCode(d: Draw): (code: int)
    ensures code == 0 || code == 1
  {
    RandInt(0, 1, d.v)
  }

  /** `cv2.flip(image, code)` with a freshly drawn code. */
  function RandomlyFlipped(lib: Library): RandomOp
  {
    (img: Image, d: Draw) => lib.flip(img, FlipCode(d))
  }

  /** `cv2.flip(image, code)` with a fixed code. */
  function FlippedBy(lib: Library, code: int): RandomOp
  {
    (img: Image, d: Draw) => lib.flip(img, code)
  }

  /** `__brightness(img, low, high)`: HSV saturation and value scaled by a drawn factor, capped at 255. */
  function Brightened(lib: Library, low: real, high: real): RandomOp
  {
    (img: Image, d: Draw) => lib.fromHsv(BrightenedHsv(lib.toHsv(img), Uniform(low, high, d.u)))
  }

  /**
   * The factor `__brightness` draws lies between the two bounds, in whichever
   * order they were given; on an HSV pixel the scaled saturation and value
   * never exceed 255 and the hue is untouched.
   */
  lemma BrightnessBounds(low: real, high: real, d: Draw, p: Pixel)
    ensures var f := Uniform(low, high, d.u);
      (low <= high ==> low <= f <= high) && (high < low ==> high < f <= low)
    ensures var q := BrightenedPixel(p, Uniform(low, high, d.u));
      && (|p| > 0 ==> q[0] == p[0])
      && (forall k :: 0 <= k < |p| && (k == 1 || k == 2) ==> q[k] <= 255.0)
  {
  }

  /** `__channel_shift(img, low, high)`: a drawn offset added to every channel, clamped to [0, 255] and truncated. */
  function ChannelShiftedBy(low: int, high: int): RandomOp
  {
    (img: Image, d: Draw) => ChannelShifted(img, Uniform(low as real, high as real, d.u))
  }

  /**
   * A channel-shifted image has the shape of the input and every channel
   * value is a whole number in [0, 255].
   */
  lemma ChannelShiftClamped(img: Image, value: real)
    ensures var r := ChannelShifted(img, value);
      && (r.Pixels? <==> img.Pixels?)
      && (img.Pixels? ==> |r.rows| == |img.rows|)
      && (img.Pixels? ==> forall i, j, k :: 0 <= i < |img.rows| && 0 <= j < |img.rows[i]| && 0 <= k < |img.rows[i][j]| ==>
        (|r.rows[i]| == |img.rows[i]| && |r.rows[i][j]| == |img.rows[i][j]|
         && 0.0 <= r.rows[i][j][k] <= 255.0 && r.rows[i][j][k] == r.rows[i][j][k].Floor as real))
  {
    var r := ChannelShifted(img, value);
    if img.Pixels? {
      forall i, j, k | 0 <= i < |img.rows| && 0 <= j < |img.rows[i]| && 0 <= k < |img.rows[i][j]|
        ensures 0.0 <= r.rows[i][j][k] <= 255.0 && r.rows[i][j][k] == r.rows[i][j][k].Floor as real
      {
        assert r.rows[i][j][k] == ShiftedChannel(img.rows[i][j][k], value);
      }
    }
  }

  /** The crop window of `__zoom`: `img[top:top + height, left:left + width, :]`. */
  datatype Window = Window(top: int, left: int, height: int, width: int)

  lemma FractionOf(z: real, x: nat)
    requires 0.0 <= z <= 1.0
    ensures 0.0 <= z * x as real <= x as real
  {
    assert x as real - z * x as real == (1.0 - z) * x as real;
  }

  /**
   * The window `__zoom` draws on an `h` by `w` image: a zoom factor between
   * the bounds, a window of `int(z * h)` by `int(z * w)`, and an offset drawn
   * so that the window lies inside the image.
   */
  function ZoomWindow(h: nat, w: nat, start: Fraction, end: Fraction, d: Draw): (win: Window)
    ensures 0 <= win.height <= h && 0 <= win.width <= w
    ensures 0 <= win.top && win.top + win.height <= h
    ensures 0 <= win.left && win.left + win.width <= w
  {
    var z := Uniform(start, end, d.u);
    FractionOf(z, h);
    FractionOf(z, w);
    var ht := Trunc(z * h as real);
    var wt := Trunc(z * w as real);
    Window(RandInt(0, h - ht, d.v), RandInt(0, w - wt, d.w), ht, wt)
  }

  /** The pixels of the window, as the NumPy slice takes them. */
  function Crop(img: Image, win: Window): (r: Image)
    ensures r.Pixels? <==> img.Pixels?
    ensures img.Pixels? && 0 <= win.top <= win.top + win.height <= |img.rows| ==>
      && |r.rows| == win.height
      && forall i :: 0 <= i < win.height ==> r.rows[i] == Slice(img.rows[win.top + i], win.left, win.left + win.width)
  {
    SliceColumns(SliceRows(img, win.top, win.top + win.height), win.left, win.left + win.width)
  }

  /**
   * `__zoom(img, start, end)`: the drawn window, resized back to the input's
   * width and height. The newer layer returns an empty window as it is
   * (`resizeEmpty` false); the older one resizes it too.
   */
  function Zoomed(lib: Library, start: Fraction, end: Fraction, resizeEmpty: bool): RandomOp
  {
    (img: Image, d: Draw) =>
      var cropped := Crop(img, ZoomWindow(Height(img), Width(img), start, end, d));
      if !resizeEmpty && IsEmpty(cropped) then cropped else ResizeTo(lib, cropped, Width(img), Height(img))
  }

  /** `random.uniform(-ratio, ratio)` */
  function ShiftRatio(ratio: real, d: Draw): (r: real)
    ensures -ratio <= r <= ratio || ratio <= r <= -ratio
  {
    Uniform(-ratio, ratio, d.u)
  }

  /** `int(n - n * r)`: how many rows (or columns) out of `n` a positive shift by `r` keeps. */
  function KeptBy(n: nat, r: real): int
  {
    Trunc(n as real - n as real * r)
  }

  /** `int(-1 * (n * r))`: how many rows (or columns) out of `n` a negative shift by `r` drops. */
  function DroppedBy(n: nat, r: real): int
  {
    Trunc(-(n as real * r))
  }

  /** For a shift within [-1, 1], neither count leaves the range [0, n]. */
  lemma ShiftCounts(n: nat, r: real)
    requires -1.0 <= r <= 1.0
    ensures 0.0 < r ==> 0 <= KeptBy(n, r) <= n
    ensures r < 0.0 ==> 0 <= DroppedBy(n, r) <= n
  {
    if r > 0.0 {
      FractionOf(r, n);
      assert 0.0 <= n as real - n as real * r <= n as real;
    } else if r < 0.0 {
      var q := -r;
      FractionOf(q, n);
      var x := -(n as real * r);
      assert x == q * n as real;
      assert 0.0 <= x <= n as real;
      assert DroppedBy(n, r) == Trunc(x);
    }
  }

  /**
   * The rows a vertical shift by `r` keeps: `img[:int(h - h * r)]` when `r`
   * is positive, `img[int(-h * r):]` when it is negative, all of them at 0.
   * Whatever `r` is, a positive shift keeps a run of rows from the top and a
   * negative one a run of rows from the bottom.
   */
  function VerticalTrim(img: Image, r: real): (t: Image)
    ensures t.Pixels? <==> img.Pixels?
    ensures r == 0.0 ==> t == img
    ensures img.Pixels? && r > 0.0 ==> |t.rows| <= |img.rows| && t.rows == img.rows[..|t.rows|]
    ensures img.Pixels? && r < 0.0 ==> |t.rows| <= |img.rows| && t.rows == img.rows[|img.rows| - |t.rows|..]
  {
    if r > 0.0 then SliceRows(img, 0, KeptBy(Height(img), r))
    else if r < 0.0 then SliceRows(img, DroppedBy(Height(img), r), Height(img))
    else img
  }

  /**
   * For a ratio within [-1, 1], the number of rows kept: `int(h - h * r)`
   * for a positive ratio, `h - int(-h * r)` for a negative one.
   */
  lemma VerticalTrimRows(img: Image, r: real)
    requires img.Pixels? && -1.0 <= r <= 1.0
    ensures 0.0 < r ==> |VerticalTrim(img, r).rows| == KeptBy(|img.rows|, r)
    ensures r < 0.0 ==> |VerticalTrim(img, r).rows| == |img.rows| - DroppedBy(|img.rows|, r)
  {
    ShiftCounts(|img.rows|, r);
  }

  /**
   * The columns a horizontal shift by `r` keeps: `img[:, :int(w - w * r)]`
   * when `r` is positive, `img[:, int(-w * r):]` when it is negative.
   */
  function HorizontalTrim(img: Image, r: real): (t: Image)
    ensures t.Pixels? <==> img.Pixels?
    ensures r == 0.0 ==> t == img
    ensures img.Pixels? ==> |t.rows| == |img.rows|
    ensures img.Pixels? && r > 0.0 ==> forall i :: 0 <= i < |img.rows| ==>
      t.rows[i] == SliceTo(img.rows[i], KeptBy(Width(img), r))
    ensures img.Pixels? && r < 0.0 ==> forall i :: 0 <= i < |img.rows| ==>
      t.rows[i] == SliceFrom(img.rows[i], DroppedBy(Width(img), r))
  {
    if r > 0.0 then SliceColumns(img, 0, KeptBy(Width(img), r))
    else if r < 0.0 then SliceColumnsFrom(img, DroppedBy(Width(img), r))
    else img
  }

  /**
   * `__vertical_shift(img, ratio)`: the trimmed image resized back to the
   * input's width and height; the newer layer returns an empty trim as it is.
   */
  function VerticallyShifted(lib: Library, ratio: real, resizeEmpty: bool): RandomOp
  {
    (img: Image, d: Draw) =>
      var t := VerticalTrim(img, ShiftRatio(ratio, d));
      if !resizeEmpty && IsEmpty(t) then t else ResizeTo(lib, t, Width(img), Height(img))
  }
}
