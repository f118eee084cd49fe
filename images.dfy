/**
 * Images as the layers see them: an OpenCV/NumPy array of rows of pixels of
 * channel values, or the `None` that `cv2.imread` returns for an unreadable
 * file. The OpenCV calls are the function fields of `Library`; the NumPy
 * expressions the layers write themselves (slicing, `image * r`, the clamps)
 * are defined here.
 */
module Images {
  import opened Python

  /** The channel values of one pixel. */
  type Pixel = seq<real>

  datatype Image = Missing | Pixels(rows: seq<seq<Pixel>>)

  /** `image is None or len(image) == 0`: only the first axis counts. */
  predicate IsEmpty(img: Image)
  {
    img.Missing? || |img.rows| == 0
  }

  /** `img.shape[0]` */
  function Height(img: Image): nat
  {
    if img.Missing? then 0 else |img.rows|
  }

  /** `img.shape[1]` */
  function Width(img: Image): nat
  {
    if img.Pixels? && |img.rows| > 0 then |img.rows[0]| else 0
  }

  /** `img[a:b, :, :]` */
  function SliceRows(img: Image, a: int, b: int): (r: Image)
    ensures r.Pixels? <==> img.Pixels?
    ensures img.Pixels? && 0 <= a <= b <= |img.rows| ==> r.rows == img.rows[a..b]
  {
    if img.Missing? then Missing else Pixels(Slice(img.rows, a, b))
  }

  /** `img[:, a:b, :]` */
  function SliceColumns(img: Image, a: int, b: int): (r: Image)
    ensures r.Pixels? <==> img.Pixels?
    ensures img.Pixels? ==> |r.rows| == |img.rows|
    ensures img.Pixels? ==> forall i :: 0 <= i < |img.rows| ==> r.rows[i] == Slice(img.rows[i], a, b)
  {
    if img.Missing? then Missing
    else Pixels(seq(|img.rows|, i requires 0 <= i < |img.rows| => Slice(img.rows[i], a, b)))
  }

  /** `img[:, a:, :]` */
  function SliceColumnsFrom(img: Image, a: int): (r: Image)
    ensures r.Pixels? <==> img.Pixels?
    ensures img.Pixels? ==> |r.rows| == |img.rows|
    ensures img.Pixels? ==> forall i :: 0 <= i < |img.rows| ==> r.rows[i] == SliceFrom(img.rows[i], a)
  {
    if img.Missing? then Missing
    else Pixels(seq(|img.rows|, i requires 0 <= i < |img.rows| => SliceFrom(img.rows[i], a)))
  }

  /** Applies `f` to every channel value, keeping the shape. */
  function MapChannels(img: Image, f: real -> real): (r: Image)
    ensures r.Pixels? <==> img.Pixels?
    ensures img.Pixels? ==> |r.rows| == |img.rows|
    ensures img.Pixels? ==> forall i :: 0 <= i < |img.rows| ==> |r.rows[i]| == |img.rows[i]|
    ensures img.Pixels? ==> forall i, j :: 0 <= i < |img.rows| && 0 <= j < |img.rows[i]| ==>
      |r.rows[i][j]| == |img.rows[i][j]|
    ensures img.Pixels? ==> forall i, j, k :: 0 <= i < |img.rows| && 0 <= j < |img.rows[i]| && 0 <= k < |img.rows[i][j]| ==>
      r.rows[i][j][k] == f(img.rows[i][j][k])
  {
    if img.Missing? then Missing
    else Pixels(seq(|img.rows|, i requires 0 <= i < |img.rows| =>
      seq(|img.rows[i]|, j requires 0 <= j < |img.rows[i]| =>
        seq(|img.rows[i][j]|, k requires 0 <= k < |img.rows[i][j]| => f(img.rows[i][j][k])))))
  }

  /** `image * rescale` */
  function Scaled(img: Image, factor: real): Image
  {
    MapChannels(img, c => c * factor)
  }

  /** One channel of `img + value`, clamped to [0, 255] and cast to uint8. */
  function ShiftedChannel(c: real, value: real): (r: real)
    ensures 0.0 <= r <= 255.0
    ensures r == r.Floor as real
  {
    var x := c + value;
    var clamped := if x > 255.0 then 255.0 else if x < 0.0 then 0.0 else x;
    clamped.Floor as real
  }

  /** The channel-shift arithmetic of both channel-shift layers. */
  function ChannelShifted(img: Image, value: real): Image
  {
    MapChannels(img, c => ShiftedChannel(c, value))
  }

  /** One pixel of the HSV image after the brightness factor: saturation and value scaled and capped at 255. */
  function BrightenedPixel(p: Pixel, value: real): (r: Pixel)
    ensures |r| == |p|
  {
    seq(|p|, k requires 0 <= k < |p| =>
      if k == 1 || k == 2 then (if p[k] * value > 255.0 then 255.0 else p[k] * value) else p[k])
  }

  /** The HSV arithmetic of both brightness layers, on the float64 HSV image. */
  function BrightenedHsv(hsv: Image, value: real): (r: Image)
    ensures r.Pixels? <==> hsv.Pixels?
    ensures hsv.Pixels? ==> |r.rows| == |hsv.rows|
    ensures hsv.Pixels? ==> forall i :: 0 <= i < |hsv.rows| ==> |r.rows[i]| == |hsv.rows[i]|
    ensures hsv.Pixels? ==> forall i, j :: 0 <= i < |hsv.rows| && 0 <= j < |hsv.rows[i]| ==>
      r.rows[i][j] == BrightenedPixel(hsv.rows[i][j], value)
  {
    if hsv.Missing? then Missing
    else Pixels(seq(|hsv.rows|, i requires 0 <= i < |hsv.rows| =>
      seq(|hsv.rows[i]|, j requires 0 <= j < |hsv.rows[i]| => BrightenedPixel(hsv.rows[i][j], value))))
  }

  /** OpenCV's interpolation codes. */
  const INTER_LINEAR := 1
  const INTER_CUBIC := 2
  const INTER_AREA := 3

  /**
   * The OpenCV functions the layers call, left uninterpreted. Each argument is
   * passed as the layer passes it.
   */
  datatype Library = Library(
    flip: (Image, int) -> Image,                                  // cv2.flip(img, code)
    resize: (Image, Value, Value) -> Image,                       // cv2.resize(img, dsize, third positional argument)
    rotate: (Image, real) -> Image,                               // rotation about the centre, canvas kept
    blur: (Image, Value) -> Image,                                // cv2.blur(img, ksize)
    gaussianBlur: (Image, Value, Value, Value) -> Image,          // cv2.GaussianBlur(img, ksize, sx, sy)
    medianBlur: (Image, int) -> Image,                            // cv2.medianBlur(img, k)
    bilateralFilter: (Image, int, Value, Value) -> Image,         // cv2.bilateralFilter(img, d, sc, ss)
    filter2D: (Image, int, Value) -> Image,                       // cv2.filter2D(img, ddepth, kernel)
    copyMakeBorder: (Image, Value, Value, Value, Value, Value) -> Image, // constant border of a colour
    toGray: Image -> Image,                                       // cv2.cvtColor(img, COLOR_BGR2GRAY)
    toHsv: Image -> Image,                                        // BGR to HSV, as float64
    fromHsv: Image -> Image                                       // cast to uint8, HSV to BGR
  )

  /** `cv2.resize(img, (w, h), cv2.INTER_CUBIC)` as the zoom and shift layers call it. */
  function ResizeTo(lib: Library, img: Image, w: int, h: int): Image
  {
    lib.resize(img, TupleV([IntV(w), IntV(h)]), IntV(INTER_CUBIC))
  }

  /** How a save layer writes a file. */
  datatype Format = NumpyArray | EncodedImage

  /** One file written: `np.save` or `cv2.imwrite` of `data` under `file`. */
  datatype FileWrite = FileWrite(format: Format, file: string, data: seq<Image>)
}
