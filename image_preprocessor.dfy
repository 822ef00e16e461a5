/**
 * Image-to-tensor preprocessing (src/infrastructure/ml/image_preprocessor.py).
 *
 * The PIL and numpy calls are the fields of `Pil`, functions on an abstract image that
 * has a size and a mode. `Lawful` states the only facts the model relies on:
 * crop, convert and resize give the size and mode asked for, and an 8-bit image becomes
 * an array of the matching shape with samples in 0..255. The box arithmetic, the choice
 * of which steps run, the division by 255, the axes and the error wrapping are the
 * preprocessor's own and are modelled exactly.
 */
module ImagePreprocessing {
  import opened Exceptions
  import opened Bytes

  /** PIL image modes: "L" (8-bit grey), "RGB" (3 x 8-bit) and every other mode by name. */
  datatype Mode = L | RGB | OtherMode(name: string)

  /** A decoded image as the preprocessor sees it: `image.size == (width, height)` and `image.mode`. */
  datatype Image = Image(width: nat, height: nat, mode: Mode)

  /** A numpy array: its shape and its elements in row-major order. */
  datatype NdArray = NdArray(shape: seq<int>, data: seq<real>)

  /** The (left, top, right, bottom) tuple given to `Image.crop`. */
  datatype Box = Box(left: int, top: int, right: int, bottom: int)

  /** The constructor arguments of ImagePreprocessor. */
  datatype Config = Config(targetSize: int, channels: int, centerCropRatio: real, enableCrop: bool)

  /** The constructor's defaults, which are also the service settings' defaults. */
  const DefaultConfig := Config(96, 1, 0.6, true)

  /** The library calls the preprocessor makes. */
  datatype Pil = Pil(
    open: seq<byte> -> Result<Image>,         // Image.open(io.BytesIO(bytes))
    crop: (Image, Box) -> Result<Image>,      // image.crop(box)
    convert: (Image, Mode) -> Result<Image>,  // image.convert(mode)
    resize: (Image, int, int) -> Result<Image>, // image.resize((w, h))
    toArray: Image -> Result<NdArray>)        // np.array(image, dtype=np.float32)

  predicate InByteRange(data: seq<real>)
  {
    forall i :: 0 <= i < |data| ==> 0.0 <= data[i] <= 255.0
  }

  predicate InUnitRange(data: seq<real>)
  {
    forall i :: 0 <= i < |data| ==> 0.0 <= data[i] <= 1.0
  }

  /** The facts about PIL and numpy the shape guarantee rests on. */
  ghost predicate Lawful(pil: Pil)
  {
    && (forall img, box :: pil.crop(img, box).Ok? ==>
          var c := pil.crop(img, box).value;
          c.width == box.right - box.left && c.height == box.bottom - box.top && c.mode == img.mode)
    && (forall img, m :: pil.convert(img, m).Ok? ==>
          var c := pil.convert(img, m).value;
          c.width == img.width && c.height == img.height && c.mode == m)
    && (forall img, w, h :: pil.resize(img, w, h).Ok? ==>
          var c := pil.resize(img, w, h).value;
          c.width == w && c.height == h && c.mode == img.mode)
    && (forall img: Image :: img.mode == L && pil.toArray(img).Ok? ==>
          var a := pil.toArray(img).value;
          a.shape == [img.height as int, img.width as int] && InByteRange(a.data))
    && (forall img: Image :: img.mode == RGB && pil.toArray(img).Ok? ==>
          var a := pil.toArray(img).value;
          a.shape == [img.height as int, img.width as int, 3] && InByteRange(a.data))
  }

  /** Python's `int(x)` on a float: truncation toward zero. */
  function TruncateToInt(x: real): (n: int)
    ensures x >= 0.0 ==> n == x.Floor
    ensures x >= 0.0 ==> n as real <= x < n as real + 1.0
    ensures x < 0.0 ==> x <= n as real < x + 1.0 && n <= 0
  {
    if x >= 0.0 then x.Floor else -((-x).Floor)
  }

  /**
   * The box `center_crop` cuts: width and height `int(size * ratio)`, origin at
   * `(size - crop) // 2`. Python's `//` floors; Dafny's `/` with the positive divisor 2 does too.
   */
  function CropBox(width: nat, height: nat, ratio: real): (b: Box)
    ensures b.right - b.left == TruncateToInt(width as real * ratio)
    ensures b.bottom - b.top == TruncateToInt(height as real * ratio)
  {
    var cropWidth := TruncateToInt(width as real * ratio);
    var cropHeight := TruncateToInt(height as real * ratio);
    var left := (width - cropWidth) / 2;
    var top := (height - cropHeight) / 2;
    Box(left, top, left + cropWidth, top + cropHeight)
  }

  /** For a non-negative ratio the crop sides are floor(size * ratio). */
  lemma CropSidesAreFloors(width: nat, height: nat, ratio: real)
    requires ratio >= 0.0
    ensures var b := CropBox(width, height, ratio);
      b.right - b.left == (width as real * ratio).Floor && b.bottom - b.top == (height as real * ratio).Floor
  {
    NonNegativeProduct(width as real, ratio);
    NonNegativeProduct(height as real, ratio);
  }

  lemma NonNegativeProduct(x: real, y: real)
    requires x >= 0.0 && y >= 0.0
    ensures x * y >= 0.0
  {
  }

  lemma ProductAtMost(x: real, y: real)
    requires x >= 0.0 && 0.0 <= y <= 1.0
    ensures 0.0 <= x * y <= x
  {
  }

  /** One side of the box: for a ratio in [0, 1] the run from the origin fits in [0, size]. */
  lemma CropSideInside(size: nat, ratio: real)
    requires 0.0 <= ratio <= 1.0
    ensures var c := TruncateToInt(size as real * ratio);
      0 <= (size - c) / 2 && (size - c) / 2 + c <= size && 0 <= c
  {
    ProductAtMost(size as real, ratio);
    var c := TruncateToInt(size as real * ratio);
    assert 0 <= c <= size;
  }

  /** For a ratio in [0, 1] the box lies inside the image. */
  lemma CropBoxInside(width: nat, height: nat, ratio: real)
    requires 0.0 <= ratio <= 1.0
    ensures var b := CropBox(width, height, ratio);
      0 <= b.left <= b.right <= width && 0 <= b.top <= b.bottom <= height
  {
    CropSideInside(width, ratio);
    CropSideInside(height, ratio);
  }

  /** For every ratio the box is centred, with the odd pixel of slack on the right and bottom. */
  lemma CropBoxCentred(width: nat, height: nat, ratio: real)
    ensures var b := CropBox(width, height, ratio);
      b.left <= width - b.right <= b.left + 1 && b.top <= height - b.bottom <= b.top + 1
  {
  }

  /** A 200 x 200 image at the default ratio 0.6 is cut to (40, 40, 160, 160). */
  lemma CropBoxExample()
    ensures CropBox(200, 200, 0.6) == Box(40, 40, 160, 160)
  {
    assert (200 as real * 0.6) == 120.0;
  }

  /** `center_crop`. */
  function CenterCrop(pil: Pil, ratio: real, image: Image): (r: Result<Image>)
    ensures Lawful(pil) && r.Ok? ==>
      r.value.width == TruncateToInt(image.width as real * ratio) &&
      r.value.height == TruncateToInt(image.height as real * ratio) &&
      r.value.mode == image.mode
  {
    pil.crop(image, CropBox(image.width, image.height, ratio))
  }

  /** The crop runs only when enabled. */
  function CropStep(pil: Pil, config: Config, image: Image): (r: Result<Image>)
    ensures !config.enableCrop ==> r == Ok(image)
    ensures config.enableCrop ==> r == CenterCrop(pil, config.centerCropRatio, image)
  {
    if config.enableCrop then CenterCrop(pil, config.centerCropRatio, image) else Ok(image)
  }

  /** The mode conversion: to "L" for one channel, to "RGB" for three, only when the mode differs. */
  function ConvertStep(pil: Pil, config: Config, image: Image): (r: Result<Image>)
    ensures config.channels == 1 && image.mode == L ==> r == Ok(image)
    ensures config.channels == 3 && image.mode == RGB ==> r == Ok(image)
    ensures config.channels != 1 && config.channels != 3 ==> r == Ok(image)
    ensures Lawful(pil) && r.Ok? ==> r.value.width == image.width && r.value.height == image.height
    ensures Lawful(pil) && r.Ok? && config.channels == 1 ==> r.value.mode == L
    ensures Lawful(pil) && r.Ok? && config.channels == 3 ==> r.value.mode == RGB
  {
    if config.channels == 1 && image.mode != L then pil.convert(image, L)
    else if config.channels == 3 && image.mode != RGB then pil.convert(image, RGB)
    else Ok(image)
  }

  /** The resize runs only when the size is not already target x target; afterwards it is. */
  function ResizeStep(pil: Pil, config: Config, image: Image): (r: Result<Image>)
    ensures image.width == config.targetSize && image.height == config.targetSize ==> r == Ok(image)
    ensures Lawful(pil) && r.Ok? ==>
      r.value.width == config.targetSize && r.value.height == config.targetSize && r.value.mode == image.mode
  {
    if (image.width as int, image.height as int) != (config.targetSize, config.targetSize) then
      pil.resize(image, config.targetSize, config.targetSize)
    else Ok(image)
  }

  /** `image_array / 255.0`. */
  function Normalize(arr: NdArray): (r: NdArray)
    ensures r.shape == arr.shape && |r.data| == |arr.data|
    ensures forall i :: 0 <= i < |r.data| ==> r.data[i] * 255.0 == arr.data[i]
    ensures InByteRange(arr.data) ==> InUnitRange(r.data)
  {
    NdArray(arr.shape, seq(|arr.data|, i requires 0 <= i < |arr.data| => arr.data[i] / 255.0))
  }

  /** The trailing channel axis for a rank-2 single-channel array, then the batch axis. */
  function AddAxes(config: Config, arr: NdArray): (r: NdArray)
    ensures r.data == arr.data
    ensures config.channels == 1 && |arr.shape| == 2 ==> r.shape == [1] + arr.shape + [1]
    ensures !(config.channels == 1 && |arr.shape| == 2) ==> r.shape == [1] + arr.shape
  {
    var withChannel := if config.channels == 1 && |arr.shape| == 2 then NdArray(arr.shape + [1], arr.data) else arr;
    NdArray([1] + withChannel.shape, withChannel.data)
  }

  /** The body of the `try` in `preprocess`, raising whatever a step raises. */
  function Pipeline(pil: Pil, config: Config, imageBytes: seq<byte>): (r: Result<NdArray>)
    ensures pil.open(imageBytes).Err? ==> r == Err(pil.open(imageBytes).error)
    ensures pil.open(imageBytes).Ok? && CropStep(pil, config, pil.open(imageBytes).value).Err? ==>
      r == Err(CropStep(pil, config, pil.open(imageBytes).value).error)
    ensures r.Ok? ==> pil.open(imageBytes).Ok? && |r.value.shape| >= 1 && r.value.shape[0] == 1
  {
    var image :- pil.open(imageBytes);
    var cropped :- CropStep(pil, config, image);
    var converted :- ConvertStep(pil, config, cropped);
    var resized :- ResizeStep(pil, config, converted);
    var arr :- pil.toArray(resized);
    Ok(AddAxes(config, Normalize(arr)))
  }

  const PreprocessFailedPrefix := "image preprocessing failed: "

  /** `preprocess`: every failure of any step is re-raised as InvalidImageError carrying the cause's text. */
  function Preprocess(pil: Pil, config: Config, imageBytes: seq<byte>): (r: Result<NdArray>)
    ensures r.Err? <==> Pipeline(pil, config, imageBytes).Err?
    ensures r.Err? ==> r.error == InvalidImageError(PreprocessFailedPrefix + Pipeline(pil, config, imageBytes).error.message)
    ensures r.Ok? ==> r == Pipeline(pil, config, imageBytes)
  {
    match Pipeline(pil, config, imageBytes)
    case Ok(arr) => Ok(arr)
    case Err(e) => Err(InvalidImageError(PreprocessFailedPrefix + e.message))
  }

  /** The output guarantee: shape [1, ts, ts, C] and every value in [0, 1], for C = 1 or 3. */
  lemma PreprocessShape(pil: Pil, config: Config, imageBytes: seq<byte>)
    requires Lawful(pil)
    requires config.channels == 1 || config.channels == 3
    requires Preprocess(pil, config, imageBytes).Ok?
    ensures var t := Preprocess(pil, config, imageBytes).value;
      t.shape == [1, config.targetSize, config.targetSize, config.channels] && InUnitRange(t.data)
  {
    var image := pil.open(imageBytes).value;
    var cropped := CropStep(pil, config, image).value;
    var converted := ConvertStep(pil, config, cropped).value;
    var resized := ResizeStep(pil, config, converted).value;
    var arr := pil.toArray(resized).value;
    assert resized.mode == converted.mode;
    if config.channels == 1 {
      assert arr.shape == [config.targetSize, config.targetSize];
    } else {
      assert arr.shape == [config.targetSize, config.targetSize, 3];
    }
  }

  /** Failures are reported as InvalidImageError and as nothing else. */
  lemma PreprocessFailsAsInvalidImage(pil: Pil, config: Config, imageBytes: seq<byte>)
    requires Preprocess(pil, config, imageBytes).Err?
    ensures Preprocess(pil, config, imageBytes).error.InvalidImageError?
    ensures Preprocess(pil, config, imageBytes).error.Code() == InvalidImageCode
    ensures PreprocessFailedPrefix <= Preprocess(pil, config, imageBytes).error.message
  {
  }

  /** A payload PIL cannot open is an InvalidImageError naming PIL's complaint. */
  lemma UndecodableImage(pil: Pil, config: Config, imageBytes: seq<byte>)
    requires pil.open(imageBytes).Err?
    ensures Preprocess(pil, config, imageBytes) ==
      Err(InvalidImageError(PreprocessFailedPrefix + pil.open(imageBytes).error.message))
  {
  }
}
