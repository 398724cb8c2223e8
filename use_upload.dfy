/** The upload handlers of the editor: a picked file is checked, scaled to
    fit a square and stored as a data URL, the icon in the app record and
    the screenshot as the screen image. Reading the file and encoding the
    scaled image are outside the model; the data URL is a parameter. */
module UploadHook {
  import opened Wrappers
  import opened Text
  import opened JsValue
  import opened Images
  import AppState

  /** The largest accepted file: 20 MiB. */
  const MaxBytes: nat := 20 * MiB
  /** The square icons are scaled into, and the one for screenshots. */
  const IconSide: nat := 200
  const ScreenSide: nat := 1200
  /** The JPEG quality both uploads are encoded at. */
  const UploadQuality: real := 0.9

  /** Why `validateImage` refuses a file. */
  datatype Refusal = NoFile | NotImage | TooLarge

  /** `validateImage(file)`: `None` when the file is accepted. */
  function Validate(file: Option<File>): (r: Option<Refusal>)
    ensures r.None? <==> file.Some? && StartsWith(file.value.mime, "image/") && file.value.size <= MaxBytes
  {
    match file
    case None => Some(NoFile)
    case Some(f) =>
      if !StartsWith(f.mime, "image/") then Some(NotImage)
      else if f.size > MaxBytes then Some(TooLarge)
      else None
  }

  function Min(a: real, b: real): real {
    if a <= b then a else b
  }

  /** `compressImage(file, maxWidth)`: the image is scaled by the smaller of
      the two ratios that make a side equal `maxWidth`. */
  function Scaled(width: real, height: real, maxWidth: real): (size: (real, real))
    requires width > 0.0 && height > 0.0 && maxWidth > 0.0
  {
    var ratio := Min(Ratio(maxWidth, width), Ratio(maxWidth, height));
    (width * ratio, height * ratio)
  }

  /** `m / x`: the factor that brings a side `x` to `m`. */
  function Ratio(m: real, x: real): (q: real)
    requires m > 0.0 && x > 0.0
    ensures q > 0.0 && x * q == m
    ensures x < m ==> q > 1.0
  {
    RatioFacts(m, x);
    m / x
  }

  lemma RatioFacts(m: real, x: real)
    requires m > 0.0 && x > 0.0
    ensures m / x > 0.0 && x * (m / x) == m
    ensures x < m ==> m / x > 1.0
  {
  }

  lemma MulMonotone(x: real, p: real, q: real)
    requires x > 0.0 && p <= q
    ensures x * p <= x * q
  {
  }

  lemma MulGrows(x: real, q: real)
    requires x > 0.0 && q > 1.0
    ensures x * q > x
  {
  }

  lemma MulPositive(x: real, q: real)
    requires x > 0.0 && q > 0.0
    ensures x * q > 0.0
  {
  }

  lemma MulSwap(x: real, y: real, q: real)
    ensures (x * q) * y == (y * q) * x
  {
  }

  /** The scaled image fits the square and touches it on one side. */
  lemma ScaledInside(width: real, height: real, maxWidth: real)
    requires width > 0.0 && height > 0.0 && maxWidth > 0.0
    ensures var size := Scaled(width, height, maxWidth);
      0.0 < size.0 <= maxWidth && 0.0 < size.1 <= maxWidth &&
      (size.0 == maxWidth || size.1 == maxWidth)
  {
    var a, b := Ratio(maxWidth, width), Ratio(maxWidth, height);
    var q := Min(a, b);
    assert Scaled(width, height, maxWidth).0 == width * q;
    assert Scaled(width, height, maxWidth).1 == height * q;
    MulPositive(width, q);
    MulPositive(height, q);
    if a <= b {
      MulMonotone(height, a, b);
    } else {
      MulMonotone(width, b, a);
    }
  }

  /** Both sides are scaled by the same ratio. */
  lemma ScaledKeepsShape(width: real, height: real, maxWidth: real)
    requires width > 0.0 && height > 0.0 && maxWidth > 0.0
    ensures var size := Scaled(width, height, maxWidth);
      size.0 * height == size.1 * width
  {
    var q := Min(Ratio(maxWidth, width), Ratio(maxWidth, height));
    assert Scaled(width, height, maxWidth).0 == width * q;
    assert Scaled(width, height, maxWidth).1 == height * q;
    MulSwap(width, height, q);
  }

  /** An image smaller than the square both ways is enlarged. */
  lemma ScaledEnlarges(width: real, height: real, maxWidth: real)
    requires width > 0.0 && height > 0.0 && maxWidth > 0.0
    requires width < maxWidth && height < maxWidth
    ensures var size := Scaled(width, height, maxWidth);
      size.0 > width && size.1 > height
  {
    var q := Min(Ratio(maxWidth, width), Ratio(maxWidth, height));
    assert Scaled(width, height, maxWidth).0 == width * q;
    assert Scaled(width, height, maxWidth).1 == height * q;
    MulGrows(width, q);
    MulGrows(height, q);
  }

  /** The scaled image fits the square, touches it on one side and keeps its
      shape; a small image is enlarged to touch the square too. */
  lemma ScaledFits(width: real, height: real, maxWidth: real)
    requires width > 0.0 && height > 0.0 && maxWidth > 0.0
    ensures var size := Scaled(width, height, maxWidth);
      0.0 < size.0 <= maxWidth && 0.0 < size.1 <= maxWidth &&
      (size.0 == maxWidth || size.1 == maxWidth) &&
      size.0 * height == size.1 * width &&
      (width < maxWidth && height < maxWidth ==> size.0 > width && size.1 > height)
  {
    ScaledInside(width, height, maxWidth);
    ScaledKeepsShape(width, height, maxWidth);
    if width < maxWidth && height < maxWidth {
      ScaledEnlarges(width, height, maxWidth);
    }
  }

  /** The drawing step of `compressImage`: the canvas takes the scaled
      size. */
  method DrawScaled(canvas: Canvas, width: real, height: real, maxWidth: real)
    requires width > 0.0 && height > 0.0 && maxWidth > 0.0
    modifies canvas
    ensures canvas.width == Side(Scaled(width, height, maxWidth).0)
    ensures canvas.height == Side(Scaled(width, height, maxWidth).1)
  {
    var ratio := Min(Ratio(maxWidth, width), Ratio(maxWidth, height));
    canvas.Resize(width * ratio, height * ratio);
  }

  /** The canvas a drawn icon or screenshot ends on is within its square
      and as wide or as high as the square. */
  lemma DrawnWithinSquare(width: real, height: real, maxWidth: nat)
    requires width > 0.0 && height > 0.0 && maxWidth > 0
    ensures var size := Scaled(width, height, maxWidth as real);
      Side(size.0) <= maxWidth && Side(size.1) <= maxWidth &&
      (Side(size.0) == maxWidth || Side(size.1) == maxWidth)
  {
    ScaledFits(width, height, maxWidth as real);
  }

  /** Which upload a handler serves. */
  datatype Target = Icon | Screen

  /** The square and the quality each handler compresses with. */
  function Settings(target: Target): (r: (nat, real))
    ensures r.0 > 0
  {
    match target
    case Icon => (IconSide, UploadQuality)
    case Screen => (ScreenSide, UploadQuality)
  }

  /** `handleIconUpload` and `handleScreenUpload`, once the compressed
      file is read as `dataUrl`: a refused file leaves the editor as it is;
      the icon goes into the app record, the screenshot becomes the screen
      image. */
  function Upload(state: AppState.State, target: Target, file: Option<File>, dataUrl: string): AppState.State {
    if Validate(file).Some? then state
    else match target
      case Icon => AppState.Step(state, AppState.UpdateAppInfo, Obj(map["iconImage" := Str(dataUrl)])).value
      case Screen => AppState.Step(state, AppState.SetScreenImage, Str(dataUrl)).value
  }

  /** A refused file changes nothing; an accepted icon sets only the app
      record's icon, an accepted screenshot only the screen image. */
  lemma UploadEffect(state: AppState.State, target: Target, file: Option<File>, dataUrl: string)
    ensures Validate(file).Some? ==> Upload(state, target, file, dataUrl) == state
    ensures Validate(file).None? && target == Icon ==>
      var r := Upload(state, target, file, dataUrl);
      r == state["appInfo" := Obj(Props(Get(state, "appInfo"))["iconImage" := Str(dataUrl)])]
    ensures Validate(file).None? && target == Screen ==>
      Upload(state, target, file, dataUrl) == state["screenImage" := Str(dataUrl)]
  {
    if Validate(file).None? && target == Icon {
      var before := Props(Get(state, "appInfo"));
      assert Spread(before, map["iconImage" := Str(dataUrl)]) == before["iconImage" := Str(dataUrl)];
    }
  }

  /** An uploaded icon is drawn on a canvas within 200 by 200 pixels and a
      screenshot within 1200 by 1200, each as wide or as high as its
      square, and both are encoded at quality 0.9. */
  lemma UploadCanvas(target: Target, width: real, height: real)
    requires width > 0.0 && height > 0.0
    ensures var (side, quality) := Settings(target);
      var size := Scaled(width, height, side as real);
      var limit := if target == Icon then 200 else 1200;
      quality == 0.9 && Side(size.0) <= limit && Side(size.1) <= limit &&
      (Side(size.0) == limit || Side(size.1) == limit)
  {
    DrawnWithinSquare(width, height, Settings(target).0);
  }

  /** `useDefaultScreen()`: the screen image is cleared. */
  function UseDefaultScreen(state: AppState.State): (r: AppState.State)
    ensures r == state["screenImage" := Null]
  {
    AppState.Step(state, AppState.SetScreenImage, Null).value
  }
}
