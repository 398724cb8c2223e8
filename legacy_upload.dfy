/** The upload manager of the legacy editor: the checks on a picked or
    dropped file, the downscaling of large images and the two change
    handlers. Reading files and updating the 3D screen are outside the
    model. */
module LegacyUpload {
  import opened Wrappers
  import opened Text
  import opened Images

  /** The types `validateFileType` accepts by default. */
  const DefaultTypes: seq<string> := ["image/jpeg", "image/png", "image/gif", "image/webp"]
  /** The default size limit: 5 MiB. */
  const DefaultMaxSize: nat := 5 * MiB
  /** The side no compressed image may exceed. */
  const MaxSide: real := 1200.0

  /** `validateFileType(file, allowedTypes)`. */
  predicate ValidateFileType(file: File, allowedTypes: seq<string>) {
    file.mime in allowedTypes
  }

  /** `validateFileSize(file, maxSize)`: the limit itself is allowed. */
  predicate ValidateFileSize(file: File, maxSize: nat) {
    file.size <= maxSize
  }

  /** The change handlers of the two upload inputs read a file only when
      one is picked and its type starts with `image/`. */
  predicate ChangeAccepts(file: Option<File>) {
    file.Some? && StartsWith(file.value.mime, "image/")
  }

  /** By default exactly the four common image types are accepted. */
  lemma DefaultTypesExactly(file: File)
    ensures ValidateFileType(file, DefaultTypes) <==>
      file.mime == "image/jpeg" || file.mime == "image/png" || file.mime == "image/gif" || file.mime == "image/webp"
  {
  }

  /** Every file the type check accepts is one the change handlers read,
      but not the other way round: an SVG passes the change handler and is
      refused by the type check. */
  lemma TypeCheckWithinChangeHandler(file: File)
    ensures ValidateFileType(file, DefaultTypes) ==> ChangeAccepts(Some(file))
    ensures ChangeAccepts(Some(File("image/svg+xml", 0))) && !ValidateFileType(File("image/svg+xml", 0), DefaultTypes)
  {
    assert "image/" <= "image/svg+xml";
    if ValidateFileType(file, DefaultTypes) {
      assert "image/" <= file.mime;
    }
  }

  /** `x * m / y`: a side `x` scaled so that the side `y` becomes `m`. */
  function ScaledSide(x: real, m: real, y: real): (r: real)
    requires x > 0.0 && m > 0.0 && y > 0.0
    ensures r > 0.0 && r * y == m * x
    ensures x <= y ==> r <= m
  {
    ScaledSideFacts(x, m, y);
    (x * m) / y
  }

  lemma ScaledSideFacts(x: real, m: real, y: real)
    requires x > 0.0 && m > 0.0 && y > 0.0
    ensures (x * m) / y > 0.0 && ((x * m) / y) * y == m * x
    ensures x <= y ==> (x * m) / y <= m
  {
    var r := (x * m) / y;
    assert r * y == x * m;
    assert x * m == m * x;
    if x <= y {
      assert x * m <= y * m;
    }
  }

  function Max(a: real, b: real): real {
    if a >= b then a else b
  }

  function Min(a: real, b: real): real {
    if a <= b then a else b
  }

  /** The size `compressImage` draws at: the longer side is cut down to
      1200 when it is longer, the other side in proportion. */
  function FitSize(width: real, height: real): (r: (real, real))
    requires width > 0.0 && height > 0.0
    ensures 0.0 < r.0 <= MaxSide && 0.0 < r.1 <= MaxSide
    ensures Max(r.0, r.1) == Min(Max(width, height), MaxSide)
    ensures r.0 * height == r.1 * width
    ensures width <= MaxSide && height <= MaxSide ==> r == (width, height)
  {
    if width > height then
      if width > MaxSide then (MaxSide, ScaledSide(height, MaxSide, width)) else (width, height)
    else
      if height > MaxSide then (ScaledSide(width, MaxSide, height), MaxSide) else (width, height)
  }

  /** The sizing step of `compressImage`: the sides are cut as `FitSize`
      says and the canvas takes that size. */
  method CompressImage(canvas: Canvas, width: real, height: real) returns (w: real, h: real)
    requires width > 0.0 && height > 0.0
    modifies canvas
    ensures (w, h) == FitSize(width, height)
    ensures canvas.width == Side(w) && canvas.height == Side(h)
  {
    w, h := width, height;
    if w > h {
      if w > MaxSide {
        h := ScaledSide(h, MaxSide, w);
        w := MaxSide;
      }
    } else {
      if h > MaxSide {
        w := ScaledSide(w, MaxSide, h);
        h := MaxSide;
      }
    }
    canvas.Resize(w, h);
  }

  /** What `handleFileUpload(file)` ends in. */
  datatype UploadOutcome = Refused(reason: string) | Shown(compressed: bool)

  /** `handleFileUpload(file)`: the type and the size are checked before
      anything is read; a file over 1 MiB is compressed first. The refusal
      is only logged. */
  function HandleFileUpload(file: File): (r: UploadOutcome)
    ensures r.Shown? <==> ValidateFileType(file, DefaultTypes) && ValidateFileSize(file, DefaultMaxSize)
    ensures r.Shown? ==> (r.compressed <==> MiB < file.size)
  {
    if !ValidateFileType(file, DefaultTypes) then Refused("不支持的文件类型")
    else if !ValidateFileSize(file, DefaultMaxSize) then Refused("文件大小超过限制")
    else Shown(file.size > MiB)
  }

  /** Only files between 1 MiB (exclusive) and 5 MiB (inclusive) of an
      accepted type are compressed; the two limits themselves behave as
      their side says. */
  lemma CompressedBand(mime: string)
    requires mime in DefaultTypes
    ensures HandleFileUpload(File(mime, MiB)) == Shown(false)
    ensures HandleFileUpload(File(mime, MiB + 1)) == Shown(true)
    ensures HandleFileUpload(File(mime, 5 * MiB)) == Shown(true)
    ensures HandleFileUpload(File(mime, 5 * MiB + 1)).Refused?
  {
  }

  /** A drop on a target: nothing for an empty drop, a logged refusal for
      a first file of the wrong type, otherwise `handleFileUpload` on the
      first file. */
  function Drop(files: seq<File>): (r: Option<UploadOutcome>)
    ensures r.Some? <==> files != [] && ValidateFileType(files[0], DefaultTypes)
    ensures r.Some? ==> r.value == HandleFileUpload(files[0])
  {
    if files == [] then None
    else if ValidateFileType(files[0], DefaultTypes) then Some(HandleFileUpload(files[0]))
    else None
  }
}
