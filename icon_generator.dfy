/** The icon normaliser of `advanced_icon_generator.py`: it squares the
    source, scales it into a fixed 1024-pixel canvas at a target content
    ratio, decides from the alpha channel whether the content needs a
    rounded-corner mask, and pastes it through that mask.

    Images are grids of rows, `g[y][x]`; PIL's `getpixel((x, y))` is
    `g[y][x]`. LANCZOS resampling and ImageDraw's rasterisation of the
    rounded rectangle are not modelled: the resampled image is an input of
    the right size, and the rasteriser is a predicate parameter. */
module IconGenerator {
  import opened Wrappers
  import opened Text
  import JsNum

  /** Side of the canvas every icon is normalised into. */
  const Base: int := 1024

  /** Alpha threshold above which a pixel counts as content. */
  const ContentThreshold: int := 10

  type Grid = seq<seq<int>>

  predicate IsGrid(g: Grid, w: nat, h: nat) {
    |g| == h && forall y :: 0 <= y < h ==> |g[y]| == w
  }

  predicate IsByteGrid(g: Grid) {
    forall y, x :: 0 <= y < |g| && 0 <= x < |g[y]| ==> 0 <= g[y][x] <= 255
  }

  /** A box as PIL writes it: left and top inclusive, right and bottom exclusive. */
  datatype Box = Box(left: int, top: int, right: int, bottom: int)

  function MinNat(a: nat, b: nat): nat { if a <= b then a else b }

  /** The centre crop applied to a non-square source; a square source is not cropped. */
  function SquareCrop(w: nat, h: nat): (b: Option<Box>)
    ensures b.None? <==> w == h
    ensures b.Some? ==>
      && b.value.right - b.value.left == MinNat(w, h)
      && b.value.bottom - b.value.top == MinNat(w, h)
      && 0 <= b.value.left && b.value.right <= w
      && 0 <= b.value.top && b.value.bottom <= h
  {
    if w == h then None
    else
      var s := MinNat(w, h);
      Some(Box((w - s) / 2, (h - s) / 2, (w + s) / 2, (h + s) / 2))
  }

  /** Both crop margins on the long side differ by at most one pixel. */
  lemma SquareCropCentred(w: nat, h: nat)
    requires w != h
    ensures var b := SquareCrop(w, h).value;
      && 0 <= (w - b.right) - b.left <= 1
      && 0 <= (h - b.bottom) - b.top <= 1
  {
  }

  /** Side of the scaled content: `int(1024 * target_ratio)`. */
  function ContentSide(ratio: real): int
  {
    JsNum.Trunc(Base as real * ratio)
  }

  /** Offset of the content square on both axes: `(1024 - content) // 2`. */
  function Offset(content: int): int
  {
    (Base - content) / 2
  }

  /** For a ratio in (0, 1] the content square lies inside the canvas and the
      two margins on each axis differ by at most one pixel. */
  lemma ContentInsideCanvas(ratio: real)
    requires 0.0 < ratio <= 1.0
    ensures var c := ContentSide(ratio);
      && 0 <= c <= Base
      && 0 <= Offset(c) && Offset(c) + c <= Base
      && 0 <= (Base - (Offset(c) + c)) - Offset(c) <= 1
  {
    assert 0.0 < Base as real * ratio <= Base as real;
  }

  /** The default target ratio 0.8 gives an 819-pixel content square at offset 102. */
  lemma DefaultRatioGeometry()
    ensures ContentSide(0.8) == 819 && Offset(819) == 102
  {
    assert Base as real * 0.8 == 819.2;
  }

  // ---------------------------------------------------------------------
  // Bounding box of the content (PIL getbbox on alpha > 10)

  /** Index of the first `true`, if any. */
  function FirstTrue(f: seq<bool>): (r: Option<nat>)
    ensures r.None? <==> forall i :: 0 <= i < |f| ==> !f[i]
    ensures r.Some? ==> r.value < |f| && f[r.value] && forall i :: 0 <= i < r.value ==> !f[i]
  {
    if f == [] then None
    else if f[0] then Some(0)
    else match FirstTrue(f[1..])
      case None => None
      case Some(i) => Some(i + 1)
  }

  /** Index of the last `true`, if any. */
  function LastTrue(f: seq<bool>): (r: Option<nat>)
    ensures r.None? <==> forall i :: 0 <= i < |f| ==> !f[i]
    ensures r.Some? ==> r.value < |f| && f[r.value] && forall i :: r.value < i < |f| ==> !f[i]
  {
    if f == [] then None
    else if f[|f| - 1] then Some(|f| - 1)
    else LastTrue(f[..|f| - 1])
  }

  predicate Opaque(g: Grid, x: int, y: int)
  {
    0 <= y < |g| && 0 <= x < |g[y]| && g[y][x] > ContentThreshold
  }

  /** Some content pixel lies in column `x`. */
  predicate ColumnHasContent(g: Grid, x: int)
  {
    exists y | 0 <= y < |g| :: Opaque(g, x, y)
  }

  /** Some content pixel lies in row `y`. */
  predicate RowHasContent(g: Grid, y: int)
  {
    0 <= y < |g| && exists x | 0 <= x < |g[y]| :: Opaque(g, x, y)
  }

  function RowFlags(g: Grid): (f: seq<bool>)
    ensures |f| == |g| && forall y :: 0 <= y < |g| ==> f[y] == RowHasContent(g, y)
  {
    seq(|g|, y requires 0 <= y < |g| => RowHasContent(g, y))
  }

  function ColFlags(g: Grid, w: nat): (f: seq<bool>)
    ensures |f| == w && forall x :: 0 <= x < w ==> f[x] == ColumnHasContent(g, x)
  {
    seq(w, x requires 0 <= x < w => ColumnHasContent(g, x))
  }

  /** `getbbox()` of the thresholded alpha channel (`ContentBoxSpec` states
      what it is). */
  function ContentBox(g: Grid, w: nat): Option<Box>
  {
    match (FirstTrue(ColFlags(g, w)), LastTrue(ColFlags(g, w)), FirstTrue(RowFlags(g)), LastTrue(RowFlags(g)))
    case (Some(l), Some(r), Some(t), Some(b)) => Some(Box(l, t, r + 1, b + 1))
    case _ => None
  }

  predicate HasContent(g: Grid)
  {
    exists y | 0 <= y < |g| :: RowHasContent(g, y)
  }

  /** Every content pixel lies in box `b`. */
  ghost predicate Encloses(g: Grid, b: Box)
  {
    forall x, y :: Opaque(g, x, y) ==> b.left <= x < b.right && b.top <= y < b.bottom
  }

  lemma ContentInFlags(g: Grid, w: nat, x: int, y: int)
    requires IsGrid(g, w, |g|) && Opaque(g, x, y)
    ensures 0 <= x < w && 0 <= y < |g| && ColFlags(g, w)[x] && RowFlags(g)[y]
  {
  }

  /** The content box is the smallest box holding every content pixel: it
      touches content on all four sides, and it is absent exactly when there
      is no content. */
  lemma ContentBoxSpec(g: Grid, w: nat)
    requires IsGrid(g, w, |g|)
    ensures var b := ContentBox(g, w);
      && (b.None? <==> !HasContent(g))
      && (b.Some? ==>
        && 0 <= b.value.left < b.value.right <= w
        && 0 <= b.value.top < b.value.bottom <= |g|
        && Encloses(g, b.value)
        && ColumnHasContent(g, b.value.left) && ColumnHasContent(g, b.value.right - 1)
        && RowHasContent(g, b.value.top) && RowHasContent(g, b.value.bottom - 1))
  {
    var rows := RowFlags(g);
    var cols := ColFlags(g, w);
    var fl, ll, ft, lt := FirstTrue(cols), LastTrue(cols), FirstTrue(rows), LastTrue(rows);
    if HasContent(g) {
      var y :| 0 <= y < |g| && RowHasContent(g, y);
      var x :| 0 <= x < |g[y]| && Opaque(g, x, y);
      ContentInFlags(g, w, x, y);
      assert fl.Some? && ll.Some? && ft.Some? && lt.Some?;
      var b := ContentBox(g, w).value;
      assert b == Box(fl.value, ft.value, ll.value + 1, lt.value + 1);
      forall x, y | Opaque(g, x, y)
        ensures b.left <= x < b.right && b.top <= y < b.bottom
      {
        ContentInFlags(g, w, x, y);
      }
      assert cols[fl.value] && cols[ll.value] && rows[ft.value] && rows[lt.value];
    }
  }

  // ---------------------------------------------------------------------
  // The "needs rounding" decision (fix_icon_with_proper_ratio, lines 150-163)

  predicate CornersOpaque(g: Grid, size: nat)
    requires size >= 1 && |g| >= size && forall y :: 0 <= y < size ==> |g[y]| >= size
  {
    g[0][0] > 0 && g[0][size - 1] > 0 && g[size - 1][0] > 0 && g[size - 1][size - 1] > 0
  }

  function MaxInt(a: int, b: int): int { if a >= b then a else b }

  /** Largest content extent over the content side, 1.0 when there is no content. */
  function ContentRatio(g: Grid, content: nat): real
    requires content >= 1 && IsGrid(g, content, content)
  {
    BoxRatio(ContentBox(g, content), content)
  }

  /** The larger side of the box over the content side; 1.0 without a box. */
  function BoxRatio(box: Option<Box>, content: nat): real
    requires content >= 1
  {
    match box
    case None => 1.0
    case Some(b) => MaxInt(b.right - b.left, b.bottom - b.top) as real / content as real
  }

  lemma ContentRatioInRange(g: Grid, content: nat)
    requires content >= 1 && IsGrid(g, content, content)
    ensures 0.0 < ContentRatio(g, content) <= 1.0
  {
    var box := ContentBox(g, content);
    ContentBoxSpec(g, content);
    assert ContentRatio(g, content) == BoxRatio(box, content);
    BoxRatioInRange(box, content);
  }

  /** A box inside the `content` x `content` square spans at most all of it. */
  lemma BoxRatioInRange(box: Option<Box>, content: nat)
    requires content >= 1
    requires box.Some? ==>
      0 <= box.value.left < box.value.right <= content && 0 <= box.value.top < box.value.bottom <= content
    ensures 0.0 < BoxRatio(box, content) <= 1.0
  {
    match box
    case None =>
    case Some(b) =>
      var e := MaxInt(b.right - b.left, b.bottom - b.top);
      assert 0 < e <= content;
      RatioRange(e, content);
  }

  lemma RatioRange(e: int, c: nat)
    requires 0 < e <= c
    ensures 0.0 < e as real / c as real <= 1.0
  {
  }

  /** `need_round` for the resized alpha channel. A grid that is not
      `content` x `content` makes `getpixel` raise, and the `except` branch
      sets the flag. */
  function NeedRound(alpha: Grid, content: int): bool
  {
    if !(content >= 1 && IsGrid(alpha, content, content)) then true
    else CornersOpaque(alpha, content) || ContentRatio(alpha, content) >= 0.95
  }

  /** Whatever raises inside the check forces rounding. */
  lemma FailedCheckRounds(alpha: Grid, content: int)
    requires !(content >= 1 && IsGrid(alpha, content, content))
    ensures NeedRound(alpha, content)
  {
  }

  /** A source with no pixel above the threshold (fully or almost
      transparent) keeps the default ratio 1.0 and is rounded. */
  lemma TransparentSourceRounded(alpha: Grid, content: nat)
    requires content >= 1 && IsGrid(alpha, content, content)
    requires forall y, x :: 0 <= y < content && 0 <= x < content ==> alpha[y][x] <= ContentThreshold
    ensures NeedRound(alpha, content)
  {
    ContentBoxSpec(alpha, content);
  }

  /** Content reaching two opposite edges spans the whole side and is rounded. */
  lemma EdgeToEdgeContentRounded(alpha: Grid, content: nat, y1: nat, y2: nat)
    requires content >= 1 && IsGrid(alpha, content, content)
    requires y1 < content && y2 < content
    requires alpha[y1][0] > ContentThreshold && alpha[y2][content - 1] > ContentThreshold
    ensures NeedRound(alpha, content)
  {
    assert Opaque(alpha, 0, y1) && Opaque(alpha, content - 1, y2);
    assert RowHasContent(alpha, y1);
    ContentBoxSpec(alpha, content);
    var b := ContentBox(alpha, content).value;
    assert b.left == 0 && b.right == content;
    var e := MaxInt(b.right - b.left, b.bottom - b.top);
    assert e == content;
    assert ContentRatio(alpha, content) == e as real / content as real;
    SelfRatio(content);
  }

  lemma SelfRatio(c: nat)
    requires c >= 1
    ensures c as real / c as real == 1.0
  {
  }

  /** When no rounding is needed, some corner is fully transparent and all
      content fits in a square narrower than 95% of the side. */
  lemma NoRoundingMeansRoomAround(alpha: Grid, content: nat)
    requires content >= 1 && IsGrid(alpha, content, content)
    requires !NeedRound(alpha, content)
    ensures alpha[0][0] <= 0 || alpha[0][content - 1] <= 0
         || alpha[content - 1][0] <= 0 || alpha[content - 1][content - 1] <= 0
    ensures exists b: Box ::
      && (b.right - b.left) as real < 0.95 * content as real
      && (b.bottom - b.top) as real < 0.95 * content as real
      && Encloses(alpha, b)
  {
    ContentBoxSpec(alpha, content);
    var b := ContentBox(alpha, content).value;
    NarrowBox(alpha, content, b);
  }

  lemma NarrowBox(alpha: Grid, content: nat, b: Box)
    requires content >= 1 && IsGrid(alpha, content, content)
    requires ContentBox(alpha, content) == Some(b) && ContentRatio(alpha, content) < 0.95
    ensures (b.right - b.left) as real < 0.95 * content as real
    ensures (b.bottom - b.top) as real < 0.95 * content as real
  {
    var e := MaxInt(b.right - b.left, b.bottom - b.top);
    RatioBelow(e, content);
  }

  lemma RatioBelow(e: int, c: nat)
    requires c >= 1 && e as real / c as real < 0.95
    ensures (e as real) < 0.95 * c as real
  {
    var q := e as real / c as real;
    assert e as real == q * c as real;
    MulStrict(q, 0.95, c as real);
  }

  lemma MulStrict(a: real, b: real, c: real)
    requires a < b && c > 0.0
    ensures a * c < b * c
  {
    assert (b - a) * c > 0.0;
    assert (b - a) * c == b * c - a * c;
  }

  // ---------------------------------------------------------------------
  // Mask and compositing (lines 100-106 and 165-172)

  /** Corner radius of the rounded mask: `int(size * radius_ratio)`. */
  function MaskRadius(size: nat, radiusRatio: real): int
  {
    JsNum.Trunc(size as real * radiusRatio)
  }

  /** `_rounded_mask`: a `size` x `size` single-band mask that is 255 exactly
      where the rasteriser `inside` puts the pixel inside the rounded
      rectangle of the given radius, and 0 elsewhere. */
  function RoundedMask(size: nat, radiusRatio: real, inside: (nat, int, nat, nat) -> bool): (m: Grid)
    ensures IsGrid(m, size, size)
    ensures forall y, x :: 0 <= y < size && 0 <= x < size ==>
      (m[y][x] == 255 || m[y][x] == 0) && (m[y][x] == 255 <==> inside(size, MaskRadius(size, radiusRatio), x, y))
  {
    var r := MaskRadius(size, radiusRatio);
    seq(size, y requires 0 <= y < size => seq(size, x requires 0 <= x < size => if inside(size, r, x, y) then 255 else 0))
  }

  /** `ImageChops.multiply` on one pair of pixel values. */
  function MultiplyValue(a: int, m: int): int { a * m / 255 }

  /** Pixel-wise product of the source alpha with a 0/255 mask: never above
      the source alpha, zero where the mask is zero, and the source alpha
      itself where the mask is 255. */
  lemma MaskedAlpha(a: int, m: int)
    requires 0 <= a <= 255 && (m == 0 || m == 255)
    ensures 0 <= MultiplyValue(a, m) <= a
    ensures m == 0 ==> MultiplyValue(a, m) == 0
    ensures m == 255 ==> MultiplyValue(a, m) == a
  {
  }

  datatype Pixel = Pixel(r: int, g: int, b: int, a: int)

  /** Canvas background: nearly transparent white with `add_subtle_bg`, else fully transparent. */
  function Background(addSubtleBg: bool): Pixel
  {
    if addSubtleBg then Pixel(255, 255, 255, 3) else Pixel(0, 0, 0, 0)
  }

  /** PIL's paste through a mask value: 0 keeps the destination, 255 takes
      the source, anything between mixes the two bands in proportion and
      rounds to the nearest integer, as PIL's integer division by 255 does. */
  function BlendChannel(s: int, d: int, m: int): int
  {
    if m <= 0 then d else if m >= 255 then s else (s * m + d * (255 - m) + 127) / 255
  }

  /** A partial mask gives the band value nearest to the exact mix, and
      stays a band value. */
  lemma BlendChannelNearest(s: int, d: int, m: int)
    requires 0 <= s <= 255 && 0 <= d <= 255 && 0 < m < 255
    ensures var r, v := BlendChannel(s, d, m), s * m + d * (255 - m);
      255 * r - 127 <= v <= 255 * r + 127 && 0 <= r <= 255
  {
    var p, q := s * m, d * (255 - m);
    ScaledBand(s, m);
    ScaledBand(d, 255 - m);
    NearestOfMix(p + q);
  }

  lemma ScaledBand(c: int, k: int)
    requires 0 <= c <= 255 && 0 <= k
    ensures 0 <= c * k <= 255 * k
  {
  }

  lemma NearestOfMix(v: int)
    requires 0 <= v <= 255 * 255
    ensures var r := (v + 127) / 255; 255 * r - 127 <= v <= 255 * r + 127 && 0 <= r <= 255
  {
  }

  /** Source 1 over destination 0 at mask 128 blends to 1 (128/255 rounds up). */
  lemma BlendChannelRoundsUp()
    ensures BlendChannel(1, 0, 128) == 1
  {
  }

  function Blend(src: Pixel, dst: Pixel, m: int): Pixel
  {
    Pixel(BlendChannel(src.r, dst.r, m), BlendChannel(src.g, dst.g, m),
          BlendChannel(src.b, dst.b, m), BlendChannel(src.a, dst.a, m))
  }

  predicate IsPixelGrid(img: seq<seq<Pixel>>, w: nat, h: nat) {
    |img| == h && forall y :: 0 <= y < h ==> |img[y]| == w
  }

  function AlphaOf(img: seq<seq<Pixel>>): (g: Grid)
    ensures |g| == |img| && forall y :: 0 <= y < |img| ==> |g[y]| == |img[y]|
    ensures forall y, x :: 0 <= y < |img| && 0 <= x < |img[y]| ==> g[y][x] == img[y][x].a
  {
    seq(|img|, y requires 0 <= y < |img| => seq(|img[y]|, x requires 0 <= x < |img[y]| => img[y][x].a))
  }

  /** The mask used when pasting source pixel (x, y): the product of its
      alpha with the rounded mask when rounding applies, else its own alpha. */
  function PasteMask(img: seq<seq<Pixel>>, mask: Grid, rounded: bool, x: nat, y: nat): int
    requires y < |img| && x < |img[y]| && y < |mask| && x < |mask[y]|
  {
    if rounded then MultiplyValue(img[y][x].a, mask[y][x]) else img[y][x].a
  }

  /** Canvas pixel (i, j) after pasting the content square at the centre
      over the previous value `dst`. */
  function PastedAt(img: seq<seq<Pixel>>, mask: Grid, content: nat, rounded: bool, dst: Pixel, i: int, j: int): Pixel
    requires IsPixelGrid(img, content, content) && IsGrid(mask, content, content)
  {
    var o := Offset(content);
    if o <= i < o + content && o <= j < o + content then
      Blend(img[i - o][j - o], dst, PasteMask(img, mask, rounded, j - o, i - o))
    else dst
  }

  /** The finished canvas at row i, column j. */
  function CanvasAt(img: seq<seq<Pixel>>, mask: Grid, content: nat, rounded: bool, bg: Pixel, i: int, j: int): Pixel
    requires IsPixelGrid(img, content, content) && IsGrid(mask, content, content)
  {
    PastedAt(img, mask, content, rounded, bg, i, j)
  }

  /** Where the rounded mask is 0 the canvas keeps its background. */
  lemma MaskedOutKeepsBackground(img: seq<seq<Pixel>>, mask: Grid, content: nat, bg: Pixel, y: nat, x: nat)
    requires IsPixelGrid(img, content, content) && IsGrid(mask, content, content)
    requires y < content && x < content && mask[y][x] == 0
    requires 0 <= img[y][x].a <= 255
    ensures CanvasAt(img, mask, content, true, bg, Offset(content) + y, Offset(content) + x) == bg
  {
    MaskedAlpha(img[y][x].a, 0);
  }

  /** Inside the mask an opaque source pixel is copied unchanged. */
  lemma OpaqueInsideMaskCopied(img: seq<seq<Pixel>>, mask: Grid, content: nat, rounded: bool, bg: Pixel, y: nat, x: nat)
    requires IsPixelGrid(img, content, content) && IsGrid(mask, content, content)
    requires y < content && x < content && mask[y][x] == 255 && img[y][x].a == 255
    ensures CanvasAt(img, mask, content, rounded, bg, Offset(content) + y, Offset(content) + x) == img[y][x]
  {
    MaskedAlpha(255, 255);
  }

  /** Outside the content square the canvas is the background colour. */
  lemma OutsideContentIsBackground(img: seq<seq<Pixel>>, mask: Grid, content: nat, rounded: bool, bg: Pixel, i: int, j: int)
    requires IsPixelGrid(img, content, content) && IsGrid(mask, content, content)
    requires i < Offset(content) || i >= Offset(content) + content || j < Offset(content) || j >= Offset(content) + content
    ensures CanvasAt(img, mask, content, rounded, bg, i, j) == bg
  {
  }

  /** `canvas.paste(content, offset, mask)`: every canvas pixel covered by
      the content square (clipped to the canvas) is blended with its source
      pixel through the mask value; the rest of the canvas is untouched. */
  method Paste(canvas: array2<Pixel>, img: seq<seq<Pixel>>, mask: Grid, content: nat, rounded: bool)
    requires IsPixelGrid(img, content, content) && IsGrid(mask, content, content)
    modifies canvas
    ensures forall i, j :: 0 <= i < canvas.Length0 && 0 <= j < canvas.Length1 ==>
      canvas[i, j] == PastedAt(img, mask, content, rounded, old(canvas[i, j]), i, j)
  {
    var o := Offset(content);
    var i := 0;
    while i < canvas.Length0
      invariant 0 <= i <= canvas.Length0
      invariant forall a, b :: 0 <= a < i && 0 <= b < canvas.Length1 ==>
        canvas[a, b] == PastedAt(img, mask, content, rounded, old(canvas[a, b]), a, b)
      invariant forall a, b :: i <= a < canvas.Length0 && 0 <= b < canvas.Length1 ==> canvas[a, b] == old(canvas[a, b])
    {
      var j := 0;
      while j < canvas.Length1
        invariant 0 <= j <= canvas.Length1
        invariant forall a, b :: 0 <= a < i && 0 <= b < canvas.Length1 ==>
          canvas[a, b] == PastedAt(img, mask, content, rounded, old(canvas[a, b]), a, b)
        invariant forall b :: 0 <= b < j ==> canvas[i, b] == PastedAt(img, mask, content, rounded, old(canvas[i, b]), i, b)
        invariant forall a, b :: i <= a < canvas.Length0 && 0 <= b < canvas.Length1 && (a > i || b >= j) ==>
          canvas[a, b] == old(canvas[a, b])
      {
        if o <= i < o + content && o <= j < o + content {
          canvas[i, j] := Blend(img[i - o][j - o], canvas[i, j], PasteMask(img, mask, rounded, j - o, i - o));
        }
        j := j + 1;
      }
      i := i + 1;
    }
  }

  /** `fix_icon_with_proper_ratio` from the resampled content onwards: build
      the 1024 x 1024 canvas in the background colour, decide on rounding,
      and paste the content at the centre through the chosen mask. The
      resampled image is an input (`content` x `content` pixels, where
      `content = int(1024 * target_ratio)`); a non-positive content side
      makes the resampler fail. */
  method FixIcon(img: seq<seq<Pixel>>, targetRatio: real, addSubtleBg: bool, autoRound: bool,
                 cornerRadiusRatio: real, inside: (nat, int, nat, nat) -> bool)
    returns (r: Result<array2<Pixel>, string>, rounded: bool)
    requires ContentSide(targetRatio) >= 1 ==> IsPixelGrid(img, ContentSide(targetRatio), ContentSide(targetRatio))
    ensures ContentSide(targetRatio) < 1 <==> r.Err?
    ensures r.Ok? ==>
      var content := ContentSide(targetRatio);
      && rounded == (autoRound && NeedRound(AlphaOf(img), content))
      && fresh(r.value) && r.value.Length0 == Base && r.value.Length1 == Base
      && forall i, j :: 0 <= i < Base && 0 <= j < Base ==>
           r.value[i, j] == CanvasAt(img, RoundedMask(content, cornerRadiusRatio, inside), content, rounded,
                                     Background(addSubtleBg), i, j)
  {
    var content := ContentSide(targetRatio);
    if content < 1 {
      return Err("resampling to an empty size failed"), false;
    }
    var bg := Background(addSubtleBg);
    var canvas := new Pixel[Base, Base]((i, j) => bg);
    rounded := autoRound && NeedRound(AlphaOf(img), content);
    var mask := RoundedMask(content, cornerRadiusRatio, inside);
    Paste(canvas, img, mask, content, rounded);
    r := Ok(canvas);
  }

  // ---------------------------------------------------------------------
  // Transparency diagnosis (_analyze_transparency, lines 12-47)

  datatype Diagnosis =
    | NoAlphaChannel
    | DiagnosisFailed
    | NoContent
    | Report(squareCorners: bool, ratio: real, largeContent: bool)

  /** The diagnosis of a `w` x `h` image: its side is taken from the width,
      the corners are read at (0,0), (side-1,0), (0,side-1), (side-1,side-1),
      and a read outside the image raises and reports a failure. */
  function AnalyzeTransparency(alpha: Option<Grid>, w: nat, h: nat): (d: Diagnosis)
    requires alpha.Some? ==> IsGrid(alpha.value, w, h)
    ensures alpha.None? <==> d.NoAlphaChannel?
    ensures alpha.Some? && (w == 0 || h < w) ==> d.DiagnosisFailed?
    ensures d.Report? ==> d.largeContent == (d.ratio >= 0.90)
  {
    match alpha
    case None => NoAlphaChannel
    case Some(g) =>
      if w == 0 || h < w then DiagnosisFailed
      else
        BoxDiagnosis(CornersOpaque(g, w), ContentBox(g, w), w)
  }

  /** The report on a found content box, or `NoContent` without one. */
  function BoxDiagnosis(corners: bool, box: Option<Box>, w: nat): (d: Diagnosis)
    requires w >= 1
    ensures d.Report? ==> d.largeContent == (d.ratio >= 0.90)
  {
    match box
    case None => NoContent
    case Some(b) =>
      var ratio := BoxRatio(box, w);
      Report(corners, ratio, ratio >= 0.90)
  }

  /** On a square content grid the diagnosis and the rounding decision read
      the same corners and the same ratio: rounding is needed exactly when
      the diagnosis warns about square corners or the ratio reaches 0.95, and
      such a ratio also raises the large-content hint. */
  lemma DiagnosisAgreesWithNeedRound(alpha: Grid, content: nat)
    requires content >= 1 && IsGrid(alpha, content, content)
    ensures var d := AnalyzeTransparency(Some(alpha), content, content);
      && (d.NoContent? ==> NeedRound(alpha, content))
      && (d.Report? ==> (NeedRound(alpha, content) <==> d.squareCorners || d.ratio >= 0.95))
      && (d.Report? && d.ratio >= 0.95 ==> d.largeContent)
  {
    var box := ContentBox(alpha, content);
    assert AnalyzeTransparency(Some(alpha), content, content) == BoxDiagnosis(CornersOpaque(alpha, content), box, content);
    assert ContentRatio(alpha, content) == BoxRatio(box, content);
  }
}
