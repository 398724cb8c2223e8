/** The download action of the editor: the menu closes, the editing
    chrome is hidden, the page is captured and saved as PNG, JPEG or a
    paginated PDF, and the chrome is shown again. Capturing the page is
    outside the model: whether the container was found and the captured
    canvas's size are parameters. */
module DownloadHook {
  import opened Wrappers
  import opened JsValue
  import opened Text
  import opened PageCapture
  import AppState

  /** The elements hidden before the capture. */
  const HiddenSelectors: seq<string> :=
    [".top-toolbar", ".left-config-panel", ".config-panel", ".image-preview", ".download-menu"]
  /** The elements shown again afterwards: only the first two. */
  const ShownSelectors: seq<string> := [".top-toolbar", ".left-config-panel"]

  /** The base name of a download: `app-announcement-` and the time. */
  function BaseName(iso: string): string {
    "app-announcement-" + Stamp(iso)
  }

  /** A download's file name has no colon: the prefix, the time and the
      format's extension are all free of it. */
  lemma FileNameShape(iso: string, ext: string)
    requires ':' !in ext
    ensures ':' !in BaseName(iso) + "." + ext
  {
    StampShape(iso);
    assert ':' !in "app-announcement-";
    assert BaseName(iso) + "." + ext == "app-announcement-" + (Stamp(iso) + ("." + ext));
  }

  /** The page width of the PDF image and the page height used to cut it. */
  const ImageWidth: real := 210.0
  const PageHeight: real := 295.0

  /** The height of the image on the PDF: the canvas scaled to 210 wide. */
  function ImageHeight(canvasWidth: nat, canvasHeight: nat): (h: real)
    requires canvasWidth > 0
    ensures h >= 0.0
    ensures h * canvasWidth as real == canvasHeight as real * ImageWidth
  {
    (canvasHeight as real * ImageWidth) / canvasWidth as real
  }

  /** The pages the loop adds while the height left is not negative. */
  function ExtraPages(left: real): nat
    decreases if left < 0.0 then 0 else left.Floor + 1
  {
    if left < 0.0 then 0 else 1 + ExtraPages(left - PageHeight)
  }

  /** The pages of the PDF for an image of height `h`. */
  function PageCount(h: real): nat {
    1 + ExtraPages(h - PageHeight)
  }

  /** Where the image's top sits on each of `n` pages: 0, -295, -590, ... */
  function Positions(n: nat): (r: seq<real>)
    ensures |r| == n
    ensures forall k :: 0 <= k < n ==> r[k] == -PageHeight * k as real
  {
    seq(n, k => -PageHeight * k as real)
  }

  lemma {:induction false} ExtraPagesFloor(left: real)
    requires left >= 0.0
    ensures ExtraPages(left) == 1 + (left / PageHeight).Floor
  {
    if left >= PageHeight {
      ExtraPagesFloor(left - PageHeight);
      assert (left - PageHeight) / PageHeight == left / PageHeight - 1.0;
    }
  }

  /** The image of height `h` takes `1 + floor(h / 295)` pages, so an image
      exactly `k` pages high gets a page more. */
  lemma PageCountFloor(h: real)
    requires h >= 0.0
    ensures PageCount(h) == 1 + (h / PageHeight).Floor
  {
    if h >= PageHeight {
      ExtraPagesFloor(h - PageHeight);
      assert (h - PageHeight) / PageHeight == h / PageHeight - 1.0;
    }
  }

  /** An image exactly `k >= 1` pages high gets `k + 1` pages, and on the
      last one the image ends at the top edge: that page is blank. */
  lemma ExactHeightBlankPage(k: nat)
    requires k >= 1
    ensures var h := PageHeight * k as real;
      PageCount(h) == k + 1 && Positions(k + 1)[k] + h == 0.0
  {
    var h := PageHeight * k as real;
    PageCountFloor(h);
    assert h / PageHeight == k as real;
  }

  /** The pages the image needs when a page is added only while some of
      the image is left to show, that is with `heightLeft > 0` as the loop
      condition. */
  function PagesNeeded(h: real): nat
    decreases if h <= PageHeight then 0 else h.Floor
  {
    if h <= PageHeight then 1 else 1 + PagesNeeded(h - PageHeight)
  }

  /** With that condition every page shows part of a non-empty image and
      the pages together hold all of it. */
  lemma {:induction false} PagesNeededCover(h: real)
    requires h > 0.0
    ensures var n := PagesNeeded(h);
      n >= 1 && PageHeight * (n - 1) as real < h <= PageHeight * n as real &&
      forall k :: 0 <= k < n ==> Positions(n)[k] + h > 0.0
  {
    var n := PagesNeeded(h);
    if h > PageHeight {
      PagesNeededCover(h - PageHeight);
    }
    forall k | 0 <= k < n
      ensures Positions(n)[k] + h > 0.0
    {
      assert PageHeight * k as real <= PageHeight * (n - 1) as real;
    }
  }

  /** A 420 by 590 canvas gives an image exactly one page high: the loop
      adds a second, blank page, where a single page is enough. */
  lemma OnePageImageGetsTwoPages()
    ensures ImageHeight(420, 590) == PageHeight
    ensures PageCount(ImageHeight(420, 590)) == 2 && PagesNeeded(ImageHeight(420, 590)) == 1
  {
    ExactHeightBlankPage(1);
  }

  /** The PDF being written: its page count and, in order, the vertical
      position of every image placed on it. */
  class Pdf {
    var pages: nat
    var images: seq<real>

    /** `new jsPDF()` starts with one empty page. */
    constructor()
      ensures pages == 1 && images == []
    {
      pages := 1;
      images := [];
    }

    method AddPage()
      modifies this
      ensures pages == old(pages) + 1 && images == old(images)
    {
      pages := pages + 1;
    }

    /** `addImage(imgData, 'JPEG', 0, position, ...)` on the current page. */
    method AddImage(position: real)
      modifies this
      ensures images == old(images) + [position] && pages == old(pages)
    {
      images := images + [position];
    }
  }

  /** The PDF branch of `downloadAs`: the image goes on the first page at
      the top, then a page is added, with the image moved up by one page
      height, while the height left is not negative. */
  method WritePdf(pdf: Pdf, imgHeight: real)
    requires imgHeight >= 0.0
    modifies pdf
    ensures pdf.images == old(pdf.images) + Positions(PageCount(imgHeight))
    ensures pdf.pages == old(pdf.pages) + PageCount(imgHeight) - 1
  {
    var heightLeft := imgHeight;
    var position := 0.0;
    pdf.AddImage(position);
    heightLeft := heightLeft - PageHeight;
    ghost var added: nat := 1;
    while heightLeft >= 0.0
      invariant heightLeft == imgHeight - PageHeight * added as real
      invariant added + ExtraPages(heightLeft) == PageCount(imgHeight)
      invariant pdf.images == old(pdf.images) + Positions(added)
      invariant pdf.pages == old(pdf.pages) + added - 1
      decreases if heightLeft < 0.0 then 0 else heightLeft.Floor + 1
    {
      position := heightLeft - imgHeight;
      pdf.AddPage();
      pdf.AddImage(position);
      assert Positions(added) + [position] == Positions(added + 1);
      heightLeft := heightLeft - PageHeight;
      added := added + 1;
    }
  }

  /** A file handed to the browser: an image with its media type, or a PDF
      with the image positions of its pages. */
  datatype Download =
    | Image(fileName: string, mime: string)
    | Document(fileName: string, positions: seq<real>)

  /** The formats `downloadAs` knows. */
  datatype Format = Png | Jpg | Pdf | OtherFormat

  function FormatOf(format: string): Format {
    if format == "png" then Png
    else if format == "jpg" then Jpg
    else if format == "pdf" then Pdf
    else OtherFormat
  }

  /** The file saved for a captured canvas, if the format is known. */
  function Saved(f: Format, iso: string, canvasWidth: nat, canvasHeight: nat): seq<Download>
    requires f == Pdf ==> canvasWidth > 0
  {
    match f
    case Png => [Image(BaseName(iso) + ".png", "image/png")]
    case Jpg => [Image(BaseName(iso) + ".jpg", "image/jpeg")]
    case Pdf => [Document(BaseName(iso) + ".pdf", Positions(PageCount(ImageHeight(canvasWidth, canvasHeight))))]
    case OtherFormat => []
  }

  class DownloadPage {
    /** The editor's state, which holds the download menu flag. */
    var app: AppState.State
    /** The inline `display` of the page elements the action touches. */
    var display: map<string, string>
    var downloads: seq<Download>
    var alerts: seq<string>

    constructor(app: AppState.State, display: map<string, string>)
      ensures this.app == app && this.display == display && downloads == [] && alerts == []
    {
      this.app := app;
      this.display := display;
      downloads := [];
      alerts := [];
    }

    /** `hideUIElements` and `showUIElements`: each listed element on the
        page gets the display value. */
    method SetDisplay(selectors: seq<string>, value: string)
      modifies this`display
      ensures display == WithDisplay(old(display), selectors, value)
    {
      display := ApplyDisplay(display, selectors, value);
    }

    /** `downloadAs(format)`: the menu flag is toggled, the chrome hidden,
        the page captured and saved under the format's extension; whatever
        happens, the toolbar and the left panel are shown again. A missing
        container raises an alert; an unknown format saves nothing. */
    method DownloadAs(format: string, containerFound: bool, canvasWidth: nat, canvasHeight: nat, iso: string)
      requires format == "pdf" && containerFound ==> canvasWidth > 0
      modifies this
      ensures app == AppState.Step(old(app), AppState.ToggleDownloadMenu, Undefined).value
      ensures display == WithDisplay(WithDisplay(old(display), HiddenSelectors, "none"), ShownSelectors, "")
      ensures !containerFound ==> downloads == old(downloads) && alerts == old(alerts) + ["下载失败，请重试"]
      ensures containerFound ==>
        alerts == old(alerts) && downloads == old(downloads) + Saved(FormatOf(format), iso, canvasWidth, canvasHeight)
    {
      app := AppState.Step(app, AppState.ToggleDownloadMenu, Undefined).value;
      SetDisplay(HiddenSelectors, "none");
      ghost var hidden := display;
      var f := FormatOf(format);
      if !containerFound {
        alerts := alerts + ["下载失败，请重试"];
      } else if f == Pdf {
        var pdf := new Pdf();
        WritePdf(pdf, ImageHeight(canvasWidth, canvasHeight));
        assert pdf.images == Positions(PageCount(ImageHeight(canvasWidth, canvasHeight)));
        downloads := downloads + [Document(BaseName(iso) + ".pdf", pdf.images)];
        SetDisplay(ShownSelectors, "");
      } else {
        downloads := downloads + Saved(f, iso, canvasWidth, canvasHeight);
      }
      SetDisplay(ShownSelectors, "");
      ShowTwice(hidden);
    }
  }

  /** The saved file's name carries the format's extension and PNG and
      JPEG carry their media types. */
  lemma SavedNames(iso: string, canvasWidth: nat, canvasHeight: nat)
    requires canvasWidth > 0
    ensures Saved(FormatOf("png"), iso, canvasWidth, canvasHeight) == [Image(BaseName(iso) + ".png", "image/png")]
    ensures Saved(FormatOf("jpg"), iso, canvasWidth, canvasHeight) == [Image(BaseName(iso) + ".jpg", "image/jpeg")]
    ensures var d := Saved(FormatOf("pdf"), iso, canvasWidth, canvasHeight);
      |d| == 1 && d[0].Document? && d[0].fileName == BaseName(iso) + ".pdf" &&
      |d[0].positions| == 1 + (ImageHeight(canvasWidth, canvasHeight) / PageHeight).Floor && d[0].positions[0] == 0.0
    ensures forall other :: other != "png" && other != "jpg" && other != "pdf" ==>
      Saved(FormatOf(other), iso, canvasWidth, canvasHeight) == []
  {
    PageCountFloor(ImageHeight(canvasWidth, canvasHeight));
  }

  /** Showing the two elements a second time changes nothing, so the PDF
      branch's extra call is harmless. */
  lemma ShowTwice(display: map<string, string>)
    ensures WithDisplay(WithDisplay(display, ShownSelectors, ""), ShownSelectors, "") ==
            WithDisplay(display, ShownSelectors, "")
  {
  }

  /** After a download the toolbar and the left panel are visible again,
      while the right panel, the image preview and the menu stay hidden. */
  lemma RestoredChrome(display: map<string, string>, key: string)
    requires key in display
    ensures var r := WithDisplay(WithDisplay(display, HiddenSelectors, "none"), ShownSelectors, "");
      (key in ShownSelectors ==> r[key] == "") &&
      (key in HiddenSelectors && key !in ShownSelectors ==> r[key] == "none") &&
      (key !in HiddenSelectors ==> r[key] == display[key])
  {
  }
}
