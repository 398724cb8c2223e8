/** The download manager of the legacy editor: the menu, the capture with
    the chrome hidden and put back, the PNG, JPEG and single-page PDF
    files, and the download counters kept in local storage. Capturing the
    page is outside the model: whether the container was found and the
    canvas size are parameters, as are the clock and the presence of the
    PDF library. */
module LegacyDownload {
  import opened Wrappers
  import opened Text
  import opened JsNum
  import opened JsValue
  import opened PageCapture

  /** The elements hidden during the capture, and restored after it. */
  const Chrome: seq<string> := [".top-toolbar", ".left-config-panel", ".image-preview"]

  /** `config.appName || 'APP'` for a text field. */
  function AppNameOr(appName: string): (r: string)
    ensures r != []
    ensures appName != [] ==> r == appName
  {
    if appName == [] then "APP" else appName
  }

  /** `${appName}-宣发页面-${timestamp}.${ext}`. */
  function FileName(appName: string, timestamp: string, ext: string): string {
    appName + "-宣发页面-" + timestamp + "." + ext
  }

  datatype Orientation = Landscape | Portrait

  /** A file handed to the browser: an image with its media type, or a
      one-page PDF with the size of the image on it, in millimetres. */
  datatype Download =
    | Image(fileName: string, mime: string)
    | Document(fileName: string, orientation: Orientation, width: real, height: real)

  /** `downloadPDF`'s sizing: a wide canvas fills the 297 mm width of a
      landscape page, any other gets a height of 210 mm on a portrait
      page. */
  function PdfSize(canvasWidth: nat, canvasHeight: nat): (r: (Orientation, real, real))
    requires canvasWidth > 0 && canvasHeight > 0
  {
    var ratio := canvasWidth as real / canvasHeight as real;
    if ratio > 1.0 then (Landscape, 297.0, 297.0 / ratio)
    else (Portrait, 210.0 * ratio, 210.0)
  }

  lemma MulAtMost(x: real, p: real, q: real)
    requires x > 0.0 && p <= q
    ensures x * p <= x * q
  {
  }

  lemma RatioFacts(w: real, h: real)
    requires w > 0.0 && h > 0.0
    ensures (w / h) * h == w
    ensures w / h > 1.0 <==> w > h
  {
    var q := w / h;
    assert q * h == w;
    if q > 1.0 {
      MulAtMost(h, 1.0, q);
      assert h * q != h * 1.0;
    } else {
      MulAtMost(h, q, 1.0);
    }
  }

  lemma DivRatio(c: real, q: real)
    requires q > 1.0 && c > 0.0
    ensures (c / q) * q == c && c / q < c
  {
    var r := c / q;
    assert r * q == c;
    assert r > 0.0;
    MulAtMost(r, 1.0, q);
    assert r * 1.0 != r * q;
  }

  /** Either way the image keeps the canvas's proportions; a wide canvas is
      297 mm wide and less high, any other 210 mm high and at most as
      wide. */
  lemma PdfSizeShape(canvasWidth: nat, canvasHeight: nat)
    requires canvasWidth > 0 && canvasHeight > 0
    ensures var (o, w, h) := PdfSize(canvasWidth, canvasHeight);
      w * canvasHeight as real == h * canvasWidth as real &&
      (o == Landscape <==> canvasWidth > canvasHeight) &&
      (o == Landscape ==> w == 297.0 && 0.0 < h < 297.0) &&
      (o == Portrait ==> h == 210.0 && 0.0 < w <= 210.0)
  {
    var cw, ch := canvasWidth as real, canvasHeight as real;
    var ratio := cw / ch;
    RatioFacts(cw, ch);
    if ratio > 1.0 {
      DivRatio(297.0, ratio);
      assert (297.0 / ratio) * cw == (297.0 / ratio) * (ratio * ch);
    } else {
      assert 210.0 * ratio * ch == 210.0 * cw;
    }
  }

  /** `processDownload` with `downloadPNG`, `downloadJPG` and
      `downloadPDF`: the three formats give their file; any other format,
      or a PDF without the PDF library, is an error. */
  function ProcessDownload(format: string, canvasWidth: nat, canvasHeight: nat, appName: string,
                           timestamp: string, pdfLoaded: bool): (r: Result<Download, string>)
    requires format == "pdf" && pdfLoaded ==> canvasWidth > 0 && canvasHeight > 0
    ensures r.Ok? <==> format == "png" || format == "jpg" || (format == "pdf" && pdfLoaded)
  {
    if format == "png" then Ok(Image(FileName(appName, timestamp, "png"), "image/png"))
    else if format == "jpg" then Ok(Image(FileName(appName, timestamp, "jpg"), "image/jpeg"))
    else if format == "pdf" then
      if !pdfLoaded then Err("PDF库未加载")
      else
        var (o, w, h) := PdfSize(canvasWidth, canvasHeight);
        Ok(Document(FileName(appName, timestamp, "pdf"), o, w, h))
    else Err("不支持的格式")
  }

  /** Each format's file is named after the app and the time, with its own
      extension. */
  lemma ProcessDownloadNames(canvasWidth: nat, canvasHeight: nat, appName: string, timestamp: string)
    requires canvasWidth > 0 && canvasHeight > 0
    ensures ProcessDownload("png", canvasWidth, canvasHeight, appName, timestamp, false).value.fileName ==
      appName + "-宣发页面-" + timestamp + ".png"
    ensures ProcessDownload("jpg", canvasWidth, canvasHeight, appName, timestamp, false).value.fileName ==
      appName + "-宣发页面-" + timestamp + ".jpg"
    ensures var d := ProcessDownload("pdf", canvasWidth, canvasHeight, appName, timestamp, true).value;
      d.Document? && d.fileName == appName + "-宣发页面-" + timestamp + ".pdf" &&
      (d.orientation, d.width, d.height) == PdfSize(canvasWidth, canvasHeight)
  {
  }

  /** The elements of `selectors` on the page, each with its display before
      the capture, in order. */
  function HiddenOf(display: map<string, string>, selectors: seq<string>): (r: seq<(string, string)>)
    ensures forall e :: e in r ==> e.0 in selectors && e.0 in display && e.1 == display[e.0]
  {
    if selectors == [] then []
    else
      var head := if selectors[0] in display then [(selectors[0], display[selectors[0]])] else [];
      head + HiddenOf(display, selectors[1..])
  }

  /** Putting the recorded displays back, first to last. */
  function Restore(display: map<string, string>, hidden: seq<(string, string)>): map<string, string>
    decreases |hidden|
  {
    if hidden == [] then display else Restore(display[hidden[0].0 := hidden[0].1], hidden[1..])
  }

  predicate Distinct(xs: seq<string>) {
    forall i, j :: 0 <= i < j < |xs| ==> xs[i] != xs[j]
  }

  /** One step of the hiding loop: the `i`-th element has not been touched
      yet, and recording it (when it is on the page) keeps the record a
      prefix of the full one. */
  lemma HideStep(before: map<string, string>, selectors: seq<string>, i: nat, hidden: seq<(string, string)>)
    requires i < |selectors| && Distinct(selectors)
    requires hidden + HiddenOf(before, selectors[i..]) == HiddenOf(before, selectors)
    ensures var display := WithDisplay(before, selectors[..i], "none");
      var s := selectors[i];
      var rest := HiddenOf(before, selectors[i + 1..]);
      (s in display <==> s in before) &&
      (s in display ==> display[s] == before[s] && (hidden + [(s, before[s])]) + rest == HiddenOf(before, selectors)) &&
      (s !in display ==> hidden + rest == HiddenOf(before, selectors))
  {
    var s := selectors[i];
    var rest := HiddenOf(before, selectors[i + 1..]);
    assert selectors[i..] == [s] + selectors[i + 1..];
    assert s !in selectors[..i];
    if s in before {
      assert HiddenOf(before, selectors[i..]) == [(s, before[s])] + rest;
      ConcatAssoc(hidden, [(s, before[s])], rest);
    } else {
      assert HiddenOf(before, selectors[i..]) == rest;
    }
  }

  /** Restoring the recorded displays onto a page that differs from the
      original only on the recorded elements gives the original page. */
  lemma {:induction false} RestoreRecorded(display: map<string, string>, selectors: seq<string>, page: map<string, string>)
    requires Distinct(selectors)
    requires page.Keys == display.Keys
    requires forall k :: k in display && k !in selectors ==> page[k] == display[k]
    ensures Restore(page, HiddenOf(display, selectors)) == display
  {
    if selectors == [] {
      assert page == display;
    } else {
      var s, rest := selectors[0], selectors[1..];
      assert Distinct(rest);
      var tail := HiddenOf(display, rest);
      if s in display {
        var hidden := HiddenOf(display, selectors);
        assert hidden == [(s, display[s])] + tail;
        assert hidden[0] == (s, display[s]) && hidden[1..] == tail;
        RestoreRecorded(display, rest, page[s := display[s]]);
      } else {
        assert HiddenOf(display, selectors) == tail;
        RestoreRecorded(display, rest, page);
      }
    }
  }

  /** Restoring the recorded displays undoes the hiding: the page is as it
      was before the capture. */
  lemma RestoreUndoesHide(display: map<string, string>, selectors: seq<string>, value: string)
    requires Distinct(selectors)
    ensures Restore(WithDisplay(display, selectors, value), HiddenOf(display, selectors)) == display
  {
    RestoreRecorded(display, selectors, WithDisplay(display, selectors, value));
  }

  /** The three chrome selectors differ. */
  lemma ChromeDistinct()
    ensures Distinct(Chrome)
  {
  }

  /** The download counters' keys in local storage. */
  const CountKey: string := "download_count"
  const LastKey: string := "last_download"
  const FormatKey: string := "last_download_format"

  /** `localStorage.getItem(key) || fallback` for a text fallback. */
  function ItemOr(storage: map<string, string>, key: string, fallback: string): string {
    if key in storage && storage[key] != [] then storage[key] else fallback
  }

  /** The count `updateDownloadStats` stores: the stored count read with
      `parseInt` (missing counts as 0) plus one, or `NaN`. */
  function NextCount(storage: map<string, string>): string {
    match ParseInt(ItemOr(storage, CountKey, "0"))
    case None => "NaN"
    case Some(c) => IntText(c + 1)
  }

  /** `getDownloadStats()`: the stored count as text, or the number 0; the
      time of the last download, or `null`. */
  function DownloadStats(storage: map<string, string>): (r: (Value, Value))
    ensures r.0 == Number(0.0) <==> !(CountKey in storage && storage[CountKey] != [])
    ensures r.1 == Null <==> !(LastKey in storage && storage[LastKey] != [])
  {
    (if CountKey in storage && storage[CountKey] != [] then Str(storage[CountKey]) else Number(0.0),
     if LastKey in storage && storage[LastKey] != [] then Str(storage[LastKey]) else Null)
  }

  /** Each download stored after `n` others records `n + 1`; the first one,
      with nothing stored, records 1. */
  lemma NextCountCounts(storage: map<string, string>, n: nat)
    ensures CountKey !in storage ==> NextCount(storage) == "1"
    ensures CountKey in storage && storage[CountKey] == NatToString(n) ==> NextCount(storage) == NatToString(n + 1)
  {
    if CountKey !in storage {
      assert ItemOr(storage, CountKey, "0") == NatToString(0);
      ParseIntOfNatToString(0);
      assert IntText(1) == NatToString(1) == "1";
    } else if storage[CountKey] == NatToString(n) {
      assert ItemOr(storage, CountKey, "0") == NatToString(n);
      ParseIntOfNatToString(n);
      assert IntText(n + 1) == NatToString(n + 1);
    }
  }

  /** After the counters are cleared the stats report 0 downloads and no
      last download. */
  lemma StatsAfterClear(storage: map<string, string>)
    ensures DownloadStats(storage - {CountKey, LastKey, FormatKey}) == (Number(0.0), Null)
  {
  }

  class DownloadManager {
    /** Whether the page has the download dropdown and its menu. */
    const hasMenu: bool
    /** The dropdown's `active` and the menu's `show` class, which always
        change together. */
    var menuOpen: bool
    var display: map<string, string>
    var storage: map<string, string>
    var downloads: seq<Download>
    var errors: seq<string>

    constructor(hasMenu: bool, display: map<string, string>, storage: map<string, string>)
      ensures this.hasMenu == hasMenu && this.display == display && this.storage == storage
      ensures !menuOpen && downloads == [] && errors == []
    {
      this.hasMenu := hasMenu;
      this.display := display;
      this.storage := storage;
      menuOpen := false;
      downloads := [];
      errors := [];
    }

    /** `toggleDownloadMenu()`. */
    method ToggleDownloadMenu()
      modifies this`menuOpen
      ensures menuOpen == (if hasMenu then !old(menuOpen) else old(menuOpen))
    {
      if hasMenu {
        menuOpen := !menuOpen;
      }
    }

    /** A click outside the dropdown closes the menu. */
    method ClickOutside()
      modifies this`menuOpen
      ensures !menuOpen || (menuOpen == old(menuOpen) && !hasMenu)
    {
      if hasMenu {
        menuOpen := false;
      }
    }

    /** The hiding step: every listed element on the page is recorded with
        its display and hidden. */
    method HideAll(selectors: seq<string>) returns (hidden: seq<(string, string)>)
      requires Distinct(selectors)
      modifies this`display
      ensures hidden == HiddenOf(old(display), selectors)
      ensures display == WithDisplay(old(display), selectors, "none")
    {
      var before := display;
      var page := display;
      hidden := [];
      var i := 0;
      while i < |selectors|
        invariant 0 <= i <= |selectors|
        invariant hidden + HiddenOf(before, selectors[i..]) == HiddenOf(before, selectors)
        invariant page == WithDisplay(before, selectors[..i], "none")
      {
        var selector := selectors[i];
        HideStep(before, selectors, i, hidden);
        WithDisplayStep(before, selectors, i, "none");
        if selector in page {
          hidden := hidden + [(selector, page[selector])];
          page := page[selector := "none"];
        }
        i := i + 1;
      }
      assert selectors[..i] == selectors;
      assert selectors[i..] == [];
      display := page;
    }

    /** `element.style.display = originalDisplay || ''` for each recorded
        element, in order. */
    method RestoreOriginals(hidden: seq<(string, string)>)
      modifies this`display
      ensures display == Restore(old(display), hidden)
    {
      var i := 0;
      while i < |hidden|
        invariant 0 <= i <= |hidden|
        invariant Restore(display, hidden[i..]) == Restore(old(display), hidden)
      {
        assert hidden[i..] == [hidden[i]] + hidden[i + 1..];
        display := display[hidden[i].0 := if hidden[i].1 != [] then hidden[i].1 else ""];
        i := i + 1;
      }
    }

    /** `downloadAs(format)`: the menu closes, the chrome is hidden, the
        page is captured and the file saved, and the chrome gets its own
        display back. On any error the message is shown and the chrome is
        given the empty display instead. */
    method DownloadAs(format: string, containerFound: bool, canvasWidth: nat, canvasHeight: nat,
                      iso: string, appName: string, pdfLoaded: bool)
      requires format == "pdf" && pdfLoaded ==> canvasWidth > 0 && canvasHeight > 0
      modifies this`menuOpen, this`display, this`downloads, this`errors
      ensures !menuOpen || (menuOpen == old(menuOpen) && !hasMenu)
      ensures var r := ProcessDownload(format, canvasWidth, canvasHeight, AppNameOr(appName), Stamp(iso), pdfLoaded);
        if containerFound && r.Ok? then
          downloads == old(downloads) + [r.value] && errors == old(errors) && display == old(display)
        else
          downloads == old(downloads) && errors == old(errors) + ["下载失败，请稍后重试"] &&
          display == WithDisplay(old(display), Chrome, "")
    {
      ghost var before := display;
      ClickOutside();
      ChromeDistinct();
      var hidden := HideAll(Chrome);
      var r := Err("找不到容器元素");
      if containerFound {
        r := ProcessDownload(format, canvasWidth, canvasHeight, AppNameOr(appName), Stamp(iso), pdfLoaded);
      }
      if r.Ok? {
        downloads := downloads + [r.value];
        RestoreOriginals(hidden);
        RestoreUndoesHide(before, Chrome, "none");
      } else {
        errors := errors + ["下载失败，请稍后重试"];
        display := ApplyDisplay(display, Chrome, "");
        WithDisplayTwice(before, Chrome, "none", "");
      }
    }

    /** `updateDownloadStats(format)` at the ISO time `now`. */
    method UpdateDownloadStats(format: string, now: string)
      modifies this`storage
      ensures storage == old(storage)[CountKey := NextCount(old(storage))][LastKey := now][FormatKey := format]
    {
      var count := NextCount(storage);
      storage := storage[CountKey := count];
      storage := storage[LastKey := now];
      storage := storage[FormatKey := format];
    }

    /** `clearDownloadCache()`. */
    method ClearDownloadCache()
      modifies this`storage
      ensures storage == old(storage) - {CountKey, LastKey, FormatKey}
    {
      storage := storage - {CountKey, LastKey, FormatKey};
    }
  }
}
