/** The desktop project store: a list of projects in `projects.json`, the
    project being edited in `current-project.json`, and screen images as
    files of their own, named after the project. Outside the desktop shell
    the store never initialises and every read returns nothing and every
    write is skipped. Files are modelled by their parsed contents: the
    JSON text, the directory paths and the Tauri file calls are not. */
module ProjectStore {
  import opened Wrappers
  import opened JsValue
  import opened Text
  import opened Base64
  import AppState

  /** The image directory: file name to the bytes of the file. */
  type ImageDir = map<string, seq<Byte>>

  // ---------------------------------------------------------------------
  // Image payloads

  /** The index of the first `c` in `s`. */
  function IndexOf(s: string, c: char): (r: Option<nat>)
    ensures r.None? <==> c !in s
    ensures r.Some? ==> r.value < |s| && s[r.value] == c && forall k :: 0 <= k < r.value ==> s[k] != c
  {
    if s == [] then None
    else if s[0] == c then Some(0)
    else
      match IndexOf(s[1..], c)
      case None => None
      case Some(i) => Some(i + 1)
  }

  /** `s.split(',')[1]`: the text between the first comma and the next one
      (or the end), `undefined` when there is no comma. */
  function SecondField(s: string): (r: Option<string>)
    ensures r.None? <==> ',' !in s
  {
    match IndexOf(s, ',')
    case None => None
    case Some(i) =>
      var rest := s[i + 1..];
      match IndexOf(rest, ',')
      case None => Some(rest)
      case Some(j) => Some(rest[..j])
  }

  /** A data URL's payload is what follows its header's comma. */
  lemma SecondFieldOfDataUrl(header: string, payload: string)
    requires ',' !in header && ',' !in payload
    ensures SecondField(header + "," + payload) == Some(payload)
  {
    var s := header + "," + payload;
    var i := IndexOf(s, ',').value;
    assert s[|header|] == ',';
    assert i == |header|;
    assert s[i + 1..] == payload;
  }

  /** The white space `atob` skips. */
  predicate IsAsciiWhitespace(c: char) {
    c == ' ' || c == '\t' || c == '\n' || c == 12 as char || c == '\r'
  }

  function RemoveWhitespace(s: string): (r: string)
    ensures |r| <= |s|
    ensures forall i :: 0 <= i < |r| ==> !IsAsciiWhitespace(r[i])
  {
    if s == [] then []
    else (if IsAsciiWhitespace(s[0]) then [] else [s[0]]) + RemoveWhitespace(s[1..])
  }

  /** At most two `=` are dropped from a text whose length is a multiple
      of four. */
  function StripPadding(d: string): string {
    if |d| % 4 == 0 && EndsWith(d, "==") then d[..|d| - 2]
    else if |d| % 4 == 0 && EndsWith(d, "=") then d[..|d| - 1]
    else d
  }

  /** `atob(payload)` does not throw: after white space and padding are
      removed, the length is not one more than a multiple of four and every
      character is in the base64 alphabet. */
  predicate Decodable(payload: string) {
    var e := StripPadding(RemoveWhitespace(payload));
    |e| % 4 != 1 && AllBase64(e)
  }

  /** `atob(payload)`: the bytes of a payload that decodes. */
  function Atob(payload: string): seq<Byte>
    requires Decodable(payload)
  {
    Decode(StripPadding(RemoveWhitespace(payload)))
  }

  /** What a payload comes back as after its bytes were written and read:
      `btoa(atob(payload))`. */
  function Canonical(payload: string): string
    requires Decodable(payload)
  {
    Btoa(Atob(payload))
  }

  /** `atob` undoes `btoa`: every byte string written as base64 decodes to
      itself. */
  lemma AtobBtoa(b: seq<Byte>)
    ensures Decodable(Btoa(b)) && Atob(Btoa(b)) == b
  {
    var e, t := Encode(b), Btoa(b);
    forall i | 0 <= i < |t|
      ensures !IsAsciiWhitespace(t[i])
    {
      if i < |e| {
        assert t[i] == e[i];
      } else {
        assert t[i] == Padding(|b|)[i - |e|];
      }
    }
    RemoveWhitespaceNone(t);
    StripBtoa(b);
    DecodeEncode(b);
  }

  /** Removing the padding of `btoa`'s text leaves the unpadded encoding. */
  lemma StripBtoa(b: seq<Byte>)
    ensures StripPadding(Btoa(b)) == Encode(b)
  {
    var e, t := Encode(b), Btoa(b);
    assert |t| % 4 == 0;
    if |b| % 3 == 1 {
      assert EndsWith(t, "==") by { assert t[|t| - 2..] == "=="; }
      assert t[..|t| - 2] == e;
    } else if |b| % 3 == 2 {
      assert t[|t| - 1..] == "=";
      assert !EndsWith(t, "==") by { assert t[|t| - 2] == e[|e| - 1] && IsBase64Char(e[|e| - 1]); }
      assert t[..|t| - 1] == e;
    } else {
      assert t == e;
      if |t| > 0 {
        assert IsBase64Char(t[|t| - 1]);
        assert !EndsWith(t, "=") by { assert t[|t| - 1..][0] == t[|t| - 1]; }
        assert !EndsWith(t, "==") by { assert t[|t| - 2..][1] == t[|t| - 1]; }
      }
    }
  }

  /** A payload read back once is read back unchanged from then on, and a
      payload `btoa` wrote (as a canvas does) comes back as it was. */
  lemma CanonicalIdempotent(payload: string)
    requires Decodable(payload)
    ensures Decodable(Canonical(payload)) && Canonical(Canonical(payload)) == Canonical(payload)
  {
    AtobBtoa(Atob(payload));
  }

  /** A payload is not always read back as it was written: the missing
      padding of "YQ" is added, and the stray low bits of "YR==" are
      dropped, so both come back as "YQ==". */
  lemma ShortPayloadsCanonicalised()
    ensures Decodable("YQ") && Canonical("YQ") == "YQ=="
    ensures Decodable("YR==") && Canonical("YR==") == "YQ=="
  {
    PaddingAdded();
    StrayBitsDropped();
    BtoaOfA();
  }

  lemma PaddingAdded()
    ensures Decodable("YQ") && Atob("YQ") == [97] && Canonical("YQ") == "YQ=="
  {
    RemoveWhitespaceNone("YQ");
    assert Values("YQ") == [24, 16];
    assert Bytes([24, 16]) == [97];
    BtoaOfA();
  }

  lemma StrayBitsDropped()
    ensures Decodable("YR==") && Atob("YR==") == [97]
  {
    RemoveWhitespaceNone("YR==");
    assert StripPadding("YR==") == "YR" by { assert EndsWith("YR==", "=="); }
    assert Values("YR") == [24, 17];
    assert Bytes([24, 17]) == [97];
  }

  lemma BtoaOfA()
    ensures Btoa([97]) == "YQ=="
  {
    assert Sextets([97]) == [24, 16];
    assert Chars([24, 16]) == "YQ";
  }

  lemma CanonicalOfBtoa(b: seq<Byte>)
    ensures Decodable(Btoa(b)) && Canonical(Btoa(b)) == Btoa(b)
  {
    AtobBtoa(b);
  }

  lemma {:induction false} RemoveWhitespaceOfBase64(s: string)
    requires forall i :: 0 <= i < |s| ==> IsBase64Char(s[i])
    ensures RemoveWhitespace(s) == s
  {
    if s != [] {
      RemoveWhitespaceOfBase64(s[1..]);
      assert [s[0]] + s[1..] == s;
    }
  }

  /** Unpadded base64 text whose length is a multiple of four, as a canvas
      writes it, always decodes. */
  lemma CanvasPayloadDecodes(s: string)
    requires |s| % 4 == 0
    requires forall i :: 0 <= i < |s| ==> IsBase64Char(s[i])
    ensures Decodable(s)
  {
    RemoveWhitespaceOfBase64(s);
    if |s| > 0 {
      assert !EndsWith(s, "=") by {
        assert IsBase64Char(s[|s| - 1]);
        assert s[|s| - 1..] != "=" by {
          assert s[|s| - 1..][0] == s[|s| - 1];
        }
      }
      assert !EndsWith(s, "==") by {
        if |s| >= 2 {
          assert s[|s| - 2..][1] == s[|s| - 1];
        }
      }
    }
  }

  /** Text without white space is left as it is. */
  lemma {:induction false} RemoveWhitespaceNone(s: string)
    requires forall i :: 0 <= i < |s| ==> !IsAsciiWhitespace(s[i])
    ensures RemoveWhitespace(s) == s
  {
    if s != [] {
      RemoveWhitespaceNone(s[1..]);
      assert [s[0]] + s[1..] == s;
    }
  }

  /** Base64 text one character longer than a multiple of four fails. */
  lemma LengthRefused(s: string)
    requires |s| % 4 == 1
    requires forall i :: 0 <= i < |s| ==> IsBase64Char(s[i])
    ensures !Decodable(s)
  {
    RemoveWhitespaceOfBase64(s);
  }

  /** Text of a length that is a multiple of four, without white space or
      a trailing `=`, fails on a character outside the alphabet. */
  lemma ForeignCharRefused(s: string, k: nat)
    requires |s| % 4 == 0 && |s| > 0 && s[|s| - 1] != '='
    requires forall i :: 0 <= i < |s| ==> !IsAsciiWhitespace(s[i])
    requires k < |s| && !IsBase64Char(s[k])
    ensures !Decodable(s)
  {
    RemoveWhitespaceNone(s);
    assert s[|s| - 1..][0] == s[|s| - 1];
    if |s| >= 2 {
      assert s[|s| - 2..][1] == s[|s| - 1];
    }
    assert StripPadding(s) == s;
  }

  /** An image text that fails `atob` is refused. */
  lemma BadPayloadRefused()
    ensures !Decodable("abcde")
    ensures !Decodable("ab!c")
  {
    LengthRefused("abcde");
    ForeignCharRefused("ab!c", 2);
  }

  /** The image file of a project. */
  function ImageFileName(projectId: string): string {
    projectId + "_screen.jpg"
  }

  /** A stored image read back: always as JPEG, whatever it was saved as. */
  function DataUrl(payload: string): string {
    "data:image/jpeg;base64," + payload
  }

  /** The payload `saveImage` writes, when it writes one: the image is set,
      the id is not empty, the store is ready, the image is a string with a
      non-empty field after its comma, and that field decodes. */
  function SavedPayload(projectId: string, image: Value, ready: bool): (r: Option<string>)
    ensures r.Some? ==> (Truthy(image) && projectId != [] && ready && image.Str? &&
                         SecondField(image.s) == r && r.value != [] && Decodable(r.value))
  {
    if !Truthy(image) || projectId == [] || !ready || !image.Str? then None
    else
      match SecondField(image.s)
      case None => None
      case Some(p) => if p != [] && Decodable(p) then Some(p) else None
  }

  /** What `saveImage` returns: `null` without an image or id, the image
      itself when the store is not ready or the image cannot be decoded,
      `null` when it has no payload, and the file name when it is written. */
  function SaveImageReturn(projectId: string, image: Value, ready: bool): (r: Value)
    ensures SavedPayload(projectId, image, ready).Some? ==> r == Str(ImageFileName(projectId))
    ensures SavedPayload(projectId, image, ready).None? ==> r == Null || r == image
  {
    if !Truthy(image) || projectId == [] then Null
    else if !ready || !image.Str? then image
    else
      match SecondField(image.s)
      case None => Null
      case Some(p) =>
        if p == [] then Null
        else if !Decodable(p) then image
        else Str(ImageFileName(projectId))
  }

  /** Does `loadImage(fileName)` go to the store (and so initialise it)? */
  predicate ReachesStore(fileName: Value) {
    Truthy(fileName) && fileName.Str? && !StartsWith(fileName.s, "data:image")
  }

  /** `loadImage(fileName)`: `null` for no name, the name itself for an
      inline data URL or when the store is not ready, the file as a JPEG
      data URL, and `null` when the file cannot be read. A name that is not
      a string throws. */
  function LoadImageResult(fileName: Value, ready: bool, images: ImageDir): (r: Result<Value, string>)
    ensures !Truthy(fileName) ==> r == Ok(Null)
    ensures fileName.Str? && StartsWith(fileName.s, "data:image") ==> r == Ok(fileName)
    ensures r.Err? <==> Truthy(fileName) && !fileName.Str?
  {
    if !Truthy(fileName) then Ok(Null)
    else if !fileName.Str? then Err("TypeError")
    else if StartsWith(fileName.s, "data:image") || !ready then Ok(fileName)
    else if fileName.s in images then Ok(Str(DataUrl(Btoa(images[fileName.s]))))
    else Ok(Null)
  }

  // ---------------------------------------------------------------------
  // Loading projects

  /** One project of `projects.json` with its images read in: `screenImage`
      from `screenImageFile` and `thumbnail` from `thumbnailFile`, each when
      the file name is set. Reading a property of `null`, or an image name
      that is not a string, throws. */
  function LoadOne(item: Value, images: ImageDir): Option<Value> {
    if item == Null then None
    else if !item.Obj? then Some(item)
    else
      var f := item.fields;
      var screen := Get(f, "screenImageFile");
      var withScreen :=
        if !Truthy(screen) then Ok(f)
        else match LoadImageResult(screen, true, images)
             case Err(_) => Err("TypeError")
             case Ok(img) => Ok(f["screenImage" := img]);
      match withScreen
      case Err(_) => None
      case Ok(g) =>
        var thumb := Get(g, "thumbnailFile");
        if !Truthy(thumb) then Some(Obj(g))
        else match LoadImageResult(thumb, true, images)
             case Err(_) => None
             case Ok(img) => Some(Obj(g["thumbnail" := img]))
  }

  /** The projects in order with their images read in; `None` as soon as
      one throws. */
  function LoadAll(items: seq<Value>, images: ImageDir): (r: Option<seq<Value>>)
    ensures r.Some? ==> |r.value| == |items|
  {
    if items == [] then Some([])
    else
      match LoadAll(items[..|items| - 1], images)
      case None => None
      case Some(done) =>
        match LoadOne(items[|items| - 1], images)
        case None => None
        case Some(p) => Some(done + [p])
  }

  /** `loadProjects()`: nothing when the store is not ready, there is no
      file, the file is not a list, or reading one of its projects throws. */
  function LoadedProjects(file: Option<Value>, ready: bool, images: ImageDir): seq<Value> {
    if !ready || file.None? || !file.value.Arr? then []
    else
      match LoadAll(file.value.items, images)
      case None => []
      case Some(ps) => ps
  }

  /** Loading keeps the list's order: the k-th project loaded is the k-th
      project of the file with its images read in. */
  lemma {:induction false} LoadAllPointwise(items: seq<Value>, images: ImageDir)
    ensures LoadAll(items, images).Some? <==> forall k :: 0 <= k < |items| ==> LoadOne(items[k], images).Some?
    ensures LoadAll(items, images).Some? ==>
      forall k :: 0 <= k < |items| ==> LoadAll(items, images).value[k] == LoadOne(items[k], images).value
    decreases |items|
  {
    if items != [] {
      var init := items[..|items| - 1];
      LoadAllPointwise(init, images);
      forall k | 0 <= k < |init| ensures init[k] == items[k] { }
    }
  }

  /** A loaded project keeps every field of the file but the two images. */
  lemma LoadOneKeepsFields(item: Value, images: ImageDir)
    requires item.Obj? && LoadOne(item, images).Some?
    ensures var p := LoadOne(item, images).value;
      p.Obj? &&
      p.fields.Keys <= item.fields.Keys + {"screenImage", "thumbnail"} &&
      forall k :: k in item.fields && k != "screenImage" && k != "thumbnail" ==> k in p.fields && p.fields[k] == item.fields[k]
  {
  }

  // ---------------------------------------------------------------------
  // The current project

  /** `loadCurrentProject()`: `null` when the store is not ready, there is
      no file, the file holds `null`, or its image name throws; otherwise
      the project with its screen image read in. */
  function LoadedCurrent(file: Option<Value>, ready: bool, images: ImageDir): Value {
    if !ready || file.None? || file.value == Null then Null
    else if !file.value.Obj? then file.value
    else
      var f := file.value.fields;
      var screen := Get(f, "screenImageFile");
      if !Truthy(screen) then file.value
      else match LoadImageResult(screen, true, images)
           case Err(_) => Null
           case Ok(img) => Obj(f["screenImage" := img])
  }

  /** The keys of the saved current project. */
  function CurrentProjectKeys(): set<string> {
    {"id", "updatedAt", "appInfo", "design", "typography", "downloads", "features", "eventInfo",
     "contentSections", "featureStyle", "currentStyle", "modelType", "modelState", "screenImageFile",
     "dynamicComponents", "elementStyles"}
  }

  /** The record `saveCurrentProject` writes: the id, the time, the editor's
      fields and the image file name (or whatever `saveImage` returned). */
  function ProjectData(projectId: string, now: string, state: Object, screenImageFile: Value): (r: Object)
    ensures r.Keys == CurrentProjectKeys()
  {
    map[
      "id" := Str(projectId),
      "updatedAt" := Str(now),
      "appInfo" := Get(state, "appInfo"),
      "design" := Get(state, "design"),
      "typography" := Get(state, "typography"),
      "downloads" := Get(state, "downloads"),
      "features" := Get(state, "features"),
      "eventInfo" := Get(state, "eventInfo"),
      "contentSections" := Get(state, "contentSections"),
      "featureStyle" := Get(state, "featureStyle"),
      "currentStyle" := Get(state, "currentStyle"),
      "modelType" := Get(state, "modelType"),
      "modelState" := Get(state, "modelState"),
      "screenImageFile" := screenImageFile,
      "dynamicComponents" := Get(state, "dynamicComponents"),
      "elementStyles" := Get(state, "elementStyles")]
  }

  // ---------------------------------------------------------------------
  // Updating and deleting

  /** `projects.findIndex(p => p.id === projectId)`, as an index. */
  function FindIndex(projects: seq<Value>, projectId: string): (r: Option<nat>)
    ensures r.Some? ==> r.value < |projects| && StrictEquals(Field(projects[r.value], "id"), Str(projectId))
    ensures r.Some? ==> forall k :: 0 <= k < r.value ==> !StrictEquals(Field(projects[k], "id"), Str(projectId))
    ensures r.None? ==> forall k :: 0 <= k < |projects| ==> !StrictEquals(Field(projects[k], "id"), Str(projectId))
  {
    if projects == [] then None
    else if StrictEquals(Field(projects[0], "id"), Str(projectId)) then Some(0)
    else
      match FindIndex(projects[1..], projectId)
      case None => None
      case Some(i) => Some(i + 1)
  }

  /** The image file names of a project that `deleteImage` removes. */
  function StoredImageNames(p: Value): set<string> {
    (if Field(p, "screenImageFile").Str? && ReachesStore(Field(p, "screenImageFile"))
     then {Field(p, "screenImageFile").s} else {}) +
    (if Field(p, "thumbnailFile").Str? && ReachesStore(Field(p, "thumbnailFile"))
     then {Field(p, "thumbnailFile").s} else {})
  }

  function StoredImageNamesOf(projects: seq<Value>): set<string> {
    if projects == [] then {}
    else StoredImageNamesOf(projects[..|projects| - 1]) + StoredImageNames(projects[|projects| - 1])
  }

  /** Can every image name of these projects be handed to `deleteImage`
      without throwing? */
  predicate ImageNamesAreStrings(p: Value) {
    (!Truthy(Field(p, "screenImageFile")) || Field(p, "screenImageFile").Str?) &&
    (!Truthy(Field(p, "thumbnailFile")) || Field(p, "thumbnailFile").Str?)
  }

  /** A project read by `loadProjects` has string image names. */
  lemma LoadedNamesAreStrings(item: Value, images: ImageDir)
    requires LoadOne(item, images).Some?
    ensures ImageNamesAreStrings(LoadOne(item, images).value)
  {
    if item.Obj? {
      LoadOneKeepsFields(item, images);
    }
  }

  // ---------------------------------------------------------------------
  // Properties

  /** A project's image file name is never taken for an inline data URL,
      unless the id itself starts like one. */
  lemma FileNameNotDataUrl(projectId: string)
    requires !StartsWith(projectId, "data:image")
    ensures !StartsWith(ImageFileName(projectId), "data:image")
  {
    var f := ImageFileName(projectId);
    if |projectId| >= 10 {
      assert f[..10] == projectId[..10];
    } else {
      assert f[|projectId|] == '_';
    }
  }

  /** An image saved as a data URL is written under the project's file name
      as the bytes of its payload, and read back as a JPEG data URL whose
      payload is the canonical text of those bytes, whatever media type it
      was saved with. */
  lemma ImageRoundTrip(projectId: string, header: string, payload: string, images: ImageDir)
    requires projectId != [] && !StartsWith(projectId, "data:image")
    requires ',' !in header && ',' !in payload && payload != [] && Decodable(payload)
    ensures var image, name := Str(header + "," + payload), ImageFileName(projectId);
      SavedPayload(projectId, image, true) == Some(payload) &&
      SaveImageReturn(projectId, image, true) == Str(name) &&
      LoadImageResult(Str(name), true, images[name := Atob(payload)]) == Ok(Str(DataUrl(Canonical(payload))))
  {
    SecondFieldOfDataUrl(header, payload);
    FileNameNotDataUrl(projectId);
  }

  /** The current project saved with a screen image and read back holds the
      editor's fields as saved, the image file name, and the image as a JPEG
      data URL of the payload's canonical text. */
  lemma CurrentProjectRoundTrip(projectId: string, now: string, state: Object, header: string, payload: string,
                                images: ImageDir)
    requires projectId != [] && !StartsWith(projectId, "data:image")
    requires ',' !in header && ',' !in payload && payload != [] && Decodable(payload)
    requires Get(state, "screenImage") == Str(header + "," + payload)
    ensures var file := SaveImageReturn(projectId, Get(state, "screenImage"), true);
      file == Str(ImageFileName(projectId)) &&
      LoadedCurrent(Some(Obj(ProjectData(projectId, now, state, file))), true, images[ImageFileName(projectId) := Atob(payload)]) ==
        Obj(ProjectData(projectId, now, state, file)["screenImage" := Str(DataUrl(Canonical(payload)))])
  {
    ImageRoundTrip(projectId, header, payload, images);
    var name := ImageFileName(projectId);
    var data := ProjectData(projectId, now, state, Str(name));
    ProjectDataFile(projectId, now, state, Str(name));
    LoadedCurrentOfFile(data, name, images[name := Atob(payload)], Str(DataUrl(Canonical(payload))));
  }

  /** The saved current project records the screen image's file name. */
  lemma ProjectDataFile(projectId: string, now: string, state: Object, file: Value)
    ensures Get(ProjectData(projectId, now, state, file), "screenImageFile") == file
  {
  }

  /** A current project naming a readable screen image file is read back
      with the image in `screenImage`. */
  lemma LoadedCurrentOfFile(f: Object, name: string, images: ImageDir, img: Value)
    requires Get(f, "screenImageFile") == Str(name) && name != []
    requires LoadImageResult(Str(name), true, images) == Ok(img)
    ensures LoadedCurrent(Some(Obj(f)), true, images) == Obj(f["screenImage" := img])
  {
  }

  /** Without the desktop shell nothing is read. */
  lemma NotReadyReadsNothing(file: Option<Value>, current: Option<Value>, images: ImageDir, fileName: Value)
    requires fileName.Str? && fileName.s != [] && !StartsWith(fileName.s, "data:image")
    ensures LoadedProjects(file, false, images) == []
    ensures LoadedCurrent(current, false, images) == Null
    ensures LoadImageResult(fileName, false, images) == Ok(fileName)
  {
  }

  /** A single unreadable project (a `null` in the list) makes the whole
      list read as empty, so deleting any project then writes an empty list
      over the file. */
  lemma UnreadableProjectEmptiesList(items: seq<Value>, k: nat, images: ImageDir, projectId: string)
    requires k < |items| && items[k] == Null
    ensures LoadedProjects(Some(Arr(items)), true, images) == []
    ensures AppState.WithoutId(LoadedProjects(Some(Arr(items)), true, images), Str(projectId)) == []
  {
    LoadAllPointwise(items, images);
  }

  /** After a delete no project of that id is left, and every other project
      read from the file is still there, in order. */
  lemma DeleteLeavesOthers(loaded: seq<Value>, projectId: string)
    ensures forall p :: p in AppState.WithoutId(loaded, Str(projectId)) <==>
      p in loaded && !StrictEquals(Field(p, "id"), Str(projectId))
    ensures |AppState.WithoutId(loaded, Str(projectId))| <= |loaded|
  {
    AppState.WithoutIdMembers(loaded, Str(projectId));
  }

  /** An update replaces only the project found, with its fields overridden
      by the update's; the list keeps its length and order. */
  lemma UpdateReplacesOne(loaded: seq<Value>, projectId: string, data: Object)
    requires FindIndex(loaded, projectId).Some?
    ensures var i := FindIndex(loaded, projectId).value;
      var r := loaded[i := Obj(Spread(Props(loaded[i]), data))];
      |r| == |loaded| &&
      (forall j :: 0 <= j < |loaded| && j != i ==> r[j] == loaded[j]) &&
      r[i].fields.Keys == Props(loaded[i]).Keys + data.Keys &&
      (forall key :: key in data ==> r[i].fields[key] == data[key]) &&
      StrictEquals(Field(loaded[i], "id"), Str(projectId))
  {
  }

  // ---------------------------------------------------------------------
  // The store

  class ProjectStorage {
    /** Is the editor running inside the desktop shell? */
    const tauri: bool
    var initialized: bool
    /** The contents of `projects.json`, `None` when there is no file. */
    var projectsFile: Option<Value>
    /** The contents of `current-project.json`. */
    var currentFile: Option<Value>
    /** The image directory: file name to the image's bytes. */
    var images: ImageDir

    /** The store is only ever ready inside the desktop shell. */
    predicate Valid()
      reads this
    {
      initialized ==> tauri
    }

    constructor(tauri: bool, projectsFile: Option<Value>, currentFile: Option<Value>, images: ImageDir)
      ensures Valid() && !initialized
      ensures this.tauri == tauri && this.projectsFile == projectsFile
      ensures this.currentFile == currentFile && this.images == images
    {
      this.tauri := tauri;
      this.initialized := false;
      this.projectsFile := projectsFile;
      this.currentFile := currentFile;
      this.images := images;
    }

    /** `init()`: ready once inside the desktop shell, never outside it. */
    method Init()
      requires Valid()
      modifies this`initialized
      ensures Valid() && initialized == (old(initialized) || tauri)
      ensures projectsFile == old(projectsFile) && currentFile == old(currentFile) && images == old(images)
    {
      if initialized {
        return;
      }
      if !tauri {
        return;
      }
      initialized := true;
    }

    /** `saveProjects(projects)`: writes the list when the store is ready. */
    method SaveProjects(projects: seq<Value>)
      requires Valid()
      modifies this
      ensures Valid() && initialized == (old(initialized) || tauri)
      ensures projectsFile == if initialized then Some(Arr(projects)) else old(projectsFile)
      ensures currentFile == old(currentFile) && images == old(images)
    {
      Init();
      if !initialized {
        return;
      }
      projectsFile := Some(Arr(projects));
    }

    /** `saveImage(projectId, imageBase64)`. */
    method SaveImage(projectId: string, image: Value) returns (r: Value)
      requires Valid()
      modifies this`initialized, this`images
      ensures Valid()
      ensures initialized == if Truthy(image) && projectId != [] then old(initialized) || tauri else old(initialized)
      ensures r == SaveImageReturn(projectId, image, initialized)
      ensures images == match SavedPayload(projectId, image, initialized)
        case None => old(images)
        case Some(p) => old(images)[ImageFileName(projectId) := Atob(p)]
      ensures projectsFile == old(projectsFile) && currentFile == old(currentFile)
    {
      if !Truthy(image) || projectId == [] {
        return Null;
      }
      Init();
      if !initialized {
        return image;
      }
      if !image.Str? {
        return image;
      }
      var payload := SecondField(image.s);
      if payload.None? || payload.value == [] {
        return Null;
      }
      if !Decodable(payload.value) {
        return image;
      }
      var fileName := ImageFileName(projectId);
      images := images[fileName := Atob(payload.value)];
      return Str(fileName);
    }

    /** `loadImage(fileName)`. */
    method LoadImage(fileName: Value) returns (r: Result<Value, string>)
      requires Valid()
      modifies this
      ensures Valid()
      ensures initialized == if ReachesStore(fileName) then old(initialized) || tauri else old(initialized)
      ensures r == LoadImageResult(fileName, initialized, images)
      ensures projectsFile == old(projectsFile) && currentFile == old(currentFile) && images == old(images)
    {
      if !Truthy(fileName) {
        return Ok(Null);
      }
      if !fileName.Str? {
        return Err("TypeError");
      }
      if StartsWith(fileName.s, "data:image") {
        return Ok(fileName);
      }
      Init();
      if !initialized {
        return Ok(fileName);
      }
      if fileName.s in images {
        return Ok(Str(DataUrl(Btoa(images[fileName.s]))));
      }
      return Ok(Null);
    }

    /** `deleteImage(fileName)`: removes a stored image; inline data URLs
      and, before the store is ready, every name are left alone. */
    method DeleteImage(fileName: Value) returns (r: Result<(), string>)
      requires Valid()
      modifies this
      ensures Valid()
      ensures initialized == if ReachesStore(fileName) then old(initialized) || tauri else old(initialized)
      ensures r.Err? <==> Truthy(fileName) && !fileName.Str?
      ensures images == if ReachesStore(fileName) && initialized then old(images) - {fileName.s} else old(images)
      ensures projectsFile == old(projectsFile) && currentFile == old(currentFile)
    {
      if !Truthy(fileName) {
        return Ok(());
      }
      if !fileName.Str? {
        return Err("TypeError");
      }
      if StartsWith(fileName.s, "data:image") {
        return Ok(());
      }
      Init();
      if !initialized {
        return Ok(());
      }
      images := images - {fileName.s};
      return Ok(());
    }

    /** Removes a loaded project's image files (the part of `deleteProject`
        and `clear` that deletes images); a loaded project's image names are
        strings, so nothing throws. */
    method DeleteProjectImages(p: Value)
      requires Valid() && initialized && ImageNamesAreStrings(p)
      modifies this
      ensures Valid() && initialized
      ensures images == old(images) - StoredImageNames(p)
      ensures projectsFile == old(projectsFile) && currentFile == old(currentFile)
    {
      var screen := Field(p, "screenImageFile");
      if Truthy(screen) {
        var _ := DeleteImage(screen);
      }
      var thumb := Field(p, "thumbnailFile");
      if Truthy(thumb) {
        var _ := DeleteImage(thumb);
      }
    }

    /** One project of the file with its images read in (the loop body of
        `loadProjects`), once the store is ready. */
    method LoadOneProject(item: Value) returns (r: Option<Value>)
      requires Valid() && initialized
      modifies this
      ensures Valid() && initialized
      ensures r == LoadOne(item, images)
      ensures projectsFile == old(projectsFile) && currentFile == old(currentFile) && images == old(images)
    {
      if item == Null {
        return None;
      }
      if !item.Obj? {
        return Some(item);
      }
      var f := item.fields;
      var screen := Get(f, "screenImageFile");
      if Truthy(screen) {
        var img := LoadImage(screen);
        if img.Err? {
          return None;
        }
        f := f["screenImage" := img.value];
      }
      var thumb := Get(f, "thumbnailFile");
      if Truthy(thumb) {
        var img := LoadImage(thumb);
        if img.Err? {
          return None;
        }
        f := f["thumbnail" := img.value];
      }
      return Some(Obj(f));
    }

    /** `loadProjects()`. */
    method LoadProjects() returns (r: seq<Value>)
      requires Valid()
      modifies this
      ensures Valid() && initialized == (old(initialized) || tauri)
      ensures r == LoadedProjects(projectsFile, initialized, images)
      ensures projectsFile == old(projectsFile) && currentFile == old(currentFile) && images == old(images)
    {
      Init();
      if !initialized {
        return [];
      }
      if projectsFile.None? || !projectsFile.value.Arr? {
        return [];
      }
      var items := projectsFile.value.items;
      var loaded: seq<Value> := [];
      var i := 0;
      while i < |items|
        invariant 0 <= i <= |items|
        invariant Valid() && initialized
        invariant projectsFile == old(projectsFile) && currentFile == old(currentFile) && images == old(images)
        invariant LoadAll(items[..i], images) == Some(loaded)
      {
        var p := LoadOneProject(items[i]);
        if p.None? {
          LoadAllPointwise(items, images);
          return [];
        }
        assert items[..i + 1][..i] == items[..i];
        loaded := loaded + [p.value];
        i := i + 1;
      }
      assert items[..i] == items;
      return loaded;
    }

    /** `saveCurrentProject(projectId, state)`, with `now` the time stamp. */
    method SaveCurrentProject(projectId: string, state: Object, now: string) returns (r: Value)
      requires Valid()
      modifies this`initialized, this`images, this`currentFile
      ensures Valid() && initialized == (old(initialized) || tauri)
      ensures !initialized ==> r == Null && currentFile == old(currentFile) && images == old(images)
      ensures initialized ==>
        var image := Get(state, "screenImage");
        var file := if Truthy(image) then SaveImageReturn(projectId, image, true) else Null;
        r == Obj(ProjectData(projectId, now, state, file)) && currentFile == Some(r) &&
        images == match SavedPayload(projectId, image, true)
          case None => old(images)
          case Some(p) => old(images)[ImageFileName(projectId) := Atob(p)]
      ensures projectsFile == old(projectsFile)
    {
      Init();
      if !initialized {
        return Null;
      }
      r := WriteCurrent(projectId, state, now);
    }

    /** The ready half of `saveCurrentProject`: the screenshot, if any,
        goes to the image directory and the project to
        `current-project.json`. */
    method WriteCurrent(projectId: string, state: Object, now: string) returns (r: Value)
      requires Valid() && initialized
      modifies this`initialized, this`images, this`currentFile
      ensures Valid() && initialized
      ensures var image := Get(state, "screenImage");
        var file := if Truthy(image) then SaveImageReturn(projectId, image, true) else Null;
        r == Obj(ProjectData(projectId, now, state, file)) && currentFile == Some(r) &&
        images == match SavedPayload(projectId, image, true)
          case None => old(images)
          case Some(p) => old(images)[ImageFileName(projectId) := Atob(p)]
    {
      var screenImageFile := Null;
      var image := Get(state, "screenImage");
      if Truthy(image) {
        screenImageFile := SaveImage(projectId, image);
      }
      var data := Obj(ProjectData(projectId, now, state, screenImageFile));
      currentFile := Some(data);
      return data;
    }

    /** `loadCurrentProject()`. */
    method LoadCurrentProject() returns (r: Value)
      requires Valid()
      modifies this
      ensures Valid() && initialized == (old(initialized) || tauri)
      ensures r == LoadedCurrent(currentFile, initialized, images)
      ensures projectsFile == old(projectsFile) && currentFile == old(currentFile) && images == old(images)
    {
      Init();
      if !initialized {
        return Null;
      }
      if currentFile.None? || currentFile.value == Null {
        return Null;
      }
      var v := currentFile.value;
      if !v.Obj? {
        return v;
      }
      var screen := Get(v.fields, "screenImageFile");
      if !Truthy(screen) {
        return v;
      }
      var img := LoadImage(screen);
      if img.Err? {
        return Null;
      }
      return Obj(v.fields["screenImage" := img.value]);
    }

    /** `updateProject(projectId, updatedData)`: merges the update into the
        first project with that id and writes the list back; `data` is the
        update as the caller sees it afterwards (the image file name is
        added to it). */
    method UpdateProject(projectId: string, updatedData: Object) returns (data: Object)
      requires Valid()
      modifies this
      ensures Valid() && initialized == (old(initialized) || tauri)
      ensures currentFile == old(currentFile)
      ensures var loaded := LoadedProjects(old(projectsFile), initialized, old(images));
        match FindIndex(loaded, projectId)
        case None => projectsFile == old(projectsFile) && images == old(images) && data == updatedData
        case Some(i) =>
          var image := Get(updatedData, "screenImage");
          data == (if Truthy(image) then updatedData["screenImageFile" := SaveImageReturn(projectId, image, true)]
                   else updatedData) &&
          projectsFile == Some(Arr(loaded[i := Obj(Spread(Props(loaded[i]), data))])) &&
          images == match (if Truthy(image) then SavedPayload(projectId, image, true) else None)
            case None => old(images)
            case Some(p) => old(images)[ImageFileName(projectId) := Atob(p)]
    {
      data := updatedData;
      Init();
      if !initialized {
        return;
      }
      var projects := LoadProjects();
      var index := FindIndex(projects, projectId);
      if index.Some? {
        var image := Get(updatedData, "screenImage");
        if Truthy(image) {
          var screenImageFile := SaveImage(projectId, image);
          data := data["screenImageFile" := screenImageFile];
        }
        projects := projects[index.value := Obj(Spread(Props(projects[index.value]), data))];
        SaveProjects(projects);
      }
    }

    /** `deleteProject(projectId)`: removes the first matching project's
        image files, then writes the list back without every project of
        that id. */
    method DeleteProject(projectId: string) returns (r: Result<(), string>)
      requires Valid()
      modifies this
      ensures Valid() && initialized == (old(initialized) || tauri)
      ensures currentFile == old(currentFile)
      ensures !initialized ==> r.Ok? && projectsFile == old(projectsFile) && images == old(images)
      ensures initialized ==>
        var loaded := LoadedProjects(old(projectsFile), true, old(images));
        r.Ok? &&
        projectsFile == Some(Arr(AppState.WithoutId(loaded, Str(projectId)))) &&
        images == match FindIndex(loaded, projectId)
          case None => old(images)
          case Some(i) => old(images) - StoredImageNames(loaded[i])
    {
      Init();
      if !initialized {
        return Ok(());
      }
      var projects := LoadProjects();
      LoadedAreLoadable(projectsFile, images);
      var index := FindIndex(projects, projectId);
      if index.Some? {
        DeleteProjectImages(projects[index.value]);
      }
      SaveProjects(AppState.WithoutId(projects, Str(projectId)));
      return Ok(());
    }

    /** `clear()`: removes every project's image files, then both project
        files. */
    method Clear()
      requires Valid()
      modifies this
      ensures Valid() && initialized == (old(initialized) || tauri)
      ensures !initialized ==> projectsFile == old(projectsFile) && currentFile == old(currentFile) && images == old(images)
      ensures initialized ==>
        projectsFile == None && currentFile == None &&
        images == old(images) - StoredImageNamesOf(LoadedProjects(old(projectsFile), true, old(images)))
    {
      Init();
      if !initialized {
        return;
      }
      var projects := LoadProjects();
      LoadedAreLoadable(projectsFile, images);
      ghost var before := images;
      var i := 0;
      while i < |projects|
        invariant 0 <= i <= |projects|
        invariant Valid() && initialized
        invariant images == before - StoredImageNamesOf(projects[..i])
      {
        DeleteProjectImages(projects[i]);
        NamesOfOneMore(projects, i, before);
        i := i + 1;
      }
      assert projects[..i] == projects;
      projectsFile := None;
      currentFile := None;
    }
  }

  /** Removing the names of the first `i` projects and then those of the
      next one removes the names of the first `i + 1`. */
  lemma NamesOfOneMore(projects: seq<Value>, i: nat, images: ImageDir)
    requires i < |projects|
    ensures images - StoredImageNamesOf(projects[..i]) - StoredImageNames(projects[i]) ==
      images - StoredImageNamesOf(projects[..i + 1])
  {
    assert projects[..i + 1][..i] == projects[..i];
  }

  /** Every project `loadProjects` returns has string image names. */
  lemma LoadedAreLoadable(file: Option<Value>, images: ImageDir)
    ensures forall k :: 0 <= k < |LoadedProjects(file, true, images)| ==>
      ImageNamesAreStrings(LoadedProjects(file, true, images)[k])
  {
    if file.Some? && file.value.Arr? && LoadAll(file.value.items, images).Some? {
      var items := file.value.items;
      LoadAllPointwise(items, images);
      forall k | 0 <= k < |items| ensures ImageNamesAreStrings(LoadAll(items, images).value[k]) {
        LoadedNamesAreStrings(items[k], images);
      }
    }
  }
}
