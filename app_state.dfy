/** The editor's state reducer: a state is a plain object and every action
    returns a fresh object built by spreads, `filter` or array spread. */
module AppState {
  import opened Wrappers
  import opened JsValue
  import Text

  type State = map<string, Value>

  datatype Action = Action(kind: string, payload: Value)

  datatype ActionKind =
    | UpdateAppInfo | UpdateDesign | UpdateDownloads
    | SetScreenImage | SetCurrentTab
    | ToggleConfigPanel | ToggleDownloadMenu | ToggleProjectMenu
    | OpenSaveDialog | CloseSaveDialog
    | OpenConfirmDialog | CloseConfirmDialog
    | SetProjects | AddProject | DeleteProject
    | LoadState
    | Unknown

  /** The `switch (action.type)` cases. */
  function KindOf(t: string): ActionKind {
    if t == "UPDATE_APP_INFO" then UpdateAppInfo
    else if t == "UPDATE_DESIGN" then UpdateDesign
    else if t == "UPDATE_DOWNLOADS" then UpdateDownloads
    else if t == "SET_SCREEN_IMAGE" then SetScreenImage
    else if t == "SET_CURRENT_TAB" then SetCurrentTab
    else if t == "TOGGLE_CONFIG_PANEL" then ToggleConfigPanel
    else if t == "TOGGLE_DOWNLOAD_MENU" then ToggleDownloadMenu
    else if t == "TOGGLE_PROJECT_MENU" then ToggleProjectMenu
    else if t == "OPEN_SAVE_DIALOG" then OpenSaveDialog
    else if t == "CLOSE_SAVE_DIALOG" then CloseSaveDialog
    else if t == "OPEN_CONFIRM_DIALOG" then OpenConfirmDialog
    else if t == "CLOSE_CONFIRM_DIALOG" then CloseConfirmDialog
    else if t == "SET_PROJECTS" then SetProjects
    else if t == "ADD_PROJECT" then AddProject
    else if t == "DELETE_PROJECT" then DeleteProject
    else if t == "LOAD_STATE" then LoadState
    else Unknown
  }

  /** The sub-record a merging action updates. */
  function RecordOf(k: ActionKind): string
    requires k.UpdateAppInfo? || k.UpdateDesign? || k.UpdateDownloads?
  {
    match k
    case UpdateAppInfo => "appInfo"
    case UpdateDesign => "design"
    case UpdateDownloads => "downloads"
  }

  /** The field a replacing action sets. */
  function ReplacedField(k: ActionKind): string
    requires k.SetScreenImage? || k.SetCurrentTab? || k.SetProjects?
  {
    match k
    case SetScreenImage => "screenImage"
    case SetCurrentTab => "currentTab"
    case SetProjects => "projects"
  }

  /** The flag a toggle flips. */
  function ToggledFlag(k: ActionKind): string
    requires k.ToggleConfigPanel? || k.ToggleDownloadMenu? || k.ToggleProjectMenu?
  {
    match k
    case ToggleConfigPanel => "configPanelOpen"
    case ToggleDownloadMenu => "downloadMenuOpen"
    case ToggleProjectMenu => "projectMenuOpen"
  }

  /** `projects.filter(p => p.id !== id)`. */
  function WithoutId(projects: seq<Value>, id: Value): (r: seq<Value>)
    ensures |r| <= |projects|
  {
    if projects == [] then []
    else Kept(projects[0], id) + WithoutId(projects[1..], id)
  }

  /** The project itself, or nothing when its id is strictly equal to `id`. */
  function Kept(project: Value, id: Value): seq<Value> {
    if StrictEquals(Field(project, "id"), id) then [] else [project]
  }

  /** `appReducer(state, action)`. */
  function Reduce(s: State, a: Action): Result<State, string> {
    Step(s, KindOf(a.kind), a.payload)
  }

  /** One case of the reducer. Spreading a `projects` that is not iterable,
      or filtering one that is not an array, throws a `TypeError`; a string
      is iterable and spreads into its characters. */
  function Step(s: State, k: ActionKind, payload: Value): Result<State, string> {
    match k
    case UpdateAppInfo => Ok(s["appInfo" := Obj(Spread(Props(Get(s, "appInfo")), Props(payload)))])
    case UpdateDesign => Ok(s["design" := Obj(Spread(Props(Get(s, "design")), Props(payload)))])
    case UpdateDownloads => Ok(s["downloads" := Obj(Spread(Props(Get(s, "downloads")), Props(payload)))])
    case SetScreenImage => Ok(s["screenImage" := payload])
    case SetCurrentTab => Ok(s["currentTab" := payload])
    case ToggleConfigPanel => Ok(s["configPanelOpen" := Bool(!Truthy(Get(s, "configPanelOpen")))])
    case ToggleDownloadMenu => Ok(s["downloadMenuOpen" := Bool(!Truthy(Get(s, "downloadMenuOpen")))])
    case ToggleProjectMenu => Ok(s["projectMenuOpen" := Bool(!Truthy(Get(s, "projectMenuOpen")))])
    case OpenSaveDialog => Ok(s["saveDialogOpen" := Bool(true)])
    case CloseSaveDialog => Ok(s["saveDialogOpen" := Bool(false)])
    case OpenConfirmDialog => Ok(s["confirmDialogOpen" := Bool(true)]["projectToDelete" := payload])
    case CloseConfirmDialog => Ok(s["confirmDialogOpen" := Bool(false)]["projectToDelete" := Null])
    case SetProjects => Ok(s["projects" := payload])
    case AddProject =>
      var ps := Get(s, "projects");
      if ps.Arr? then Ok(s["projects" := Arr(ps.items + [payload])])
      else if ps.Str? then Ok(s["projects" := Arr(SpreadChars(ps.s) + [payload])])
      else Err("TypeError")
    case DeleteProject =>
      var ps := Get(s, "projects");
      if ps.Arr? then Ok(s["projects" := Arr(WithoutId(ps.items, payload))]) else Err("TypeError")
    case LoadState => Ok(Spread(s, Props(payload)))
    case Unknown => Ok(s)
  }

  /** The reducer's starting state. */
  function Initial(): State {
    map[
      "appInfo" := Obj(map[
        "name" := Str("Bompay"),
        "icon" := Str("B"),
        "title" := Str("Download Bompay today"),
        "subtitle" := Str("体验全新的支付方式，让生活更简单"),
        "iconImage" := Null]),
      "design" := Obj(map[
        "template" := Str("classic"),
        "colorScheme" := Str("blue"),
        "bgColor" := Str("#667eea"),
        "gradientColor" := Str("#764ba2")]),
      "downloads" := Obj(map[
        "showAppStore" := Bool(true),
        "showGooglePlay" := Bool(true),
        "appStoreUrl" := Str(""),
        "googlePlayUrl" := Str("")]),
      "screenImage" := Null,
      "projects" := Arr([]),
      "currentTab" := Str("app"),
      "configPanelOpen" := Bool(false),
      "downloadMenuOpen" := Bool(false),
      "projectMenuOpen" := Bool(false),
      "saveDialogOpen" := Bool(false),
      "confirmDialogOpen" := Bool(false),
      "projectToDelete" := Null]
  }

  // ---------------------------------------------------------------------
  // Frames

  /** `r` is `s` with only `key` (possibly new) changed. */
  predicate OnlyChanged(s: State, r: State, key: string) {
    && r.Keys == s.Keys + {key}
    && forall k :: k in s && k != key ==> r[k] == s[k]
  }

  /** The three sub-record updates merge the payload into that one record:
      the payload's properties win, the record's other properties stay, and
      no other field changes. */
  lemma UpdateMergesRecord(s: State, k: ActionKind, payload: Value)
    requires k.UpdateAppInfo? || k.UpdateDesign? || k.UpdateDownloads?
    ensures var key := RecordOf(k);
      && Step(s, k, payload).Ok?
      && OnlyChanged(s, Step(s, k, payload).value, key)
      && Step(s, k, payload).value[key].Obj?
      && var merged := Step(s, k, payload).value[key].fields;
         && merged.Keys == Props(Get(s, key)).Keys + Props(payload).Keys
         && (forall p :: p in Props(payload) ==> merged[p] == Props(payload)[p])
         && (forall p :: p in Props(Get(s, key)) && p !in Props(payload) ==> merged[p] == Props(Get(s, key))[p])
  {
  }

  /** Merging the same payload twice is merging it once. */
  lemma UpdateIdempotent(s: State, k: ActionKind, payload: Value)
    requires k.UpdateAppInfo? || k.UpdateDesign? || k.UpdateDownloads?
    ensures Step(Step(s, k, payload).value, k, payload) == Step(s, k, payload)
  {
    var key := RecordOf(k);
    var r := Step(s, k, payload).value;
    SpreadIdempotent(Props(Get(s, key)), Props(payload));
    assert Get(r, key) == Obj(Spread(Props(Get(s, key)), Props(payload)));
    assert r[key := r[key]] == r;
  }

  /** `SET_SCREEN_IMAGE`, `SET_CURRENT_TAB` and `SET_PROJECTS` put the payload
      into exactly one field. */
  lemma SetReplacesField(s: State, k: ActionKind, payload: Value)
    requires k.SetScreenImage? || k.SetCurrentTab? || k.SetProjects?
    ensures var key := ReplacedField(k);
      && Step(s, k, payload).Ok?
      && OnlyChanged(s, Step(s, k, payload).value, key)
      && Step(s, k, payload).value[key] == payload
  {
  }

  /** A toggle stores the negation of the flag's truthiness and changes
      nothing else. */
  lemma ToggleFlipsFlag(s: State, k: ActionKind, payload: Value)
    requires k.ToggleConfigPanel? || k.ToggleDownloadMenu? || k.ToggleProjectMenu?
    ensures var key := ToggledFlag(k);
      && Step(s, k, payload).Ok?
      && OnlyChanged(s, Step(s, k, payload).value, key)
      && Step(s, k, payload).value[key] == Bool(!Truthy(Get(s, key)))
  {
  }

  /** On a boolean flag the same toggle twice restores the state. */
  lemma ToggleTwice(s: State, k: ActionKind, payload: Value)
    requires k.ToggleConfigPanel? || k.ToggleDownloadMenu? || k.ToggleProjectMenu?
    requires ToggledFlag(k) in s && s[ToggledFlag(k)].Bool?
    ensures Step(Step(s, k, payload).value, k, payload) == Ok(s)
  {
    var key := ToggledFlag(k);
    var r := Step(Step(s, k, payload).value, k, payload).value;
    assert r[key] == s[key];
    assert r == s;
  }

  /** Opening or closing the save dialog sets the flag whatever it was, so a
      repeat changes nothing. */
  lemma SaveDialogIdempotent(s: State, k: ActionKind, payload: Value)
    requires k.OpenSaveDialog? || k.CloseSaveDialog?
    ensures Step(s, k, payload).Ok? && OnlyChanged(s, Step(s, k, payload).value, "saveDialogOpen")
    ensures Step(s, k, payload).value["saveDialogOpen"] == Bool(k.OpenSaveDialog?)
    ensures Step(Step(s, k, payload).value, k, payload) == Step(s, k, payload)
  {
    var r := Step(s, k, payload).value;
    assert r["saveDialogOpen" := r["saveDialogOpen"]] == r;
  }

  /** The confirm dialog opens on a project and closes back to `null`. */
  lemma ConfirmDialogFields(s: State, k: ActionKind, payload: Value)
    requires k.OpenConfirmDialog? || k.CloseConfirmDialog?
    ensures Step(s, k, payload).Ok?
    ensures var r := Step(s, k, payload).value;
      && r.Keys == s.Keys + {"confirmDialogOpen", "projectToDelete"}
      && (forall f :: f in s && f != "confirmDialogOpen" && f != "projectToDelete" ==> r[f] == s[f])
      && (k.OpenConfirmDialog? ==> r["confirmDialogOpen"] == Bool(true) && r["projectToDelete"] == payload)
      && (k.CloseConfirmDialog? ==> r["confirmDialogOpen"] == Bool(false) && r["projectToDelete"] == Null)
  {
  }

  /** `LOAD_STATE` overrides exactly the payload's keys. */
  lemma LoadOverridesKeys(s: State, payload: Value)
    ensures Step(s, LoadState, payload).Ok?
    ensures var r := Step(s, LoadState, payload).value;
      && r.Keys == s.Keys + Props(payload).Keys
      && (forall f :: f in Props(payload) ==> r[f] == Props(payload)[f])
      && (forall f :: f in s && f !in Props(payload) ==> r[f] == s[f])
  {
  }

  /** An action of any other type returns the state unchanged. */
  lemma UnknownUnchanged(s: State, a: Action)
    requires a.kind !in {"UPDATE_APP_INFO", "UPDATE_DESIGN", "UPDATE_DOWNLOADS",
      "SET_SCREEN_IMAGE", "SET_CURRENT_TAB", "TOGGLE_CONFIG_PANEL",
      "TOGGLE_DOWNLOAD_MENU", "TOGGLE_PROJECT_MENU", "OPEN_SAVE_DIALOG",
      "CLOSE_SAVE_DIALOG", "OPEN_CONFIRM_DIALOG", "CLOSE_CONFIRM_DIALOG",
      "SET_PROJECTS", "ADD_PROJECT", "DELETE_PROJECT", "LOAD_STATE"}
    ensures Reduce(s, a) == Ok(s)
  {
  }

  // ---------------------------------------------------------------------
  // Projects

  /** `ADD_PROJECT` appends: the old list is a prefix and the payload last. */
  lemma AddAppends(s: State, payload: Value)
    requires Get(s, "projects").Arr?
    ensures Step(s, AddProject, payload).Ok?
    ensures var r := Step(s, AddProject, payload).value;
      && OnlyChanged(s, r, "projects")
      && r["projects"].Arr?
      && var before := s["projects"].items;
         var after := r["projects"].items;
         |after| == |before| + 1 && before <= after && after[|before|] == payload
  {
  }

  /** Without an array of projects, deleting throws, and so does adding
      unless `projects` is a string. */
  lemma ProjectsNotArray(s: State, k: ActionKind, payload: Value)
    requires k.AddProject? || k.DeleteProject?
    requires !Get(s, "projects").Arr?
    ensures Step(s, k, payload).Err? <==> k.DeleteProject? || !Get(s, "projects").Str?
  {
  }

  /** ADD_PROJECT on a string `projects` does not throw: the string is
      spread into its characters, each a one-character string, followed by
      the payload, and nothing else changes. */
  lemma AddToStringSpreads(s: State, payload: Value)
    requires "projects" in s && s["projects"].Str?
    ensures Step(s, AddProject, payload).Ok?
    ensures var r := Step(s, AddProject, payload).value;
      var text := s["projects"].s;
      && OnlyChanged(s, r, "projects")
      && r["projects"].Arr?
      && |r["projects"].items| == |text| + 1
      && (forall i :: 0 <= i < |text| ==> r["projects"].items[i] == Str([text[i]]))
      && r["projects"].items[|text|] == payload
  {
  }

  /** What `filter` keeps: exactly the projects whose id is not the payload. */
  lemma {:induction false} WithoutIdMembers(projects: seq<Value>, id: Value)
    ensures forall p :: p in WithoutId(projects, id) <==>
      p in projects && !StrictEquals(Field(p, "id"), id)
  {
    if projects != [] {
      WithoutIdMembers(projects[1..], id);
      assert projects == [projects[0]] + projects[1..];
    }
  }

  /** Filtering keeps relative order: it distributes over concatenation. */
  lemma {:induction false} WithoutIdConcat(xs: seq<Value>, ys: seq<Value>, id: Value)
    ensures WithoutId(xs + ys, id) == WithoutId(xs, id) + WithoutId(ys, id)
  {
    if xs == [] {
      assert xs + ys == ys;
    } else {
      var xy := xs + ys;
      assert xy[0] == xs[0] && xy[1..] == xs[1..] + ys;
      WithoutIdConcat(xs[1..], ys, id);
      var head, rest, tail := Kept(xs[0], id), WithoutId(xs[1..], id), WithoutId(ys, id);
      assert WithoutId(xy, id) == head + (rest + tail);
      assert WithoutId(xs, id) == head + rest;
      Text.ConcatAssoc(head, rest, tail);
    }
  }

  /** A list without the id is left as it is. */
  lemma {:induction false} WithoutIdNoMatch(projects: seq<Value>, id: Value)
    requires forall p :: p in projects ==> !StrictEquals(Field(p, "id"), id)
    ensures WithoutId(projects, id) == projects
  {
    if projects != [] {
      assert projects[0] in projects;
      forall p | p in projects[1..] ensures !StrictEquals(Field(p, "id"), id) {
        assert p in projects;
      }
      WithoutIdNoMatch(projects[1..], id);
    }
  }

  /** `DELETE_PROJECT` removes every project with that id, keeps all others
      in their order, changes no other field, and a repeat changes nothing. */
  lemma DeleteRemovesId(s: State, payload: Value)
    requires Get(s, "projects").Arr?
    ensures Step(s, DeleteProject, payload).Ok?
    ensures var r := Step(s, DeleteProject, payload).value;
      && OnlyChanged(s, r, "projects")
      && r["projects"] == Arr(WithoutId(s["projects"].items, payload))
      && (forall p :: p in r["projects"].items <==>
            p in s["projects"].items && !StrictEquals(Field(p, "id"), payload))
      && Step(r, DeleteProject, payload) == Ok(r)
  {
    var items := s["projects"].items;
    var kept := WithoutId(items, payload);
    WithoutIdMembers(items, payload);
    WithoutIdMembers(kept, payload);
    WithoutIdNoMatch(kept, payload);
    var r := Step(s, DeleteProject, payload).value;
    assert r["projects"] == Arr(kept);
    assert r["projects" := Arr(kept)] == r;
  }

  /** Filtering out the id of the one project appended last, when no
      earlier project has it, gives the earlier list back. */
  lemma WithoutAdded(items: seq<Value>, payload: Value, id: Value)
    requires StrictEquals(Field(payload, "id"), id)
    requires forall p :: p in items ==> !StrictEquals(Field(p, "id"), id)
    ensures WithoutId(items + [payload], id) == items
  {
    WithoutIdConcat(items, [payload], id);
    WithoutIdNoMatch(items, id);
    assert WithoutId([payload], id) == [];
  }

  /** `DELETE_PROJECT` with the id of a project just added, when no earlier
      project has that id, undoes the `ADD_PROJECT` exactly. */
  lemma AddThenDelete(s: State, payload: Value, id: Value)
    requires "projects" in s && s["projects"].Arr?
    requires StrictEquals(Field(payload, "id"), id)
    requires forall p :: p in s["projects"].items ==> !StrictEquals(Field(p, "id"), id)
    ensures Step(s, AddProject, payload).Ok?
    ensures Step(Step(s, AddProject, payload).value, DeleteProject, id) == Ok(s)
  {
    var items := s["projects"].items;
    var s1 := Step(s, AddProject, payload).value;
    assert s1 == s["projects" := Arr(items + [payload])];
    WithoutAdded(items, payload, id);
    var r := s1["projects" := Arr(items)];
    assert Step(s1, DeleteProject, id) == Ok(r);
    assert r == s;
  }

  // ---------------------------------------------------------------------
  // Shape

  /** What `initialState` holds under `key`: the three records are
      objects, `projects` an array and the five flags booleans. */
  predicate FitsShape(key: string, v: Value) {
    if key == "appInfo" || key == "design" || key == "downloads" then v.Obj?
    else if key == "projects" then v.Arr?
    else if key == "configPanelOpen" || key == "downloadMenuOpen" || key == "projectMenuOpen"
      || key == "saveDialogOpen" || key == "confirmDialogOpen" then v.Bool?
    else true
  }

  ghost predicate WellShaped(s: State) {
    forall key :: FitsShape(key, Get(s, key))
  }

  lemma InitialWellShaped()
    ensures WellShaped(Initial())
    ensures Initial()["projects"] == Arr([])
    ensures Initial()["projectToDelete"] == Null
  {
    var s := Initial();
    forall key ensures FitsShape(key, Get(s, key)) {
      if key in s {
        assert s[key].Obj? || s[key].Arr? || s[key].Bool? || key in {"screenImage", "currentTab", "projectToDelete"};
      }
    }
  }

  /** Storing a value that fits its key keeps the shape. */
  lemma SetKeepsShape(s: State, key: string, v: Value)
    requires WellShaped(s) && FitsShape(key, v)
    ensures WellShaped(s[key := v])
  {
    var t := s[key := v];
    forall k ensures FitsShape(k, Get(t, k)) {
      if k != key { assert FitsShape(k, Get(s, k)); }
    }
  }

  /** Every action but `SET_PROJECTS` with a non-array and `LOAD_STATE`
      keeps the shape, so the reducer never throws from a well-shaped
      state. */
  lemma StepKeepsShape(s: State, k: ActionKind, payload: Value)
    requires WellShaped(s)
    requires k.SetProjects? ==> payload.Arr?
    requires !k.LoadState?
    ensures Step(s, k, payload).Ok? && WellShaped(Step(s, k, payload).value)
  {
    assert FitsShape("projects", Get(s, "projects"));
    match k
    case UpdateAppInfo =>
      SetKeepsShape(s, "appInfo", Obj(Spread(Props(Get(s, "appInfo")), Props(payload))));
    case UpdateDesign =>
      SetKeepsShape(s, "design", Obj(Spread(Props(Get(s, "design")), Props(payload))));
    case UpdateDownloads =>
      SetKeepsShape(s, "downloads", Obj(Spread(Props(Get(s, "downloads")), Props(payload))));
    case SetScreenImage => SetKeepsShape(s, "screenImage", payload);
    case SetCurrentTab => SetKeepsShape(s, "currentTab", payload);
    case ToggleConfigPanel =>
      SetKeepsShape(s, "configPanelOpen", Bool(!Truthy(Get(s, "configPanelOpen"))));
    case ToggleDownloadMenu =>
      SetKeepsShape(s, "downloadMenuOpen", Bool(!Truthy(Get(s, "downloadMenuOpen"))));
    case ToggleProjectMenu =>
      SetKeepsShape(s, "projectMenuOpen", Bool(!Truthy(Get(s, "projectMenuOpen"))));
    case OpenSaveDialog => SetKeepsShape(s, "saveDialogOpen", Bool(true));
    case CloseSaveDialog => SetKeepsShape(s, "saveDialogOpen", Bool(false));
    case OpenConfirmDialog =>
      SetKeepsShape(s, "confirmDialogOpen", Bool(true));
      SetKeepsShape(s["confirmDialogOpen" := Bool(true)], "projectToDelete", payload);
    case CloseConfirmDialog =>
      SetKeepsShape(s, "confirmDialogOpen", Bool(false));
      SetKeepsShape(s["confirmDialogOpen" := Bool(false)], "projectToDelete", Null);
    case SetProjects => SetKeepsShape(s, "projects", payload);
    case AddProject =>
      SetKeepsShape(s, "projects", Arr(Get(s, "projects").items + [payload]));
    case DeleteProject =>
      SetKeepsShape(s, "projects", Arr(WithoutId(Get(s, "projects").items, payload)));
    case Unknown =>
  }

  // ---------------------------------------------------------------------
  // Persistence

  /** The object written to `localStorage` on every change. */
  function Snapshot(s: State): (r: Object)
    ensures r.Keys == s.Keys * {"appInfo", "design", "downloads", "projects"}
  {
    map k | k in s.Keys * {"appInfo", "design", "downloads", "projects"} :: s[k]
  }

  lemma LoadStateKind()
    ensures KindOf("LOAD_STATE") == LoadState
  {
  }

  /** Loading a saved snapshot into any state restores the four persisted
      fields and keeps the rest of that state. */
  lemma SnapshotRestores(saved: State, s: State)
    ensures Reduce(s, Action("LOAD_STATE", Obj(Snapshot(saved)))).Ok?
    ensures var r := Reduce(s, Action("LOAD_STATE", Obj(Snapshot(saved)))).value;
      && (forall k :: k in {"appInfo", "design", "downloads", "projects"} && k in saved ==> k in r && r[k] == saved[k])
      && (forall k :: k in s && k !in {"appInfo", "design", "downloads", "projects"} ==> k in r && r[k] == s[k])
  {
    LoadStateKind();
    var snap := Snapshot(saved);
    LoadOverridesKeys(s, Obj(snap));
  }
}
