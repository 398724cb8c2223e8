/** The project actions of the editor: saving the current design as a
    project, loading one back, deleting one and importing one from a file.
    Each ends in reducer actions; the clock, the file reader and the page
    snapshot are parameters. */
module ProjectHooks {
  import opened Wrappers
  import opened JsValue
  import AppState

  /** `generateThumbnail()`: the rendered snapshot when the page container
      exists and the snapshot library is loaded, `null` otherwise. */
  function Thumbnail(containerFound: bool, snapshotLoaded: bool, rendered: Value): (r: Value)
    ensures r != Null ==> containerFound && snapshotLoaded && r == rendered
    ensures !containerFound || !snapshotLoaded ==> r == Null
  {
    if !containerFound then Null
    else if snapshotLoaded then rendered
    else Null
  }

  /** The project `saveProject(name)` builds: the id from the clock, the
      name, the time, the thumbnail, shallow copies of the three records and
      the screen image. */
  function NewProject(state: AppState.State, name: Value, id: string, now: string, thumbnail: Value): (r: Object)
    ensures r.Keys == {"id", "name", "createdAt", "thumbnail", "appInfo", "design", "downloads", "screenImage"}
  {
    map[
      "id" := Str(id),
      "name" := name,
      "createdAt" := Str(now),
      "thumbnail" := thumbnail,
      "appInfo" := Obj(Props(Get(state, "appInfo"))),
      "design" := Obj(Props(Get(state, "design"))),
      "downloads" := Obj(Props(Get(state, "downloads"))),
      "screenImage" := Get(state, "screenImage")]
  }

  /** `saveProject(name)`: the new project is appended to the list. */
  function SaveProject(state: AppState.State, name: Value, id: string, now: string, thumbnail: Value)
    : Result<AppState.State, string>
  {
    AppState.Step(state, AppState.AddProject, Obj(NewProject(state, name, id, now, thumbnail)))
  }

  /** `loadProject(project)`: merges the project's three records into the
      editor's, sets its screen image and switches to the app tab. Reading
      a field of `null` or `undefined` throws before anything is applied. */
  function LoadProject(state: AppState.State, project: Value): Result<AppState.State, string> {
    if project == Null || project == Undefined then Err("TypeError")
    else
      var s1 := AppState.Step(state, AppState.UpdateAppInfo, Field(project, "appInfo")).value;
      var s2 := AppState.Step(s1, AppState.UpdateDesign, Field(project, "design")).value;
      var s3 := AppState.Step(s2, AppState.UpdateDownloads, Field(project, "downloads")).value;
      var s4 := AppState.Step(s3, AppState.SetScreenImage, Field(project, "screenImage")).value;
      AppState.Step(s4, AppState.SetCurrentTab, Str("app"))
  }

  /** `deleteProjectById(projectId)`. */
  function DeleteProjectById(state: AppState.State, projectId: Value): Result<AppState.State, string> {
    AppState.Step(state, AppState.DeleteProject, projectId)
  }

  /** `importProject(file)` once the file is parsed: a project without an
      app record, a design or download flags is refused; an accepted one
      gets a fresh id and time over whatever the file held. */
  function ImportedProject(parsed: Value, id: string, now: string): (r: Result<Value, string>)
    ensures r.Ok? <==> parsed.Obj? && Truthy(Field(parsed, "appInfo")) && Truthy(Field(parsed, "design")) &&
                       Truthy(Field(parsed, "downloads"))
  {
    if parsed == Null || parsed == Undefined then Err("TypeError")
    else if !Truthy(Field(parsed, "appInfo")) || !Truthy(Field(parsed, "design")) || !Truthy(Field(parsed, "downloads")) then
      Err("Invalid project file format")
    else Ok(Obj(parsed.fields["id" := Str(id)]["createdAt" := Str(now)]))
  }

  /** An import that is accepted is appended to the list. */
  function ImportProject(state: AppState.State, parsed: Value, id: string, now: string): Result<AppState.State, string> {
    match ImportedProject(parsed, id, now)
    case Err(e) => Err(e)
    case Ok(p) => AppState.Step(state, AppState.AddProject, p)
  }

  /** An accepted import keeps every field of the file but the id and the
      time, which are the fresh ones. */
  lemma ImportRenews(parsed: Value, id: string, now: string)
    requires ImportedProject(parsed, id, now).Ok?
    ensures var p := ImportedProject(parsed, id, now).value;
      p.Obj? && p.fields.Keys == parsed.fields.Keys + {"id", "createdAt"} &&
      p.fields["id"] == Str(id) && p.fields["createdAt"] == Str(now) &&
      forall k :: k in parsed.fields && k != "id" && k != "createdAt" ==> p.fields[k] == parsed.fields[k]
  {
  }

  /** Saving appends one project to the list and changes nothing else; the
      saved records are copies of the editor's. */
  lemma SaveAppends(state: AppState.State, name: Value, id: string, now: string, thumbnail: Value)
    requires Get(state, "projects").Arr?
    ensures SaveProject(state, name, id, now, thumbnail).Ok?
    ensures var r := SaveProject(state, name, id, now, thumbnail).value;
      var items := r["projects"].items;
      AppState.OnlyChanged(state, r, "projects") &&
      items == state["projects"].items + [Obj(NewProject(state, name, id, now, thumbnail))] &&
      Field(items[|items| - 1], "appInfo") == Obj(Props(Get(state, "appInfo"))) &&
      Field(items[|items| - 1], "screenImage") == Get(state, "screenImage")
  {
    AppState.AddAppends(state, Obj(NewProject(state, name, id, now, thumbnail)));
  }

  /** Deleting by the id of a project just saved under a fresh id gives the
      editor back exactly as it was before the save. */
  lemma SaveThenDelete(state: AppState.State, name: Value, id: string, now: string, thumbnail: Value)
    requires "projects" in state && state["projects"].Arr?
    requires forall p :: p in state["projects"].items ==> !StrictEquals(Field(p, "id"), Str(id))
    ensures SaveProject(state, name, id, now, thumbnail).Ok?
    ensures DeleteProjectById(SaveProject(state, name, id, now, thumbnail).value, Str(id)) == Ok(state)
  {
    var saved := Obj(NewProject(state, name, id, now, thumbnail));
    assert StrictEquals(Field(saved, "id"), Str(id));
    AppState.AddThenDelete(state, saved, Str(id));
  }

  /** A saved project loaded back into the editor it was saved from leaves
      the editor state as it was, except that it is on the app tab and
      holds a `screenImage` entry (the one it had, `undefined` if none). */
  lemma SaveThenLoad(state: AppState.State, name: Value, id: string, now: string, thumbnail: Value)
    requires Get(state, "appInfo").Obj? && Get(state, "design").Obj? && Get(state, "downloads").Obj?
    ensures LoadProject(state, Obj(NewProject(state, name, id, now, thumbnail))) ==
      Ok(state["screenImage" := Get(state, "screenImage")]["currentTab" := Str("app")])
  {
    var p := Obj(NewProject(state, name, id, now, thumbnail));
    LoadProjectUpdates(state, p);
    assert Field(p, "appInfo") == Get(state, "appInfo");
    assert Field(p, "design") == Get(state, "design");
    assert Field(p, "downloads") == Get(state, "downloads");
    assert Field(p, "screenImage") == Get(state, "screenImage");
    SelfMergeKeeps(state, "appInfo");
    var s1 := state["appInfo" := Obj(Spread(Props(Get(state, "appInfo")), Props(Get(state, "appInfo"))))];
    assert Get(s1, "design") == Get(state, "design");
    SelfMergeKeeps(s1, "design");
    var s2 := s1["design" := Obj(Spread(Props(Get(s1, "design")), Props(Get(s1, "design"))))];
    assert Get(s2, "downloads") == Get(state, "downloads");
    SelfMergeKeeps(s2, "downloads");
  }

  /** Merging a record into itself changes nothing. */
  lemma SelfMergeKeeps(state: AppState.State, key: string)
    requires Get(state, key).Obj?
    ensures state[key := Obj(Spread(Props(Get(state, key)), Props(Get(state, key))))] == state
  {
    var a := Props(Get(state, key));
    assert Spread(a, a) == a;
  }

  /** The five actions of a load, written as the one update of the editor
      state they make together. */
  lemma LoadProjectUpdates(state: AppState.State, project: Value)
    requires project != Null && project != Undefined
    ensures LoadProject(state, project) == Ok(state
      ["appInfo" := Obj(Spread(Props(Get(state, "appInfo")), Props(Field(project, "appInfo"))))]
      ["design" := Obj(Spread(Props(Get(state, "design")), Props(Field(project, "design"))))]
      ["downloads" := Obj(Spread(Props(Get(state, "downloads")), Props(Field(project, "downloads"))))]
      ["screenImage" := Field(project, "screenImage")]
      ["currentTab" := Str("app")])
  {
    var s1 := AppState.Step(state, AppState.UpdateAppInfo, Field(project, "appInfo")).value;
    assert Get(s1, "design") == Get(state, "design");
    var s2 := AppState.Step(s1, AppState.UpdateDesign, Field(project, "design")).value;
    assert Get(s2, "downloads") == Get(state, "downloads");
  }

  /** Loading a project merges its records: every key it holds takes the
      project's value, keys it lacks keep the editor's. */
  lemma LoadMerges(state: AppState.State, project: Value)
    requires project != Null && project != Undefined
    ensures LoadProject(state, project).Ok?
    ensures var r := LoadProject(state, project).value;
      var saved := Props(Field(project, "appInfo"));
      var before := Props(Get(state, "appInfo"));
      r["appInfo"].Obj? &&
      (forall k :: k in saved ==> r["appInfo"].fields[k] == saved[k]) &&
      (forall k :: k in before && k !in saved ==> r["appInfo"].fields[k] == before[k]) &&
      r["screenImage"] == Field(project, "screenImage") && r["currentTab"] == Str("app")
  {
  }

  /** Loading `null` or `undefined` is refused before any action runs. */
  lemma LoadNullRefused(state: AppState.State)
    ensures LoadProject(state, Null).Err? && LoadProject(state, Undefined).Err?
  {
  }

  /** A file missing any of the three records is refused. */
  lemma ImportNeedsRecords(state: AppState.State, parsed: Value, id: string, now: string, key: string)
    requires key in {"appInfo", "design", "downloads"}
    requires !Truthy(Field(parsed, key))
    ensures ImportedProject(parsed, id, now).Err?
    ensures ImportProject(state, parsed, id, now).Err?
  {
  }
}
