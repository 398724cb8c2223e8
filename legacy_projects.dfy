/** The saved-designs page of the legacy editor: relative date labels, the
    save dialog's name check, the newest-first list, the delete
    confirmation and the import of a backup file. The config manager's own
    project store is outside this model: the calls made to it are recorded,
    and what they return is a parameter. */
module LegacyProjects {
  import opened Wrappers
  import opened Text
  import opened JsValue
  import Sorting

  const DayMillis: nat := 1000 * 60 * 60 * 24

  /** `Math.ceil(x / y)` for a non-negative `x`. */
  function CeilDiv(x: nat, y: nat): (r: nat)
    requires y > 0
    ensures x == 0 ==> r == 0
    ensures x > 0 ==> (r - 1) * y < x <= r * y
  {
    (x + y - 1) / y
  }

  /** What the date cell of a saved design shows. */
  datatype DateLabel = Today | Yesterday | DaysAgo(days: nat) | LocaleDate

  /** `formatDate(timestamp)` with the clock reading `now`; `None` is a
      timestamp that does not parse, whose day count is `NaN`. */
  function FormatDate(timestamp: Option<int>, now: int): (r: DateLabel)
    ensures timestamp.None? ==> r == LocaleDate
    ensures r.DaysAgo? ==> r.days == 0 || 3 <= r.days <= 7
  {
    match timestamp
    case None => LocaleDate
    case Some(t) =>
      var diff: nat := if now >= t then now - t else t - now;
      var days := CeilDiv(diff, DayMillis);
      if days == 1 then Today
      else if days == 2 then Yesterday
      else if days <= 7 then DaysAgo(days)
      else LocaleDate
  }

  /** The text shown for a label; the locale date is not modelled. */
  function LabelText(dateLabel: DateLabel): string
    requires !dateLabel.LocaleDate?
  {
    match dateLabel
    case Today => "今天"
    case Yesterday => "昨天"
    case DaysAgo(d) => NatToString(d) + "天前"
  }

  /** The labels by the distance between the timestamp and the clock: up to
      a day is today, up to two days yesterday, up to a week a day count, and
      the very same instant shows zero days. */
  lemma FormatDateRanges(t: int, now: int)
    ensures var diff := if now >= t then now - t else t - now;
      var r := FormatDate(Some(t), now);
      (r == Today <==> 0 < diff <= DayMillis) &&
      (r == Yesterday <==> DayMillis < diff <= 2 * DayMillis) &&
      (r == DaysAgo(0) <==> diff == 0) &&
      (r.DaysAgo? && r.days > 0 <==> 2 * DayMillis < diff <= 7 * DayMillis) &&
      (r == LocaleDate <==> diff > 7 * DayMillis)
  {
    var diff: nat := if now >= t then now - t else t - now;
    if diff > 0 {
      CeilDivAtMost(diff, DayMillis, 1);
      CeilDivAtMost(diff, DayMillis, 2);
      CeilDivAtMost(diff, DayMillis, 7);
    }
  }

  /** A positive `x` rounds up to at most `k` units exactly when it is at
      most `k` units. */
  lemma CeilDivAtMost(x: nat, y: nat, k: nat)
    requires x > 0 && y > 0
    ensures CeilDiv(x, y) <= k <==> x <= k * y
  {
    var r := CeilDiv(x, y);
    if r <= k {
      assert r * y <= k * y;
    } else {
      assert (r - 1) * y >= k * y;
    }
  }

  /** A timestamp in the future gets the label of the one equally far in
      the past. */
  lemma FormatDateSymmetric(t: int, now: int)
    ensures FormatDate(Some(t), now) == FormatDate(Some(2 * now - t), now)
  {
  }

  /** The list order: a later timestamp sorts first. Timestamps are given
      already read as milliseconds. */
  function NewerFirst(time: Value -> int): (less: (Value, Value) -> bool)
    ensures forall a, b :: less(a, b) == (time(a) > time(b))
  {
    (a: Value, b: Value) => time(a) > time(b)
  }

  lemma NewerFirstOrders(time: Value -> int)
    ensures Sorting.StrictWeakOrder(NewerFirst(time))
  {
  }

  /** The order `loadProjectsList` shows the saved designs in. */
  function Listed(saved: seq<Value>, time: Value -> int): seq<Value> {
    Sorting.SortBy(NewerFirst(time), saved)
  }

  /** The list shows every saved design once, newest first. */
  lemma ListedNewestFirst(saved: seq<Value>, time: Value -> int)
    ensures var l := Listed(saved, time);
      multiset(l) == multiset(saved) &&
      forall i, j :: 0 <= i < j < |l| ==> time(l[i]) >= time(l[j])
  {
    NewerFirstOrders(time);
    Sorting.SortByCorrect(NewerFirst(time), saved);
  }

  /** The notifications the page shows. */
  datatype Notice =
    | NameMissing | Saved | SaveFailed | Deleted | DeleteFailed
    | Imported(count: nat) | ImportFailed

  /** Whether a notification is shown as a success (green) or an error. */
  predicate IsSuccess(n: Notice) {
    n.Saved? || n.Deleted? || n.Imported?
  }

  /** The text of each notification. */
  function NoticeText(n: Notice): string {
    match n
    case NameMissing => "请输入作品名称"
    case Saved => "作品保存成功！"
    case SaveFailed => "保存失败，请重试"
    case Deleted => "作品删除成功"
    case DeleteFailed => "删除失败，请重试"
    case Imported(c) => "成功导入 " + NatToString(c) + " 个作品"
    case ImportFailed => "导入失败：文件格式不正确"
  }

  /** The name `saveCurrentProject` reads: the name box's text trimmed, or
      the empty name when there is no box. */
  function EnteredName(nameInput: Option<string>): string {
    if nameInput.Some? then Trim(nameInput.value) else ""
  }

  /** A name of white space alone, ideographic spaces included, is no name. */
  lemma BlankNameIsMissing(s: string)
    requires forall i :: 0 <= i < |s| ==> IsSpace(s[i])
    ensures EnteredName(Some(s)) == []
  {
    TrimStartOfSpaces(s);
  }

  /** Two ideographic spaces (U+3000) are refused as a missing name. */
  lemma IdeographicSpacesRefused()
    ensures EnteredName(Some([0x3000 as char, 0x3000 as char])) == []
  {
    BlankNameIsMissing([0x3000 as char, 0x3000 as char]);
  }

  class ProjectManager {
    /** The design waiting for the delete confirmation, `null` when none. */
    var pendingDelete: Value
    var confirmShown: bool
    var saveShown: bool
    /** What `getSavedProjects()` returns: the stored list of designs. */
    var saved: seq<Value>
    /** The designs on the page, in order; empty shows the placeholder. */
    var shown: seq<Value>
    /** The names handed to the config manager's `saveProject`. */
    var saveCalls: seq<string>
    /** The ids handed to the config manager's `deleteProject`. */
    var deleteCalls: seq<Value>
    var notices: seq<Notice>
    /** The clock reading of each design's timestamp. */
    const time: Value -> int

    /** A manager whose store holds `saved`; construction lists it. */
    constructor(saved: seq<Value>, time: Value -> int)
      ensures this.saved == saved && this.time == time
      ensures pendingDelete == Null && !confirmShown && !saveShown
      ensures shown == Listed(saved, time)
      ensures saveCalls == [] && deleteCalls == [] && notices == []
    {
      this.saved := saved;
      this.time := time;
      pendingDelete := Null;
      confirmShown := false;
      saveShown := false;
      shown := Listed(saved, time);
      saveCalls := [];
      deleteCalls := [];
      notices := [];
    }

    /** `loadProjectsList()`: the page shows the stored designs, newest
        first. */
    method LoadProjectsList()
      modifies this`shown
      ensures shown == Listed(saved, time)
    {
      shown := Listed(saved, time);
    }

    method HideSaveDialog()
      modifies this`saveShown
      ensures !saveShown
    {
      saveShown := false;
    }

    /** `saveCurrentProject()`: the name box's text, trimmed, is the name
        (no box gives the empty name); an empty name is refused with an
        error notice. `saveFails` is whether the config manager throws, and
        `savedAfter` the store once the design is saved, from which an open
        projects page is redrawn. */
    method SaveCurrentProject(nameInput: Option<string>, saveFails: bool, projectsPageActive: bool,
                              savedAfter: seq<Value>)
      returns (savedName: Option<string>)
      modifies this`saveCalls, this`notices, this`saveShown, this`shown, this`saved
      ensures var name := EnteredName(nameInput);
        if name == [] then
          savedName.None? && saveCalls == old(saveCalls) &&
          notices == old(notices) + [NameMissing] &&
          saveShown == old(saveShown) && saved == old(saved) && shown == old(shown)
        else if saveFails then
          savedName.None? && saveCalls == old(saveCalls) + [name] &&
          notices == old(notices) + [SaveFailed] &&
          saveShown == old(saveShown) && saved == old(saved) && shown == old(shown)
        else
          savedName == Some(name) && saveCalls == old(saveCalls) + [name] &&
          notices == old(notices) + [Saved] && !saveShown && saved == savedAfter &&
          shown == (if projectsPageActive then Listed(savedAfter, time) else old(shown))
    {
      var name := EnteredName(nameInput);
      if name == [] {
        notices := notices + [NameMissing];
        savedName := None;
      } else if saveFails {
        saveCalls := saveCalls + [name];
        notices := notices + [SaveFailed];
        savedName := None;
      } else {
        saveCalls := saveCalls + [name];
        saved := savedAfter;
        FinishSave(projectsPageActive);
        savedName := Some(name);
      }
    }

    /** What a save that went through does on the page: the dialog closes,
        the success notice shows and an open projects page is redrawn. */
    method FinishSave(projectsPageActive: bool)
      modifies this`saveShown, this`notices, this`shown
      ensures !saveShown && notices == old(notices) + [Saved]
      ensures shown == if projectsPageActive then Listed(saved, time) else old(shown)
    {
      HideSaveDialog();
      notices := notices + [Saved];
      if projectsPageActive {
        LoadProjectsList();
      }
    }

    /** `showDeleteConfirm(projectId)`. */
    method ShowDeleteConfirm(projectId: Value)
      modifies this`pendingDelete, this`confirmShown
      ensures pendingDelete == projectId && confirmShown
    {
      pendingDelete := projectId;
      confirmShown := true;
    }

    /** `hideConfirmDialog()`: closing the dialog always forgets the
        pending design. */
    method HideConfirmDialog()
      modifies this`pendingDelete, this`confirmShown
      ensures pendingDelete == Null && !confirmShown
    {
      confirmShown := false;
      pendingDelete := Null;
    }

    /** `confirmDeleteProject()`: nothing happens without a pending design;
        otherwise it is handed to the config manager, and on success the
        dialog closes and the list is redrawn from the store as it then is
        (`savedAfter`). */
    method ConfirmDeleteProject(deleteFails: bool, savedAfter: seq<Value>)
      modifies this`deleteCalls, this`notices, this`pendingDelete, this`confirmShown, this`saved, this`shown
      ensures !Truthy(old(pendingDelete)) ==>
        deleteCalls == old(deleteCalls) && notices == old(notices) && pendingDelete == old(pendingDelete) &&
        confirmShown == old(confirmShown) && saved == old(saved) && shown == old(shown)
      ensures Truthy(old(pendingDelete)) ==> deleteCalls == old(deleteCalls) + [old(pendingDelete)]
      ensures Truthy(old(pendingDelete)) && deleteFails ==>
        notices == old(notices) + [DeleteFailed] &&
        pendingDelete == old(pendingDelete) && saved == old(saved) && shown == old(shown)
      ensures Truthy(old(pendingDelete)) && !deleteFails ==>
        notices == old(notices) + [Deleted] &&
        pendingDelete == Null && !confirmShown && saved == savedAfter && shown == Listed(savedAfter, time)
      ensures unchanged(this`saveCalls, this`saveShown)
    {
      if !Truthy(pendingDelete) {
        return;
      }
      deleteCalls := deleteCalls + [pendingDelete];
      if deleteFails {
        notices := notices + [DeleteFailed];
        return;
      }
      saved := savedAfter;
      HideConfirmDialog();
      notices := notices + [Deleted];
      LoadProjectsList();
    }

    /** `importProjects(file)` once the file is read: `None` is text that
        is not JSON. An array is appended to the stored designs and its
        length is the result; anything else is refused and stores nothing. */
    method ImportProjects(parsed: Option<Value>) returns (r: Result<nat, string>)
      modifies this`saved, this`shown, this`notices
      ensures parsed.Some? && parsed.value.Arr? ==>
        r == Ok(|parsed.value.items|) && saved == old(saved) + parsed.value.items &&
        shown == Listed(saved, time) &&
        notices == old(notices) + [Imported(|parsed.value.items|)]
      ensures !(parsed.Some? && parsed.value.Arr?) ==>
        r.Err? && saved == old(saved) && shown == old(shown) &&
        notices == old(notices) + [ImportFailed]
      ensures unchanged(this`pendingDelete, this`confirmShown, this`saveShown, this`saveCalls, this`deleteCalls)
    {
      if parsed.Some? && parsed.value.Arr? {
        var imported := parsed.value.items;
        saved := saved + imported;
        LoadProjectsList();
        notices := notices + [Imported(|imported|)];
        r := Ok(|imported|);
      } else {
        notices := notices + [ImportFailed];
        r := Err(if parsed.None? then "SyntaxError" else "无效的项目数据格式");
      }
    }
  }

  /** After a successful import the page lists the old and the imported
      designs together, newest first. */
  lemma ImportedAreListed(old_saved: seq<Value>, imported: seq<Value>, time: Value -> int)
    ensures var l := Listed(old_saved + imported, time);
      multiset(l) == multiset(old_saved) + multiset(imported) &&
      forall i, j :: 0 <= i < j < |l| ==> time(l[i]) >= time(l[j])
  {
    ListedNewestFirst(old_saved + imported, time);
  }
}
