/** The dashboard's state and handlers: the displayed logs, the four filters, the set of
    logs selected for bulk deletion and the selection-mode flag. The outcome of each
    `fetch` to the delete endpoints is a parameter of the handler that makes it. */
module DashboardState {
  import opened LogTypes
  import opened Filtering
  import BulkDelete

  const FetchFailedPrefix := "Failed to fetch logs: "
  const DeleteFailedError := "Failed to delete log"
  const SelectedDeleteFailedError := "Failed to delete selected logs"

  /** `new Set(logs.map(log => log.id))`. */
  function DisplayedIds(logs: seq<LogEntry>): (ids: set<string>)
    ensures forall i :: 0 <= i < |logs| ==> logs[i].id in ids
    ensures forall id :: id in ids ==> exists i :: 0 <= i < |logs| && logs[i].id == id
    ensures |ids| <= |logs|
  {
    if logs == [] then {}
    else DisplayedIds(logs[..|logs| - 1]) + {logs[|logs| - 1].id}
  }

  /** No two logs share an id. The dashboard does not guarantee this: each entry is
      `{ id: doc.id, ...doc.data() }`, so a stored `id` field replaces the document id. */
  predicate DistinctIds(logs: seq<LogEntry>) {
    forall i, j :: 0 <= i < j < |logs| ==> logs[i].id != logs[j].id
  }

  lemma {:induction false} DistinctIdsCount(logs: seq<LogEntry>)
    requires DistinctIds(logs)
    ensures |DisplayedIds(logs)| == |logs|
  {
    if logs != [] {
      var init := logs[..|logs| - 1];
      assert DistinctIds(init);
      DistinctIdsCount(init);
      assert logs[|logs| - 1].id !in DisplayedIds(init);
    }
  }

  /** Every entry of a subsequence is an entry of the sequence. */
  lemma {:induction false} SubsequenceMembers(r: seq<LogEntry>, s: seq<LogEntry>)
    requires IsSubsequence(r, s)
    ensures forall e :: e in r ==> e in s
    decreases |s|
  {
    if r != [] && s != [] {
      if r[0] == s[0] && IsSubsequence(r[1..], s[1..]) {
        SubsequenceMembers(r[1..], s[1..]);
        forall e | e in r ensures e in s {
          if e != r[0] { assert e in r[1..]; }
        }
      } else {
        SubsequenceMembers(r, s[1..]);
      }
    }
  }

  /** Leaving entries out keeps the ids distinct. */
  lemma {:induction false} SubsequenceDistinctIds(r: seq<LogEntry>, s: seq<LogEntry>)
    requires IsSubsequence(r, s) && DistinctIds(s)
    ensures DistinctIds(r)
    decreases |s|
  {
    if r != [] && s != [] {
      assert DistinctIds(s[1..]);
      if r[0] == s[0] && IsSubsequence(r[1..], s[1..]) {
        SubsequenceDistinctIds(r[1..], s[1..]);
        SubsequenceMembers(r[1..], s[1..]);
        forall j | 1 <= j < |r| ensures r[0].id != r[j].id {
          assert r[j] in r[1..];
          var k :| 0 <= k < |s[1..]| && s[1..][k] == r[j];
          assert s[k + 1] == r[j];
        }
      } else {
        SubsequenceDistinctIds(r, s[1..]);
      }
    }
  }

  /** The displayed logs of a snapshot with distinct ids have distinct ids. A stand-alone
      fact about the filter: the dashboard does not guarantee distinct snapshot ids, and
      the intended "Select All" does not rely on it. */
  lemma DisplayedIdsDistinct(snapshot: seq<LogEntry>, f: Filters)
    requires DistinctIds(snapshot)
    ensures DistinctIds(FilterLogs(snapshot, f))
  {
    FilterKeepsOrder(snapshot, f);
    SubsequenceDistinctIds(FilterLogs(snapshot, f), snapshot);
  }

  /** Every displayed log is selected. */
  predicate AllSelected(selected: set<string>, logs: seq<LogEntry>) {
    DisplayedIds(logs) <= selected
  }

  /** What `handleSelectAll` leaves selected as written: nothing when the selection is as
      large as the displayed list, otherwise exactly the displayed logs. The button shows
      "Deselect All" on the same size test. */
  function AfterSelectAllAsWritten(selected: set<string>, logs: seq<LogEntry>): set<string> {
    if |selected| == |logs| then {} else DisplayedIds(logs)
  }

  /** What "Select All" / "Deselect All" is meant to leave selected: nothing when every
      displayed log is already selected, otherwise exactly the displayed logs. */
  function AfterSelectAll(selected: set<string>, logs: seq<LogEntry>): (r: set<string>)
    ensures r == {} <==> AllSelected(selected, logs)
    ensures r != {} ==> forall id :: id in r <==> exists i :: 0 <= i < |logs| && logs[i].id == id
  {
    if DisplayedIds(logs) <= selected then {} else DisplayedIds(logs)
  }

  /** A set inside another of the same size is that set. */
  lemma SameSizeSubsetIsEqual(a: set<string>, b: set<string>)
    requires a <= b && |a| == |b|
    ensures a == b
  {
    assert b == a + (b - a);
    assert |b| == |a| + |b - a|;
    assert b - a == {};
  }

  /** The size test made as written agrees with the intended test only when the selection
      holds displayed ids alone and the displayed ids are distinct. Neither is kept by the
      dashboard: a filter change or a new snapshot leaves the selection as it is (see
      `StaleSelectionReached`), and displayed ids can repeat (see `DuplicateIdsNeverDeselect`). */
  lemma SizeTestMeansAllSelected(selected: set<string>, logs: seq<LogEntry>)
    requires DistinctIds(logs) && selected <= DisplayedIds(logs)
    ensures |selected| == |logs| <==> AllSelected(selected, logs)
    ensures AfterSelectAllAsWritten(selected, logs) == AfterSelectAll(selected, logs)
  {
    DistinctIdsCount(logs);
    if |selected| == |logs| {
      SameSizeSubsetIsEqual(selected, DisplayedIds(logs));
    } else {
      assert selected != DisplayedIds(logs);
      assert !AllSelected(selected, logs);
    }
  }

  /** As written, a selection of one log that is no longer displayed, beside one displayed
      log that is not selected, passes the size test: "Deselect All" is shown and pressing
      it clears the selection although no displayed log is selected. */
  lemma StaleSelectionDeselects(stale: LogEntry, shown: LogEntry)
    requires stale.id != shown.id
    ensures |{stale.id}| == |[shown]| && !AllSelected({stale.id}, [shown])
    ensures AfterSelectAllAsWritten({stale.id}, [shown]) == {}
    ensures AfterSelectAll({stale.id}, [shown]) == {shown.id}
  {
    assert [shown][..0] == [];
    assert shown.id in DisplayedIds([shown]);
  }

  /** A repeated id makes the set of displayed ids smaller than the list. */
  lemma {:induction false} RepeatedIdShrinks(logs: seq<LogEntry>)
    requires !DistinctIds(logs)
    ensures |DisplayedIds(logs)| < |logs|
  {
    var init, last := logs[..|logs| - 1], logs[|logs| - 1];
    if !DistinctIds(init) {
      RepeatedIdShrinks(init);
    } else {
      var i, j :| 0 <= i < j < |logs| && logs[i].id == logs[j].id;
      assert init[i].id == last.id;
      assert DisplayedIds(logs) == DisplayedIds(init);
    }
  }

  /** As written, while the selection holds displayed ids only, displayed logs that share
      an id never pass the size test: "Select All" stays on offer and selects the displayed
      ids again, even when every displayed log is already selected, where the intended
      test clears. */
  lemma DuplicateIdsNeverDeselect(selected: set<string>, logs: seq<LogEntry>)
    requires !DistinctIds(logs) && selected <= DisplayedIds(logs)
    ensures |selected| < |logs|
    ensures AfterSelectAllAsWritten(selected, logs) == DisplayedIds(logs)
    ensures AllSelected(selected, logs) ==> AfterSelectAll(selected, logs) == {}
  {
    RepeatedIdShrinks(logs);
    assert |selected| <= |DisplayedIds(logs)| by {
      assert DisplayedIds(logs) == selected + (DisplayedIds(logs) - selected);
    }
  }

  /** Pressing "Select All" twice from a selection that misses a displayed log selects
      every displayed log and then clears the selection, whatever the ids. */
  lemma SelectAllTwiceClears(selected: set<string>, logs: seq<LogEntry>)
    requires !AllSelected(selected, logs)
    ensures AfterSelectAll(selected, logs) == DisplayedIds(logs)
    ensures AfterSelectAll(AfterSelectAll(selected, logs), logs) == {}
  {
    var once := AfterSelectAll(selected, logs);
    assert once != {};
    assert once == DisplayedIds(logs);
    assert AllSelected(once, logs);
  }

  /** The body `handleBulkDelete` sends, for the selection listed as `ids`. */
  function BulkDeleteBody(ids: seq<string>): Value {
    Obj(map["logIds" := Arr(seq(|ids|, i requires 0 <= i < |ids| => Str(ids[i])))])
  }

  /** A selection of more than 500 logs is refused by the endpoint before anything is
      deleted, so the handler reports a failure and keeps the selection. */
  lemma LargeSelectionRefused(ids: seq<string>)
    requires |ids| > BulkDelete.MaxBatch
    ensures BulkDelete.CheckIds(BulkDeleteBody(ids)) == Err(BadRequest(BulkDelete.TooManyIdsError))
  {
  }

  class Dashboard {
    var logs: seq<LogEntry>
    var levelFilter: string
    var applicationFilter: string
    var loggerFilter: string
    var useridFilter: string
    var selectedLogs: set<string>
    var showSelection: bool
    var error: string

    function CurrentFilters(): Filters
      reads this
    {
      Filters(levelFilter, applicationFilter, loggerFilter, useridFilter)
    }

    /** The state on first render. */
    constructor ()
      ensures logs == [] && CurrentFilters() == NoFilters
      ensures selectedLogs == {} && !showSelection && error == ""
    {
      logs := [];
      levelFilter, applicationFilter, loggerFilter, useridFilter := "all", "all", "all", "";
      selectedLogs := {};
      showSelection := false;
      error := "";
    }

    /** The snapshot callback: the displayed logs become the filtered snapshot. */
    method OnSnapshot(snapshot: seq<LogEntry>)
      modifies this
      ensures logs == FilterLogs(snapshot, CurrentFilters()) && error == ""
      ensures CurrentFilters() == old(CurrentFilters())
      ensures selectedLogs == old(selectedLogs) && showSelection == old(showSelection)
    {
      logs := FilterLogs(snapshot, CurrentFilters());
      error := "";
    }

    /** The subscription's error callback: the displayed logs stay as they were. */
    method OnSnapshotError(message: string)
      modifies this
      ensures error == FetchFailedPrefix + message
      ensures logs == old(logs) && CurrentFilters() == old(CurrentFilters())
      ensures selectedLogs == old(selectedLogs) && showSelection == old(showSelection)
    {
      error := FetchFailedPrefix + message;
    }

    /** The filter controls' change handlers. The displayed logs change with the next
        snapshot, which the re-created subscription delivers. */
    method SetFilters(f: Filters)
      modifies this
      ensures CurrentFilters() == f
      ensures logs == old(logs) && error == old(error)
      ensures selectedLogs == old(selectedLogs) && showSelection == old(showSelection)
    {
      levelFilter, applicationFilter, loggerFilter, useridFilter := f.level, f.application, f.logger, f.userid;
    }

    /** `handleSelectLog`: one log's checkbox. */
    method HandleSelectLog(logId: string, isSelected: bool)
      modifies this
      ensures logId in selectedLogs <==> isSelected
      ensures forall id :: id != logId ==> (id in selectedLogs <==> id in old(selectedLogs))
      ensures logs == old(logs) && CurrentFilters() == old(CurrentFilters())
      ensures showSelection == old(showSelection) && error == old(error)
    {
      if isSelected {
        selectedLogs := selectedLogs + {logId};
      } else {
        selectedLogs := selectedLogs - {logId};
      }
    }

    /** `handleSelectAll`, with the intended test "every displayed log is selected" in
        place of the size test the source makes (`AfterSelectAllAsWritten`). */
    method HandleSelectAll()
      modifies this
      ensures selectedLogs == AfterSelectAll(old(selectedLogs), logs)
      ensures AllSelected(old(selectedLogs), logs) ==> selectedLogs == {}
      ensures !AllSelected(old(selectedLogs), logs) ==>
                forall id :: id in selectedLogs <==> exists i :: 0 <= i < |logs| && logs[i].id == id
      ensures logs == old(logs) && CurrentFilters() == old(CurrentFilters())
      ensures showSelection == old(showSelection) && error == old(error)
    {
      selectedLogs := AfterSelectAll(selectedLogs, logs);
    }

    /** `toggleSelectionMode`. */
    method ToggleSelectionMode()
      modifies this
      ensures showSelection == !old(showSelection) && selectedLogs == {}
      ensures logs == old(logs) && CurrentFilters() == old(CurrentFilters()) && error == old(error)
    {
      showSelection := !showSelection;
      selectedLogs := {};
    }

    /** `clearFilters`: every filter off, the selection emptied, selection mode left. */
    method ClearFilters()
      modifies this
      ensures CurrentFilters() == NoFilters
      ensures selectedLogs == {} && !showSelection
      ensures logs == old(logs) && error == old(error)
    {
      levelFilter, applicationFilter, loggerFilter, useridFilter := "all", "all", "all", "";
      selectedLogs := {};
      showSelection := false;
    }

    /** `handleDeleteLog`, after the single-delete request answered `ok` or not. */
    method HandleDeleteLog(logId: string, responseOk: bool)
      modifies this
      ensures responseOk ==> selectedLogs == old(selectedLogs) - {logId} && error == old(error)
      ensures !responseOk ==> selectedLogs == old(selectedLogs) && error == DeleteFailedError
      ensures logs == old(logs) && CurrentFilters() == old(CurrentFilters())
      ensures showSelection == old(showSelection)
    {
      if responseOk {
        selectedLogs := selectedLogs - {logId};
      } else {
        error := DeleteFailedError;
      }
    }

    /** `handleBulkDelete`: nothing happens for an empty selection; otherwise the selection
        is sent, and `responseOk` is whether the endpoint answered with a 2xx status. */
    method HandleBulkDelete(responseOk: bool) returns (requested: bool)
      modifies this
      ensures requested <==> old(selectedLogs) != {}
      ensures !requested ==> selectedLogs == old(selectedLogs) && showSelection == old(showSelection)
                             && error == old(error)
      ensures requested && responseOk ==> selectedLogs == {} && !showSelection && error == old(error)
      ensures requested && !responseOk ==>
                selectedLogs == old(selectedLogs) && showSelection == old(showSelection)
                && error == SelectedDeleteFailedError
      ensures logs == old(logs) && CurrentFilters() == old(CurrentFilters())
    {
      if |selectedLogs| == 0 {
        return false;
      }
      requested := true;
      if responseOk {
        selectedLogs := {};
        showSelection := false;
      } else {
        error := SelectedDeleteFailedError;
      }
    }
  }

  /** Two logs, one at level "info" and one at level "error": each level filter displays
      exactly one of them. */
  lemma LevelFilterSplits(a: LogEntry, b: LogEntry)
    requires a.level == "info" && b.level == "error"
    ensures FilterLogs([a, b], NoFilters.(level := "info")) == [a]
    ensures FilterLogs([a, b], NoFilters.(level := "error")) == [b]
  {
    assert TrimStart("") == "";
    assert [a, b][1..] == [b];
    assert [b][1..] == [];
  }

  /** A state the dashboard reaches in which the size test goes wrong: enter selection
      mode, filter to level "info" so only log "a" is displayed, press "Select All", then
      filter to level "error" so the next snapshot displays only log "b". The selection
      still holds "a", as large as the one-log list, while "b" is not selected. */
  method StaleSelectionReached() returns (d: Dashboard)
    ensures d.showSelection
    ensures d.logs == [LogEntry("b", "u", "app", "main", Num(2), "error", "m", None)]
    ensures d.selectedLogs == {"a"} && |d.selectedLogs| == |d.logs|
    ensures !AllSelected(d.selectedLogs, d.logs)
    ensures AfterSelectAllAsWritten(d.selectedLogs, d.logs) == {}
  {
    var a := LogEntry("a", "u", "app", "main", Num(1), "info", "m", None);
    var b := LogEntry("b", "u", "app", "main", Num(2), "error", "m", None);
    LevelFilterSplits(a, b);
    d := new Dashboard();
    d.ToggleSelectionMode();
    d.SetFilters(NoFilters.(level := "info"));
    d.OnSnapshot([a, b]);
    assert d.logs == [a] && d.selectedLogs == {};
    assert [a][..0] == [];
    assert DisplayedIds([a]) == {"a"};
    d.HandleSelectAll();
    assert d.selectedLogs == {"a"} && d.showSelection;
    d.SetFilters(NoFilters.(level := "error"));
    d.OnSnapshot([a, b]);
    StaleSelectionDeselects(a, b);
  }
}
