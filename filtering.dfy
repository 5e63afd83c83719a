/** The dashboard's client-side filter pipeline: every snapshot of the `logs` collection
    (already ordered by timestamp, newest first) is narrowed by the level, application,
    logger and user-id filters, in that order. */
module Filtering {
  import opened LogTypes

  /** The four filter settings; "all" (or a blank user id) switches a filter off. */
  datatype Filters = Filters(level: string, application: string, logger: string, userid: string)

  /** The settings on first render and after "clear filters". */
  const NoFilters := Filters("all", "all", "all", "")

  /** `Array.prototype.filter`: the entries of `s` that satisfy `p`, in order. */
  function Keep(s: seq<LogEntry>, p: LogEntry -> bool): (r: seq<LogEntry>)
    ensures |r| <= |s|
    ensures IsSubsequence(r, s)
    ensures forall e :: multiset(r)[e] == if p(e) then multiset(s)[e] else 0
  {
    if s == [] then []
    else
      assert s == [s[0]] + s[1..];
      var rest := Keep(s[1..], p);
      if p(s[0]) then [s[0]] + rest else rest
  }

  /** `r` is `s` with some entries left out, the rest kept in order. */
  predicate IsSubsequence(r: seq<LogEntry>, s: seq<LogEntry>)
    decreases |s|
  {
    if r == [] then true
    else if s == [] then false
    else (r[0] == s[0] && IsSubsequence(r[1..], s[1..])) || IsSubsequence(r, s[1..])
  }

  /** The whitespace `String.prototype.trim` strips: the ECMAScript WhiteSpace and
      LineTerminator characters. */
  predicate IsSpace(c: char) {
    var u := c as int;
    (0x09 <= u <= 0x0D) || u == 0x20 || u == 0xA0 || u == 0x1680 || (0x2000 <= u <= 0x200A)
    || u == 0x2028 || u == 0x2029 || u == 0x202F || u == 0x205F || u == 0x3000 || u == 0xFEFF
  }

  function TrimStart(s: string): string {
    if s != [] && IsSpace(s[0]) then TrimStart(s[1..]) else s
  }

  function TrimEnd(s: string): string {
    if s != [] && IsSpace(s[|s| - 1]) then TrimEnd(s[..|s| - 1]) else s
  }

  /** `String.prototype.trim`. */
  function Trim(s: string): string {
    TrimEnd(TrimStart(s))
  }

  predicate Blank(s: string) {
    forall i :: 0 <= i < |s| ==> IsSpace(s[i])
  }

  lemma {:induction false} TrimStartEmpty(s: string)
    ensures TrimStart(s) == [] <==> Blank(s)
    ensures TrimStart(s) != [] ==> !IsSpace(TrimStart(s)[0])
  {
    if s != [] && IsSpace(s[0]) {
      TrimStartEmpty(s[1..]);
      assert Blank(s[1..]) ==> Blank(s) by {
        if Blank(s[1..]) {
          forall i | 0 <= i < |s| ensures IsSpace(s[i]) {
            if i > 0 { assert s[i] == s[1..][i - 1]; }
          }
        }
      }
    }
  }

  lemma {:induction false} TrimEndKeepsNonSpaceHead(s: string)
    requires s != [] && !IsSpace(s[0])
    ensures TrimEnd(s) != []
  {
    if IsSpace(s[|s| - 1]) {
      TrimEndKeepsNonSpaceHead(s[..|s| - 1]);
    }
  }

  /** `s.trim()` is falsy exactly when `s` is all whitespace. */
  lemma TrimEmptyIffBlank(s: string)
    ensures Trim(s) == "" <==> Blank(s)
  {
    TrimStartEmpty(s);
    if TrimStart(s) != [] {
      TrimEndKeepsNonSpaceHead(TrimStart(s));
    }
  }

  /** `needle` is a prefix of `hay`. */
  predicate StartsWith(hay: string, needle: string) {
    |needle| <= |hay| && hay[..|needle|] == needle
  }

  /** `needle` occurs in `hay` starting at index `i`. */
  predicate OccursAt(hay: string, needle: string, i: int) {
    0 <= i && i + |needle| <= |hay| && hay[i..i + |needle|] == needle
  }

  /** An occurrence past the first index is an occurrence in the tail. */
  lemma OccursAtShift(hay: string, needle: string, i: int)
    requires hay != [] && i >= 1
    ensures OccursAt(hay, needle, i) <==> OccursAt(hay[1..], needle, i - 1)
  {
    if i + |needle| <= |hay| {
      assert hay[1..][i - 1..i - 1 + |needle|] == hay[i..i + |needle|];
    }
  }

  /** `String.prototype.includes`. */
  function Contains(hay: string, needle: string): (b: bool)
    ensures b <==> exists i :: OccursAt(hay, needle, i)
  {
    if StartsWith(hay, needle) then
      assert OccursAt(hay, needle, 0);
      true
    else if hay == [] then
      false
    else
      var b := Contains(hay[1..], needle);
      assert b ==> exists i :: OccursAt(hay, needle, i) by {
        if b {
          var i :| OccursAt(hay[1..], needle, i);
          OccursAtShift(hay, needle, i + 1);
        }
      }
      assert (exists i :: OccursAt(hay, needle, i)) ==> b by {
        if exists i :: OccursAt(hay, needle, i) {
          var i :| OccursAt(hay, needle, i);
          assert i != 0;
          OccursAtShift(hay, needle, i);
        }
      }
      b
  }

  /** The user-id filter is on when it has a non-whitespace character (`useridFilter.trim()`). */
  predicate UserFilterActive(userid: string) {
    Trim(userid) != ""
  }

  predicate LevelPasses(f: Filters, e: LogEntry) { f.level == "all" || e.level == f.level }
  predicate ApplicationPasses(f: Filters, e: LogEntry) { f.application == "all" || e.application == f.application }
  predicate LoggerPasses(f: Filters, e: LogEntry) { f.logger == "all" || e.logger == f.logger }
  /** Case-insensitive substring match with the untrimmed filter text. */
  predicate UserPasses(f: Filters, e: LogEntry) {
    !UserFilterActive(f.userid) || Contains(Lower(e.userid), Lower(f.userid))
  }

  /** A log is displayed when it passes every filter. */
  predicate Matches(f: Filters, e: LogEntry) {
    LevelPasses(f, e) && ApplicationPasses(f, e) && LoggerPasses(f, e) && UserPasses(f, e)
  }

  /** The snapshot callback's filter stages, each applied only when its filter is on. */
  function FilterLogs(snapshot: seq<LogEntry>, f: Filters): seq<LogEntry> {
    var byLevel := if f.level != "all" then Keep(snapshot, (e: LogEntry) => e.level == f.level) else snapshot;
    var byApplication := if f.application != "all" then Keep(byLevel, (e: LogEntry) => e.application == f.application) else byLevel;
    var byLogger := if f.logger != "all" then Keep(byApplication, (e: LogEntry) => e.logger == f.logger) else byApplication;
    if UserFilterActive(f.userid) then
      Keep(byLogger, (e: LogEntry) => Contains(Lower(e.userid), Lower(f.userid)))
    else byLogger
  }

  /** Keeping everything is the identity. */
  lemma {:induction false} KeepAll(s: seq<LogEntry>, p: LogEntry -> bool)
    requires forall e :: p(e)
    ensures Keep(s, p) == s
  {
    if s != [] {
      KeepAll(s[1..], p);
    }
  }

  /** Two filters in a row are one filter by the conjunction. */
  lemma {:induction false} KeepTwice(s: seq<LogEntry>, p: LogEntry -> bool, q: LogEntry -> bool, both: LogEntry -> bool)
    requires forall e :: both(e) == (p(e) && q(e))
    ensures Keep(Keep(s, p), q) == Keep(s, both)
  {
    if s != [] {
      KeepTwice(s[1..], p, q, both);
      var rest := Keep(s[1..], p);
      if p(s[0]) {
        assert ([s[0]] + rest)[1..] == rest;
      }
    }
  }

  /** Filtering by two predicates that agree everywhere gives the same list. */
  lemma {:induction false} KeepSame(s: seq<LogEntry>, p: LogEntry -> bool, q: LogEntry -> bool)
    requires forall e :: p(e) == q(e)
    ensures Keep(s, p) == Keep(s, q)
  {
    if s != [] {
      KeepSame(s[1..], p, q);
    }
  }

  /** A stage that is skipped, or applied with `p`, is the filter by `!active || p`. */
  lemma Stage(s: seq<LogEntry>, active: bool, p: LogEntry -> bool, stage: LogEntry -> bool)
    requires forall e :: stage(e) == (!active || p(e))
    ensures (if active then Keep(s, p) else s) == Keep(s, stage)
  {
    if active {
      KeepSame(s, p, stage);
    } else {
      KeepAll(s, stage);
    }
  }

  /** The displayed list is the snapshot's subsequence of logs that pass every filter:
      the filters combine with AND and the snapshot order is kept. */
  lemma FilterIsConjunction(snapshot: seq<LogEntry>, f: Filters)
    ensures FilterLogs(snapshot, f) == Keep(snapshot, e => Matches(f, e))
  {
    var p1 := (e: LogEntry) => LevelPasses(f, e);
    var p2 := (e: LogEntry) => ApplicationPasses(f, e);
    var p3 := (e: LogEntry) => LoggerPasses(f, e);
    var p4 := (e: LogEntry) => UserPasses(f, e);
    var p12 := (e: LogEntry) => LevelPasses(f, e) && ApplicationPasses(f, e);
    var p123 := (e: LogEntry) => LevelPasses(f, e) && ApplicationPasses(f, e) && LoggerPasses(f, e);
    Stage(snapshot, f.level != "all", (e: LogEntry) => e.level == f.level, p1);
    var byLevel := Keep(snapshot, p1);
    Stage(byLevel, f.application != "all", (e: LogEntry) => e.application == f.application, p2);
    KeepTwice(snapshot, p1, p2, p12);
    var byApplication := Keep(snapshot, p12);
    Stage(byApplication, f.logger != "all", (e: LogEntry) => e.logger == f.logger, p3);
    KeepTwice(snapshot, p12, p3, p123);
    var byLogger := Keep(snapshot, p123);
    Stage(byLogger, UserFilterActive(f.userid), (e: LogEntry) => Contains(Lower(e.userid), Lower(f.userid)), p4);
    KeepTwice(snapshot, p123, p4, e => Matches(f, e));
  }

  /** A log is displayed exactly as often as it occurs in the snapshot if it passes every
      filter, and not at all otherwise. */
  lemma FilteredOccurrences(snapshot: seq<LogEntry>, f: Filters, e: LogEntry)
    ensures multiset(FilterLogs(snapshot, f))[e] == if Matches(f, e) then multiset(snapshot)[e] else 0
  {
    FilterIsConjunction(snapshot, f);
  }

  /** The displayed logs keep the snapshot's order (newest first). */
  lemma FilterKeepsOrder(snapshot: seq<LogEntry>, f: Filters)
    ensures IsSubsequence(FilterLogs(snapshot, f), snapshot)
  {
    FilterIsConjunction(snapshot, f);
  }

  /** With every filter off the whole snapshot is displayed. */
  lemma NoFiltersShowEverything(snapshot: seq<LogEntry>)
    ensures FilterLogs(snapshot, NoFilters) == snapshot
  {
    FilterIsConjunction(snapshot, NoFilters);
    assert !UserFilterActive("");
    KeepAll(snapshot, e => Matches(NoFilters, e));
  }

  /** A user-id filter of whitespace only filters nothing: it is the same as an empty one. */
  lemma BlankUserFilterIsOff(snapshot: seq<LogEntry>, f: Filters)
    requires Blank(f.userid)
    ensures FilterLogs(snapshot, f) == FilterLogs(snapshot, f.(userid := ""))
  {
    TrimEmptyIffBlank(f.userid);
    TrimEmptyIffBlank("");
  }
}
