/** The dashboard's figures over the displayed logs: the distinct applications and
    loggers offered as filter choices, and the per-level and per-application counts. */
module Aggregates {
  import opened LogTypes

  /** The field a figure is taken over. */
  datatype Field = LevelField | ApplicationField | LoggerField

  function Project(e: LogEntry, field: Field): string {
    match field
    case LevelField => e.level
    case ApplicationField => e.application
    case LoggerField => e.logger
  }

  /** `logs.map(log => log.<field>)`. */
  function Projected(logs: seq<LogEntry>, field: Field): seq<string> {
    seq(|logs|, i requires 0 <= i < |logs| => Project(logs[i], field))
  }

  predicate NoDuplicates(xs: seq<string>) {
    forall i, j :: 0 <= i < j < |xs| ==> xs[i] != xs[j]
  }

  /** `[...new Set(xs)]`: the distinct values of `xs`, each once, in order of first occurrence. */
  function Unique(xs: seq<string>): (r: seq<string>)
    ensures NoDuplicates(r)
    ensures forall x :: x in r <==> x in xs
    ensures |r| <= |xs|
  {
    if xs == [] then []
    else
      var u := Unique(xs[..|xs| - 1]);
      var last := xs[|xs| - 1];
      assert xs == xs[..|xs| - 1] + [last];
      if last in u then u else u + [last]
  }

  /** `[...new Set(logs.map(log => log.<field>))]`: `uniqueApplications` for the
      application field, `uniqueLoggers` for the logger field. */
  function UniqueValues(logs: seq<LogEntry>, field: Field): (values: seq<string>)
    ensures NoDuplicates(values)
    ensures forall v :: v in values <==> exists i :: 0 <= i < |logs| && Project(logs[i], field) == v
  {
    var keys := Projected(logs, field);
    assert |keys| == |logs| && forall i :: 0 <= i < |logs| ==> keys[i] == Project(logs[i], field);
    assert forall v :: v in keys <==> exists i :: 0 <= i < |logs| && Project(logs[i], field) == v by {
      forall v ensures v in keys <==> exists i :: 0 <= i < |logs| && Project(logs[i], field) == v {
        if v in keys {
          var i :| 0 <= i < |keys| && keys[i] == v;
          assert Project(logs[i], field) == v;
        }
      }
    }
    Unique(keys)
  }

  /** How many entries of `xs` equal `k`. */
  function Occurrences(xs: seq<string>, k: string): nat {
    if xs == [] then 0
    else Occurrences(xs[..|xs| - 1], k) + (if xs[|xs| - 1] == k then 1 else 0)
  }

  /** The total of `counts` over the keys `ks`. */
  function SumOver(counts: map<string, nat>, ks: seq<string>): nat
    requires forall k :: k in ks ==> k in counts
  {
    if ks == [] then 0
    else SumOver(counts, ks[..|ks| - 1]) + counts[ks[|ks| - 1]]
  }

  /** The total, over the keys `ks`, of how often each occurs in `xs`. */
  function SumOccurrences(xs: seq<string>, ks: seq<string>): nat {
    if ks == [] then 0
    else SumOccurrences(xs, ks[..|ks| - 1]) + Occurrences(xs, ks[|ks| - 1])
  }

  lemma {:induction false} OccurrencesAbsent(xs: seq<string>, k: string)
    requires k !in xs
    ensures Occurrences(xs, k) == 0
  {
    if xs != [] {
      OccurrencesAbsent(xs[..|xs| - 1], k);
    }
  }

  lemma {:induction false} OccurrencesOnce(xs: seq<string>, k: string)
    requires NoDuplicates(xs) && k in xs
    ensures Occurrences(xs, k) == 1
  {
    var init := xs[..|xs| - 1];
    if xs[|xs| - 1] == k {
      OccurrencesAbsent(init, k);
    } else {
      assert k in init by {
        var i :| 0 <= i < |xs| && xs[i] == k;
        assert init[i] == k;
      }
      OccurrencesOnce(init, k);
    }
  }

  /** Appending `x` to `xs` adds, for the keys `ks`, the number of times `x` is among them. */
  lemma {:induction false} SumOccurrencesSnoc(xs: seq<string>, x: string, ks: seq<string>)
    ensures SumOccurrences(xs + [x], ks) == SumOccurrences(xs, ks) + Occurrences(ks, x)
  {
    assert (xs + [x])[..|xs|] == xs;
    if ks != [] {
      SumOccurrencesSnoc(xs, x, ks[..|ks| - 1]);
    }
  }

  /** Counting every distinct value of `xs` once accounts for every entry of `xs`. */
  lemma {:induction false} CountsCoverEverything(xs: seq<string>)
    ensures SumOccurrences(xs, Unique(xs)) == |xs|
  {
    if xs != [] {
      var init, last := xs[..|xs| - 1], xs[|xs| - 1];
      assert xs == init + [last];
      var u := Unique(init);
      CountsCoverEverything(init);
      SumOccurrencesSnoc(init, last, u);
      if last in u {
        OccurrencesOnce(u, last);
      } else {
        OccurrencesAbsent(u, last);
        assert last !in init;
        OccurrencesAbsent(init, last);
        assert Unique(xs) == u + [last];
        assert (u + [last])[..|u|] == u;
      }
    }
  }

  /** Sums over the same keys agree when the counts are the occurrences. */
  lemma {:induction false} SumOverIsSumOccurrences(counts: map<string, nat>, xs: seq<string>, ks: seq<string>)
    requires forall k :: k in ks ==> k in counts && counts[k] == Occurrences(xs, k)
    ensures SumOver(counts, ks) == SumOccurrences(xs, ks)
  {
    if ks != [] {
      SumOverIsSumOccurrences(counts, xs, ks[..|ks| - 1]);
    }
  }

  /** `acc` holds, for each value of `keys` and no other, its number of occurrences. */
  ghost predicate Tallies(acc: map<string, nat>, keys: seq<string>) {
    (forall k :: k in acc <==> k in keys)
    && forall k :: k in acc ==> acc[k] == Occurrences(keys, k) && acc[k] > 0
  }

  /** One step of the reduction: counting one more key. */
  lemma TalliesSnoc(acc: map<string, nat>, keys: seq<string>, key: string)
    requires Tallies(acc, keys)
    ensures Tallies(acc[key := (if key in acc then acc[key] else 0) + 1], keys + [key])
  {
    var keys' := keys + [key];
    assert keys'[..|keys|] == keys;
    if key !in acc {
      OccurrencesAbsent(keys, key);
    }
    var acc' := acc[key := (if key in acc then acc[key] else 0) + 1];
    forall k ensures k in acc' <==> k in keys' {
    }
    forall k | k in acc' ensures acc'[k] == Occurrences(keys', k) {
    }
  }

  /** `logCounts` for the level field, `applicationCounts` for the application field: one
      count per value, read from the accumulator's own keys only. This is the intended
      reduction; `TallyAsWritten` below is the one the dashboard runs, which also reads
      keys inherited by an object literal. */
  method CountBy(logs: seq<LogEntry>, field: Field) returns (acc: map<string, nat>)
    // a key for every value present in the logs, and no other
    ensures forall k :: k in acc <==> k in Projected(logs, field)
    // each count is the number of logs with that value
    ensures forall k :: k in acc ==> acc[k] == Occurrences(Projected(logs, field), k) && acc[k] > 0
    // the counts, taken once per distinct value, add up to the number of logs
    ensures SumOver(acc, Unique(Projected(logs, field))) == |logs|
  {
    ghost var keys := Projected(logs, field);
    acc := map[];
    for i := 0 to |logs|
      invariant Tallies(acc, keys[..i])
    {
      var key := Project(logs[i], field);
      assert keys[..i + 1] == keys[..i] + [key];
      TalliesSnoc(acc, keys[..i], key);
      acc := acc[key := (if key in acc then acc[key] else 0) + 1];
    }
    assert keys[..|logs|] == keys;
    CountsCoverEverything(keys);
    SumOverIsSumOccurrences(acc, keys, Unique(keys));
  }

  /** A property of the accumulator object as the source's reduction reads it. */
  datatype Slot = Undefined | Number(n: nat) | Text(s: string)

  /** The methods every object literal inherits from `Object.prototype`, with the string
      each converts to; any other key reads as `undefined`. */
  function Inherited(key: string): Slot {
    if key == "constructor" then Text("function Object() { [native code] }")
    else if key in {"toString", "toLocaleString", "valueOf", "hasOwnProperty", "isPrototypeOf",
                    "propertyIsEnumerable", "__defineGetter__", "__defineSetter__",
                    "__lookupGetter__", "__lookupSetter__"}
    then Text("function " + key + "() { [native code] }")
    else Undefined
  }

  /** `acc[key]` on an object literal: an own property, else an inherited one. */
  function Read(acc: map<string, Slot>, key: string): Slot {
    if key in acc then acc[key] else Inherited(key)
  }

  /** `(v || 0) + 1`: a truthy string is concatenated with "1" instead of being added to. */
  function Bump(v: Slot): Slot {
    match v
    case Undefined => Number(1)
    case Number(n) => Number(n + 1)
    case Text(s) => if s == "" then Number(1) else Text(s + "1")
  }

  /** The count reduction as written, over the projected keys, with the accumulator an
      object literal `{}`. */
  function TallyAsWritten(keys: seq<string>): map<string, Slot> {
    if keys == [] then map[]
    else
      var acc := TallyAsWritten(keys[..|keys| - 1]);
      var key := keys[|keys| - 1];
      acc[key := Bump(Read(acc, key))]
  }

  /** For keys that are not inherited member names, the reduction as written counts
      correctly: each key's slot is the number of its occurrences. */
  lemma {:induction false} TallyAsWrittenCountsPlainKeys(keys: seq<string>)
    requires forall i :: 0 <= i < |keys| ==> Inherited(keys[i]) == Undefined
    ensures forall k :: k in TallyAsWritten(keys) <==> k in keys
    ensures forall k :: k in TallyAsWritten(keys) ==> TallyAsWritten(keys)[k] == Number(Occurrences(keys, k))
  {
    if keys != [] {
      var init := keys[..|keys| - 1];
      TallyAsWrittenCountsPlainKeys(init);
      assert keys == init + [keys[|keys| - 1]];
      if keys[|keys| - 1] !in init {
        OccurrencesAbsent(init, keys[|keys| - 1]);
      }
    }
  }

  /** One log from an application named "constructor" is not counted as 1: its count is
      the inherited `Object` constructor's source text followed by "1". */
  lemma InheritedKeyMiscounted()
    ensures TallyAsWritten(["constructor"])["constructor"] == Text("function Object() { [native code] }1")
    ensures TallyAsWritten(["constructor"])["constructor"] != Number(Occurrences(["constructor"], "constructor"))
  {
    assert ["constructor"][..0] == [];
  }
}
