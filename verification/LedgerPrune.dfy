/** `prune` of testkit/failures/store.py, and what pruning does to the list of open failures. */
module LedgerPrune {
  import opened Common
  import opened Ledger
  import opened RunNames

  predicate Stale(run: RunFile, cutoff: int) {
    run.stamp.Some? && run.stamp.value < cutoff
  }

  /** How many of the oldest runs the newest `keep` leave unprotected. */
  function Unprotected(n: nat, keep: int): (free: nat)
    ensures free <= n
  {
    if keep <= 0 then n else if keep >= n then 0 else n - keep
  }

  /** Of the runs, those that are stale among the first `free` (when `gone`), or all the others. */
  function Sift(runs: seq<RunFile>, free: nat, cutoff: int, gone: bool): seq<RunFile>
    decreases |runs|
  {
    if runs == [] then []
    else
      var rest := Sift(runs[1..], if free > 0 then free - 1 else 0, cutoff, gone);
      if (free > 0 && Stale(runs[0], cutoff)) == gone then [runs[0]] + rest else rest
  }

  function Kept(runs: seq<RunFile>, keep: int, cutoff: int): seq<RunFile> {
    Sift(runs, Unprotected(|runs|, keep), cutoff, false)
  }

  function Removed(runs: seq<RunFile>, keep: int, cutoff: int): seq<RunFile> {
    Sift(runs, Unprotected(|runs|, keep), cutoff, true)
  }

  /** Each file is listed once. */
  ghost predicate DistinctPaths(runs: seq<RunFile>) {
    forall i, j :: 0 <= i < j < |runs| ==> runs[i].path != runs[j].path
  }

  /** The newest `keep` runs are protected by path; of the others the stale ones are deleted. */
  method Prune(runs: seq<RunFile>, keep: int, cutoff: int) returns (left: seq<RunFile>, removed: seq<RunFile>)
    requires DistinctPaths(runs)
    ensures left == Kept(runs, keep, cutoff) && removed == Removed(runs, keep, cutoff)
    ensures multiset(left) + multiset(removed) == multiset(runs)
    ensures forall i: nat :: i < |runs| ==> (runs[i] in removed <==> Goes(runs, keep, cutoff, i))
    ensures forall i: nat :: i < |runs| ==> (runs[i] in left <==> !Goes(runs, keep, cutoff, i))
  {
    PruneSelects(runs, keep, cutoff);
    left, removed := DeleteStale(runs, keep, cutoff);
    SiftPartitions(runs, Unprotected(|runs|, keep), cutoff);
  }

  method DeleteStale(runs: seq<RunFile>, keep: int, cutoff: int) returns (left: seq<RunFile>, removed: seq<RunFile>)
    requires DistinctPaths(runs)
    ensures left == Kept(runs, keep, cutoff) && removed == Removed(runs, keep, cutoff)
  {
    var free := Unprotected(|runs|, keep);
    var protected := ProtectedPaths(runs, free);
    left, removed := [], [];
    ghost var todo := free;
    for i := 0 to |runs|
      invariant todo == if free > i then free - i else 0
      invariant left + Sift(runs[i..], todo, cutoff, false) == Kept(runs, keep, cutoff)
      invariant removed + Sift(runs[i..], todo, cutoff, true) == Removed(runs, keep, cutoff)
    {
      SiftHead(runs, i, todo, cutoff);
      ghost var goes := todo > 0 && Stale(runs[i], cutoff);
      if runs[i].path !in protected && runs[i].stamp.Some? && runs[i].stamp.value < cutoff {
        assert goes;
        removed := removed + [runs[i]];
      } else {
        assert !goes;
        left := left + [runs[i]];
      }
      todo := if todo > 0 then todo - 1 else 0;
    }
  }

  /** The paths of the newest runs: those behind the first `free`. */
  method ProtectedPaths(runs: seq<RunFile>, free: nat) returns (paths: set<string>)
    requires DistinctPaths(runs)
    ensures forall i :: 0 <= i < |runs| ==> (runs[i].path in paths <==> i >= free)
  {
    paths := set i | free <= i < |runs| :: runs[i].path;
  }

  lemma {:induction false} SiftHead(runs: seq<RunFile>, i: nat, free: nat, cutoff: int)
    requires i < |runs|
    ensures var less := if free > 0 then free - 1 else 0;
      var goes := free > 0 && Stale(runs[i], cutoff);
      && Sift(runs[i..], free, cutoff, true) == (if goes then [runs[i]] else []) + Sift(runs[i + 1..], less, cutoff, true)
      && Sift(runs[i..], free, cutoff, false) == (if goes then [] else [runs[i]]) + Sift(runs[i + 1..], less, cutoff, false)
  {
    assert runs[i..][0] == runs[i] && runs[i..][1..] == runs[i + 1..];
  }

  // ---------------------------------------------------------------- what goes and what stays

  ghost predicate GoesAt(runs: seq<RunFile>, i: int, free: nat, cutoff: int, r: RunFile) {
    0 <= i < |runs| && i < free && runs[i] == r && Stale(r, cutoff)
  }

  /** Exactly the unprotected runs with a readable stamp before the cutoff are removed. */
  lemma {:induction false} SiftMeans(runs: seq<RunFile>, free: nat, cutoff: int, r: RunFile)
    ensures r in Sift(runs, free, cutoff, true) <==> exists i :: GoesAt(runs, i, free, cutoff, r)
    decreases |runs|
  {
    if runs != [] {
      var less := if free > 0 then free - 1 else 0;
      SiftMeans(runs[1..], less, cutoff, r);
      if i :| GoesAt(runs, i, free, cutoff, r) {
        assert i > 0 ==> GoesAt(runs[1..], i - 1, less, cutoff, r);
      }
      if i :| GoesAt(runs[1..], i, less, cutoff, r) {
        assert GoesAt(runs, i + 1, free, cutoff, r);
      }
      assert free > 0 && Stale(runs[0], cutoff) && runs[0] == r ==> GoesAt(runs, 0, free, cutoff, r);
    }
  }

  /** What may go: a run with a readable start before the cutoff that is not among the newest `keep`. */
  ghost predicate Goes(runs: seq<RunFile>, keep: int, cutoff: int, i: nat) {
    i < |runs| && runs[i].stamp.Some? && runs[i].stamp.value < cutoff && (keep <= 0 || i < |runs| - keep)
  }

  /** The runs at some positions. */
  ghost predicate Stand(some: seq<RunFile>, runs: seq<RunFile>, at: seq<nat>) {
    |at| == |some| && Increasing(at) && forall a :: 0 <= a < |at| ==> at[a] < |runs| && runs[at[a]] == some[a]
  }

  /** Where the runs of a sifting stand. */
  lemma {:induction false} SiftStands(runs: seq<RunFile>, free: nat, cutoff: int, gone: bool) returns (at: seq<nat>)
    ensures Stand(Sift(runs, free, cutoff, gone), runs, at)
    ensures forall i: nat :: i in at <==> i < |runs| && (i < free && Stale(runs[i], cutoff)) == gone
    decreases |runs|
  {
    at := [];
    if runs != [] {
      var less := if free > 0 then free - 1 else 0;
      var rest := SiftStands(runs[1..], less, cutoff, gone);
      StandLater(Sift(runs[1..], less, cutoff, gone), runs, rest);
      StandNext(Sift(runs[1..], less, cutoff, gone), runs, rest);
      at := if (free > 0 && Stale(runs[0], cutoff)) == gone then [0] + Later(rest) else Later(rest);
    }
  }

  lemma {:induction false} StandLater(some: seq<RunFile>, runs: seq<RunFile>, at: seq<nat>)
    requires runs != [] && Stand(some, runs[1..], at)
    ensures Stand(some, runs, Later(at))
  {
    LaterIncreasing(at);
  }

  lemma {:induction false} StandNext(some: seq<RunFile>, runs: seq<RunFile>, at: seq<nat>)
    requires runs != [] && Stand(some, runs[1..], at)
    ensures Stand([runs[0]] + some, runs, [0] + Later(at))
  {
    LaterIncreasing(at);
    StandLater(some, runs, at);
    var places, all, later := [0] + Later(at), [runs[0]] + some, Later(at);
    forall k | 0 <= k < |places| ensures places[k] < |runs| && runs[places[k]] == all[k] {
      if k > 0 {
        assert places[k] == later[k - 1] && all[k] == some[k - 1];
      }
    }
  }

  /** Exactly the runs outside the newest `keep` with a readable start before the cutoff are removed;
      the others are kept; and both stand in the order of the listing. */
  lemma {:induction false} PruneMeans(runs: seq<RunFile>, keep: int, cutoff: int) returns (gone: seq<nat>, stay: seq<nat>)
    ensures Stand(Removed(runs, keep, cutoff), runs, gone) && Stand(Kept(runs, keep, cutoff), runs, stay)
    ensures forall i: nat :: i in gone <==> Goes(runs, keep, cutoff, i)
    ensures forall i: nat :: i in stay <==> i < |runs| && !Goes(runs, keep, cutoff, i)
  {
    gone := SiftStands(runs, Unprotected(|runs|, keep), cutoff, true);
    stay := SiftStands(runs, Unprotected(|runs|, keep), cutoff, false);
  }

  /** Since each file is listed once, a run is removed or kept as its position says. */
  lemma {:induction false} PruneSelects(runs: seq<RunFile>, keep: int, cutoff: int)
    requires DistinctPaths(runs)
    ensures forall i: nat :: i < |runs| ==> (runs[i] in Removed(runs, keep, cutoff) <==> Goes(runs, keep, cutoff, i))
    ensures forall i: nat :: i < |runs| ==> (runs[i] in Kept(runs, keep, cutoff) <==> !Goes(runs, keep, cutoff, i))
  {
    var gone, stay := PruneMeans(runs, keep, cutoff);
    forall i: nat | i < |runs|
      ensures runs[i] in Removed(runs, keep, cutoff) <==> i in gone
      ensures runs[i] in Kept(runs, keep, cutoff) <==> i in stay
    {
      StandsAt(Removed(runs, keep, cutoff), runs, gone, i);
      StandsAt(Kept(runs, keep, cutoff), runs, stay, i);
    }
  }

  lemma {:induction false} StandsAt(some: seq<RunFile>, runs: seq<RunFile>, at: seq<nat>, i: nat)
    requires DistinctPaths(runs) && Stand(some, runs, at) && i < |runs|
    ensures runs[i] in some <==> i in at
  {
    if i in at {
      var a :| 0 <= a < |at| && at[a] == i;
      assert some[a] == runs[i];
    }
    if runs[i] in some {
      var a :| 0 <= a < |some| && some[a] == runs[i];
      assert runs[at[a]].path == runs[i].path;
    }
  }

  /** The newest `keep` runs survive, however old they are. */
  lemma {:induction false} NewestSurvive(runs: seq<RunFile>, keep: int, cutoff: int, i: nat)
    requires keep > 0 && |runs| - keep <= i < |runs|
    ensures runs[i] in Kept(runs, keep, cutoff)
    ensures DistinctPaths(runs) ==> runs[i] !in Removed(runs, keep, cutoff)
  {
    var gone, stay := PruneMeans(runs, keep, cutoff);
    assert i in stay;
    var a :| 0 <= a < |stay| && stay[a] == i;
    assert Kept(runs, keep, cutoff)[a] == runs[i];
    if DistinctPaths(runs) {
      PruneSelects(runs, keep, cutoff);
    }
  }

  /** Nothing is lost but what is removed. */
  lemma {:induction false} SiftPartitions(runs: seq<RunFile>, free: nat, cutoff: int)
    ensures multiset(Sift(runs, free, cutoff, true)) + multiset(Sift(runs, free, cutoff, false)) == multiset(runs)
    decreases |runs|
  {
    if runs != [] {
      SiftPartitions(runs[1..], if free > 0 then free - 1 else 0, cutoff);
      assert runs == [runs[0]] + runs[1..];
    }
  }

  lemma {:induction false} NothingStale(runs: seq<RunFile>, free: nat, cutoff: int)
    requires forall i :: 0 <= i < |runs| && i < free ==> !Stale(runs[i], cutoff)
    ensures Sift(runs, free, cutoff, false) == runs && Sift(runs, free, cutoff, true) == []
    decreases |runs|
  {
    if runs != [] {
      NothingStale(runs[1..], if free > 0 then free - 1 else 0, cutoff);
    }
  }

  /** The protected runs stay at the end, behind the unprotected ones that are not stale. */
  lemma {:induction false} KeptShape(runs: seq<RunFile>, free: nat, cutoff: int) returns (recent: seq<RunFile>)
    requires free <= |runs|
    ensures Sift(runs, free, cutoff, false) == recent + runs[free..]
    ensures |recent| <= free && forall r :: r in recent ==> !Stale(r, cutoff)
    decreases |runs|
  {
    if free == 0 {
      NothingStale(runs, 0, cutoff);
      recent := [];
    } else {
      var rest := KeptShape(runs[1..], free - 1, cutoff);
      assert runs[1..][free - 1..] == runs[free..];
      recent := if Stale(runs[0], cutoff) then rest else [runs[0]] + rest;
      assert Sift(runs, free, cutoff, false) == recent + runs[free..];
    }
  }

  /** Pruning again at the same cutoff removes nothing, whatever the stamps. */
  lemma {:induction false} PruneTwice(runs: seq<RunFile>, keep: int, cutoff: int)
    ensures Kept(Kept(runs, keep, cutoff), keep, cutoff) == Kept(runs, keep, cutoff)
    ensures Removed(Kept(runs, keep, cutoff), keep, cutoff) == []
  {
    var free := Unprotected(|runs|, keep);
    var recent := KeptShape(runs, free, cutoff);
    var kept := Kept(runs, keep, cutoff);
    assert Unprotected(|kept|, keep) == |recent|;
    forall i | 0 <= i < |recent|
      ensures !Stale(kept[i], cutoff)
    {
      assert kept[i] == recent[i] && recent[i] in recent;
    }
    NothingStale(kept, |recent|, cutoff);
  }

  // ---------------------------------------------------------------- pruning removes a prefix

  /** What `list_run_files` returns: files whose names match the pattern, sorted by name. */
  ghost predicate Listing(runs: seq<RunFile>) {
    RunsOnly(runs) && SortedNames(runs) && DistinctPaths(runs)
  }

  ghost predicate RunsOnly(runs: seq<RunFile>) {
    forall r :: r in runs ==> IsRunName(r.name) && r.stamp == Started(r.name)
  }

  ghost predicate SortedNames(runs: seq<RunFile>) {
    forall i, j :: 0 <= i < j < |runs| ==> NameLeq(runs[i].name, runs[j].name)
  }

  /** Readable stamps never decrease. */
  ghost predicate Chronological(runs: seq<RunFile>) {
    forall i, j :: 0 <= i < j < |runs| && runs[i].stamp.Some? && runs[j].stamp.Some? ==> runs[i].stamp.value <= runs[j].stamp.value
  }

  lemma {:induction false} ListingIsChronological(runs: seq<RunFile>)
    requires Listing(runs)
    ensures Chronological(runs)
  {
    forall i, j | 0 <= i < j < |runs| && runs[i].stamp.Some? && runs[j].stamp.Some?
      ensures runs[i].stamp.value <= runs[j].stamp.value
    {
      assert runs[i] in runs && runs[j] in runs;
      NamesSortByTime(runs[i].name, runs[j].name);
    }
  }

  /** No run with an unreadable stamp lies before an unprotected stale one. */
  ghost predicate ReadableBefore(runs: seq<RunFile>, free: nat, cutoff: int) {
    forall i, j :: 0 <= i < j < |runs| && j < free && Stale(runs[j], cutoff) ==> runs[i].stamp.Some?
  }

  /** How many of the oldest unprotected runs are stale. */
  function StalePrefix(runs: seq<RunFile>, free: nat, cutoff: int): (m: nat)
    ensures m <= |runs| && m <= free
    decreases |runs|
  {
    if runs != [] && free > 0 && Stale(runs[0], cutoff) then 1 + StalePrefix(runs[1..], free - 1, cutoff) else 0
  }

  lemma {:induction false} SiftsPrefix(runs: seq<RunFile>, free: nat, cutoff: int)
    requires Chronological(runs) && ReadableBefore(runs, free, cutoff)
    ensures Sift(runs, free, cutoff, true) == runs[..StalePrefix(runs, free, cutoff)]
    ensures Sift(runs, free, cutoff, false) == runs[StalePrefix(runs, free, cutoff)..]
    decreases |runs|
  {
    if runs != [] && free > 0 && Stale(runs[0], cutoff) {
      var tail, m := runs[1..], StalePrefix(runs[1..], free - 1, cutoff);
      SiftsPrefix(tail, free - 1, cutoff);
      assert runs[..m + 1] == [runs[0]] + tail[..m] && runs[m + 1..] == tail[m..];
    } else {
      NothingStale(runs, free, cutoff);
    }
  }

  /** With readable stamps, pruning removes a prefix of the listing and keeps the rest. */
  lemma {:induction false} PruneRemovesPrefix(runs: seq<RunFile>, keep: int, cutoff: int)
    requires Listing(runs) && forall r :: r in runs ==> r.stamp.Some?
    ensures var m := |Removed(runs, keep, cutoff)|;
      m <= |runs| && Removed(runs, keep, cutoff) == runs[..m] && Kept(runs, keep, cutoff) == runs[m..]
  {
    ListingIsChronological(runs);
    SiftsPrefix(runs, Unprotected(|runs|, keep), cutoff);
  }

  ghost predicate SplitsAt(runs: seq<RunFile>, keep: int, cutoff: int, m: nat) {
    m <= |runs| && Removed(runs, keep, cutoff) == runs[..m] && Kept(runs, keep, cutoff) == runs[m..]
  }

  /** In general the removed runs are a prefix iff no unreadable stamp lies in front of one of them. */
  lemma {:induction false} PrefixIffReadable(runs: seq<RunFile>, keep: int, cutoff: int)
    requires Listing(runs)
    ensures (exists m: nat :: SplitsAt(runs, keep, cutoff, m)) <==> ReadableBefore(runs, Unprotected(|runs|, keep), cutoff)
  {
    var free := Unprotected(|runs|, keep);
    ListingIsChronological(runs);
    if ReadableBefore(runs, free, cutoff) {
      SiftsPrefix(runs, free, cutoff);
      assert SplitsAt(runs, keep, cutoff, StalePrefix(runs, free, cutoff));
    }
    if m: nat :| SplitsAt(runs, keep, cutoff, m) {
      forall i, j | 0 <= i < j < |runs| && j < free && Stale(runs[j], cutoff)
        ensures runs[i].stamp.Some?
      {
        InRemoved(runs, keep, cutoff, m, j);
        assert runs[i] in runs[..m];
        SiftMeans(runs, free, cutoff, runs[i]);
      }
    }
  }

  /** A name with this stamp. */
  function NameWith(stamp: string): string {
    stamp + "-" + "abcdef0" + "-" + "1" + ".jsonl"
  }

  lemma {:induction false} NameWithIsRunName(stamp: string)
    requires IsStamp(stamp)
    ensures IsRunName(NameWith(stamp)) && NameWith(stamp)[..16] == stamp
  {
    assert NameParts(NameWith(stamp), stamp, "abcdef0", "1");
  }

  /** Month and day zero ... */
  lemma {:induction false} UntimedStamp()
    ensures var stamp := "00000000T000000Z"; IsStamp(stamp) && !IsTime(stamp)
  {
    assert Two("00000000T000000Z", 4) == 0;
  }

  /** ... sort before the first of January 2020. */
  lemma {:induction false} TimedStamp()
    ensures var stamp := "20200101T000000Z"; IsStamp(stamp) && IsTime(stamp)
  {
    var stamp := "20200101T000000Z";
    assert Two(stamp, 0) == 20 && Two(stamp, 2) == 20 && Two(stamp, 4) == 1 && Two(stamp, 6) == 1;
    assert Two(stamp, 9) == 0 && Two(stamp, 11) == 0 && Two(stamp, 13) == 0;
  }

  /** A run name without a valid time, in front of a stale run, survives it. */
  lemma {:induction false} PruneLeavesGap() returns (a: RunFile, b: RunFile, cutoff: nat)
    ensures Listing([a, b]) && Kept([a, b], 0, cutoff) == [a] && Removed([a, b], 0, cutoff) == [b]
  {
    UntimedStamp();
    TimedStamp();
    a, b, cutoff := GapBetween("00000000T000000Z", "20200101T000000Z");
  }

  lemma {:induction false} GapBetween(x: string, y: string) returns (a: RunFile, b: RunFile, cutoff: nat)
    requires IsStamp(x) && IsStamp(y) && x[0] < y[0] && !IsTime(x) && IsTime(y)
    ensures Listing([a, b]) && Kept([a, b], 0, cutoff) == [a] && Removed([a, b], 0, cutoff) == [b]
  {
    NameWithIsRunName(x);
    NameWithIsRunName(y);
    a, b, cutoff := GapOf(NameWith(x), NameWith(y));
  }

  lemma {:induction false} GapOf(x: string, y: string) returns (a: RunFile, b: RunFile, cutoff: nat)
    requires IsRunName(x) && IsRunName(y) && x != [] && y != [] && x[0] < y[0]
    requires Started(x).None? && Started(y).Some?
    ensures Listing([a, b]) && Kept([a, b], 0, cutoff) == [a] && Removed([a, b], 0, cutoff) == [b]
  {
    a, b := RunFile("a", x, Started(x), [], []), RunFile("b", y, Started(y), [], []);
    assert a.path[0] != b.path[0];
    TwoListed(a, b);
    cutoff := b.stamp.value + 1;
    GapSifts(a, b);
  }

  lemma {:induction false} TwoListed(a: RunFile, b: RunFile)
    requires RunsOnly([a]) && RunsOnly([b]) && a.path != b.path && NameLeq(a.name, b.name)
    ensures Listing([a, b])
  {
    TwoRuns(a, b);
    TwoSorted(a, b);
  }

  lemma {:induction false} TwoRuns(a: RunFile, b: RunFile)
    requires RunsOnly([a]) && RunsOnly([b])
    ensures RunsOnly([a, b])
  {
    assert a in [a] && b in [b];
  }

  lemma {:induction false} TwoSorted(a: RunFile, b: RunFile)
    requires NameLeq(a.name, b.name)
    ensures SortedNames([a, b])
  {
  }

  lemma {:induction false} GapSifts(a: RunFile, b: RunFile)
    requires a.stamp.None? && b.stamp.Some?
    ensures Kept([a, b], 0, b.stamp.value + 1) == [a] && Removed([a, b], 0, b.stamp.value + 1) == [b]
  {
    var cutoff := b.stamp.value + 1;
    SiftHead([a, b], 0, 2, cutoff);
    SiftHead([a, b], 1, 1, cutoff);
    assert [a, b][0..] == [a, b] && [a, b][2..] == [];
  }

  lemma {:induction false} InRemoved(runs: seq<RunFile>, keep: int, cutoff: int, m: nat, j: nat)
    requires SplitsAt(runs, keep, cutoff, m) && DistinctPaths(runs)
    requires j < |runs| && j < Unprotected(|runs|, keep) && Stale(runs[j], cutoff)
    ensures j < m
  {
    assert GoesAt(runs, j, Unprotected(|runs|, keep), cutoff, runs[j]);
    SiftMeans(runs, Unprotected(|runs|, keep), cutoff, runs[j]);
    var i :| 0 <= i < m && runs[..m][i] == runs[j];
    assert runs[i].path == runs[j].path;
  }

  // ---------------------------------------------------------------- pruning and open failures

  lemma {:induction false} OpenShifts(runs: seq<RunFile>, m: nat, last: nat, fault: Fault)
    requires m <= |runs|
    ensures OpenSince(runs[m..], last, fault) <==> OpenSince(runs, last + m, fault)
  {
    var rest := runs[m..];
    if last < |rest| {
      assert rest[last] == runs[last + m];
      assert forall j :: 0 <= j < |rest| ==> rest[j] == runs[j + m];
      assert forall j :: m <= j < |runs| ==> runs[j] == rest[j - m];
    }
  }

  lemma {:induction false} OccursInWhole(runs: seq<RunFile>, m: nat, o: Occurrence)
    requires m <= |runs| && o in Occurrences(runs[m..])
    ensures Occurrence(o.run + m, o.fault) in Occurrences(runs)
  {
    var rest, moved := runs[m..], Occurrence(o.run + m, o.fault);
    OccurrenceMeans(rest, o);
    assert rest[o.run] == runs[moved.run];
    OccurrenceMeans(runs, moved);
  }

  lemma {:induction false} SuffixNamesTests(runs: seq<RunFile>, m: nat)
    requires m <= |runs| && PrintsNameTests(runs)
    ensures PrintsNameTests(runs[m..])
  {
    var rest := runs[m..];
    forall a, b | a in Occurrences(rest) && b in Occurrences(rest) && a.fault.fp == b.fault.fp
      ensures a.fault.nodeid == b.fault.nodeid
    {
      OccursInWhole(runs, m, a);
      OccursInWhole(runs, m, b);
    }
  }

  lemma {:induction false} SuffixOpens(runs: seq<RunFile>, m: nat, fp: string) returns (last: nat, fault: Fault)
    requires m <= |runs| && PrintsNameTests(runs) && Listed(runs[m..], fp)
    ensures m <= last && OpenSince(runs, last, fault) && fault.fp == fp
  {
    SuffixNamesTests(runs, m);
    last, fault := ListedWitness(runs[m..], fp);
    OpenShifts(runs, m, last, fault);
    last := last + m;
  }

  lemma {:induction false} SuffixLists(runs: seq<RunFile>, m: nat, last: nat, fault: Fault)
    requires m <= |runs| && PrintsNameTests(runs) && m <= last && OpenSince(runs, last, fault)
    ensures Listed(runs[m..], fault.fp)
  {
    SuffixNamesTests(runs, m);
    OpenShifts(runs, m, last - m, fault);
    OpenIsListed(runs[m..], last - m, fault);
  }

  /** Dropping the oldest `m` runs leaves the open fingerprints whose last failing run stays. */
  lemma {:induction false} SuffixListed(runs: seq<RunFile>, m: nat, fp: string)
    requires m <= |runs| && PrintsNameTests(runs)
    ensures Listed(runs[m..], fp) <==> exists last: nat, fault :: m <= last && OpenSince(runs, last, fault) && fault.fp == fp
  {
    if Listed(runs[m..], fp) {
      var last, fault := SuffixOpens(runs, m, fp);
    }
    if last: nat, fault :| m <= last && OpenSince(runs, last, fault) && fault.fp == fp {
      SuffixLists(runs, m, last, fault);
    }
  }

  /** After pruning, exactly the open fingerprints whose last failing run was kept are listed. */
  lemma {:induction false} PruneKeepsOpen(runs: seq<RunFile>, keep: int, cutoff: int, fp: string)
    requires Listing(runs) && (forall r :: r in runs ==> r.stamp.Some?) && PrintsNameTests(runs)
    ensures Listed(Kept(runs, keep, cutoff), fp)
      <==> exists last: nat, fault :: |Removed(runs, keep, cutoff)| <= last && OpenSince(runs, last, fault) && fault.fp == fp
  {
    PruneRemovesPrefix(runs, keep, cutoff);
    RestListed(runs, |Removed(runs, keep, cutoff)|, Kept(runs, keep, cutoff), fp);
  }

  lemma {:induction false} RestListed(runs: seq<RunFile>, m: nat, rest: seq<RunFile>, fp: string)
    requires m <= |runs| && rest == runs[m..] && PrintsNameTests(runs)
    ensures Listed(rest, fp) <==> exists last: nat, fault :: m <= last && OpenSince(runs, last, fault) && fault.fp == fp
  {
    SuffixListed(runs, m, fp);
  }

  /** A fingerprint that fails in some run after the first `m` is open in all the runs iff it is in those. */
  lemma {:induction false} SuffixFlipsNothing(runs: seq<RunFile>, m: nat, k: nat, fp: string)
    requires m <= k < |runs| && PrintsNameTests(runs) && FailsIn(runs[k], fp)
    ensures Listed(runs[m..], fp) <==> Listed(runs, fp)
  {
    SuffixListed(runs, m, fp);
    ListedMeansOpen(runs, fp);
    if last: nat, fault :| OpenSince(runs, last, fault) && fault.fp == fp {
      assert k <= last;
    }
  }

  /** So a fingerprint that still fails in some kept run never flips between open and closed. */
  lemma {:induction false} PruneFlipsNothing(runs: seq<RunFile>, keep: int, cutoff: int, fp: string, k: nat)
    requires Listing(runs) && (forall r :: r in runs ==> r.stamp.Some?) && PrintsNameTests(runs)
    requires k < |Kept(runs, keep, cutoff)| && FailsIn(Kept(runs, keep, cutoff)[k], fp)
    ensures Listed(Kept(runs, keep, cutoff), fp) <==> Listed(runs, fp)
  {
    PruneRemovesPrefix(runs, keep, cutoff);
    RestFlipsNothing(runs, |Removed(runs, keep, cutoff)|, Kept(runs, keep, cutoff), k, fp);
  }

  lemma {:induction false} RestFlipsNothing(runs: seq<RunFile>, m: nat, rest: seq<RunFile>, k: nat, fp: string)
    requires m <= |runs| && rest == runs[m..] && PrintsNameTests(runs) && k < |rest| && FailsIn(rest[k], fp)
    ensures Listed(rest, fp) <==> Listed(runs, fp)
  {
    assert rest[k] == runs[m + k];
    SuffixFlipsNothing(runs, m, m + k, fp);
  }
}
