/** What a run file's header and the rows of `open_failures` say, record by record. */
module LedgerRows {
  import opened Common
  import opened Ledger

  // ---------------------------------------------------------------- the header

  /** The last record of which `p` holds is the i-th. */
  ghost predicate LastOf(records: seq<Record>, p: Record -> bool, i: nat) {
    i < |records| && p(records[i]) && forall j :: i < j < |records| ==> !p(records[j])
  }

  ghost predicate NoneOf(records: seq<Record>, p: Record -> bool) {
    forall i :: 0 <= i < |records| ==> !p(records[i])
  }

  predicate IsStart(r: Record) {
    r.RunStart?
  }

  /** The start time is that of the last run_start record; without one there is none. */
  lemma {:induction false} SeenAtMeans(records: seq<Record>, i: nat)
    ensures NoneOf(records, IsStart) ==> SeenAt(records) == ""
    ensures LastOf(records, IsStart, i) ==> SeenAt(records) == records[i].startedAt
    decreases |records|
  {
    if records != [] {
      var n := |records| - 1;
      SeenAtMeans(records[..n], i);
      if LastOf(records, IsStart, i) && i < n {
        assert LastOf(records[..n], IsStart, i);
      }
    }
  }

  /** The id is that of the last run_start record that has one; without one it is the file's name. */
  lemma {:induction false} RunIdMeans(records: seq<Record>, stem: string, i: nat)
    ensures NoneOf(records, Identified) ==> RunId(records, stem) == stem
    ensures LastOf(records, Identified, i) ==> RunId(records, stem) == records[i].runId
    decreases |records|
  {
    if records != [] {
      var n := |records| - 1;
      RunIdMeans(records[..n], stem, i);
      if LastOf(records, Identified, i) && i < n {
        assert LastOf(records[..n], Identified, i);
      }
    }
  }

  predicate Identified(r: Record) {
    r.RunStart? && r.runId != ""
  }

  lemma {:induction false} StemMeans(run: RunFile, stem: string)
    requires run.name == stem + ".jsonl"
    ensures Stem(run) == stem
  {
  }

  // ---------------------------------------------------------------- the failure records

  /** The k-th record of the i-th run. */
  datatype Place = Place(run: nat, record: nat)

  predicate Before(a: Place, b: Place) {
    a.run < b.run || (a.run == b.run && a.record < b.record)
  }

  /** A failure record with a fingerprint stands there. */
  predicate IsFailure(runs: seq<RunFile>, p: Place) {
    && p.run < |runs| && p.record < |runs[p.run].records|
    && runs[p.run].records[p.record].Failure? && runs[p.run].records[p.record].fault.fp != ""
  }

  function FaultAt(runs: seq<RunFile>, p: Place): Fault
    requires IsFailure(runs, p)
  {
    runs[p.run].records[p.record].fault
  }

  /** Where the occurrences stand: each at its record, in order. */
  ghost predicate Stand(occ: seq<Occurrence>, runs: seq<RunFile>, at: seq<Place>) {
    && |at| == |occ|
    && (forall x :: 0 <= x < |at| ==> IsFailure(runs, at[x]) && occ[x] == Occurrence(at[x].run, FaultAt(runs, at[x])))
    && (forall x, y :: 0 <= x < y < |at| ==> Before(at[x], at[y]))
  }

  predicate Fails(r: Record) {
    r.Failure? && r.fault.fp != ""
  }

  ghost predicate FaultsAt(records: seq<Record>, faults: seq<Fault>, at: seq<nat>) {
    && |at| == |faults| && Increasing(at)
    && (forall k: nat :: k in at <==> k < |records| && Fails(records[k]))
    && (forall x :: 0 <= x < |at| ==> at[x] < |records| && Fails(records[at[x]]) && faults[x] == records[at[x]].fault)
  }

  lemma {:induction false} FaultsNext(records: seq<Record>, r: Record, faults: seq<Fault>, at: seq<nat>)
    requires FaultsAt(records, faults, at)
    ensures !Fails(r) ==> FaultsAt(records + [r], faults, at)
    ensures Fails(r) ==> FaultsAt(records + [r], faults + [r.fault], at + [|records|])
  {
    assert forall x :: 0 <= x < |at| ==> at[x] in at;
  }

  lemma {:induction false} FaultsStand(records: seq<Record>) returns (at: seq<nat>)
    ensures FaultsAt(records, Faults(records), at)
    decreases |records|
  {
    at := [];
    if records != [] {
      var n := |records| - 1;
      at := FaultsStand(records[..n]);
      assert records == records[..n] + [records[n]];
      FaultsNext(records[..n], records[n], Faults(records[..n]), at);
      if Fails(records[n]) {
        at := at + [n];
      }
    }
  }

  /** The places of the failures of one run. */
  function PlacesIn(run: nat, records: seq<nat>): (r: seq<Place>)
    ensures |r| == |records| && forall x :: 0 <= x < |r| ==> r[x] == Place(run, records[x])
  {
    seq(|records|, x requires 0 <= x < |records| => Place(run, records[x]))
  }

  lemma {:induction false} StandAppend(occ: seq<Occurrence>, runs: seq<RunFile>, at: seq<Place>, run: RunFile, records: seq<nat>)
    requires Stand(occ, runs, at) && FaultsAt(run.records, Faults(run.records), records)
    ensures Stand(occ + InRun(|runs|, Faults(run.records)), runs + [run], at + PlacesIn(|runs|, records))
  {
    var all, places := runs + [run], at + PlacesIn(|runs|, records);
    var more := occ + InRun(|runs|, Faults(run.records));
    forall x | 0 <= x < |places| ensures IsFailure(all, places[x]) && more[x] == Occurrence(places[x].run, FaultAt(all, places[x])) {
      if x >= |at| {
        assert places[x] == Place(|runs|, records[x - |at|]);
      }
    }
  }

  /** The occurrences are the failure records with a fingerprint, of all runs, in order. */
  lemma {:induction false} OccurrencesStand(runs: seq<RunFile>) returns (at: seq<Place>)
    ensures Stand(Occurrences(runs), runs, at)
    ensures forall p :: p in at <==> IsFailure(runs, p)
    decreases |runs|
  {
    at := [];
    if runs != [] {
      var n := |runs| - 1;
      var front, run := runs[..n], runs[n];
      assert runs == front + [run];
      var before := OccurrencesStand(front);
      var records := FaultsStand(run.records);
      StandAppend(Occurrences(front), front, before, run, records);
      at := before + PlacesIn(n, records);
      PlacesComplete(front, run, before, records);
    }
  }

  lemma {:induction false} PlacesComplete(runs: seq<RunFile>, run: RunFile, at: seq<Place>, records: seq<nat>)
    requires forall p :: p in at <==> IsFailure(runs, p)
    requires forall k: nat :: k in records <==> k < |run.records| && Fails(run.records[k])
    ensures forall p :: p in at + PlacesIn(|runs|, records) <==> IsFailure(runs + [run], p)
  {
    forall p: Place ensures p in at + PlacesIn(|runs|, records) <==> IsFailure(runs + [run], p) {
      if p.run == |runs| && p.record in records {
        var x :| 0 <= x < |records| && records[x] == p.record;
        assert PlacesIn(|runs|, records)[x] == p;
      }
    }
  }

  // ---------------------------------------------------------------- first, last and count

  ghost predicate FirstAt(occ: seq<Occurrence>, fp: string, x: nat) {
    x < |occ| && occ[x].fault.fp == fp && forall y :: 0 <= y < x ==> occ[y].fault.fp != fp
  }

  ghost predicate LastAt(occ: seq<Occurrence>, fp: string, x: nat) {
    x < |occ| && occ[x].fault.fp == fp && forall y :: x < y < |occ| ==> occ[y].fault.fp != fp
  }

  lemma {:induction false} FirstLastMean(occ: seq<Occurrence>, fp: string, x: nat)
    ensures FirstAt(occ, fp, x) ==> First(occ, fp) == Some(occ[x])
    ensures LastAt(occ, fp, x) ==> Last(occ, fp) == Some(occ[x])
    ensures (forall y :: 0 <= y < |occ| ==> occ[y].fault.fp != fp) ==> First(occ, fp).None? && Last(occ, fp).None?
    decreases |occ|
  {
    if occ != [] {
      var n := |occ| - 1;
      FirstLastMean(occ[..n], fp, x);
    }
  }

  ghost function Failures(occ: seq<Occurrence>, fp: string): set<int> {
    set x | 0 <= x < |occ| && occ[x].fault.fp == fp
  }

  lemma {:induction false} CountMeans(occ: seq<Occurrence>, fp: string)
    ensures Count(occ, fp) == |Failures(occ, fp)|
    decreases |occ|
  {
    if occ != [] {
      var n := |occ| - 1;
      CountMeans(occ[..n], fp);
      var before := Failures(occ[..n], fp);
      assert Failures(occ, fp) == before + (if occ[n].fault.fp == fp then {n} else {}) && n !in before;
    }
  }

  /** These are the first occurrences of all fingerprints, in order. */
  ghost predicate FirstsOf(occ: seq<Occurrence>, firsts: seq<nat>) {
    && Increasing(firsts)
    && (forall x: nat :: x in firsts <==> IsFirst(occ, x))
  }

  ghost predicate IsFirst(occ: seq<Occurrence>, x: nat) {
    x < |occ| && FirstAt(occ, occ[x].fault.fp, x)
  }

  lemma {:induction false} FirstKept(occ: seq<Occurrence>, n: nat, fp: string, x: nat)
    requires x < n <= |occ|
    ensures FirstAt(occ, fp, x) <==> FirstAt(occ[..n], fp, x)
  {
    assert forall y :: 0 <= y <= x ==> occ[..n][y] == occ[y];
  }

  /** The fingerprints are those that first occur there. */
  ghost predicate PrintedAt(occ: seq<Occurrence>, prints: seq<string>, firsts: seq<nat>) {
    |firsts| == |prints| && forall a :: 0 <= a < |firsts| ==> FirstAt(occ, prints[a], firsts[a])
  }

  lemma {:induction false} PrintedKept(occ: seq<Occurrence>, n: nat, prints: seq<string>, firsts: seq<nat>)
    requires n <= |occ| && PrintedAt(occ[..n], prints, firsts)
    ensures PrintedAt(occ, prints, firsts)
  {
    forall a | 0 <= a < |firsts| ensures FirstAt(occ, prints[a], firsts[a]) {
      FirstKept(occ, n, prints[a], firsts[a]);
    }
  }

  lemma {:induction false} PrintedNew(occ: seq<Occurrence>, prints: seq<string>, firsts: seq<nat>, x: nat)
    requires PrintedAt(occ, prints, firsts) && IsFirst(occ, x)
    ensures PrintedAt(occ, prints + [occ[x].fault.fp], firsts + [x])
  {
  }

  lemma {:induction false} PrintsNext(occ: seq<Occurrence>, n: nat)
    requires n + 1 == |occ|
    ensures Prints(occ) == if IsFirst(occ, n) then Prints(occ[..n]) + [occ[n].fault.fp] else Prints(occ[..n])
  {
    FirstOrSeen(occ, n);
  }

  /** The fingerprints, by their first occurrence. */
  lemma {:induction false} PrintsStand(occ: seq<Occurrence>) returns (firsts: seq<nat>)
    ensures FirstsOf(occ, firsts) && PrintedAt(occ, Prints(occ), firsts)
    decreases |occ|
  {
    firsts := [];
    if occ != [] {
      var n := |occ| - 1;
      var before := PrintsStand(occ[..n]);
      firsts := PrintsMore(occ, n, before);
    }
  }

  lemma {:induction false} PrintsMore(occ: seq<Occurrence>, n: nat, before: seq<nat>) returns (firsts: seq<nat>)
    requires n + 1 == |occ| && FirstsOf(occ[..n], before) && PrintedAt(occ[..n], Prints(occ[..n]), before)
    ensures FirstsOf(occ, firsts) && PrintedAt(occ, Prints(occ), firsts)
  {
    PrintsNext(occ, n);
    FirstsNext(occ, n, before);
    PrintedKept(occ, n, Prints(occ[..n]), before);
    firsts := before;
    if IsFirst(occ, n) {
      PrintedNew(occ, Prints(occ[..n]), before, n);
      firsts := before + [n];
    }
  }

  lemma {:induction false} FirstsNext(occ: seq<Occurrence>, n: nat, before: seq<nat>)
    requires n + 1 == |occ| && FirstsOf(occ[..n], before)
    ensures FirstsOf(occ, if IsFirst(occ, n) then before + [n] else before)
  {
    var firsts := if IsFirst(occ, n) then before + [n] else before;
    forall x: nat | x < n ensures IsFirst(occ, x) <==> IsFirst(occ[..n], x) {
      FirstKept(occ, n, occ[x].fault.fp, x);
    }
    assert forall a :: 0 <= a < |before| ==> before[a] in before;
  }

  lemma {:induction false} FirstOrSeen(occ: seq<Occurrence>, n: nat)
    requires n < |occ|
    ensures occ[n].fault.fp in Prints(occ[..n]) <==> !FirstAt(occ, occ[n].fault.fp, n)
  {
    var front, fp := occ[..n], occ[n].fault.fp;
    PrintsOccur(front, fp);
    if x :| 0 <= x < n && occ[x].fault.fp == fp {
      LastSome(front, fp);
      assert front[x] in front;
    } else {
      FirstLastMean(front, fp, 0);
    }
  }

  // ---------------------------------------------------------------- the rows

  /** The row of the fingerprint that first occurs at `x` and last at `y`: test and details of the first
      record, message of the last, the start times of both runs, and the id of the last. */
  ghost predicate RowFor(runs: seq<RunFile>, occ: seq<Occurrence>, e: Entry, x: nat, y: nat)
    requires Indexed(Trials(runs), occ)
  {
    && FirstAt(occ, e.fp, x) && LastAt(occ, e.fp, y)
    && occ[x] in occ && occ[y] in occ
    && e.nodeid == occ[x].fault.nodeid && e.detail == occ[x].fault.detail
    && e.message == occ[y].fault.message && e.last == occ[y].fault
    && e.firstSeen == SeenAt(runs[occ[x].run].records) && e.lastSeen == SeenAt(runs[occ[y].run].records)
    && e.lastRunId == RunId(runs[occ[y].run].records, Stem(runs[occ[y].run]))
    && e.count == |Failures(occ, e.fp)|
    && (e.closed <==> exists j :: occ[y].run < j < |runs| && Redeemed(runs, occ[y].run, e.nodeid, j))
  }

  /** The test passed in run `j`, which is another run than `last`. */
  ghost predicate Redeemed(runs: seq<RunFile>, last: nat, nodeid: Option<string>, j: nat)
    requires last < |runs| && j < |runs|
  {
    && RunId(runs[j].records, Stem(runs[j])) != RunId(runs[last].records, Stem(runs[last]))
    && nodeid.Some? && Outcome(nodeid.value, "passed") in runs[j].outcomes
  }

  lemma {:induction false} SomeLast(occ: seq<Occurrence>, fp: string, x: nat) returns (y: nat)
    requires x < |occ| && occ[x].fault.fp == fp
    ensures LastAt(occ, fp, y)
    decreases |occ| - x
  {
    if z :| x < z < |occ| && occ[z].fault.fp == fp {
      y := SomeLast(occ, fp, z);
    } else {
      y := x;
    }
  }

  lemma {:induction false} SummaryMeans(runs: seq<RunFile>, occ: seq<Occurrence>, fp: string, x: nat) returns (y: nat)
    requires Indexed(Trials(runs), occ) && fp in Prints(occ) && FirstAt(occ, fp, x)
    ensures RowFor(runs, occ, Summary(Trials(runs), occ, fp), x, y) && Summary(Trials(runs), occ, fp).fp == fp
  {
    y := SomeLast(occ, fp, x);
    FirstLastMean(occ, fp, x);
    FirstLastMean(occ, fp, y);
    CountMeans(occ, fp);
    assert occ[x] in occ && occ[y] in occ;
    ClosedMeans(runs, occ[y].run, occ[x].fault.nodeid);
  }

  lemma {:induction false} ClosedMeans(runs: seq<RunFile>, last: nat, nodeid: Option<string>)
    requires last < |runs|
    ensures PassedSince(Trials(runs), last, nodeid) <==> exists j :: last < j < |runs| && Redeemed(runs, last, nodeid, j)
  {
    var trials := Trials(runs);
    if j :| last < j < |trials| && trials[j].id != trials[last].id && Passes(trials[j], nodeid) {
      assert Redeemed(runs, last, nodeid, j);
    }
    if j :| last < j < |runs| && Redeemed(runs, last, nodeid, j) {
      assert trials[j].id != trials[last].id && Passes(trials[j], nodeid);
    }
  }

  ghost predicate OpenAt(rows: seq<Entry>, open: seq<Entry>, at: seq<nat>) {
    && |at| == |open| && Increasing(at)
    && (forall k: nat :: k in at <==> k < |rows| && !rows[k].closed)
    && (forall a :: 0 <= a < |at| ==> at[a] < |rows| && open[a] == rows[at[a]])
  }

  lemma {:induction false} OpenNext(rows: seq<Entry>, e: Entry, open: seq<Entry>, at: seq<nat>)
    requires OpenAt(rows, open, at)
    ensures e.closed ==> OpenAt(rows + [e], open, at)
    ensures !e.closed ==> OpenAt(rows + [e], open + [e], at + [|rows|])
  {
    assert forall a :: 0 <= a < |at| ==> at[a] in at;
  }

  lemma {:induction false} OpenStand(rows: seq<Entry>) returns (at: seq<nat>)
    ensures OpenAt(rows, OpenOnly(rows), at)
    decreases |rows|
  {
    at := [];
    if rows != [] {
      var n := |rows| - 1;
      at := OpenStand(rows[..n]);
      assert rows == rows[..n] + [rows[n]];
      OpenNext(rows[..n], rows[n], OpenOnly(rows[..n]), at);
      if !rows[n].closed {
        at := at + [n];
      }
    }
  }

  /** A row for the fingerprint that first occurs at `x`. */
  ghost predicate RowOf(runs: seq<RunFile>, occ: seq<Occurrence>, e: Entry, x: nat)
    requires Indexed(Trials(runs), occ)
  {
    exists y: nat :: RowFor(runs, occ, e, x, y)
  }

  /** Before the closed ones are left out there is one row for each first occurrence, in order. */
  lemma {:induction false} AllRowsMean(runs: seq<RunFile>, occ: seq<Occurrence>) returns (firsts: seq<nat>)
    requires Indexed(Trials(runs), occ)
    ensures FirstsOf(occ, firsts) && |firsts| == |Rows(Trials(runs), occ)|
    ensures forall a :: 0 <= a < |firsts| ==> RowOf(runs, occ, Rows(Trials(runs), occ)[a], firsts[a])
  {
    firsts := PrintsStand(occ);
    forall a | 0 <= a < |firsts| ensures RowOf(runs, occ, Rows(Trials(runs), occ)[a], firsts[a]) {
      assert Prints(occ)[a] in Prints(occ);
      var y := SummaryMeans(runs, occ, Prints(occ)[a], firsts[a]);
    }
  }

  /** The rows of `open_failures` are those of the fingerprints that are not closed, ordered by first
      occurrence, each with what its first and its last record and their runs say; and every first
      occurrence that has none is that of a closed fingerprint. */
  lemma {:induction false} OpenRowsMean(runs: seq<RunFile>) returns (firsts: seq<nat>)
    ensures Indexed(Trials(runs), Occurrences(runs))
    ensures var occ := Occurrences(runs);
      var rows := OpenOnly(Rows(Trials(runs), occ));
      && |firsts| == |rows| && Increasing(firsts)
      && (forall a :: 0 <= a < |rows| ==> !rows[a].closed && RowOf(runs, occ, rows[a], firsts[a]))
      && (forall x: nat :: IsFirst(occ, x) && x !in firsts ==> exists e: Entry :: e.closed && RowOf(runs, occ, e, x))
  {
    OccurrencesIndexed(runs);
    var occ := Occurrences(runs);
    var rows := Rows(Trials(runs), occ);
    var all := AllRowsMean(runs, occ);
    var open := OpenStand(rows);
    firsts := Selected(all, open);
    assert forall a :: 0 <= a < |open| ==> open[a] in open;
    forall x: nat | IsFirst(occ, x) && x !in firsts
      ensures exists e: Entry :: e.closed && RowOf(runs, occ, e, x)
    {
      var a := PlaceIn(all, open, firsts, x);
      assert rows[a].closed && RowOf(runs, occ, rows[a], all[a]);
    }
  }

  lemma {:induction false} PlaceIn(all: seq<nat>, open: seq<nat>, firsts: seq<nat>, x: nat) returns (a: nat)
    requires x in all && x !in firsts && |firsts| == |open|
    requires forall b :: 0 <= b < |open| ==> open[b] < |all| && firsts[b] == all[open[b]]
    ensures a < |all| && all[a] == x && a !in open
  {
    a :| 0 <= a < |all| && all[a] == x;
    assert forall b :: 0 <= b < |open| ==> firsts[b] in firsts;
  }

  function Selected(from: seq<nat>, at: seq<nat>): (r: seq<nat>)
    requires forall a :: 0 <= a < |at| ==> at[a] < |from|
    ensures |r| == |at| && forall a :: 0 <= a < |at| ==> r[a] == from[at[a]]
  {
    seq(|at|, a requires 0 <= a < |at| => from[at[a]])
  }
}
