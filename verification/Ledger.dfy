/** `open_failures` of testkit/failures/store.py: which failures have not passed in a later run. */
module Ledger {
  import opened Common

  /** A failure record.  `detail` stands for the case, tier, area and exception. */
  datatype Fault = Fault(fp: string, nodeid: Option<string>, detail: string, message: string)

  /** One line of a run file; an absent field is empty. */
  datatype Record = RunStart(startedAt: string, runId: string) | Failure(fault: Fault) | OtherRecord

  datatype Outcome = Outcome(nodeid: string, outcome: string)

  /** A run file with its outcomes file.  `stamp` is the start time read from its name, if it is one. */
  datatype RunFile = RunFile(path: string, name: string, stamp: Option<nat>, records: seq<Record>, outcomes: seq<Outcome>)

  /** The name without its suffix. */
  function Stem(run: RunFile): string {
    if |run.name| < |".jsonl"| then "" else run.name[..|run.name| - |".jsonl"|]
  }

  /** What is reported of a fingerprint: `detail` of its first record, `message` and `last` of its last. */
  datatype Entry = Entry(fp: string, nodeid: Option<string>, detail: string, message: string, count: nat,
                         firstSeen: string, lastSeen: string, lastRunId: string, closed: bool, last: Fault)

  // ---------------------------------------------------------------- what a run says about itself

  /** Of the last run_start record. */
  function SeenAt(records: seq<Record>): string
    decreases |records|
  {
    if records == [] then ""
    else
      var last := records[|records| - 1];
      if last.RunStart? then last.startedAt else SeenAt(records[..|records| - 1])
  }

  /** Of the last run_start record that has one, else the file's stem. */
  function RunId(records: seq<Record>, stem: string): string
    decreases |records|
  {
    if records == [] then stem
    else
      var last := records[|records| - 1];
      if last.RunStart? && last.runId != "" then last.runId else RunId(records[..|records| - 1], stem)
  }

  /** The failure records that carry a fingerprint. */
  function Faults(records: seq<Record>): seq<Fault>
    decreases |records|
  {
    if records == [] then []
    else
      var last, before := records[|records| - 1], Faults(records[..|records| - 1]);
      if last.Failure? && last.fault.fp != "" then before + [last.fault] else before
  }

  method ReadHeader(run: RunFile) returns (runId: string, seenAt: string)
    ensures runId == RunId(run.records, Stem(run)) && seenAt == SeenAt(run.records)
  {
    runId, seenAt := Stem(run), "";
    for i := 0 to |run.records|
      invariant runId == RunId(run.records[..i], Stem(run)) && seenAt == SeenAt(run.records[..i])
    {
      assert run.records[..i + 1][..i] == run.records[..i];
      var record := run.records[i];
      if record.RunStart? {
        seenAt := record.startedAt;
        runId := if record.runId != "" then record.runId else runId;
      }
    }
    assert run.records[..|run.records|] == run.records;
  }

  // ---------------------------------------------------------------- the specification

  /** What matters of a run besides its failures. */
  datatype Trial = Trial(id: string, seenAt: string, outcomes: seq<Outcome>)

  /** A failure and the run it happened in. */
  datatype Occurrence = Occurrence(run: nat, fault: Fault)

  function TrialOf(run: RunFile): Trial {
    Trial(RunId(run.records, Stem(run)), SeenAt(run.records), run.outcomes)
  }

  function Trials(runs: seq<RunFile>): seq<Trial> {
    seq(|runs|, i requires 0 <= i < |runs| => TrialOf(runs[i]))
  }

  function InRun(run: nat, faults: seq<Fault>): seq<Occurrence> {
    seq(|faults|, i requires 0 <= i < |faults| => Occurrence(run, faults[i]))
  }

  function Occurrences(runs: seq<RunFile>): seq<Occurrence>
    decreases |runs|
  {
    if runs == [] then []
    else Occurrences(runs[..|runs| - 1]) + InRun(|runs| - 1, Faults(runs[|runs| - 1].records))
  }

  /** The fingerprints in the order in which they first occur. */
  function Prints(occ: seq<Occurrence>): seq<string>
    decreases |occ|
  {
    if occ == [] then []
    else
      var before, fp := Prints(occ[..|occ| - 1]), occ[|occ| - 1].fault.fp;
      if fp in before then before else before + [fp]
  }

  function Count(occ: seq<Occurrence>, fp: string): nat
    decreases |occ|
  {
    if occ == [] then 0 else Count(occ[..|occ| - 1], fp) + (if occ[|occ| - 1].fault.fp == fp then 1 else 0)
  }

  function First(occ: seq<Occurrence>, fp: string): Option<Occurrence>
    decreases |occ|
  {
    if occ == [] then None
    else
      var before := First(occ[..|occ| - 1], fp);
      if before.Some? then before else if occ[|occ| - 1].fault.fp == fp then Some(occ[|occ| - 1]) else None
  }

  function Last(occ: seq<Occurrence>, fp: string): Option<Occurrence>
    decreases |occ|
  {
    if occ == [] then None
    else if occ[|occ| - 1].fault.fp == fp then Some(occ[|occ| - 1])
    else Last(occ[..|occ| - 1], fp)
  }

  predicate Passes(t: Trial, nodeid: Option<string>) {
    nodeid.Some? && Outcome(nodeid.value, "passed") in t.outcomes
  }

  /** The test passed in a later run, under another run id, than the last one it failed in. */
  ghost predicate PassedSince(trials: seq<Trial>, run: nat, nodeid: Option<string>) {
    exists j :: run < j < |trials| && trials[j].id != trials[run].id && Passes(trials[j], nodeid)
  }

  ghost predicate Indexed(trials: seq<Trial>, occ: seq<Occurrence>) {
    forall o :: o in occ ==> o.run < |trials|
  }

  lemma {:induction false} PrintsOccur(occ: seq<Occurrence>, fp: string)
    ensures fp in Prints(occ) <==> First(occ, fp).Some?
    ensures fp in Prints(occ) <==> Last(occ, fp).Some?
    ensures First(occ, fp).Some? ==> First(occ, fp).value in occ && First(occ, fp).value.fault.fp == fp
    ensures Last(occ, fp).Some? ==> Last(occ, fp).value in occ && Last(occ, fp).value.fault.fp == fp
    decreases |occ|
  {
    if occ != [] {
      PrintsOccur(occ[..|occ| - 1], fp);
    }
  }

  ghost function Summary(trials: seq<Trial>, occ: seq<Occurrence>, fp: string): Entry
    requires Indexed(trials, occ) && fp in Prints(occ)
  {
    PrintsOccur(occ, fp);
    var first, last := First(occ, fp).value, Last(occ, fp).value;
    Entry(fp, first.fault.nodeid, first.fault.detail, last.fault.message, Count(occ, fp), trials[first.run].seenAt,
          trials[last.run].seenAt, trials[last.run].id, PassedSince(trials, last.run, first.fault.nodeid), last.fault)
  }

  ghost function Rows(trials: seq<Trial>, occ: seq<Occurrence>): seq<Entry>
    requires Indexed(trials, occ)
  {
    seq(|Prints(occ)|, i requires 0 <= i < |Prints(occ)| => Summary(trials, occ, Prints(occ)[i]))
  }

  function OpenOnly(rows: seq<Entry>): seq<Entry>
    decreases |rows|
  {
    if rows == [] then []
    else if rows[|rows| - 1].closed then OpenOnly(rows[..|rows| - 1])
    else OpenOnly(rows[..|rows| - 1]) + [rows[|rows| - 1]]
  }

  // ---------------------------------------------------------------- the loop

  /** `open_by_fp` after one failure record; the dict is a sequence in insertion order. */
  function Note(rows: seq<Entry>, fault: Fault, runId: string, seenAt: string): seq<Entry>
    decreases |rows|
  {
    if rows == [] then [Opened(fault, runId, seenAt)]
    else if rows[0].fp == fault.fp then [Again(rows[0], fault, runId, seenAt)] + rows[1..]
    else [rows[0]] + Note(rows[1..], fault, runId, seenAt)
  }

  function Opened(fault: Fault, runId: string, seenAt: string): Entry {
    Entry(fault.fp, fault.nodeid, fault.detail, fault.message, 1, seenAt, seenAt, runId, false, fault)
  }

  function Again(e: Entry, fault: Fault, runId: string, seenAt: string): Entry {
    e.(count := e.count + 1, lastSeen := seenAt, lastRunId := runId, closed := false, last := fault, message := fault.message)
  }

  function Closing(e: Entry, o: Outcome, runId: string): Entry {
    if !e.closed && e.nodeid == Some(o.nodeid) && e.lastRunId != runId then e.(closed := true) else e
  }

  /** One passed outcome against every entry. */
  method CloseEntries(rows: seq<Entry>, o: Outcome, runId: string) returns (r: seq<Entry>)
    ensures |r| == |rows| && forall i :: 0 <= i < |r| ==> r[i] == Closing(rows[i], o, runId)
  {
    r := rows;
    for i := 0 to |rows|
      invariant |r| == |rows|
      invariant forall k :: 0 <= k < i ==> r[k] == Closing(rows[k], o, runId)
      invariant forall k :: i <= k < |r| ==> r[k] == rows[k]
    {
      if r[i].closed {
        continue;
      }
      if r[i].nodeid == Some(o.nodeid) && r[i].lastRunId != runId {
        r := r[i := r[i].(closed := true)];
      }
    }
  }

  method NoteFailures(run: RunFile, runId: string, seenAt: string, rows: seq<Entry>, ghost trials: seq<Trial>, ghost occ: seq<Occurrence>)
    returns (r: seq<Entry>)
    requires trials != [] && trials[|trials| - 1].id == runId && trials[|trials| - 1].seenAt == seenAt
    requires Indexed(trials, occ) && rows == Rows(trials, occ)
    ensures Indexed(trials, occ + InRun(|trials| - 1, Faults(run.records)))
    ensures r == Rows(trials, occ + InRun(|trials| - 1, Faults(run.records)))
  {
    r := rows;
    ghost var seen, n := occ, |trials| - 1;
    assert occ + InRun(n, Faults(run.records[..0])) == occ;
    for i := 0 to |run.records|
      invariant seen == occ + InRun(n, Faults(run.records[..i]))
      invariant Indexed(trials, seen) && r == Rows(trials, seen)
    {
      FaultsStep(run.records, i, n, occ);
      var record := run.records[i];
      if record.Failure? && record.fault.fp != "" {
        NoteRows(trials, seen, record.fault);
        r := Note(r, record.fault, runId, seenAt);
        seen := seen + [Occurrence(n, record.fault)];
      }
    }
    assert run.records[..|run.records|] == run.records;
  }

  lemma {:induction false} FaultsStep(records: seq<Record>, i: nat, n: nat, occ: seq<Occurrence>)
    requires i < |records|
    ensures occ + InRun(n, Faults(records[..i + 1]))
      == if records[i].Failure? && records[i].fault.fp != "" then occ + InRun(n, Faults(records[..i])) + [Occurrence(n, records[i].fault)]
        else occ + InRun(n, Faults(records[..i]))
  {
    assert records[..i + 1][..i] == records[..i];
  }

  method ReadOutcomes(outcomes: seq<Outcome>, runId: string, rows: seq<Entry>, ghost trials: seq<Trial>, ghost trial: Trial, ghost occ: seq<Occurrence>)
    returns (r: seq<Entry>)
    requires trial.outcomes == [] && trial.id == runId && Indexed(trials + [trial], occ) && rows == Rows(trials + [trial], occ)
    ensures Indexed(trials + [trial.(outcomes := outcomes)], occ)
    ensures r == Rows(trials + [trial.(outcomes := outcomes)], occ)
  {
    r := rows;
    assert trial.(outcomes := outcomes[..0]) == trial;
    for i := 0 to |outcomes|
      invariant Indexed(trials + [trial.(outcomes := outcomes[..i])], occ)
      invariant r == Rows(trials + [trial.(outcomes := outcomes[..i])], occ)
    {
      ghost var t := trial.(outcomes := outcomes[..i]);
      assert outcomes[..i + 1] == outcomes[..i] + [outcomes[i]];
      if outcomes[i].outcome == "passed" {
        CloseRows(trials, t, occ, outcomes[i]);
        r := CloseEntries(r, outcomes[i], runId);
      } else {
        SkipRows(trials, t, occ, outcomes[i]);
      }
    }
    assert outcomes[..|outcomes|] == outcomes;
  }

  /** One pass of the outer loop: the runs in `before` have been read, `run` comes next. */
  method ReadRun(run: RunFile, rows: seq<Entry>, ghost before: seq<RunFile>) returns (r: seq<Entry>)
    requires Indexed(Trials(before), Occurrences(before)) && rows == Rows(Trials(before), Occurrences(before))
    ensures Indexed(Trials(before + [run]), Occurrences(before + [run]))
    ensures r == Rows(Trials(before + [run]), Occurrences(before + [run]))
  {
    ghost var trials, occ := Trials(before), Occurrences(before);
    assert (before + [run])[..|before|] == before;
    assert Trials(before + [run]) == trials + [TrialOf(run)];
    var runId, seenAt := ReadHeader(run);
    ghost var trial := Trial(runId, seenAt, []);
    NewTrial(trials, trial, occ);
    r := NoteFailures(run, runId, seenAt, rows, trials + [trial], occ);
    assert Occurrences(before + [run]) == occ + InRun(|before|, Faults(run.records));
    r := ReadOutcomes(run.outcomes, runId, r, trials, trial, Occurrences(before + [run]));
  }

  method OpenFailures(runs: seq<RunFile>) returns (rows: seq<Entry>)
    ensures Indexed(Trials(runs), Occurrences(runs))
    ensures rows == OpenOnly(Rows(Trials(runs), Occurrences(runs)))
  {
    var byPrint: seq<Entry> := [];
    assert Rows(Trials(runs[..0]), Occurrences(runs[..0])) == [];
    for i := 0 to |runs|
      invariant Indexed(Trials(runs[..i]), Occurrences(runs[..i]))
      invariant byPrint == Rows(Trials(runs[..i]), Occurrences(runs[..i]))
    {
      assert runs[..i + 1] == runs[..i] + [runs[i]];
      byPrint := ReadRun(runs[i], byPrint, runs[..i]);
    }
    assert runs[..|runs|] == runs;
    rows := KeepOpen(byPrint);
  }

  method KeepOpen(byPrint: seq<Entry>) returns (rows: seq<Entry>)
    ensures rows == OpenOnly(byPrint)
  {
    rows := [];
    for i := 0 to |byPrint|
      invariant rows == OpenOnly(byPrint[..i])
    {
      assert byPrint[..i + 1][..i] == byPrint[..i];
      if !byPrint[i].closed {
        rows := rows + [byPrint[i]];
      }
    }
    assert byPrint[..|byPrint|] == byPrint;
  }

  // ---------------------------------------------------------------- the steps of the loop

  lemma {:induction false} PrintsDistinct(occ: seq<Occurrence>)
    ensures forall i, j :: 0 <= i < j < |Prints(occ)| ==> Prints(occ)[i] != Prints(occ)[j]
    decreases |occ|
  {
    if occ != [] {
      PrintsDistinct(occ[..|occ| - 1]);
    }
  }

  /** A run about to be read changes nothing yet. */
  lemma {:induction false} NewTrial(trials: seq<Trial>, trial: Trial, occ: seq<Occurrence>)
    requires Indexed(trials, occ) && trial.outcomes == []
    ensures Indexed(trials + [trial], occ) && Rows(trials + [trial], occ) == Rows(trials, occ)
  {
    var more := trials + [trial];
    forall fp | fp in Prints(occ)
      ensures Summary(more, occ, fp) == Summary(trials, occ, fp)
    {
      PrintsOccur(occ, fp);
      SameSince(trials, trial, Last(occ, fp).value.run, First(occ, fp).value.fault.nodeid);
    }
    assert forall i :: 0 <= i < |Prints(occ)| ==> Prints(occ)[i] in Prints(occ);
  }

  lemma {:induction false} SameSince(trials: seq<Trial>, trial: Trial, run: nat, nodeid: Option<string>)
    requires run < |trials| && trial.outcomes == []
    ensures PassedSince(trials + [trial], run, nodeid) <==> PassedSince(trials, run, nodeid)
  {
    var more := trials + [trial];
    if j :| run < j < |trials| && trials[j].id != trials[run].id && Passes(trials[j], nodeid) {
      assert more[j] == trials[j] && more[run] == trials[run];
    }
    if j :| run < j < |more| && more[j].id != more[run].id && Passes(more[j], nodeid) {
      assert more[j] == trials[j];
    }
  }

  /** Where a failure record lands in the dict. */
  lemma {:induction false} NoteAt(rows: seq<Entry>, fault: Fault, runId: string, seenAt: string, k: nat)
    requires k <= |rows| && forall i :: 0 <= i < k ==> rows[i].fp != fault.fp
    requires k < |rows| ==> rows[k].fp == fault.fp
    ensures Note(rows, fault, runId, seenAt)
      == if k < |rows| then rows[k := Again(rows[k], fault, runId, seenAt)] else rows + [Opened(fault, runId, seenAt)]
    decreases |rows|
  {
    if rows != [] {
      var tail := rows[1..];
      if k == 0 {
        assert rows[0 := Again(rows[0], fault, runId, seenAt)] == [Again(rows[0], fault, runId, seenAt)] + tail;
      } else {
        assert rows[0].fp != fault.fp;
        NoteAt(tail, fault, runId, seenAt, k - 1);
        NoteShift(rows, k, fault, runId, seenAt);
      }
    }
  }

  lemma {:induction false} NoteShift(rows: seq<Entry>, k: nat, fault: Fault, runId: string, seenAt: string)
    requires rows != [] && 0 < k <= |rows|
    ensures k < |rows| ==> [rows[0]] + rows[1..][k - 1 := Again(rows[k], fault, runId, seenAt)] == rows[k := Again(rows[k], fault, runId, seenAt)]
    ensures [rows[0]] + (rows[1..] + [Opened(fault, runId, seenAt)]) == rows + [Opened(fault, runId, seenAt)]
  {
  }

  lemma {:induction false} SnocFacts(occ: seq<Occurrence>, o: Occurrence, fp: string)
    ensures Prints(occ + [o]) == if o.fault.fp in Prints(occ) then Prints(occ) else Prints(occ) + [o.fault.fp]
    ensures Count(occ + [o], fp) == Count(occ, fp) + (if o.fault.fp == fp then 1 else 0)
    ensures First(occ + [o], fp) == if First(occ, fp).Some? then First(occ, fp) else if o.fault.fp == fp then Some(o) else None
    ensures Last(occ + [o], fp) == if o.fault.fp == fp then Some(o) else Last(occ, fp)
  {
    assert (occ + [o])[..|occ|] == occ;
  }

  lemma {:induction false} CountsNothing(occ: seq<Occurrence>, fp: string)
    requires fp !in Prints(occ)
    ensures Count(occ, fp) == 0
    decreases |occ|
  {
    if occ != [] {
      CountsNothing(occ[..|occ| - 1], fp);
    }
  }

  /** The summary of one fingerprint after one more failure in the last run. */
  lemma {:induction false} NoteSummary(trials: seq<Trial>, occ: seq<Occurrence>, fault: Fault, fp: string)
    requires Indexed(trials, occ) && trials != []
    requires fp in Prints(occ) || fp == fault.fp
    ensures var t, more := trials[|trials| - 1], occ + [Occurrence(|trials| - 1, fault)];
      && Indexed(trials, more) && fp in Prints(more)
      && (fp != fault.fp ==> Summary(trials, more, fp) == Summary(trials, occ, fp))
      && (fp == fault.fp && fp in Prints(occ) ==> Summary(trials, more, fp) == Again(Summary(trials, occ, fp), fault, t.id, t.seenAt))
      && (fp == fault.fp && fp !in Prints(occ) ==> Summary(trials, more, fp) == Opened(fault, t.id, t.seenAt))
  {
    SnocFacts(occ, Occurrence(|trials| - 1, fault), fp);
    PrintsOccur(occ, fp);
    PrintsOccur(occ + [Occurrence(|trials| - 1, fault)], fp);
    if fp !in Prints(occ) {
      CountsNothing(occ, fp);
    }
  }

  lemma {:induction false} NoteKnown(trials: seq<Trial>, occ: seq<Occurrence>, fault: Fault, k: nat)
    requires Indexed(trials, occ) && trials != [] && k < |Prints(occ)| && Prints(occ)[k] == fault.fp
    ensures var t, more := trials[|trials| - 1], occ + [Occurrence(|trials| - 1, fault)];
      && Indexed(trials, more)
      && Rows(trials, more) == Rows(trials, occ)[k := Again(Rows(trials, occ)[k], fault, t.id, t.seenAt)]
  {
    var t, more := trials[|trials| - 1], occ + [Occurrence(|trials| - 1, fault)];
    var rows, prints := Rows(trials, occ), Prints(occ);
    assert prints[k] in prints;
    SnocFacts(occ, Occurrence(|trials| - 1, fault), fault.fp);
    PrintsDistinct(occ);
    forall i | 0 <= i < |prints|
      ensures Rows(trials, more)[i] == rows[k := Again(rows[k], fault, t.id, t.seenAt)][i]
    {
      assert prints[i] in prints;
      NoteSummary(trials, occ, fault, prints[i]);
    }
  }

  lemma {:induction false} NoteFresh(trials: seq<Trial>, occ: seq<Occurrence>, fault: Fault)
    requires Indexed(trials, occ) && trials != [] && fault.fp !in Prints(occ)
    ensures var t, more := trials[|trials| - 1], occ + [Occurrence(|trials| - 1, fault)];
      && Indexed(trials, more)
      && Rows(trials, more) == Rows(trials, occ) + [Opened(fault, t.id, t.seenAt)]
  {
    var prints := Prints(occ);
    SnocFacts(occ, Occurrence(|trials| - 1, fault), fault.fp);
    NoteSummary(trials, occ, fault, fault.fp);
    forall i | 0 <= i < |prints|
      ensures Rows(trials, occ + [Occurrence(|trials| - 1, fault)])[i] == Rows(trials, occ)[i]
    {
      assert prints[i] in prints;
      NoteSummary(trials, occ, fault, prints[i]);
    }
  }

  lemma {:induction false} NoteRows(trials: seq<Trial>, occ: seq<Occurrence>, fault: Fault)
    requires Indexed(trials, occ) && trials != []
    ensures var t, more := trials[|trials| - 1], occ + [Occurrence(|trials| - 1, fault)];
      && Indexed(trials, more)
      && Note(Rows(trials, occ), fault, t.id, t.seenAt) == Rows(trials, more)
  {
    var t, rows, prints := trials[|trials| - 1], Rows(trials, occ), Prints(occ);
    if fault.fp in prints {
      var k :| 0 <= k < |prints| && prints[k] == fault.fp;
      PrintsDistinct(occ);
      NoteAt(rows, fault, t.id, t.seenAt, k);
      NoteKnown(trials, occ, fault, k);
    } else {
      assert forall i :: 0 <= i < |prints| ==> prints[i] in prints;
      NoteAt(rows, fault, t.id, t.seenAt, |rows|);
      NoteFresh(trials, occ, fault);
    }
  }

  /** One more outcome in the last run, for one fingerprint. */
  lemma {:induction false} OutcomeSince(trials: seq<Trial>, t: Trial, o: Outcome, run: nat, nodeid: Option<string>)
    requires run <= |trials|
    ensures var was, now := trials + [t], trials + [t.(outcomes := t.outcomes + [o])];
      PassedSince(now, run, nodeid) <==>
        (PassedSince(was, run, nodeid) || (o.outcome == "passed" && nodeid == Some(o.nodeid) && was[run].id != t.id))
  {
    var was, now := trials + [t], trials + [t.(outcomes := t.outcomes + [o])];
    var n := |trials|;
    assert now[n].id == was[n].id == t.id && now[run].id == was[run].id;
    assert Passes(now[n], nodeid) <==> Passes(was[n], nodeid) || (o.outcome == "passed" && nodeid == Some(o.nodeid));
    if j :| run < j < |was| && was[j].id != was[run].id && Passes(was[j], nodeid) {
      assert now[j].id != now[run].id && Passes(now[j], nodeid);
    }
    if o.outcome == "passed" && nodeid == Some(o.nodeid) && was[run].id != t.id {
      assert run < n && Passes(now[n], nodeid);
    }
    if j :| run < j < |now| && now[j].id != now[run].id && Passes(now[j], nodeid) {
      assert j < n ==> was[j] == now[j];
    }
  }

  lemma {:induction false} CloseRows(trials: seq<Trial>, t: Trial, occ: seq<Occurrence>, o: Outcome)
    requires Indexed(trials + [t], occ) && o.outcome == "passed"
    ensures var was, now := trials + [t], trials + [t.(outcomes := t.outcomes + [o])];
      && Indexed(now, occ) && |Rows(now, occ)| == |Rows(was, occ)|
      && forall i :: 0 <= i < |Rows(was, occ)| ==> Rows(now, occ)[i] == Closing(Rows(was, occ)[i], o, t.id)
  {
    var was, now := trials + [t], trials + [t.(outcomes := t.outcomes + [o])];
    forall fp | fp in Prints(occ)
      ensures Summary(now, occ, fp) == Closing(Summary(was, occ, fp), o, t.id)
    {
      PrintsOccur(occ, fp);
      OutcomeSince(trials, t, o, Last(occ, fp).value.run, First(occ, fp).value.fault.nodeid);
    }
    assert forall i :: 0 <= i < |Prints(occ)| ==> Prints(occ)[i] in Prints(occ);
  }

  lemma {:induction false} SkipRows(trials: seq<Trial>, t: Trial, occ: seq<Occurrence>, o: Outcome)
    requires Indexed(trials + [t], occ) && o.outcome != "passed"
    ensures Indexed(trials + [t.(outcomes := t.outcomes + [o])], occ)
    ensures Rows(trials + [t.(outcomes := t.outcomes + [o])], occ) == Rows(trials + [t], occ)
  {
    var was, now := trials + [t], trials + [t.(outcomes := t.outcomes + [o])];
    forall fp | fp in Prints(occ)
      ensures Summary(now, occ, fp) == Summary(was, occ, fp)
    {
      PrintsOccur(occ, fp);
      OutcomeSince(trials, t, o, Last(occ, fp).value.run, First(occ, fp).value.fault.nodeid);
    }
    assert forall i :: 0 <= i < |Prints(occ)| ==> Prints(occ)[i] in Prints(occ);
  }

  // ---------------------------------------------------------------- what the rows mean, run by run

  ghost predicate FailsIn(run: RunFile, fp: string) {
    exists f :: f in Faults(run.records) && f.fp == fp
  }

  lemma {:induction false} OccurrenceMeans(runs: seq<RunFile>, o: Occurrence)
    ensures o in Occurrences(runs) <==> o.run < |runs| && o.fault in Faults(runs[o.run].records)
    decreases |runs|
  {
    if runs != [] {
      var n := |runs| - 1;
      OccurrenceMeans(runs[..n], o);
      var faults := Faults(runs[n].records);
      assert o in InRun(n, faults) <==> o.run == n && o.fault in faults by {
        if o.run == n && o.fault in faults {
          var i :| 0 <= i < |faults| && faults[i] == o.fault;
          assert InRun(n, faults)[i] == o;
        }
      }
    }
  }

  lemma {:induction false} OccurrencesIndexed(runs: seq<RunFile>)
    ensures Indexed(Trials(runs), Occurrences(runs))
  {
    forall o | o in Occurrences(runs)
      ensures o.run < |Trials(runs)|
    {
      OccurrenceMeans(runs, o);
    }
  }

  lemma {:induction false} LastConcat(a: seq<Occurrence>, b: seq<Occurrence>, fp: string)
    ensures Last(a + b, fp) == if Last(b, fp).Some? then Last(b, fp) else Last(a, fp)
    decreases |b|
  {
    if b == [] {
      assert a + b == a;
    } else {
      assert (a + b)[..|a + b| - 1] == a + b[..|b| - 1];
      LastConcat(a, b[..|b| - 1], fp);
    }
  }

  lemma {:induction false} LastSome(occ: seq<Occurrence>, fp: string)
    ensures Last(occ, fp).None? <==> forall o :: o in occ ==> o.fault.fp != fp
    ensures Last(occ, fp).Some? ==> Last(occ, fp).value in occ && Last(occ, fp).value.fault.fp == fp
    decreases |occ|
  {
    if occ != [] {
      LastSome(occ[..|occ| - 1], fp);
      assert occ == occ[..|occ| - 1] + [occ[|occ| - 1]];
    }
  }

  /** `Last` is in the last run that fails with the fingerprint. */
  lemma {:induction false} LastIsLast(runs: seq<RunFile>, fp: string)
    ensures Last(Occurrences(runs), fp).Some? ==>
      var o := Last(Occurrences(runs), fp).value;
      && o.run < |runs| && o.fault in Faults(runs[o.run].records) && o.fault.fp == fp
      && forall j :: o.run < j < |runs| ==> !FailsIn(runs[j], fp)
    decreases |runs|
  {
    if runs != [] {
      var n := |runs| - 1;
      var init, faults := runs[..n], Faults(runs[n].records);
      LastIsLast(init, fp);
      LastConcat(Occurrences(init), InRun(n, faults), fp);
      LastSome(InRun(n, faults), fp);
      if Last(InRun(n, faults), fp).None? && Last(Occurrences(init), fp).Some? {
        forall f | f in faults
          ensures f.fp != fp
        {
          var i :| 0 <= i < |faults| && faults[i] == f;
          assert InRun(n, faults)[i] == Occurrence(n, f);
        }
        assert forall j :: 0 <= j < n ==> init[j] == runs[j];
      }
    }
  }

  lemma {:induction false} FirstConcat(a: seq<Occurrence>, b: seq<Occurrence>, fp: string)
    ensures First(a + b, fp) == if First(a, fp).Some? then First(a, fp) else First(b, fp)
    decreases |b|
  {
    if b == [] {
      assert a + b == a;
    } else {
      assert (a + b)[..|a + b| - 1] == a + b[..|b| - 1];
      FirstConcat(a, b[..|b| - 1], fp);
    }
  }

  /** `First` is in the first run that fails with the fingerprint. */
  lemma {:induction false} FirstIsFirst(runs: seq<RunFile>, fp: string)
    ensures First(Occurrences(runs), fp).Some? ==>
      var o := First(Occurrences(runs), fp).value;
      && o.run < |runs| && o.fault in Faults(runs[o.run].records) && o.fault.fp == fp
      && forall j :: 0 <= j < o.run ==> !FailsIn(runs[j], fp)
    decreases |runs|
  {
    if runs != [] {
      var n := |runs| - 1;
      var init, faults := runs[..n], Faults(runs[n].records);
      FirstIsFirst(init, fp);
      FirstConcat(Occurrences(init), InRun(n, faults), fp);
      PrintsOccur(InRun(n, faults), fp);
      if First(Occurrences(init), fp).None? {
        PrintsOccur(Occurrences(init), fp);
        LastSome(Occurrences(init), fp);
        forall j | 0 <= j < n
          ensures !FailsIn(runs[j], fp)
        {
          NoOccurrence(init, j, fp);
        }
      }
    }
  }

  lemma {:induction false} NoOccurrence(runs: seq<RunFile>, j: nat, fp: string)
    requires j < |runs| && forall o :: o in Occurrences(runs) ==> o.fault.fp != fp
    ensures !FailsIn(runs[j], fp)
  {
    forall f | f in Faults(runs[j].records)
      ensures f.fp != fp
    {
      OccurrenceMeans(runs, Occurrence(j, f));
    }
  }

  lemma {:induction false} OpenOnlyMeans(rows: seq<Entry>, e: Entry)
    ensures e in OpenOnly(rows) <==> e in rows && !e.closed
    decreases |rows|
  {
    if rows != [] {
      OpenOnlyMeans(rows[..|rows| - 1], e);
    }
  }

  /** `open_failures` lists the fingerprint. */
  ghost predicate Listed(runs: seq<RunFile>, fp: string) {
    OccurrencesIndexed(runs);
    exists e :: e in OpenOnly(Rows(Trials(runs), Occurrences(runs))) && e.fp == fp
  }

  /** Run `last` is the last one that fails with `fault.fp`, and the test has not passed since. */
  ghost predicate OpenSince(runs: seq<RunFile>, last: nat, fault: Fault) {
    && last < |runs| && fault in Faults(runs[last].records)
    && forall j :: last < j < |runs| ==>
      && !FailsIn(runs[j], fault.fp)
      && (TrialOf(runs[j]).id != TrialOf(runs[last]).id ==> !Passes(TrialOf(runs[j]), fault.nodeid))
  }

  /** A fingerprint belongs to one test. */
  ghost predicate PrintsNameTests(runs: seq<RunFile>) {
    forall a, b :: a in Occurrences(runs) && b in Occurrences(runs) && a.fault.fp == b.fault.fp ==> a.fault.nodeid == b.fault.nodeid
  }

  lemma {:induction false} ListedRow(runs: seq<RunFile>, fp: string)
    ensures Indexed(Trials(runs), Occurrences(runs))
    ensures Listed(runs, fp) <==> fp in Prints(Occurrences(runs)) && !Summary(Trials(runs), Occurrences(runs), fp).closed
  {
    OccurrencesIndexed(runs);
    var trials, occ := Trials(runs), Occurrences(runs);
    var rows := Rows(trials, occ);
    if fp in Prints(occ) {
      var i :| 0 <= i < |Prints(occ)| && Prints(occ)[i] == fp;
      assert rows[i] == Summary(trials, occ, fp);
      OpenOnlyMeans(rows, rows[i]);
    }
    if e :| e in OpenOnly(rows) && e.fp == fp {
      OpenOnlyMeans(rows, e);
      var i :| 0 <= i < |rows| && rows[i] == e;
      assert Prints(occ)[i] == fp;
    }
  }

  lemma {:induction false} ListedWitness(runs: seq<RunFile>, fp: string) returns (last: nat, fault: Fault)
    requires PrintsNameTests(runs) && Listed(runs, fp)
    ensures OpenSince(runs, last, fault) && fault.fp == fp
  {
    var trials, occ := Trials(runs), Occurrences(runs);
    ListedRow(runs, fp);
    PrintsOccur(occ, fp);
    LastIsLast(runs, fp);
    last, fault := Last(occ, fp).value.run, Last(occ, fp).value.fault;
    assert First(occ, fp).value.fault.nodeid == fault.nodeid;
    forall j | last < j < |runs| && TrialOf(runs[j]).id != TrialOf(runs[last]).id
      ensures !Passes(TrialOf(runs[j]), fault.nodeid)
    {
      assert trials[j] == TrialOf(runs[j]) && trials[last] == TrialOf(runs[last]);
    }
  }

  lemma {:induction false} OpenIsListed(runs: seq<RunFile>, last: nat, fault: Fault)
    requires PrintsNameTests(runs) && OpenSince(runs, last, fault)
    ensures Listed(runs, fault.fp)
  {
    var trials, occ, fp := Trials(runs), Occurrences(runs), fault.fp;
    OccurrenceMeans(runs, Occurrence(last, fault));
    LastSome(occ, fp);
    PrintsOccur(occ, fp);
    LastIsLast(runs, fp);
    var o := Last(occ, fp).value;
    assert FailsIn(runs[last], fp) && FailsIn(runs[o.run], fp);
    assert o.run == last;
    assert First(occ, fp).value.fault.nodeid == fault.nodeid;
    assert !PassedSince(trials, last, fault.nodeid) by {
      forall j | last < j < |trials| && trials[j].id != trials[last].id
        ensures !Passes(trials[j], fault.nodeid)
      {
        assert trials[j] == TrialOf(runs[j]);
      }
    }
    ListedRow(runs, fp);
  }

  /** When fingerprints belong to tests, the listed ones are those whose test passed in no later run
      than the last they failed in, however often they were closed and reopened before. */
  lemma {:induction false} ListedMeansOpen(runs: seq<RunFile>, fp: string)
    requires PrintsNameTests(runs)
    ensures Listed(runs, fp) <==> exists last: nat, fault :: OpenSince(runs, last, fault) && fault.fp == fp
  {
    if Listed(runs, fp) {
      var last, fault := ListedWitness(runs, fp);
    }
    if last: nat, fault :| OpenSince(runs, last, fault) && fault.fp == fp {
      OpenIsListed(runs, last, fault);
    }
  }
}
