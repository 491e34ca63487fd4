/** Exactly when the two readers of a trace rebuild the same calls. */
module TraceAgreement {
  import opened Common
  import opened Trace

  /** Tool events come only while the turn runs. */
  ghost predicate OnTime(events: seq<Event>)
    decreases |events|
  {
    events != [] ==>
      var before, e := events[..|events| - 1], events[|events| - 1];
      OnTime(before) && (e.Started? || e.Result? ==> Running(before))
  }

  /** The tool of the latest start of this id, unless a result of this id has followed it. */
  function OpenTool(events: seq<Event>, id: string): Option<string>
    decreases |events|
  {
    if events == [] then None
    else
      var e := events[|events| - 1];
      if e.Started? && e.id == id then Some(e.tool)
      else if e.Result? && e.id == id then None
      else OpenTool(events[..|events| - 1], id)
  }

  /** A start has an id, and a result names a call that is open and of its tool. */
  predicate FineEvent(before: seq<Event>, e: Event) {
    && (e.Started? ==> e.id != "")
    && (e.Result? ==> OpenTool(before, e.id) == Some(e.tool))
  }

  predicate Fine(events: seq<Event>)
    decreases |events|
  {
    events != [] ==> Fine(events[..|events| - 1]) && FineEvent(events[..|events| - 1], events[|events| - 1])
  }

  /** How many calls have an outcome. */
  function SettledIn(calls: seq<Call>): nat
    decreases |calls|
  {
    if calls == [] then 0
    else SettledIn(calls[..|calls| - 1]) + (if calls[|calls| - 1].ok.Some? then 1 else 0)
  }

  lemma {:induction false} SettledSnoc(calls: seq<Call>, c: Call)
    ensures SettledIn(calls + [c]) == SettledIn(calls) + (if c.ok.Some? then 1 else 0)
  {
    assert (calls + [c])[..|calls|] == calls;
  }

  lemma {:induction false} SettledUpdate(calls: seq<Call>, k: nat, c: Call)
    requires k < |calls| && c.ok.Some?
    ensures SettledIn(calls[k := c]) == SettledIn(calls) + (if calls[k].ok.None? then 1 else 0)
    decreases |calls|
  {
    var n := |calls| - 1;
    if k == n {
      assert calls[k := c][..n] == calls[..n];
    } else {
      assert calls[k := c][..n] == calls[..n][k := c];
      SettledUpdate(calls[..n], k, c);
    }
  }

  /** A result settles at most one call of the id map, and none for an id without an open call. */
  lemma {:induction false} MapSettles(s: Seen, e: Event, json: Json)
    requires Points(s) && e.Result?
    ensures SettledIn(ObservedCores(Observe(s, e, json).order)) == SettledIn(ObservedCores(s.order))
      + (if e.id in s.byId && s.order[s.byId[e.id]].call.ok.None? then 1 else 0)
  {
    if e.id in s.byId {
      var k := s.byId[e.id];
      var o := Resolve(s.order[k], e.error, e.result, json);
      assert ObservedCores(s.order[k := o]) == ObservedCores(s.order)[k := o.call];
      SettledUpdate(ObservedCores(s.order), k, o.call);
    }
  }

  /** A result settles or adds exactly one call of the scan. */
  lemma {:induction false} ScanSettles(calls: seq<Recorded>, e: Event, ok: bool)
    requires e.Result?
    ensures SettledIn(RecordedCores(Settle(calls, e.id, e.tool, e.error, ok, e.result))) == SettledIn(RecordedCores(calls)) + 1
  {
    var k := LastCandidate(calls, e.id, e.tool);
    if k.None? {
      var c := Recorded(Call(e.id, e.tool, "", Some(ok), e.error), "");
      assert RecordedCores(calls + [c]) == RecordedCores(calls) + [c.call];
      SettledSnoc(RecordedCores(calls), c.call);
    } else {
      var c := Record(calls[k.value], e.error, ok, e.result);
      assert RecordedCores(calls[k.value := c]) == RecordedCores(calls)[k.value := c.call];
      SettledUpdate(RecordedCores(calls), k.value, c.call);
    }
  }

  /** The id map leads each id to the last call that bears it. */
  ghost predicate Placed(s: Seen) {
    && Points(s)
    && (forall id :: id in s.byId ==> s.order[s.byId[id]].call.id == id)
    && (forall i :: 0 <= i < |s.order| ==> s.order[i].call.id in s.byId && i <= s.byId[s.order[i].call.id])
  }

  lemma {:induction false} PlacedKept(s: Seen, e: Event, json: Json)
    requires Placed(s)
    ensures Placed(Observe(s, e, json))
  {
  }

  /** While the readers agree: the same calls, each with an id, and the unsettled ones that the map
      leads to are the open ones. */
  ghost predicate Alike(events: seq<Event>, s: Seen, calls: seq<Recorded>) {
    Placed(s) && Same(s, calls) && OpenAre(events, s)
  }

  ghost predicate Same(s: Seen, calls: seq<Recorded>) {
    && |s.order| == |calls|
    && (forall i :: 0 <= i < |calls| ==> s.order[i].call == calls[i].call && calls[i].call.id != "")
    && (forall i :: 0 <= i < |calls| && calls[i].call.ok.None? ==> calls[i].call.error == "")
  }

  ghost predicate OpenAre(events: seq<Event>, s: Seen)
    requires Points(s)
  {
    forall id :: OpenTool(events, id) ==
      if id in s.byId && s.order[s.byId[id]].call.ok.None? then Some(s.order[s.byId[id]].call.tool) else None
  }

  ghost predicate OtherId(s: Seen, calls: seq<Recorded>, i: nat) {
    i < |s.order| && i < |calls| && s.order[i].call.id != calls[i].call.id
  }

  /** A call that its id no longer leads to, settled by the scan only. */
  ghost predicate Passed(s: Seen, calls: seq<Recorded>, i: nat) {
    && i < |s.order| && i < |calls|
    && s.order[i].call.id in s.byId && s.byId[s.order[i].call.id] != i
    && s.order[i].call.ok.None? && calls[i].call.ok.Some?
  }

  /** What no later event undoes: more calls recorded than observed, two ids that differ, a call
      passed over, or fewer calls settled by the map than by the scan. */
  ghost predicate Apart(s: Seen, calls: seq<Recorded>) {
    && Placed(s)
    && (|| |calls| > |s.order|
        || (exists i :: OtherId(s, calls, i))
        || (exists i :: Passed(s, calls, i))
        || SettledIn(ObservedCores(s.order)) < SettledIn(RecordedCores(calls)))
  }

  lemma {:induction false} ApartMeans(s: Seen, calls: seq<Recorded>)
    requires Apart(s, calls)
    ensures ObservedCores(s.order) != RecordedCores(calls)
  {
    var o, r := ObservedCores(s.order), RecordedCores(calls);
    assert forall i :: 0 <= i < |s.order| ==> o[i] == s.order[i].call;
    assert forall i :: 0 <= i < |calls| ==> r[i] == calls[i].call;
  }

  /** The calls of the scan after one event of a running turn. */
  function Scan(calls: seq<Recorded>, e: Event, json: Json): seq<Recorded> {
    Absorb(Fold(calls, false, None), e, json).calls
  }

  lemma {:induction false} LongerKept(s: Seen, calls: seq<Recorded>, e: Event, json: Json)
    requires Points(s)
    ensures |Observe(s, e, json).order| >= |s.order| && |Scan(calls, e, json)| >= |calls|
    ensures |calls| > |s.order| ==> |Scan(calls, e, json)| > |Observe(s, e, json).order|
  {
  }

  lemma {:induction false} OtherIdKept(s: Seen, calls: seq<Recorded>, e: Event, json: Json, i: nat)
    requires Points(s) && OtherId(s, calls, i)
    ensures OtherId(Observe(s, e, json), Scan(calls, e, json), i)
  {
  }

  lemma {:induction false} PassedKept(s: Seen, calls: seq<Recorded>, e: Event, json: Json, i: nat)
    requires Placed(s) && Passed(s, calls, i)
    ensures Passed(Observe(s, e, json), Scan(calls, e, json), i)
  {
  }

  lemma {:induction false} FewerKept(s: Seen, calls: seq<Recorded>, e: Event, json: Json)
    requires Points(s) && SettledIn(ObservedCores(s.order)) < SettledIn(RecordedCores(calls))
    ensures SettledIn(ObservedCores(Observe(s, e, json).order)) < SettledIn(RecordedCores(Scan(calls, e, json)))
  {
    var s', calls' := Observe(s, e, json), Scan(calls, e, json);
    if e.Started? {
      var o, c := s'.order[|s.order|], calls'[|calls|];
      assert ObservedCores(s'.order) == ObservedCores(s.order) + [o.call];
      assert RecordedCores(calls') == RecordedCores(calls) + [c.call];
      SettledSnoc(ObservedCores(s.order), o.call);
      SettledSnoc(RecordedCores(calls), c.call);
    } else if e.Result? {
      MapSettles(s, e, json);
      ScanSettles(calls, e, Outcome(e.error, e.result, json));
    }
  }

  lemma {:induction false} KeptApart(s: Seen, calls: seq<Recorded>, e: Event, json: Json)
    requires Apart(s, calls)
    ensures Apart(Observe(s, e, json), Scan(calls, e, json))
  {
    PlacedKept(s, e, json);
    LongerKept(s, calls, e, json);
    if i :| OtherId(s, calls, i) {
      OtherIdKept(s, calls, e, json, i);
    } else if i :| Passed(s, calls, i) {
      PassedKept(s, calls, e, json, i);
    } else if |calls| <= |s.order| {
      FewerKept(s, calls, e, json);
    }
  }

  lemma {:induction false} OpenKept(before: seq<Event>, e: Event, s: Seen, json: Json)
    requires Placed(s) && OpenAre(before, s) && (e.Started? ==> e.id != "")
    ensures OpenAre(before + [e], Observe(s, e, json))
  {
    assert (before + [e])[..|before|] == before;
  }

  /** A fine event keeps the readers alike: scanning back finds the call that the id leads to. */
  lemma {:induction false} SameKept(before: seq<Event>, e: Event, s: Seen, calls: seq<Recorded>, json: Json)
    requires Alike(before, s, calls) && FineEvent(before, e)
    ensures Same(Observe(s, e, json), Scan(calls, e, json))
  {
    if e.Result? {
      OpenIsFound(before, e, s, calls);
      SettledAlike(s, calls, e, json);
    }
  }

  lemma {:induction false} OpenIsFound(before: seq<Event>, e: Event, s: Seen, calls: seq<Recorded>)
    requires Alike(before, s, calls) && e.Result? && FineEvent(before, e)
    ensures e.id in s.byId && LastCandidate(calls, e.id, e.tool) == Some(s.byId[e.id])
  {
    assert OpenTool(before, e.id) == Some(e.tool);
    var k := s.byId[e.id];
    assert Candidate(calls[k].call, e.id, e.tool);
    forall i | k < i < |calls|
      ensures !Candidate(calls[i].call, e.id, e.tool)
    {
      assert s.order[i].call.id == calls[i].call.id;
    }
  }

  lemma {:induction false} SettledAlike(s: Seen, calls: seq<Recorded>, e: Event, json: Json)
    requires Points(s) && Same(s, calls) && e.Result?
    requires e.id in s.byId && LastCandidate(calls, e.id, e.tool) == Some(s.byId[e.id])
    ensures Same(Observe(s, e, json), Scan(calls, e, json))
  {
    var k := s.byId[e.id];
    assert s.order[k].call == calls[k].call && calls[k].call.error == "";
  }

  lemma {:induction false} AlikeKept(before: seq<Event>, e: Event, s: Seen, calls: seq<Recorded>, json: Json)
    requires Alike(before, s, calls) && FineEvent(before, e)
    ensures Alike(before + [e], Observe(s, e, json), Scan(calls, e, json))
  {
    PlacedKept(s, e, json);
    OpenKept(before, e, s, json);
    SameKept(before, e, s, calls, json);
  }

  /** The first event that is not fine drives them apart. */
  lemma {:induction false} FirstApart(before: seq<Event>, e: Event, s: Seen, calls: seq<Recorded>, json: Json)
    requires Alike(before, s, calls) && !FineEvent(before, e)
    ensures Apart(Observe(s, e, json), Scan(calls, e, json))
  {
    PlacedKept(s, e, json);
    if e.Started? {
      NamelessApart(s, calls, e, json);
    } else if LastCandidate(calls, e.id, e.tool).None? {
      AddedApart(s, calls, e, json);
    } else if e.id in s.byId && s.order[s.byId[e.id]].call.ok.None? {
      OtherSettled(before, e, s, calls, json);
    } else {
      UncountedApart(s, calls, e, json);
    }
  }

  /** A start without an id gets one from the map only. */
  lemma {:induction false} NamelessApart(s: Seen, calls: seq<Recorded>, e: Event, json: Json)
    requires Points(s) && |s.order| == |calls| && e.Started? && e.id == ""
    ensures OtherId(Observe(s, e, json), Scan(calls, e, json), |calls|)
  {
    assert Observe(s, e, json).order[|calls|].call.id == AnonId(s.anon + 1);
  }

  /** A result that fits no call is a call of its own to the scan only. */
  lemma {:induction false} AddedApart(s: Seen, calls: seq<Recorded>, e: Event, json: Json)
    requires Points(s) && |s.order| == |calls| && e.Result? && LastCandidate(calls, e.id, e.tool).None?
    ensures |Scan(calls, e, json)| > |Observe(s, e, json).order|
  {
  }

  /** A result of no open call settles nothing in the map. */
  lemma {:induction false} UncountedApart(s: Seen, calls: seq<Recorded>, e: Event, json: Json)
    requires Points(s) && Same(s, calls) && e.Result? && !(e.id in s.byId && s.order[s.byId[e.id]].call.ok.None?)
    ensures SettledIn(ObservedCores(Observe(s, e, json).order)) < SettledIn(RecordedCores(Scan(calls, e, json)))
  {
    MapSettles(s, e, json);
    ScanSettles(calls, e, Outcome(e.error, e.result, json));
    assert ObservedCores(s.order) == RecordedCores(calls);
  }

  /** With the wrong tool the map settles the open call and the scan an earlier one of that id. */
  lemma {:induction false} OtherSettled(before: seq<Event>, e: Event, s: Seen, calls: seq<Recorded>, json: Json)
    requires Alike(before, s, calls) && e.Result? && !FineEvent(before, e)
    requires LastCandidate(calls, e.id, e.tool).Some?
    requires e.id in s.byId && s.order[s.byId[e.id]].call.ok.None?
    ensures Passed(Observe(s, e, json), Scan(calls, e, json), LastCandidate(calls, e.id, e.tool).value)
  {
    var k := LastCandidate(calls, e.id, e.tool).value;
    assert s.order[k].call == calls[k].call && calls[k].call.tool == e.tool;
    assert s.order[s.byId[e.id]].call.tool != e.tool;
    assert calls[k].call.id == e.id;
  }

  lemma {:induction false} StillRunning(events: seq<Event>, json: Json)
    requires Running(events)
    ensures !AbsorbAll(events, json).complete && AbsorbAll(events, json).failed.None?
    decreases |events|
  {
    if events != [] {
      StillRunning(events[..|events| - 1], json);
    }
  }

  lemma {:induction false} ScanNext(before: seq<Event>, e: Event, json: Json)
    requires OnTime(before + [e])
    ensures AbsorbAll(before + [e], json).calls == Scan(AbsorbAll(before, json).calls, e, json)
  {
    assert (before + [e])[..|before|] == before;
    if e.Started? || e.Result? {
      StillRunning(before, json);
    }
  }

  /** Alike up to the first event that is not fine, apart from then on. */
  lemma {:induction false} AlikeOrApart(events: seq<Event>, json: Json)
    requires OnTime(events)
    ensures Fine(events) ==> Alike(events, ObserveAll(events, json), AbsorbAll(events, json).calls)
    ensures !Fine(events) ==> Apart(ObserveAll(events, json), AbsorbAll(events, json).calls)
    decreases |events|
  {
    if events != [] {
      var before, e := events[..|events| - 1], events[|events| - 1];
      assert events == before + [e];
      AlikeOrApart(before, json);
      ScanNext(before, e, json);
      var s, calls := ObserveAll(before, json), AbsorbAll(before, json).calls;
      if !Fine(before) {
        KeptApart(s, calls, e, json);
      } else if FineEvent(before, e) {
        AlikeKept(before, e, s, calls, json);
      } else {
        FirstApart(before, e, s, calls, json);
      }
    }
  }

  /** Whenever the tool events come while the turn runs, the two readers rebuild the same calls if and
      only if every start has an id and every result names an open call of its own tool. */
  lemma {:induction false} AgreeExactly(events: seq<Event>, json: Json)
    requires OnTime(events)
    ensures ObservedCores(ObserveAll(events, json).order) == RecordedCores(AbsorbAll(events, json).calls) <==> Fine(events)
  {
    AlikeOrApart(events, json);
    if !Fine(events) {
      ApartMeans(ObserveAll(events, json), AbsorbAll(events, json).calls);
    }
  }

  /** The call of a start is open until its result. */
  lemma {:induction false} OpenUntilResult(events: seq<Event>, s: Event)
    requires WellFormed(events) && s in events && s.Started? && !Ends(events, s.id)
    ensures OpenTool(events, s.id) == Some(s.tool)
    decreases |events|
  {
    var before, e := events[..|events| - 1], events[|events| - 1];
    assert events == before + [e];
    if s in before {
      OpenUntilResult(before, s);
    }
  }

  lemma {:induction false} WellFormedIsFine(events: seq<Event>)
    requires WellFormed(events)
    ensures OnTime(events) && Fine(events)
    decreases |events|
  {
    if events != [] {
      var before, e := events[..|events| - 1], events[|events| - 1];
      WellFormedIsFine(before);
      if e.Result? {
        var s :| s in before && s.Started? && s.id == e.id && s.tool == e.tool;
        OpenUntilResult(before, s);
      }
    }
  }

  /** On every well-formed trace both rebuild one call for each start, in order, settled by its own
      result. */
  lemma {:induction false} ReconstructionsAgree(events: seq<Event>, json: Json)
    requires WellFormed(events)
    ensures ObservedCores(ObserveAll(events, json).order) == RecordedCores(AbsorbAll(events, json).calls) == Calls(Pairs(events), json)
  {
    ObservedAre(events, json);
    WellFormedIsFine(events);
    AgreeExactly(events, json);
  }

  /** A call id may be used again once its result is in. */
  lemma {:induction false} ReusedIdAgrees(id: string, tool: string, error: string, json: Json)
    requires id != ""
    ensures var start, result := Started(id, tool, "", None), Result(id, tool, error, "");
      var events := [start, result, start];
      && !WellFormed(events)
      && ObservedCores(ObserveAll(events, json).order) == RecordedCores(AbsorbAll(events, json).calls)
  {
    var start, result := Started(id, tool, "", None), Result(id, tool, error, "");
    var events := [start, result, start];
    var one, two := events[..1], events[..2];
    assert one[0] == start && two[1] == result && two[0] in two;
    assert two[..1] == one && one[..0] == [];
    assert |one| == 1 && |two| == 2;
    assert OpenTool(one, id) == Some(tool);
    assert OnTime([]) && Fine([]) && Running(one[..0]);
    assert OnTime(one) && FineEvent(one[..0], start) && Fine(one);
    assert OnTime(two) && FineEvent(one, result) && Fine(two) && Starts(two, id);
    assert OnTime(events) && FineEvent(two, start) && Fine(events);
    AgreeExactly(events, json);
  }

  /** Without call ids they differ: the map never settles the call, the scan does. */
  lemma {:induction false} ReconstructionsDiffer(json: Json)
    ensures var events := [Started("", "read", "", None), Result("", "read", "no such file", "")];
      && OnTime(events)
      && ObservedCores(ObserveAll(events, json).order) != RecordedCores(AbsorbAll(events, json).calls)
      && |ObserveAll(events, json).order| == |AbsorbAll(events, json).calls| == 1
      && ObserveAll(events, json).order[0].call.ok == None && AbsorbAll(events, json).calls[0].call.ok == Some(false)
  {
    var start, result := Started("", "read", "", None), Result("", "read", "no such file", "");
    assert [start, result][..1] == [start] && [start][..0] == [];
    AgreeExactly([start, result], json);
    assert ObserveAll([start], json).byId == map[AnonId(1) := 0];
    assert AnonId(1)[0] == 'a';
    var c := Recorded(Call("", "read", "", None, ""), "");
    assert AbsorbAll([start], json) == Fold([c], false, None);
    assert Candidate(c.call, "", "read");
  }

  /** A turn that ends after a result without a start, and then the call in full. */
  function LateCall(id: string, tool: string, error: string): seq<Event> {
    var start, result := Started(id, tool, "", None), Result(id, tool, error, "");
    [result, TurnComplete, start, result]
  }

  lemma {:induction false} LateSlices(id: string, tool: string, error: string)
    ensures var events := LateCall(id, tool, error);
      && events[..3][..2] == events[..2] && events[..2][..1] == events[..1] && events[..1][..0] == []
      && events[..1][0] == events[0] && events[..2][1] == events[1] && events[..3][2] == events[2]
      && |events| == 4
  {
  }

  lemma {:induction false} LateNotFine(id: string, tool: string, error: string)
    ensures !OnTime(LateCall(id, tool, error)) && !Fine(LateCall(id, tool, error))
  {
    var events := LateCall(id, tool, error);
    LateSlices(id, tool, error);
    assert events[..3][1] in events[..3];
    assert OpenTool([], id) == None && !Fine(events[..1]) && !Fine(events[..2]) && !Fine(events[..3]);
  }

  lemma {:induction false} LateObserved(id: string, tool: string, error: string, json: Json)
    requires id != ""
    ensures ObservedCores(ObserveAll(LateCall(id, tool, error), json).order)
      == [Call(id, tool, "", Some(Outcome(error, "", json)), error)]
  {
    var events := LateCall(id, tool, error);
    LateSlices(id, tool, error);
    assert ObserveAll([], json) == Seen(map[], [], 0);
    assert ObserveAll(events[..1], json) == Observe(ObserveAll([], json), events[0], json);
    assert ObserveAll(events[..2], json) == Observe(ObserveAll(events[..1], json), TurnComplete, json) == ObserveAll([], json);
    assert ObserveAll(events[..3], json).order == [Observed(Call(id, tool, "", None, ""), None, None)];
  }

  lemma {:induction false} LateRecorded(id: string, tool: string, error: string, json: Json)
    ensures RecordedCores(AbsorbAll(LateCall(id, tool, error), json).calls)
      == [Call(id, tool, "", Some(Outcome(error, "", json)), error)]
  {
    var events := LateCall(id, tool, error);
    LateSlices(id, tool, error);
    assert AbsorbAll(events[..1], json) == Fold(Settle([], id, tool, error, Outcome(error, "", json), ""), false, None);
    assert AbsorbAll(events[..2], json).complete && AbsorbAll(events[..3], json) == AbsorbAll(events[..2], json);
  }

  /** Tool events after the end of the turn, which only the id map reads, may hide the difference. */
  lemma {:induction false} LateEventsHide(id: string, tool: string, error: string, json: Json)
    requires id != ""
    ensures var events := LateCall(id, tool, error);
      && !OnTime(events) && !Fine(events)
      && ObservedCores(ObserveAll(events, json).order) == RecordedCores(AbsorbAll(events, json).calls)
  {
    LateNotFine(id, tool, error);
    LateObserved(id, tool, error, json);
    LateRecorded(id, tool, error, json);
  }
}
