/** What the two readers of a trace make of it, event by event and for every trace at all: the id map
    gives each start the last result that reaches it, the scan back settles the last call that fits. */
module TraceCalls {
  import opened Common
  import opened Trace
  import opened TraceAgreement

  // ---------------------------------------------------------------- the id map

  /** How many starts have no id. */
  function Nameless(events: seq<Event>): nat
    decreases |events|
  {
    if events == [] then 0
    else
      var e := events[|events| - 1];
      Nameless(events[..|events| - 1]) + (if e.Started? && e.id == "" then 1 else 0)
  }

  /** The id of the call that starts at `p`: its own, or a number among the nameless. */
  function KeyAt(events: seq<Event>, p: nat): string
    requires p < |events| && events[p].Started?
  {
    if events[p].id != "" then events[p].id else AnonId(Nameless(events[..p + 1]))
  }

  /** The result at `q` is for the call that starts at `p` under `key`: no later start took the key over. */
  ghost predicate Answers(events: seq<Event>, p: nat, key: string, q: nat) {
    && p < q < |events| && events[q].Result? && events[q].id == key
    && (forall r :: p < r < q && events[r].Started? ==> KeyAt(events, r) != key)
  }

  /** The last such result. */
  ghost predicate LastAnswer(events: seq<Event>, p: nat, key: string, q: nat) {
    Answers(events, p, key, q) && forall r: nat :: Answers(events, p, key, r) ==> r <= q
  }

  /** The call says what its start and the last result for it say. */
  ghost predicate RightCall(events: seq<Event>, json: Json, o: Observed, p: nat) {
    && p < |events| && events[p].Started?
    && o.call.id == KeyAt(events, p) && o.call.tool == events[p].tool && o.call.args == events[p].args && o.resolved == events[p].resolved
    && (o.call.ok.None? ==> o.call.error == "" && o.code.None? && forall q: nat :: !Answers(events, p, o.call.id, q))
    && (o.call.ok.Some? ==> exists q: nat :: LastAnswer(events, p, o.call.id, q) && Says(events[q], json, o))
  }

  /** The outcome of a result: success iff it has no error and its JSON does not say otherwise. */
  ghost predicate Says(e: Event, json: Json, o: Observed) {
    && e.Result? && o.call.error == e.error && o.code == json.code(e.result, e.error)
    && o.call.ok == Some(e.error == "" && json.ok(e.result) != Some(false))
  }

  ghost predicate RightCalls(events: seq<Event>, json: Json, order: seq<Observed>, at: seq<nat>) {
    && |at| == |order| && Increasing(at)
    && (forall p: nat :: p in at <==> p < |events| && events[p].Started?)
    && (forall i :: 0 <= i < |at| ==> RightCall(events, json, order[i], at[i]))
  }

  lemma {:induction false} KeyKept(events: seq<Event>, e: Event, p: nat)
    requires p < |events| && events[p].Started?
    ensures KeyAt(events + [e], p) == KeyAt(events, p)
  {
    assert (events + [e])[..p + 1] == events[..p + 1];
  }

  lemma {:induction false} AnswersKept(events: seq<Event>, e: Event, p: nat, key: string, q: nat)
    requires q < |events|
    ensures Answers(events + [e], p, key, q) <==> Answers(events, p, key, q)
  {
    forall r: nat | r < |events| && events[r].Started? ensures KeyAt(events + [e], r) == KeyAt(events, r) {
      KeyKept(events, e, r);
    }
  }

  /** An event that is no result for the call leaves it as it is. */
  lemma {:induction false} RightKept(events: seq<Event>, e: Event, json: Json, o: Observed, p: nat)
    requires RightCall(events, json, o, p) && !Answers(events + [e], p, o.call.id, |events|)
    ensures RightCall(events + [e], json, o, p)
  {
    KeyKept(events, e, p);
    forall q: nat ensures Answers(events + [e], p, o.call.id, q) <==> Answers(events, p, o.call.id, q) {
      if q < |events| {
        AnswersKept(events, e, p, o.call.id, q);
      }
    }
    if o.call.ok.Some? {
      var q: nat :| LastAnswer(events, p, o.call.id, q) && Says(events[q], json, o);
      assert LastAnswer(events + [e], p, o.call.id, q) && (events + [e])[q] == events[q];
    }
  }

  /** A result for it settles it. */
  lemma {:induction false} RightSettled(events: seq<Event>, e: Event, json: Json, o: Observed, p: nat)
    requires RightCall(events, json, o, p) && e.Result? && Answers(events + [e], p, o.call.id, |events|)
    ensures RightCall(events + [e], json, Resolve(o, e.error, e.result, json), p)
  {
    KeyKept(events, e, p);
    assert LastAnswer(events + [e], p, o.call.id, |events|);
  }

  /** A later start under the key takes it over. */
  lemma {:induction false} TakenOver(events: seq<Event>, e: Event, p: nat, r: nat)
    requires p < r < |events| && events[r].Started? && e.Result? && KeyAt(events, r) == e.id
    ensures !Answers(events + [e], p, e.id, |events|)
  {
    KeyKept(events, e, r);
    assert (events + [e])[r] == events[r];
  }

  /** The last call under the key gets the result. */
  lemma {:induction false} ReachesLast(events: seq<Event>, e: Event, at: seq<nat>, i: nat)
    requires i < |at| && at[i] < |events| && Increasing(at) && e.Result?
    requires forall p: nat :: p < |events| && events[p].Started? ==> p in at
    requires forall j :: i < j < |at| ==> at[j] < |events| && events[at[j]].Started? && KeyAt(events, at[j]) != e.id
    ensures Answers(events + [e], at[i], e.id, |events|)
  {
    var all, n := events + [e], |events|;
    forall r | at[i] < r < n && all[r].Started? ensures KeyAt(all, r) != e.id {
      KeyKept(events, e, r);
      var j := IndexOf(at, r);
      assert j > i;
    }
  }

  lemma {:induction false} LaterKeys(events: seq<Event>, json: Json, s: Seen, at: seq<nat>, i: nat)
    requires Placed(s) && RightCalls(events, json, s.order, at) && i < |at| && s.byId[s.order[i].call.id] == i
    ensures forall j :: i < j < |at| ==> at[j] < |events| && events[at[j]].Started? && KeyAt(events, at[j]) != s.order[i].call.id
  {
    forall j | i < j < |at|
      ensures at[j] < |events| && events[at[j]].Started? && KeyAt(events, at[j]) != s.order[i].call.id
    {
      assert RightCall(events, json, s.order[j], at[j]);
    }
  }

  lemma {:induction false} IndexOf(at: seq<nat>, p: nat) returns (i: nat)
    requires p in at
    ensures i < |at| && at[i] == p
  {
    i :| 0 <= i < |at| && at[i] == p;
  }

  /** The call that the id leads to is the one the result is for, and the only one. */
  lemma {:induction false} WhomItAnswers(events: seq<Event>, e: Event, json: Json, s: Seen, at: seq<nat>, i: nat)
    requires Placed(s) && RightCalls(events, json, s.order, at) && e.Result? && i < |at|
    ensures Answers(events + [e], at[i], s.order[i].call.id, |events|) <==> e.id in s.byId && s.byId[e.id] == i
  {
    if s.order[i].call.id == e.id {
      var k := s.byId[e.id];
      if i < k {
        assert RightCall(events, json, s.order[k], at[k]);
        TakenOver(events, e, at[i], at[k]);
      } else {
        assert RightCall(events, json, s.order[i], at[i]);
        LaterKeys(events, json, s, at, i);
        ReachesLast(events, e, at, i);
      }
    }
  }

  lemma {:induction false} ResultStep(events: seq<Event>, e: Event, json: Json, s: Seen, at: seq<nat>)
    requires Placed(s) && RightCalls(events, json, s.order, at) && e.Result?
    ensures RightCalls(events + [e], json, Observe(s, e, json).order, at)
  {
    var order := Observe(s, e, json).order;
    forall i | 0 <= i < |at| ensures RightCall(events + [e], json, order[i], at[i]) {
      WhomItAnswers(events, e, json, s, at, i);
      if e.id in s.byId && s.byId[e.id] == i {
        RightSettled(events, e, json, s.order[i], at[i]);
      } else {
        RightKept(events, e, json, s.order[i], at[i]);
      }
    }
  }

  lemma {:induction false} StartedCall(events: seq<Event>, e: Event, json: Json, s: Seen)
    requires Points(s) && e.Started? && s.anon == Nameless(events)
    ensures |Observe(s, e, json).order| == |s.order| + 1
    ensures RightCall(events + [e], json, Observe(s, e, json).order[|s.order|], |events|)
    ensures Observe(s, e, json).anon == Nameless(events + [e])
  {
    var all, n := events + [e], |events|;
    assert all[..n + 1] == all && all[..n] == events;
  }

  lemma {:induction false} StartStep(events: seq<Event>, e: Event, json: Json, s: Seen, at: seq<nat>)
    requires Placed(s) && RightCalls(events, json, s.order, at) && e.Started? && s.anon == Nameless(events)
    ensures RightCalls(events + [e], json, Observe(s, e, json).order, at + [|events|])
  {
    var order, more := Observe(s, e, json).order, at + [|events|];
    StartedCall(events, e, json, s);
    forall i | 0 <= i < |more| ensures RightCall(events + [e], json, order[i], more[i]) {
      if i < |at| {
        RightKept(events, e, json, s.order[i], at[i]);
      }
    }
    StartPlaces(events, e, at);
  }

  lemma {:induction false} StartPlaces(events: seq<Event>, e: Event, at: seq<nat>)
    requires Increasing(at) && e.Started? && forall p: nat :: p in at <==> p < |events| && events[p].Started?
    ensures Increasing(at + [|events|])
    ensures forall p: nat :: p in at + [|events|] <==> p < |events + [e]| && (events + [e])[p].Started?
  {
    assert forall i :: 0 <= i < |at| ==> at[i] in at;
  }

  lemma {:induction false} OtherStep(events: seq<Event>, e: Event, json: Json, s: Seen, at: seq<nat>)
    requires RightCalls(events, json, s.order, at) && !e.Started? && !e.Result?
    ensures RightCalls(events + [e], json, s.order, at)
  {
    forall i | 0 <= i < |at| ensures RightCall(events + [e], json, s.order[i], at[i]) {
      RightKept(events, e, json, s.order[i], at[i]);
    }
  }

  /** For every trace at all, the id map gives one call for each start, in order, with the start's tool,
      arguments and path, and with the outcome, error and code of the last result under its id before
      the id is taken over by a later start. */
  lemma {:induction false} ObservedByPosition(events: seq<Event>, json: Json) returns (at: seq<nat>)
    ensures RightCalls(events, json, ObserveAll(events, json).order, at)
    ensures Placed(ObserveAll(events, json)) && ObserveAll(events, json).anon == Nameless(events)
    decreases |events|
  {
    at := [];
    if events != [] {
      var before, e := events[..|events| - 1], events[|events| - 1];
      assert events == before + [e];
      at := ObservedByPosition(before, json);
      var s := ObserveAll(before, json);
      PlacedKept(s, e, json);
      if e.Started? {
        StartStep(before, e, json, s, at);
        at := at + [|before|];
      } else if e.Result? {
        ResultStep(before, e, json, s, at);
      } else {
        OtherStep(before, e, json, s, at);
      }
    }
  }

  // ---------------------------------------------------------------- the scan back

  /** A result fits a call of its tool that has no outcome yet, if their ids are equal or one is missing. */
  predicate FitsCall(e: Event, c: Call)
    requires e.Result?
  {
    c.ok == None && c.tool == e.tool && (c.id == e.id || c.id == "" || e.id == "")
  }

  /** The scan changes the last call that a result fits and no other, or adds one at the end. */
  lemma {:induction false} ScanMeans(calls: seq<Recorded>, e: Event, json: Json)
    requires e.Result?
    ensures var r, ok := Scan(calls, e, json), e.error == "" && json.ok(e.result) != Some(false);
      && (forall k :: 0 <= k < |calls| && FitsCall(e, calls[k].call) && (forall i :: k < i < |calls| ==> !FitsCall(e, calls[i].call)) ==>
            && |r| == |calls| && (forall i :: 0 <= i < |calls| && i != k ==> r[i] == calls[i])
            && r[k].result == e.result && r[k].call.ok == Some(ok)
            && r[k].call.error == (if e.error != "" then e.error else calls[k].call.error)
            && r[k].call.id == calls[k].call.id && r[k].call.tool == calls[k].call.tool && r[k].call.args == calls[k].call.args)
      && ((forall i :: 0 <= i < |calls| ==> !FitsCall(e, calls[i].call)) ==>
            r == calls + [Recorded(Call(e.id, e.tool, "", Some(ok), e.error), "")])
  {
    assert forall i :: 0 <= i < |calls| ==> (FitsCall(e, calls[i].call) <==> Candidate(calls[i].call, e.id, e.tool));
    var last := LastCandidate(calls, e.id, e.tool);
    forall k | 0 <= k < |calls| && FitsCall(e, calls[k].call) && (forall i :: k < i < |calls| ==> !FitsCall(e, calls[i].call))
      ensures last == Some(k)
    {
      assert last.Some? ==> Candidate(calls[last.value].call, e.id, e.tool);
    }
  }

  /** The first event that ends the turn, or the number of events. */
  function TurnEnd(events: seq<Event>): (n: nat)
    ensures n <= |events|
    ensures forall i :: 0 <= i < n ==> !events[i].TurnComplete? && !events[i].ErrorEvent?
    ensures n < |events| ==> events[n].TurnComplete? || events[n].ErrorEvent?
    decreases |events|
  {
    if events == [] then 0
    else
      var n := TurnEnd(events[..|events| - 1]);
      if n < |events| - 1 || events[|events| - 1].TurnComplete? || events[|events| - 1].ErrorEvent? then n else |events|
  }

  /** The fold records the events up to the one that ends the turn, and says how it ended. */
  lemma {:induction false} FoldMeans(events: seq<Event>, json: Json)
    ensures var n, f := TurnEnd(events), AbsorbAll(events, json);
      && f.calls == AbsorbAll(events[..n], json).calls
      && (f.complete <==> n < |events| && events[n].TurnComplete?)
      && (f.failed.Some? <==> n < |events| && events[n].ErrorEvent?)
      && (f.failed.Some? ==> f.failed.value == if events[n].message != "" then events[n].message else "unknown error")
    decreases |events|
  {
    if events != [] {
      var m := |events| - 1;
      var n := TurnEnd(events);
      FoldMeans(events[..m], json);
      if n <= m {
        assert events[..m][..n] == events[..n];
      }
      if n == m {
        assert events[..m][..m] == events[..m];
      } else if n == |events| {
        assert events[..n] == events;
      }
    }
  }
}
