/** Two ways of rebuilding tool calls from an event trace, `_observed_calls` of
    regression/schema/assertions.py and `_absorb_event` of regression/t4/runner.py. */
module Trace {
  import opened Common

  /** A trace event; absent texts are empty. */
  datatype Event =
    | Started(id: string, tool: string, args: string, resolved: Option<string>)
    | Result(id: string, tool: string, error: string, result: string)
    | ErrorEvent(message: string)
    | TurnComplete
    | OtherEvent

  /** What both readers say about a call: its outcome once known. */
  datatype Call = Call(id: string, tool: string, args: string, ok: Option<bool>, error: string)

  datatype Observed = Observed(call: Call, resolved: Option<string>, code: Option<string>)

  datatype Recorded = Recorded(call: Call, result: string)

  /** How JSON is read: the boolean `ok` of a result, and the error code of a result and an error. */
  datatype Json = Json(ok: string -> Option<bool>, code: (string, string) -> Option<string>)

  function Outcome(error: string, result: string, json: Json): bool {
    error == "" && json.ok(result) != Some(false)
  }

  // ---------------------------------------------------------------- by call id

  /** The state of `_observed_calls`; `byId` points into `order`, where the source shares the object. */
  datatype Seen = Seen(byId: map<string, nat>, order: seq<Observed>, anon: nat)

  ghost predicate Points(s: Seen) {
    forall id :: id in s.byId ==> s.byId[id] < |s.order|
  }

  function AnonId(n: nat): string {
    "anon-" + Digits(n)
  }

  function Digits(n: nat): string {
    var last := ["0123456789"[n % 10]];
    if n < 10 then last else Digits(n / 10) + last
  }

  function Resolve(o: Observed, error: string, result: string, json: Json): Observed {
    o.(call := o.call.(ok := Some(Outcome(error, result, json)), error := error), code := json.code(result, error))
  }

  function Observe(s: Seen, e: Event, json: Json): (r: Seen)
    requires Points(s)
    ensures Points(r)
  {
    match e
    case Started(id, tool, args, resolved) =>
      var anon := if id == "" then s.anon + 1 else s.anon;
      var key := if id == "" then AnonId(anon) else id;
      Seen(s.byId[key := |s.order|], s.order + [Observed(Call(key, tool, args, None, ""), resolved, None)], anon)
    case Result(id, _, error, result) =>
      if id !in s.byId then s
      else s.(order := s.order[s.byId[id] := Resolve(s.order[s.byId[id]], error, result, json)])
    case _ => s
  }

  function ObserveAll(events: seq<Event>, json: Json): (r: Seen)
    ensures Points(r)
    decreases |events|
  {
    if events == [] then Seen(map[], [], 0)
    else Observe(ObserveAll(events[..|events| - 1], json), events[|events| - 1], json)
  }

  method ObservedCalls(events: seq<Event>, json: Json) returns (order: seq<Observed>)
    ensures order == ObserveAll(events, json).order
  {
    var byId: map<string, nat> := map[];
    order := [];
    var anon := 0;
    for i := 0 to |events|
      invariant Seen(byId, order, anon) == ObserveAll(events[..i], json)
    {
      assert events[..i + 1][..i] == events[..i];
      match events[i] {
        case Started(id, tool, args, resolved) =>
          var callId := id;
          if callId == "" {
            anon := anon + 1;
            callId := AnonId(anon);
          }
          byId := byId[callId := |order|];
          order := order + [Observed(Call(callId, tool, args, None, ""), resolved, None)];
        case Result(id, _, error, result) =>
          if id in byId {
            assert Points(Seen(byId, order, anon));
            order := ResolveCall(order, byId[id], error, result, json);
          }
        case _ =>
      }
    }
    assert events[..|events|] == events;
  }

  /** The call that the id leads to gets its outcome, error and error code. */
  method ResolveCall(order: seq<Observed>, k: nat, error: string, result: string, json: Json) returns (r: seq<Observed>)
    requires k < |order|
    ensures r == order[k := Resolve(order[k], error, result, json)]
  {
    var ok := Outcome(error, result, json);
    var call := order[k].call.(ok := Some(ok), error := error);
    r := order[k := order[k].(call := call, code := json.code(result, error))];
  }

  // ---------------------------------------------------------------- by scanning back

  /** An unresolved call of the tool whose id does not contradict the result's. */
  predicate Candidate(c: Call, id: string, tool: string) {
    c.ok.None? && c.tool == tool && (id == "" || c.id == "" || c.id == id)
  }

  function LastCandidate(calls: seq<Recorded>, id: string, tool: string): (r: Option<nat>)
    ensures r.Some? ==> r.value < |calls| && Candidate(calls[r.value].call, id, tool)
    ensures r.Some? ==> forall i :: r.value < i < |calls| ==> !Candidate(calls[i].call, id, tool)
    ensures r.None? ==> forall i :: 0 <= i < |calls| ==> !Candidate(calls[i].call, id, tool)
    decreases |calls|
  {
    if calls == [] then None
    else if Candidate(calls[|calls| - 1].call, id, tool) then Some(|calls| - 1)
    else LastCandidate(calls[..|calls| - 1], id, tool)
  }

  function Record(c: Recorded, error: string, ok: bool, result: string): Recorded {
    Recorded(c.call.(ok := Some(ok), error := if error != "" then error else c.call.error), result)
  }

  function Settle(calls: seq<Recorded>, id: string, tool: string, error: string, ok: bool, result: string): seq<Recorded> {
    var k := LastCandidate(calls, id, tool);
    if k.None? then calls + [Recorded(Call(id, tool, "", Some(ok), error), "")]
    else calls[k.value := Record(calls[k.value], error, ok, result)]
  }

  /** The fold of a turn: the calls, whether a TurnComplete was seen, and the error it stopped on. */
  datatype Fold = Fold(calls: seq<Recorded>, complete: bool, failed: Option<string>)

  function Absorb(s: Fold, e: Event, json: Json): Fold {
    if s.complete || s.failed.Some? then s
    else
      match e
      case Started(id, tool, args, _) => s.(calls := s.calls + [Recorded(Call(id, tool, args, None, ""), "")])
      case Result(id, tool, error, result) =>
        s.(calls := Settle(s.calls, id, tool, error, Outcome(error, result, json), result))
      case ErrorEvent(message) => s.(failed := Some(if message == "" then "unknown error" else message))
      case TurnComplete => s.(complete := true)
      case OtherEvent => s
  }

  function AbsorbAll(events: seq<Event>, json: Json): Fold
    decreases |events|
  {
    if events == [] then Fold([], false, None)
    else Absorb(AbsorbAll(events[..|events| - 1], json), events[|events| - 1], json)
  }

  method AbsorbResult(calls: seq<Recorded>, id: string, tool: string, error: string, ok: bool, result: string)
    returns (r: seq<Recorded>)
    ensures r == Settle(calls, id, tool, error, ok, result)
  {
    var i := |calls|;
    while i > 0
      invariant 0 <= i <= |calls|
      invariant forall j :: i <= j < |calls| ==> !Candidate(calls[j].call, id, tool)
    {
      i := i - 1;
      var call := calls[i].call;
      if call.ok.Some? || call.tool != tool {
        continue;
      }
      if id != "" && call.id != "" && call.id != id {
        continue;
      }
      if error != "" {
        call := call.(error := error);
      }
      r := calls[i := Recorded(call.(ok := Some(ok)), result)];
      return;
    }
    r := calls + [Recorded(Call(id, tool, "", Some(ok), error), "")];
  }

  /** One turn's events, until an Error stops the runner; after a TurnComplete nothing is recorded. */
  method AbsorbEvents(events: seq<Event>, json: Json) returns (calls: seq<Recorded>, complete: bool, failed: Option<string>)
    ensures Fold(calls, complete, failed) == AbsorbAll(events, json)
  {
    calls, complete, failed := [], false, None;
    for i := 0 to |events|
      invariant Fold(calls, complete, failed) == AbsorbAll(events[..i], json) && failed.None?
    {
      assert events[..i + 1][..i] == events[..i];
      if complete {
        continue;
      }
      match events[i] {
        case Started(id, tool, args, _) =>
          calls := calls + [Recorded(Call(id, tool, args, None, ""), "")];
        case Result(id, tool, error, result) =>
          var ok := Outcome(error, result, json);
          calls := AbsorbResult(calls, id, tool, error, ok, result);
        case ErrorEvent(message) =>
          failed := Some(if message == "" then "unknown error" else message);
          StopsThere(events, i + 1, json);
          return;
        case TurnComplete =>
          complete := true;
        case OtherEvent =>
      }
    }
    assert events[..|events|] == events;
  }

  /** Nothing changes once the fold has stopped. */
  lemma {:induction false} StopsThere(events: seq<Event>, n: nat, json: Json)
    requires n <= |events| && AbsorbAll(events[..n], json).failed.Some?
    ensures AbsorbAll(events, json) == AbsorbAll(events[..n], json)
    decreases |events|
  {
    if n == |events| {
      assert events[..n] == events;
    } else {
      assert events[..|events| - 1][..n] == events[..n];
      StopsThere(events[..|events| - 1], n, json);
    }
  }

  // ---------------------------------------------------------------- the calls a trace describes

  ghost predicate Starts(events: seq<Event>, id: string) {
    exists e :: e in events && e.Started? && e.id == id
  }

  ghost predicate Ends(events: seq<Event>, id: string) {
    exists e :: e in events && e.Result? && e.id == id
  }

  /** The turn is neither complete nor failed. */
  ghost predicate Running(events: seq<Event>) {
    forall e :: e in events ==> !e.ErrorEvent? && !e.TurnComplete?
  }

  /** Each call id has one start, followed by at most one result with the same tool, and both come
      while the turn runs. */
  ghost predicate WellFormed(events: seq<Event>)
    decreases |events|
  {
    events != [] ==>
      var before, e := events[..|events| - 1], events[|events| - 1];
      && WellFormed(before)
      && (e.Started? || e.Result? ==> Running(before))
      && (e.Started? ==> e.id != "" && !Starts(before, e.id))
      && (e.Result? ==> !Ends(before, e.id) && exists s :: s in before && s.Started? && s.id == e.id && s.tool == e.tool)
  }

  /** The starts, in order. */
  function StartsOf(events: seq<Event>): (r: seq<Event>)
    ensures forall e :: e in r ==> e.Started?
    decreases |events|
  {
    if events == [] then []
    else
      var before, e := StartsOf(events[..|events| - 1]), events[|events| - 1];
      if e.Started? then before + [e] else before
  }

  /** The result of a call, if it came. */
  function ResultOf(events: seq<Event>, id: string): (r: Option<Event>)
    ensures r.Some? ==> r.value.Result?
    decreases |events|
  {
    if events == [] then None
    else
      var e := events[|events| - 1];
      if e.Result? && e.id == id then Some(e) else ResultOf(events[..|events| - 1], id)
  }

  /** A start, and its result if it came. */
  datatype Pair = Pair(start: Event, result: Option<Event>)

  /** One pair for each start, in order. */
  function Pairs(events: seq<Event>): seq<Pair> {
    seq(|StartsOf(events)|, i requires 0 <= i < |StartsOf(events)| =>
      Pair(StartsOf(events)[i], if StartsOf(events)[i].Started? then ResultOf(events, StartsOf(events)[i].id) else None))
  }

  function CallOf(p: Pair, json: Json): Call {
    match p
    case Pair(Started(id, tool, args, _), Some(Result(_, _, error, result))) =>
      Call(id, tool, args, Some(Outcome(error, result, json)), error)
    case Pair(Started(id, tool, args, _), _) => Call(id, tool, args, None, "")
    case _ => Call("", "", "", None, "")
  }

  function ObservedOf(p: Pair, json: Json): Observed {
    Observed(CallOf(p, json), if p.start.Started? then p.start.resolved else None,
             if p.result.Some? && p.result.value.Result? then json.code(p.result.value.result, p.result.value.error) else None)
  }

  function AllObserved(pairs: seq<Pair>, json: Json): seq<Observed> {
    seq(|pairs|, i requires 0 <= i < |pairs| => ObservedOf(pairs[i], json))
  }

  function Calls(pairs: seq<Pair>, json: Json): seq<Call> {
    seq(|pairs|, i requires 0 <= i < |pairs| => CallOf(pairs[i], json))
  }

  lemma {:induction false} StartsMeans(events: seq<Event>, e: Event)
    ensures e in StartsOf(events) <==> e in events && e.Started?
    decreases |events|
  {
    if events != [] {
      StartsMeans(events[..|events| - 1], e);
      assert events == events[..|events| - 1] + [events[|events| - 1]];
    }
  }

  lemma {:induction false} ResultMeans(events: seq<Event>, id: string)
    ensures ResultOf(events, id).Some? <==> Ends(events, id)
    decreases |events|
  {
    if events != [] {
      ResultMeans(events[..|events| - 1], id);
      assert events == events[..|events| - 1] + [events[|events| - 1]];
    }
  }

  /** The ids of the calls, in the order of the starts, are distinct and not empty. */
  lemma {:induction false} CallIdsDistinct(events: seq<Event>)
    requires WellFormed(events)
    ensures forall i, j :: 0 <= i < j < |StartsOf(events)| ==> StartsOf(events)[i].id != StartsOf(events)[j].id
    ensures forall e :: e in StartsOf(events) ==> e.id != ""
    decreases |events|
  {
    if events != [] {
      var before, e := events[..|events| - 1], events[|events| - 1];
      CallIdsDistinct(before);
      if e.Started? {
        forall s | s in StartsOf(before)
          ensures s.id != e.id
        {
          StartsMeans(before, s);
        }
        assert forall i :: 0 <= i < |StartsOf(before)| ==> StartsOf(before)[i] in StartsOf(before);
      }
    }
  }

  /** A result never comes before its start. */
  lemma {:induction false} NoResultYet(events: seq<Event>, id: string)
    requires WellFormed(events) && !Starts(events, id)
    ensures ResultOf(events, id).None?
    decreases |events|
  {
    if events != [] {
      var before, e := events[..|events| - 1], events[|events| - 1];
      assert events == before + [e];
      NoResultYet(before, id);
    }
  }

  // How the pairs change with one more event.

  lemma {:induction false} PairsStart(before: seq<Event>, e: Event)
    requires WellFormed(before + [e]) && e.Started?
    ensures Pairs(before + [e]) == Pairs(before) + [Pair(e, None)]
  {
    var events := before + [e];
    assert events[..|events| - 1] == before;
    NoResultYet(before, e.id);
    assert StartsOf(events) == StartsOf(before) + [e];
    assert forall id :: ResultOf(events, id) == ResultOf(before, id);
  }

  lemma {:induction false} PairsResult(before: seq<Event>, e: Event) returns (k: nat)
    requires WellFormed(before + [e]) && e.Result?
    ensures k < |Pairs(before)| && Pairs(before)[k].start.Started? && Pairs(before)[k].result.None?
    ensures Pairs(before)[k].start.id == e.id && Pairs(before)[k].start.tool == e.tool
    ensures Pairs(before + [e]) == Pairs(before)[k := Pair(Pairs(before)[k].start, Some(e))]
  {
    var events, starts := before + [e], StartsOf(before);
    assert events[..|events| - 1] == before;
    CallIdsDistinct(before);
    ResultMeans(before, e.id);
    var s :| s in before && s.Started? && s.id == e.id && s.tool == e.tool;
    StartsMeans(before, s);
    k :| 0 <= k < |starts| && starts[k] == s;
    assert StartsOf(events) == starts;
    forall i | 0 <= i < |starts|
      ensures starts[i].Started? && ResultOf(events, starts[i].id) == if i == k then Some(e) else ResultOf(before, starts[i].id)
    {
      assert starts[i] in starts;
    }
  }

  lemma {:induction false} PairsOther(before: seq<Event>, e: Event)
    requires !e.Started? && !e.Result?
    ensures Pairs(before + [e]) == Pairs(before)
  {
    var events := before + [e];
    assert events[..|events| - 1] == before;
    assert forall id :: ResultOf(events, id) == ResultOf(before, id);
  }

  // ---------------------------------------------------------------- both readers see those calls

  /** The id map holds each call's place. */
  ghost predicate Mapped(s: Seen) {
    && Points(s)
    && (forall k :: 0 <= k < |s.order| ==> s.order[k].call.id in s.byId && s.byId[s.order[k].call.id] == k)
  }

  lemma {:induction false} ObservedAre(events: seq<Event>, json: Json)
    requires WellFormed(events)
    ensures ObserveAll(events, json).order == AllObserved(Pairs(events), json) && Mapped(ObserveAll(events, json))
    decreases |events|
  {
    if events != [] {
      var before, e := events[..|events| - 1], events[|events| - 1];
      assert events == before + [e];
      ObservedAre(before, json);
      if e.Started? {
        PairsStart(before, e);
        FreshId(before, e);
      } else if e.Result? {
        var k := PairsResult(before, e);
        assert AllObserved(Pairs(before), json)[k].call.id == e.id;
      } else {
        PairsOther(before, e);
      }
    }
  }

  lemma {:induction false} FreshId(before: seq<Event>, e: Event)
    requires WellFormed(before + [e]) && e.Started?
    ensures e.id != "" && forall k :: 0 <= k < |Pairs(before)| ==> Pairs(before)[k].start.Started? && Pairs(before)[k].start.id != e.id
  {
    assert (before + [e])[..|before|] == before;
    forall k | 0 <= k < |Pairs(before)|
      ensures Pairs(before)[k].start.Started? && Pairs(before)[k].start.id != e.id
    {
      StartsMeans(before, StartsOf(before)[k]);
    }
  }

  function ObservedCores(order: seq<Observed>): seq<Call> {
    seq(|order|, i requires 0 <= i < |order| => order[i].call)
  }

  function RecordedCores(calls: seq<Recorded>): seq<Call> {
    seq(|calls|, i requires 0 <= i < |calls| => calls[i].call)
  }
}
