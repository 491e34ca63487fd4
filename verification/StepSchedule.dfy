/** `DueSteps` of regression/schema/steps.py, the live-scenario rule of
    regression/schema/scenario.py, and `_apply_steps` of regression/t4/runner.py. */
module StepSchedule {
  import opened Common

  type Positive = n: int | n >= 1 witness 1

  datatype Predicate = Predicate(event: string, nth: Positive, name: Option<string>, callId: Option<string>)

  /** The event fields a predicate looks at; a field that is missing or not a string is `None`. */
  datatype Event = Event(kind: string, tool: Option<string>, toolName: Option<string>, name: Option<string>,
                         callId: Option<string>, toolCallId: Option<string>)

  datatype Action =
    | DisconnectSse
    | ReconnectSse(lastEventId: string)
    | ConfirmTool
    | ReloadConfig
    | CreateLoop
    | InvokeTick
    | ReadHistory
    | Offline(action: string)   // every action that only in-process drivers run

  datatype Step = Step(action: Action, when: Option<Predicate>)

  // ---------------------------------------------------------------- matching

  function NonEmpty(v: Option<string>): Option<string> {
    if v.Some? && v.value != [] then v else None
  }

  function EventName(e: Event): Option<string> {
    if NonEmpty(e.tool).Some? then e.tool
    else if NonEmpty(e.toolName).Some? then e.toolName
    else NonEmpty(e.name)
  }

  function EventCallId(e: Event): Option<string> {
    if NonEmpty(e.callId).Some? then e.callId else NonEmpty(e.toolCallId)
  }

  /** The event kind a predicate's name stands for. */
  function KindOf(event: string): string {
    if event == "text" then "AssistantDelta"
    else if event == "tool_result" then "ToolCallResult"
    else if event == "tool_input" then "ToolInputDelta"
    else if event == "done" then "AssistantTextEnded"
    else if event == "ask_user" then "AskUserRequest"
    else if event == "tool_confirmation" then "ToolConfirmationRequest"
    else event
  }

  predicate Matches(p: Predicate, e: Event) {
    && e.kind == KindOf(p.event)
    && (p.name.Some? ==> EventName(e) == p.name)
    && (p.callId.Some? ==> EventCallId(e) == p.callId)
  }

  /** The names that scenarios may use for event kinds. */
  const Aliases := map["text" := "AssistantDelta", "tool_result" := "ToolCallResult", "tool_input" := "ToolInputDelta",
                       "done" := "AssistantTextEnded", "ask_user" := "AskUserRequest",
                       "tool_confirmation" := "ToolConfirmationRequest"]

  predicate Missing(v: Option<string>) {
    v == None || v == Some("")
  }

  /** The first non-empty one of tool, tool_name and name. */
  predicate Named(e: Event, name: string) {
    && name != ""
    && (|| e.tool == Some(name)
        || (Missing(e.tool) && e.toolName == Some(name))
        || (Missing(e.tool) && Missing(e.toolName) && e.name == Some(name)))
  }

  /** The first non-empty one of call_id and tool_call_id. */
  predicate Called(e: Event, id: string) {
    id != "" && (e.callId == Some(id) || (Missing(e.callId) && e.toolCallId == Some(id)))
  }

  /** Which events a predicate matches: those of its kind that bear its name and its call id, where it
      has them. */
  lemma {:induction false} MatchesMeans(p: Predicate, e: Event)
    ensures Matches(p, e) <==>
      && e.kind == (if p.event in Aliases then Aliases[p.event] else p.event)
      && (p.name.Some? ==> Named(e, p.name.value))
      && (p.callId.Some? ==> Called(e, p.callId.value))
  {
  }

  type Key = (string, string, string)

  function OrEmpty(v: Option<string>): string {
    if v.Some? then v.value else []
  }

  function KeyOf(p: Predicate): Key {
    (p.event, OrEmpty(p.name), OrEmpty(p.callId))
  }

  // ---------------------------------------------------------------- the specification

  /** How many of the events satisfy the step's own predicate. */
  function Count(p: Predicate, events: seq<Event>): nat {
    if events == [] then 0
    else Count(p, events[..|events| - 1]) + if Matches(p, events[|events| - 1]) then 1 else 0
  }

  /** The step fires on `e` after `seen`: `e` is the nth event its own predicate matches. */
  predicate DueOn(s: Step, seen: seq<Event>, e: Event) {
    s.when.Some? && Matches(s.when.value, e) && Count(s.when.value, seen) + 1 == s.when.value.nth
  }

  predicate Waiting(s: Step, seen: seq<Event>) {
    s.when.Some? && Count(s.when.value, seen) < s.when.value.nth
  }

  function DueAll(steps: seq<Step>, seen: seq<Event>, e: Event): seq<Step> {
    if steps == [] then []
    else if DueOn(steps[|steps| - 1], seen, e) then DueAll(steps[..|steps| - 1], seen, e) + [steps[|steps| - 1]]
    else DueAll(steps[..|steps| - 1], seen, e)
  }

  function WaitingAll(steps: seq<Step>, seen: seq<Event>): seq<Step> {
    if steps == [] then []
    else if Waiting(steps[|steps| - 1], seen) then WaitingAll(steps[..|steps| - 1], seen) + [steps[|steps| - 1]]
    else WaitingAll(steps[..|steps| - 1], seen)
  }

  /** The step is due at position `t` of the trace. */
  ghost predicate Fires(s: Step, trace: seq<Event>, t: nat) {
    t < |trace| && DueOn(s, trace[..t], trace[t])
  }

  lemma {:induction false} FiresInFront(s: Step, trace: seq<Event>, t: nat)
    requires trace != [] && t < |trace| - 1
    ensures Fires(s, trace, t) <==> Fires(s, trace[..|trace| - 1], t)
  {
    var front := trace[..|trace| - 1];
    assert front[..t] == trace[..t] && front[t] == trace[t];
  }

  /** How often the predicate has matched before the position at which the step is due. */
  lemma {:induction false} FiresAtCount(s: Step, trace: seq<Event>, t: nat)
    requires Fires(s, trace, t)
    ensures s.when.Some? && Count(s.when.value, trace) >= s.when.value.nth
    decreases |trace|
  {
    var n := |trace| - 1;
    if t < n {
      FiresInFront(s, trace, t);
      FiresAtCount(s, trace[..n], t);
    }
  }

  lemma {:induction false} CountFires(s: Step, trace: seq<Event>) returns (t: nat)
    requires s.when.Some? && Count(s.when.value, trace) >= s.when.value.nth
    ensures Fires(s, trace, t)
    decreases |trace|
  {
    var n := |trace| - 1;
    if Count(s.when.value, trace[..n]) >= s.when.value.nth {
      t := CountFires(s, trace[..n]);
      FiresInFront(s, trace, t);
    } else {
      t := n;
    }
  }

  lemma {:induction false} FiresNoMore(s: Step, trace: seq<Event>, t: nat, u: nat)
    requires Fires(s, trace, t) && t < u < |trace|
    ensures !Fires(s, trace, u)
  {
    assert trace[..u][..t] == trace[..t] && trace[..u][t] == trace[t];
    FiresAtCount(s, trace[..u], t);
  }

  /** Every step has one moment: it is due at exactly one position of the trace if its predicate
      matches at least nth times, and at none otherwise. */
  lemma {:induction false} FiresExactlyOnce(s: Step, trace: seq<Event>)
    ensures (exists t: nat :: Fires(s, trace, t)) <==> s.when.Some? && Count(s.when.value, trace) >= s.when.value.nth
    ensures forall t: nat, u: nat :: Fires(s, trace, t) && t < u < |trace| ==> !Fires(s, trace, u)
  {
    if t: nat :| Fires(s, trace, t) {
      FiresAtCount(s, trace, t);
    }
    if s.when.Some? && Count(s.when.value, trace) >= s.when.value.nth {
      var t := CountFires(s, trace);
    }
    forall t: nat, u: nat | Fires(s, trace, t) && t < u < |trace|
      ensures !Fires(s, trace, u)
    {
      FiresNoMore(s, trace, t, u);
    }
  }

  // ---------------------------------------------------------------- the shared-counter object

  /** Predicates that can match at all: an event never has an empty name or call id. */
  predicate Satisfiable(p: Predicate) {
    p.name != Some([]) && p.callId != Some([])
  }

  lemma {:induction false} MatchIsSatisfiable(p: Predicate, e: Event)
    requires Matches(p, e)
    ensures Satisfiable(p)
  {
  }

  /** Satisfiable predicates with one key match the same events. */
  lemma {:induction false} SameKeySameMatch(p: Predicate, q: Predicate, e: Event)
    requires Satisfiable(p) && Satisfiable(q) && KeyOf(p) == KeyOf(q)
    ensures Matches(p, e) == Matches(q, e)
  {
  }

  function Lookup(counts: map<Key, nat>, k: Key): nat {
    if k in counts then counts[k] else 0
  }

  class DueSteps {
    var pending: seq<Step>
    var counts: map<Key, nat>
    ghost var steps: seq<Step>
    ghost var seen: seq<Event>

    ghost predicate Valid() reads this {
      && pending == WaitingAll(steps, seen)
      && CountsRight(pending, counts, seen)
    }

    constructor (steps: seq<Step>)
      ensures Valid() && this.steps == steps && seen == []
    {
      var kept: seq<Step> := [];
      for i := 0 to |steps|
        invariant kept == WaitingAll(steps[..i], [])
      {
        assert steps[..i + 1][..i] == steps[..i];
        if steps[i].when.Some? {
          kept := kept + [steps[i]];
        }
      }
      assert steps[..|steps|] == steps;
      pending, counts := kept, map[];
      this.steps, seen := steps, [];
    }

    /** Hands back exactly the steps whose own predicate `e` satisfies for the nth time, in
        list order. */
    method Take(e: Event) returns (fired: seq<Step>)
      requires Valid()
      modifies this
      ensures Valid() && steps == old(steps) && seen == old(seen) + [e]
      ensures fired == DueAll(steps, old(seen), e)
    {
      DueOfWaiting(steps, seen, e);
      WaitingOfWaiting(steps, seen, e);
      forall s | s in pending ensures Waiting(s, seen) {
        PendingHasWhen(steps, seen, s);
      }
      if pending == [] {
        seen := seen + [e];
        return [];
      }
      var still;
      fired, still, counts := Pass(pending, counts, e, seen);
      pending := still;
      seen := seen + [e];
    }

    /** Count a key, unless this pass has counted it already. */
    static method CountKey(ghost before: map<Key, nat>, counts: map<Key, nat>, bumped: set<Key>, key: Key)
      returns (counts': map<Key, nat>, bumped': set<Key>)
      requires CountedOnce(before, counts, bumped)
      ensures CountedOnce(before, counts', bumped') && bumped' == bumped + {key}
      ensures key in counts' && counts'[key] == Lookup(before, key) + 1
    {
      counts', bumped' := counts, bumped;
      assert Lookup(counts, key) == Lookup(before, key) + (if key in bumped then 1 else 0);
      if key !in bumped {
        counts' := counts[key := Lookup(counts, key) + 1];
        bumped' := bumped + {key};
        forall k ensures Lookup(counts', k) == Lookup(before, k) + (if k in bumped' then 1 else 0) {
          assert Lookup(counts, k) == Lookup(before, k) + (if k in bumped then 1 else 0);
        }
      }
    }

    /** The loop of `take`: one pass over the pending steps, counting each key at most once. */
    static method Pass(pending: seq<Step>, before: map<Key, nat>, e: Event, ghost seen: seq<Event>)
      returns (fired: seq<Step>, still: seq<Step>, counts: map<Key, nat>)
      requires CountsRight(pending, before, seen) && forall s :: s in pending ==> Waiting(s, seen)
      ensures fired == DueAll(pending, seen, e) && still == WaitingAll(pending, seen + [e])
      ensures CountsRight(still, counts, seen + [e])
    {
      fired, still, counts := [], [], before;
      var bumped: set<Key> := {};
      for i := 0 to |pending|
        invariant fired == DueAll(pending[..i], seen, e)
        invariant still == WaitingAll(pending[..i], seen + [e])
        invariant CountedOnce(before, counts, bumped)
        invariant Bumped(bumped, pending[..i], e)
      {
        var step := pending[i];
        assert step in pending;
        var when := step.when.value;
        CountSnoc(when, seen, e);
        BumpedSnoc(bumped, pending[..i], step, e);
        FilterSnoc(pending[..i], step, seen, e);
        assert pending[..i + 1] == pending[..i] + [step];
        if !Matches(when, e) {
          still := still + [step];
        } else {
          MatchIsSatisfiable(when, e);
          counts, bumped := CountKey(before, counts, bumped, KeyOf(when));
          if counts[KeyOf(when)] == when.nth {
            fired := fired + [step];
          } else {
            still := still + [step];
          }
        }
      }
      assert pending[..|pending|] == pending;
      CountsAfter(pending, before, counts, bumped, seen, e);
      KeepsCounts(pending, counts, seen, e);
    }
  }

  ghost predicate CountedOnce(before: map<Key, nat>, after: map<Key, nat>, bumped: set<Key>) {
    (forall k :: k in bumped ==> k in after)
    && forall k :: Lookup(after, k) == Lookup(before, k) + (if k in bumped then 1 else 0)
  }

  lemma {:induction false} FilterSnoc(steps: seq<Step>, s: Step, seen: seq<Event>, e: Event)
    ensures DueAll(steps + [s], seen, e) == DueAll(steps, seen, e) + (if DueOn(s, seen, e) then [s] else [])
    ensures WaitingAll(steps + [s], seen + [e]) == WaitingAll(steps, seen + [e]) + (if Waiting(s, seen + [e]) then [s] else [])
  {
    assert (steps + [s])[..|steps|] == steps;
  }

  lemma {:induction false} BumpedSnoc(bumped: set<Key>, steps: seq<Step>, s: Step, e: Event)
    requires Bumped(bumped, steps, e) && s.when.Some?
    ensures Bumped(if Matches(s.when.value, e) then bumped + {KeyOf(s.when.value)} else bumped, steps + [s], e)
  {
    var all := steps + [s];
    assert s in all;
    forall k | k in bumped
      ensures exists q :: q in all && q.when.Some? && Matches(q.when.value, e) && KeyOf(q.when.value) == k
    {
      var q :| q in steps && q.when.Some? && Matches(q.when.value, e) && KeyOf(q.when.value) == k;
      assert q in all;
    }
  }

  ghost predicate CountsRight(pending: seq<Step>, counts: map<Key, nat>, seen: seq<Event>) {
    forall s :: s in pending && s.when.Some? && Satisfiable(s.when.value) ==>
      Lookup(counts, KeyOf(s.when.value)) == Count(s.when.value, seen)
  }

  /** The keys of the steps that `e` matched. */
  ghost predicate Bumped(bumped: set<Key>, steps: seq<Step>, e: Event) {
    && (forall s :: s in steps && s.when.Some? && Matches(s.when.value, e) ==> KeyOf(s.when.value) in bumped)
    && (forall k :: k in bumped ==> exists s :: s in steps && s.when.Some? && Matches(s.when.value, e) && KeyOf(s.when.value) == k)
  }

  lemma {:induction false} CountSnoc(p: Predicate, seen: seq<Event>, e: Event)
    ensures Count(p, seen + [e]) == Count(p, seen) + if Matches(p, e) then 1 else 0
  {
    assert (seen + [e])[..|seen|] == seen;
  }

  lemma {:induction false} PendingHasWhen(steps: seq<Step>, seen: seq<Event>, s: Step)
    ensures s in WaitingAll(steps, seen) <==> s in steps && Waiting(s, seen)
    decreases |steps|
  {
    if steps != [] {
      PendingHasWhen(steps[..|steps| - 1], seen, s);
      assert steps == steps[..|steps| - 1] + [steps[|steps| - 1]];
    }
  }

  /** A step that is due was still waiting, so looking at the waiting ones is enough. */
  lemma {:induction false} DueOfWaiting(steps: seq<Step>, seen: seq<Event>, e: Event)
    ensures DueAll(WaitingAll(steps, seen), seen, e) == DueAll(steps, seen, e)
    decreases |steps|
  {
    if steps != [] {
      var n := |steps| - 1;
      DueOfWaiting(steps[..n], seen, e);
      var front := WaitingAll(steps[..n], seen);
      if Waiting(steps[n], seen) {
        assert (front + [steps[n]])[..|front|] == front;
      }
    }
  }

  lemma {:induction false} WaitingOfWaiting(steps: seq<Step>, seen: seq<Event>, e: Event)
    ensures WaitingAll(WaitingAll(steps, seen), seen + [e]) == WaitingAll(steps, seen + [e])
    decreases |steps|
  {
    if steps != [] {
      var n := |steps| - 1;
      WaitingOfWaiting(steps[..n], seen, e);
      var front := WaitingAll(steps[..n], seen);
      if steps[n].when.Some? {
        CountSnoc(steps[n].when.value, seen, e);
      }
      if Waiting(steps[n], seen) {
        assert (front + [steps[n]])[..|front|] == front;
      }
    }
  }

  /** After the pass every counter is right for the longer history. */
  lemma {:induction false} CountsAfter(pending: seq<Step>, before: map<Key, nat>, after: map<Key, nat>, bumped: set<Key>, seen: seq<Event>, e: Event)
    requires CountsRight(pending, before, seen) && Bumped(bumped, pending, e)
    requires CountedOnce(before, after, bumped)
    ensures CountsRight(pending, after, seen + [e])
  {
    forall s | s in pending && s.when.Some? && Satisfiable(s.when.value)
      ensures Lookup(after, KeyOf(s.when.value)) == Count(s.when.value, seen + [e])
    {
      var p := s.when.value;
      CountSnoc(p, seen, e);
      if KeyOf(p) in bumped {
        var q :| q in pending && q.when.Some? && Matches(q.when.value, e) && KeyOf(q.when.value) == KeyOf(p);
        MatchIsSatisfiable(q.when.value, e);
        SameKeySameMatch(p, q.when.value, e);
      }
    }
  }

  lemma {:induction false} KeepsCounts(pending: seq<Step>, counts: map<Key, nat>, seen: seq<Event>, e: Event)
    requires CountsRight(pending, counts, seen + [e])
    ensures CountsRight(WaitingAll(pending, seen + [e]), counts, seen + [e])
  {
    forall s | s in WaitingAll(pending, seen + [e]) ensures s in pending {
      PendingHasWhen(pending, seen + [e], s);
    }
  }

  // ---------------------------------------------------------------- live scenarios

  datatype RuleError = NotALiveAction | UnpairedDrop | SetupStepWithWhen | ForeignResumeId

  const LastSeenEventId := "last_seen"

  predicate SetupAction(a: Action) {
    a.CreateLoop? || a.InvokeTick? || a.ReadHistory?
  }

  function DropWhens(steps: seq<Step>): seq<Option<Predicate>> {
    if steps == [] then []
    else if steps[0].action.DisconnectSse? then [steps[0].when] + DropWhens(steps[1..])
    else DropWhens(steps[1..])
  }

  function ResumeWhens(steps: seq<Step>): seq<Option<Predicate>> {
    if steps == [] then []
    else if steps[0].action.ReconnectSse? then [steps[0].when] + ResumeWhens(steps[1..])
    else ResumeWhens(steps[1..])
  }

  /** `_live_step_rules`: the first rule that is broken, in the order they are tried. */
  function LiveStepRules(steps: seq<Step>): Result<(), RuleError> {
    if exists s :: s in steps && s.action.Offline? then Err(NotALiveAction)
    else if DropWhens(steps) != ResumeWhens(steps) then Err(UnpairedDrop)
    else if exists s :: s in steps && SetupAction(s.action) && s.when.Some? then Err(SetupStepWithWhen)
    else if exists s :: s in steps && s.action.ReconnectSse? && s.action.lastEventId != LastSeenEventId then Err(ForeignResumeId)
    else Ok(())
  }

  /** The steps at these positions have these predicates. */
  ghost predicate WhensAt(steps: seq<Step>, at: seq<nat>, whens: seq<Option<Predicate>>) {
    |at| == |whens| && Increasing(at) && forall k :: 0 <= k < |at| ==> at[k] < |steps| && steps[at[k]].when == whens[k]
  }

  lemma {:induction false} DropsStand(steps: seq<Step>) returns (at: seq<nat>)
    ensures WhensAt(steps, at, DropWhens(steps))
    ensures forall i: nat :: i in at <==> i < |steps| && steps[i].action.DisconnectSse?
    decreases |steps|
  {
    at := [];
    if steps != [] {
      var rest := DropsStand(steps[1..]);
      WhensLater(steps, rest, DropWhens(steps[1..]));
      WhensNext(steps, rest, DropWhens(steps[1..]));
      at := if steps[0].action.DisconnectSse? then [0] + Later(rest) else Later(rest);
    }
  }

  lemma {:induction false} ResumesStand(steps: seq<Step>) returns (at: seq<nat>)
    ensures WhensAt(steps, at, ResumeWhens(steps))
    ensures forall i: nat :: i in at <==> i < |steps| && steps[i].action.ReconnectSse?
    decreases |steps|
  {
    at := [];
    if steps != [] {
      var rest := ResumesStand(steps[1..]);
      WhensLater(steps, rest, ResumeWhens(steps[1..]));
      WhensNext(steps, rest, ResumeWhens(steps[1..]));
      at := if steps[0].action.ReconnectSse? then [0] + Later(rest) else Later(rest);
    }
  }

  lemma {:induction false} WhensLater(steps: seq<Step>, at: seq<nat>, whens: seq<Option<Predicate>>)
    requires steps != [] && WhensAt(steps[1..], at, whens)
    ensures WhensAt(steps, Later(at), whens)
  {
    LaterIncreasing(at);
  }

  lemma {:induction false} WhensNext(steps: seq<Step>, at: seq<nat>, whens: seq<Option<Predicate>>)
    requires steps != [] && WhensAt(steps[1..], at, whens)
    ensures WhensAt(steps, [0] + Later(at), [steps[0].when] + whens)
  {
    LaterIncreasing(at);
    WhensLater(steps, at, whens);
    var places, all, later := [0] + Later(at), [steps[0].when] + whens, Later(at);
    forall k | 0 <= k < |places| ensures places[k] < |steps| && steps[places[k]].when == all[k] {
      if k > 0 {
        assert places[k] == later[k - 1] && all[k] == whens[k - 1];
      }
    }
  }

  /** The steps of a live scenario are accepted iff each is one that live runs know, the drops and the
      resumes come in equal numbers and the k-th of each have the same predicate, setup steps have none,
      and every resume is from the last id seen; and the first rule broken is the one reported. */
  lemma {:induction false} RulesMean(steps: seq<Step>) returns (drops: seq<nat>, resumes: seq<nat>)
    ensures Increasing(drops) && forall i: nat :: i in drops <==> i < |steps| && steps[i].action.DisconnectSse?
    ensures Increasing(resumes) && forall i: nat :: i in resumes <==> i < |steps| && steps[i].action.ReconnectSse?
    ensures forall k :: 0 <= k < |drops| ==> drops[k] < |steps|
    ensures forall k :: 0 <= k < |resumes| ==> resumes[k] < |steps|
    ensures var r := LiveStepRules(steps);
      var known := forall s :: s in steps ==> !s.action.Offline?;
      var paired := |drops| == |resumes| && forall k :: 0 <= k < |drops| ==> steps[drops[k]].when == steps[resumes[k]].when;
      var early := forall s :: s in steps && (s.action.CreateLoop? || s.action.InvokeTick? || s.action.ReadHistory?) ==> s.when.None?;
      var own := forall s :: s in steps && s.action.ReconnectSse? ==> s.action.lastEventId == "last_seen";
      && (r == Err(NotALiveAction) <==> !known)
      && (r == Err(UnpairedDrop) <==> known && !paired)
      && (r == Err(SetupStepWithWhen) <==> known && paired && !early)
      && (r == Err(ForeignResumeId) <==> known && paired && early && !own)
      && (r.Ok? <==> known && paired && early && own)
  {
    drops := DropsStand(steps);
    resumes := ResumesStand(steps);
    var d, r := DropWhens(steps), ResumeWhens(steps);
    assert d == r <==> |d| == |r| && forall k :: 0 <= k < |d| ==> d[k] == r[k];
  }

  lemma {:induction false} WhensOf(steps: seq<Step>, w: Option<Predicate>)
    ensures w in DropWhens(steps) <==> exists s :: s in steps && s.action.DisconnectSse? && s.when == w
    ensures w in ResumeWhens(steps) <==> exists s :: s in steps && s.action.ReconnectSse? && s.when == w
    decreases |steps|
  {
    if steps != [] {
      WhensOf(steps[1..], w);
      assert forall s :: s in steps <==> s == steps[0] || s in steps[1..];
    }
  }

  lemma {:induction false} DueMember(steps: seq<Step>, seen: seq<Event>, e: Event, s: Step)
    ensures s in DueAll(steps, seen, e) <==> s in steps && DueOn(s, seen, e)
    decreases |steps|
  {
    if steps != [] {
      DueMember(steps[..|steps| - 1], seen, e, s);
      assert steps == steps[..|steps| - 1] + [steps[|steps| - 1]];
    }
  }

  predicate HasDrop(steps: seq<Step>) {
    exists s :: s in steps && s.action.DisconnectSse?
  }

  predicate HasResume(steps: seq<Step>) {
    exists s :: s in steps && s.action.ReconnectSse?
  }

  predicate RunsMidTurn(a: Action) {
    a.DisconnectSse? || a.ReconnectSse? || a.ConfirmTool? || a.ReloadConfig?
  }

  /** In an accepted live scenario, after every history and on every event, a drop is due exactly
      when a resume is, and every due step is one the runner can run mid-turn. */
  lemma {:induction false} DropsArePaired(steps: seq<Step>, seen: seq<Event>, e: Event)
    requires LiveStepRules(steps).Ok?
    ensures HasDrop(DueAll(steps, seen, e)) <==> HasResume(DueAll(steps, seen, e))
    ensures forall s :: s in DueAll(steps, seen, e) ==> RunsMidTurn(s.action)
  {
    var due := DueAll(steps, seen, e);
    forall s | s in due ensures s in steps && DueOn(s, seen, e) && RunsMidTurn(s.action) {
      DueMember(steps, seen, e, s);
    }
    if HasDrop(due) {
      var d :| d in due && d.action.DisconnectSse?;
      WhensOf(steps, d.when);
      var r :| r in steps && r.action.ReconnectSse? && r.when == d.when;
      DueMember(steps, seen, e, r);
    }
    if HasResume(due) {
      var r :| r in due && r.action.ReconnectSse?;
      WhensOf(steps, r.when);
      var d :| d in steps && d.action.DisconnectSse? && d.when == r.when;
      DueMember(steps, seen, e, d);
    }
  }

  /** What the runner does with the due steps of one event. */
  datatype Effect = Effect(drop: bool, resumeId: Option<string>)

  /** A confirmation or a reload sends a request, which may fail. */
  predicate SendsRequest(a: Action) {
    a.ConfirmTool? || a.ReloadConfig?
  }

  /** Step `i` runs: the runner knows the action, and its request, if it sends one, succeeds. */
  predicate StepRuns(s: Step, i: nat, answers: nat -> bool) {
    RunsMidTurn(s.action) && (SendsRequest(s.action) ==> answers(i))
  }

  /** `_apply_steps`.  `answers(i)` says whether the request of the i-th step succeeds; the error is
      the first step that cannot run, and the steps after it are not reached. */
  method ApplySteps(steps: seq<Step>, sseId: Option<string>, answers: nat -> bool) returns (r: Result<Effect, nat>)
    ensures r.Ok? <==> forall i :: 0 <= i < |steps| ==> StepRuns(steps[i], i, answers)
    ensures r.Ok? ==> r.value == Effect(HasDrop(steps), if HasResume(steps) then sseId else None)
    ensures r.Err? ==> r.error < |steps| && !StepRuns(steps[r.error], r.error, answers)
    ensures r.Err? ==> forall i :: 0 <= i < r.error ==> StepRuns(steps[i], i, answers)
  {
    var effect := Effect(false, None);
    for i := 0 to |steps|
      invariant forall k :: 0 <= k < i ==> StepRuns(steps[k], k, answers)
      invariant effect == Effect(HasDrop(steps[..i]), if HasResume(steps[..i]) then sseId else None)
    {
      var step := steps[i];
      assert steps[..i + 1] == steps[..i] + [step];
      assert step in steps[..i + 1];
      if step.action.ConfirmTool? || step.action.ReloadConfig? {
        if !answers(i) {
          return Err(i);
        }
      } else if step.action.DisconnectSse? {
        effect := effect.(drop := true);
      } else if step.action.ReconnectSse? {
        effect := effect.(resumeId := sseId);
      } else {
        return Err(i);
      }
    }
    assert steps[..|steps|] == steps;
    return Ok(effect);
  }

  /** A drop triggered by a frame that bears an id always comes with that id to resume from. */
  lemma {:induction false} DropHasResumeId(steps: seq<Step>, seen: seq<Event>, e: Event, sseId: Option<string>)
    requires LiveStepRules(steps).Ok?
    ensures var due := DueAll(steps, seen, e);
      HasDrop(due) ==> (if HasResume(due) then sseId else None) == sseId
  {
    DropsArePaired(steps, seen, e);
  }
}
