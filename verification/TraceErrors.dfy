/** The two counts of unresolved errors, over the calls that the two readers rebuild. */
module TraceErrors {
  import opened Common
  import opened Trace
  import opened TraceAgreement

  /** A later success of the same tool on the same target. */
  ghost predicate ForgivenByTarget(c: Observed, later: seq<Observed>, target: Observed -> string) {
    exists d :: d in later && d.call.tool == c.call.tool && d.call.ok == Some(true) && target(d) == target(c)
  }

  /** A later call of the same tool without an error. */
  ghost predicate ForgivenByTool(c: Call, later: seq<Call>) {
    exists d :: d in later && d.tool == c.tool && d.error == ""
  }

  ghost function CountByTarget(calls: seq<Observed>, target: Observed -> string): nat
    decreases |calls|
  {
    if calls == [] then 0
    else
      (if calls[0].call.ok == Some(false) && !ForgivenByTarget(calls[0], calls[1..], target) then 1 else 0)
      + CountByTarget(calls[1..], target)
  }

  ghost function CountByTool(calls: seq<Call>): nat
    decreases |calls|
  {
    if calls == [] then 0
    else CountByTool(calls[1..]) + (if calls[0].error != "" && !ForgivenByTool(calls[0], calls[1..]) then 1 else 0)
  }

  /** The inner loop: look for a later success on the target. */
  method IsForgiven(calls: seq<Observed>, index: nat, target: Observed -> string) returns (forgiven: bool)
    requires index < |calls|
    ensures forgiven <==> ForgivenByTarget(calls[index], calls[index + 1..], target)
  {
    var call := calls[index].call;
    for j := index + 1 to |calls|
      invariant forall k :: index < k < j ==>
        !(calls[k].call.tool == call.tool && calls[k].call.ok == Some(true) && target(calls[k]) == target(calls[index]))
    {
      if calls[j].call.tool != call.tool || calls[j].call.ok != Some(true) {
        continue;
      }
      if target(calls[j]) == target(calls[index]) {
        assert calls[j] in calls[index + 1..];
        return true;
      }
    }
    return false;
  }

  method UnresolvedErrors(calls: seq<Observed>, target: Observed -> string) returns (unresolved: nat)
    ensures unresolved == CountByTarget(calls, target)
  {
    unresolved := 0;
    for index := 0 to |calls|
      invariant unresolved + CountByTarget(calls[index..], target) == CountByTarget(calls, target)
    {
      assert calls[index..][0] == calls[index] && calls[index..][1..] == calls[index + 1..];
      if calls[index].call.ok != Some(false) {
        continue;
      }
      var forgiven := IsForgiven(calls, index, target);
      if !forgiven {
        unresolved := unresolved + 1;
      }
    }
  }

  /** The i-th call failed, and no later one of the same tool succeeded on the same target. */
  ghost predicate UnresolvedAt(calls: seq<Observed>, target: Observed -> string, i: int) {
    && 0 <= i < |calls| && calls[i].call.ok == Some(false)
    && !(exists j :: i < j < |calls| && Redeems(calls[j], calls[i], target))
  }

  predicate Redeems(d: Observed, c: Observed, target: Observed -> string) {
    d.call.tool == c.call.tool && d.call.ok == Some(true) && target(d) == target(c)
  }

  /** The positions from `n` on of which `p` holds. */
  ghost function Those(n: nat, end: nat, p: int -> bool): set<int> {
    set i | n <= i < end && p(i)
  }

  lemma {:induction false} ThoseNext(n: nat, end: nat, p: int -> bool)
    requires n < end
    ensures |Those(n, end, p)| == |Those(n + 1, end, p)| + (if p(n) then 1 else 0)
  {
    assert Those(n, end, p) == Those(n + 1, end, p) + (if p(n) then {n} else {});
  }

  ghost function Unresolved(calls: seq<Observed>, target: Observed -> string): int -> bool {
    i => UnresolvedAt(calls, target, i)
  }

  ghost function UnresolvedFrom(calls: seq<Observed>, target: Observed -> string, n: nat): set<int> {
    Those(n, |calls|, Unresolved(calls, target))
  }

  /** Counting by target counts exactly those. */
  lemma {:induction false} CountByTargetMeans(calls: seq<Observed>, target: Observed -> string, n: nat)
    requires n <= |calls|
    ensures CountByTarget(calls[n..], target) == |UnresolvedFrom(calls, target, n)|
    decreases |calls| - n
  {
    if n < |calls| {
      CountByTargetMeans(calls, target, n + 1);
      assert calls[n..][0] == calls[n] && calls[n..][1..] == calls[n + 1..];
      ForgivenAt(calls, target, n);
      ThoseNext(n, |calls|, Unresolved(calls, target));
    }
  }

  lemma {:induction false} ForgivenAt(calls: seq<Observed>, target: Observed -> string, n: nat)
    requires n < |calls|
    ensures ForgivenByTarget(calls[n], calls[n + 1..], target) <==> exists j :: n < j < |calls| && Redeems(calls[j], calls[n], target)
  {
    var later := calls[n + 1..];
    if j :| n < j < |calls| && Redeems(calls[j], calls[n], target) {
      assert later[j - n - 1] == calls[j];
    }
    if d :| d in later && d.call.tool == calls[n].call.tool && d.call.ok == Some(true) && target(d) == target(calls[n]) {
      var i :| 0 <= i < |later| && later[i] == d;
      assert calls[n + 1 + i] == d && Redeems(calls[n + 1 + i], calls[n], target);
    }
  }

  /** The i-th call has an error, and no later one of the same tool has none. */
  ghost predicate ErringAt(calls: seq<Call>, i: int) {
    && 0 <= i < |calls| && calls[i].error != ""
    && !(exists j :: i < j < |calls| && Clears(calls[j], calls[i]))
  }

  predicate Clears(d: Call, c: Call) {
    d.tool == c.tool && d.error == ""
  }

  ghost function Erring(calls: seq<Call>): int -> bool {
    i => ErringAt(calls, i)
  }

  ghost function ErringFrom(calls: seq<Call>, n: nat): set<int> {
    Those(n, |calls|, Erring(calls))
  }

  /** Counting by tool counts exactly those. */
  lemma {:induction false} CountByToolMeans(calls: seq<Call>, n: nat)
    requires n <= |calls|
    ensures CountByTool(calls[n..]) == |ErringFrom(calls, n)|
    decreases |calls| - n
  {
    if n < |calls| {
      CountByToolMeans(calls, n + 1);
      assert calls[n..][0] == calls[n] && calls[n..][1..] == calls[n + 1..];
      ForgivenToolAt(calls, n);
      ThoseNext(n, |calls|, Erring(calls));
    }
  }

  lemma {:induction false} ForgivenToolAt(calls: seq<Call>, n: nat)
    requires n < |calls|
    ensures ForgivenByTool(calls[n], calls[n + 1..]) <==> exists j :: n < j < |calls| && Clears(calls[j], calls[n])
  {
    var later := calls[n + 1..];
    if j :| n < j < |calls| && Clears(calls[j], calls[n]) {
      assert later[j - n - 1] == calls[j];
    }
    if d :| d in later && d.tool == calls[n].tool && d.error == "" {
      var i :| 0 <= i < |later| && later[i] == d;
      assert calls[n + 1 + i] == d && Clears(calls[n + 1 + i], calls[n]);
    }
  }

  method ToolErrorsCount(turns: seq<seq<Recorded>>) returns (unresolved: nat)
    ensures unresolved == CountByTool(RecordedCores(Flatten(turns)))
  {
    var calls := RecordedCores(Flatten(turns));
    unresolved := 0;
    for i := 0 to |calls|
      invariant unresolved + CountByTool(calls[i..]) == CountByTool(calls)
    {
      assert calls[i..][0] == calls[i] && calls[i..][1..] == calls[i + 1..];
      if calls[i].error == "" {
        continue;
      }
      if exists d :: d in calls[i + 1..] && d.tool == calls[i].tool && d.error == "" {
        continue;
      }
      unresolved := unresolved + 1;
    }
  }

  function Flatten(turns: seq<seq<Recorded>>): seq<Recorded>
    decreases |turns|
  {
    if turns == [] then [] else turns[0] + Flatten(turns[1..])
  }

  /** An error means failure. */
  ghost predicate Consistent(calls: seq<Observed>) {
    forall c :: c in calls && c.call.error != "" ==> c.call.ok == Some(false)
  }

  lemma {:induction false} ObservedConsistent(events: seq<Event>, json: Json)
    ensures Consistent(ObserveAll(events, json).order)
    decreases |events|
  {
    if events != [] {
      ObservedConsistent(events[..|events| - 1], json);
    }
  }

  lemma {:induction false} ToolCountAtMost(calls: seq<Observed>, target: Observed -> string)
    requires Consistent(calls)
    ensures CountByTool(ObservedCores(calls)) <= CountByTarget(calls, target)
    decreases |calls|
  {
    if calls != [] {
      var cores := ObservedCores(calls);
      assert cores[1..] == ObservedCores(calls[1..]);
      ToolCountAtMost(calls[1..], target);
      assert calls[0] in calls;
      if ForgivenByTarget(calls[0], calls[1..], target) {
        var d :| d in calls[1..] && d.call.tool == calls[0].call.tool && d.call.ok == Some(true) && target(d) == target(calls[0]);
        var i :| 0 <= i < |calls[1..]| && calls[1..][i] == d;
        assert d in calls && d.call.error == "" && cores[1..][i] == d.call;
      }
    }
  }

  /** For every trace at all, counting errors by tool name never finds more than counting by target. */
  lemma {:induction false} ToolCountNeverExceeds(events: seq<Event>, json: Json, target: Observed -> string)
    ensures CountByTool(ObservedCores(ObserveAll(events, json).order)) <= CountByTarget(ObserveAll(events, json).order, target)
  {
    ObservedConsistent(events, json);
    ToolCountAtMost(ObserveAll(events, json).order, target);
  }

  /** And on every trace on which the readers agree the runner's count by tool name is at most the
      assertions' count by target, although each rebuilds the calls in its own way. */
  lemma {:induction false} CountsAcrossReaders(events: seq<Event>, json: Json, target: Observed -> string)
    requires OnTime(events) && Fine(events)
    ensures CountByTool(RecordedCores(AbsorbAll(events, json).calls)) <= CountByTarget(ObserveAll(events, json).order, target)
  {
    AgreeExactly(events, json);
    ToolCountNeverExceeds(events, json, target);
  }
}
