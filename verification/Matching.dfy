/** The greedy scans of regression/schema/assertions.py: `_check_events_sequence` and `row_ids_preserved`. */
module Matching {
  import opened Common

  /** `places` picks one event for each step, strictly increasing. */
  ghost predicate Embeds<S, E>(steps: seq<S>, events: seq<E>, matches: (S, E) -> bool, places: seq<nat>) {
    && |places| == |steps|
    && (forall k :: 0 <= k < |places| ==> places[k] < |events| && matches(steps[k], events[places[k]]))
    && (forall j, k :: 0 <= j < k < |places| ==> places[j] < places[k])
  }

  ghost predicate Fits<S, E>(steps: seq<S>, events: seq<E>, matches: (S, E) -> bool) {
    exists places :: Embeds(steps, events, matches, places)
  }

  /** Every embedding ends at or after the event in front of the cursor, and one ends exactly there. */
  ghost predicate Earliest<S, E>(steps: seq<S>, events: seq<E>, matches: (S, E) -> bool, cursor: nat) {
    && cursor <= |events|
    && (exists places :: Embeds(steps, events, matches, places) && (places != [] ==> places[|places| - 1] < cursor))
    && (forall places :: Embeds(steps, events, matches, places) && places != [] ==> cursor <= places[|places| - 1] + 1)
    && (steps == [] ==> cursor == 0)
  }

  lemma {:induction false} EarliestEmpty<S, E>(events: seq<E>, matches: (S, E) -> bool)
    ensures Earliest([], events, matches, 0)
  {
    assert Embeds([], events, matches, []);
  }

  lemma {:induction false} PrefixEmbeds<S, E>(steps: seq<S>, step: S, events: seq<E>, matches: (S, E) -> bool, places: seq<nat>)
    requires Embeds(steps + [step], events, matches, places)
    ensures Embeds(steps, events, matches, places[..|steps|])
    ensures |places| == |steps| + 1 && places[|steps|] < |events| && matches(step, events[places[|steps|]])
    ensures steps != [] ==> places[|steps| - 1] < places[|steps|]
  {
    assert (steps + [step])[|steps|] == step;
    forall k | 0 <= k < |steps|
      ensures places[k] < |events| && matches(steps[k], events[places[k]])
    {
      assert (steps + [step])[k] == steps[k];
    }
  }

  /** The last place of an embedding of one step more lies at or after the cursor. */
  lemma {:induction false} LastPlace<S, E>(steps: seq<S>, step: S, events: seq<E>, matches: (S, E) -> bool, cursor: nat, places: seq<nat>)
    requires Earliest(steps, events, matches, cursor) && Embeds(steps + [step], events, matches, places)
    ensures |places| == |steps| + 1 && cursor <= places[|steps|] < |events| && matches(step, events[places[|steps|]])
  {
    PrefixEmbeds(steps, step, events, matches, places);
    var before := places[..|steps|];
    if steps != [] {
      assert before[|before| - 1] == places[|steps| - 1];
    }
  }

  /** Taking the first match at or after the cursor keeps the earliest embedding. */
  lemma {:induction false} TakeFirst<S, E>(steps: seq<S>, step: S, events: seq<E>, matches: (S, E) -> bool, cursor: nat, next: nat)
    requires Earliest(steps, events, matches, cursor)
    requires cursor <= next < |events| && matches(step, events[next])
    requires forall i :: cursor <= i < next ==> !matches(step, events[i])
    ensures Earliest(steps + [step], events, matches, next + 1)
  {
    var before :| Embeds(steps, events, matches, before) && (before != [] ==> before[|before| - 1] < cursor);
    Extends(steps, step, events, matches, before, next);
    var places := before + [next];
    assert places[|places| - 1] == next;
    forall other | Embeds(steps + [step], events, matches, other) && other != []
      ensures next + 1 <= other[|other| - 1] + 1
    {
      LastPlace(steps, step, events, matches, cursor, other);
    }
  }

  lemma {:induction false} Extends<S, E>(steps: seq<S>, step: S, events: seq<E>, matches: (S, E) -> bool, before: seq<nat>, next: nat)
    requires Embeds(steps, events, matches, before) && (before != [] ==> before[|before| - 1] < next)
    requires next < |events| && matches(step, events[next])
    ensures Embeds(steps + [step], events, matches, before + [next])
  {
    forall j | 0 <= j < |before|
      ensures before[j] < next
    {
      assert before[j] <= before[|before| - 1];
    }
  }

  /** With no match left there is no embedding at all. */
  lemma {:induction false} NoneLeft<S, E>(steps: seq<S>, step: S, events: seq<E>, matches: (S, E) -> bool, cursor: nat)
    requires Earliest(steps, events, matches, cursor)
    requires forall i :: cursor <= i < |events| ==> !matches(step, events[i])
    ensures !Fits(steps + [step], events, matches)
  {
    forall places
      ensures !Embeds(steps + [step], events, matches, places)
    {
      if Embeds(steps + [step], events, matches, places) {
        LastPlace(steps, step, events, matches, cursor, places);
      }
    }
  }

  lemma {:induction false} FitsPrefix<S, E>(steps: seq<S>, k: nat, events: seq<E>, matches: (S, E) -> bool)
    requires k <= |steps| && Fits(steps, events, matches)
    ensures Fits(steps[..k], events, matches)
  {
    var places :| Embeds(steps, events, matches, places);
    assert Embeds(steps[..k], events, matches, places[..k]);
  }

  /** What a scan that stops at step `k` has shown. */
  lemma {:induction false} Stuck<S, E>(steps: seq<S>, k: nat, events: seq<E>, matches: (S, E) -> bool, cursor: nat)
    requires k < |steps| && Earliest(steps[..k], events, matches, cursor)
    requires forall i :: cursor <= i < |events| ==> !matches(steps[k], events[i])
    ensures Fits(steps[..k], events, matches) && !Fits(steps[..k + 1], events, matches) && !Fits(steps, events, matches)
  {
    assert steps[..k + 1] == steps[..k] + [steps[k]];
    NoneLeft(steps[..k], steps[k], events, matches, cursor);
    if Fits(steps, events, matches) {
      FitsPrefix(steps, k + 1, events, matches);
    }
  }

  /** What a scan that takes step `k` keeps. */
  lemma {:induction false} Advance<S, E>(steps: seq<S>, k: nat, events: seq<E>, matches: (S, E) -> bool, cursor: nat, next: nat)
    requires k < |steps| && Earliest(steps[..k], events, matches, cursor)
    requires cursor <= next < |events| && matches(steps[k], events[next])
    requires forall i :: cursor <= i < next ==> !matches(steps[k], events[i])
    ensures Earliest(steps[..k + 1], events, matches, next + 1)
  {
    assert steps[..k + 1] == steps[..k] + [steps[k]];
    TakeFirst(steps[..k], steps[k], events, matches, cursor, next);
  }

  lemma {:induction false} Finished<S, E>(steps: seq<S>, events: seq<E>, matches: (S, E) -> bool, cursor: nat)
    requires Earliest(steps[..|steps|], events, matches, cursor)
    ensures Fits(steps, events, matches)
  {
    assert steps[..|steps|] == steps;
  }

  // ---------------------------------------------------------------- the greedy scan

  /** The first event from `start` on that matches, or the end. */
  function FirstMatch<S, E>(step: S, events: seq<E>, matches: (S, E) -> bool, start: nat): (i: nat)
    requires start <= |events|
    ensures start <= i <= |events| && (i < |events| ==> matches(step, events[i]))
    ensures forall j :: start <= j < i ==> !matches(step, events[j])
    decreases |events| - start
  {
    if start == |events| || matches(step, events[start]) then start else FirstMatch(step, events, matches, start + 1)
  }

  /** The first step, from `k` on, that the scan does not find. */
  function Scan<S, E>(steps: seq<S>, events: seq<E>, matches: (S, E) -> bool, k: nat, cursor: nat): (r: nat)
    requires k <= |steps| && cursor <= |events|
    ensures k <= r <= |steps|
    decreases |steps| - k
  {
    if k == |steps| then k
    else
      var i := FirstMatch(steps[k], events, matches, cursor);
      if i == |events| then k else Scan(steps, events, matches, k + 1, i + 1)
  }

  lemma {:induction false} ScanStep<S, E>(steps: seq<S>, events: seq<E>, matches: (S, E) -> bool, k: nat, cursor: nat, i: nat)
    requires k < |steps| && cursor <= |events| && i == FirstMatch(steps[k], events, matches, cursor)
    ensures Scan(steps, events, matches, k, cursor)
      == if i == |events| then k else Scan(steps, events, matches, k + 1, i + 1)
  {
  }

  /** Where the scan stops: with the earliest embedding of the steps found, and no match for the next. */
  lemma {:induction false} ScanStops<S, E>(steps: seq<S>, events: seq<E>, matches: (S, E) -> bool, k: nat, cursor: nat)
    returns (r: nat, end: nat)
    requires k <= |steps| && cursor <= |events| && Earliest(steps[..k], events, matches, cursor)
    ensures r == Scan(steps, events, matches, k, cursor)
    ensures Earliest(steps[..r], events, matches, end) && end <= |events|
    ensures r < |steps| ==> FirstMatch(steps[r], events, matches, end) == |events|
    decreases |steps| - k
  {
    r, end := k, cursor;
    if k < |steps| {
      var i := FirstMatch(steps[k], events, matches, cursor);
      ScanStep(steps, events, matches, k, cursor, i);
      if i < |events| {
        Advance(steps, k, events, matches, cursor, i);
        r, end := ScanStops(steps, events, matches, k + 1, i + 1);
      }
    }
  }

  /** Greedy is complete: the scan finds every step iff some strictly increasing choice of events
      satisfies them all, and otherwise stops at the first step that no choice leaves room for. */
  lemma {:induction false} ScanIsComplete<S, E>(steps: seq<S>, events: seq<E>, matches: (S, E) -> bool)
    ensures var r := Scan(steps, events, matches, 0, 0);
      && (r == |steps| <==> Fits(steps, events, matches))
      && Fits(steps[..r], events, matches)
      && (r < |steps| ==> !Fits(steps[..r + 1], events, matches))
  {
    EarliestEmpty(events, matches);
    assert steps[..0] == [];
    var r, end := ScanStops(steps, events, matches, 0, 0);
    if r < |steps| {
      Stuck(steps, r, events, matches, end);
    } else {
      Finished(steps, events, matches, end);
      assert steps[..r] == steps;
    }
  }

  /** The inner loop of both scans. */
  method Advancing<S, E>(step: S, events: seq<E>, matches: (S, E) -> bool, start: nat) returns (cursor: nat)
    requires start <= |events|
    ensures cursor == FirstMatch(step, events, matches, start)
  {
    cursor := start;
    while cursor < |events| && !matches(step, events[cursor])
      invariant start <= cursor <= |events|
      invariant FirstMatch(step, events, matches, start) == FirstMatch(step, events, matches, cursor)
    {
      cursor := cursor + 1;
    }
  }

  // ---------------------------------------------------------------- events_sequence

  datatype Check = Passed | BadStep(index: nat) | NotFound(index: nat)

  /** The well-formed steps in front of the first malformed one. */
  function Sound<S>(steps: seq<Option<S>>): (r: seq<S>)
    ensures |r| <= |steps| && (forall k :: 0 <= k < |r| ==> steps[k] == Some(r[k])) && (|r| < |steps| ==> steps[|r|].None?)
    decreases |steps|
  {
    if steps == [] || steps[0].None? then [] else [steps[0].value] + Sound(steps[1..])
  }

  function Checked<S, E>(steps: seq<Option<S>>, events: seq<E>, matches: (S, E) -> bool): Check {
    var found := Scan(Sound(steps), events, matches, 0, 0);
    if found < |Sound(steps)| then NotFound(found)
    else if found < |steps| then BadStep(found)
    else Passed
  }

  /** A malformed step is `None`; it is reported only when the scan reaches it. */
  method CheckEventsSequence<S, E>(steps: seq<Option<S>>, events: seq<E>, matches: (S, E) -> bool) returns (r: Check)
    ensures r == Checked(steps, events, matches)
  {
    ghost var sound := Sound(steps);
    var cursor: nat := 0;
    for k := 0 to |steps|
      invariant k <= |sound| && cursor <= |events|
      invariant Scan(sound, events, matches, 0, 0) == Scan(sound, events, matches, k, cursor)
    {
      if steps[k].None? {
        return BadStep(k);
      }
      cursor := Advancing(steps[k].value, events, matches, cursor);
      if cursor == |events| {
        return NotFound(k);
      }
      cursor := cursor + 1;
    }
    return Passed;
  }

  /** The check passes iff every step is well-formed and some strictly increasing choice of events
      satisfies them all; otherwise it names the first step that is malformed or has no room left. */
  lemma {:induction false} CheckMeans<S, E>(steps: seq<Option<S>>, events: seq<E>, matches: (S, E) -> bool)
    ensures var sound, r := Sound(steps), Checked(steps, events, matches);
      && (r.Passed? <==> |sound| == |steps| && Fits(sound, events, matches))
      && (r.BadStep? <==> |sound| < |steps| && Fits(sound, events, matches))
      && (r.BadStep? ==> r.index == |sound|)
      && (r.NotFound? ==> r.index < |sound|)
      && (r.NotFound? ==> Fits(sound[..r.index], events, matches) && !Fits(sound[..r.index + 1], events, matches))
  {
    ScanIsComplete(Sound(steps), events, matches);
  }

  // ---------------------------------------------------------------- row_ids_preserved

  predicate SameId(wanted: string, actual: string) { wanted == actual }

  /** The first wanted id that was not preserved, if any. */
  method RowIdsPreserved(wanted: seq<string>, actual: seq<string>) returns (missing: Option<nat>)
    ensures missing.None? <==> Fits(wanted, actual, SameId)
    ensures missing.Some? ==> missing.value < |wanted|
    ensures missing.Some? ==> Fits(wanted[..missing.value], actual, SameId)
    ensures missing.Some? ==> !Fits(wanted[..missing.value + 1], actual, SameId)
  {
    ScanIsComplete(wanted, actual, SameId);
    missing := ScanIds(wanted, actual);
  }

  method ScanIds(wanted: seq<string>, actual: seq<string>) returns (missing: Option<nat>)
    ensures var r := Scan(wanted, actual, SameId, 0, 0);
      missing == if r < |wanted| then Some(r) else None
  {
    var cursor: nat := 0;
    for k := 0 to |wanted|
      invariant cursor <= |actual|
      invariant Scan(wanted, actual, SameId, 0, 0) == Scan(wanted, actual, SameId, k, cursor)
    {
      cursor := Advancing(wanted[k], actual, SameId, cursor);
      if cursor >= |actual| {
        return Some(k);
      }
      cursor := cursor + 1;
    }
    return None;
  }
}
