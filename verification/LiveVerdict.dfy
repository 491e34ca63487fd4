/** What the runner reports of a connection and of a turn, read off the frames it recorded: which
    recorded frame decides, and what it makes of it. */
module LiveVerdict {
  import opened Common
  import opened StepSchedule
  import opened LiveTurn

  function EventsOf(frames: seq<LiveFrame>): seq<Event> {
    seq(|frames|, i requires 0 <= i < |frames| => frames[i].event)
  }

  /** The steps that the i-th recorded frame makes due, after `seen`. */
  function DueAt(cfg: Setting, seen: seq<Event>, frames: seq<LiveFrame>, i: nat): seq<Step>
    requires i < |frames|
  {
    DueAll(cfg.steps, seen + EventsOf(frames[..i]), frames[i].event)
  }

  /** All of them run. */
  predicate RunsAt(cfg: Setting, seen: seq<Event>, frames: seq<LiveFrame>, i: nat, base: nat)
    requires i < |frames|
  {
    AllRun(DueAt(cfg, seen, frames, i), cfg.answers, base + i)
  }

  predicate DropsAt(cfg: Setting, seen: seq<Event>, frames: seq<LiveFrame>, i: nat)
    requires i < |frames|
  {
    HasDrop(DueAt(cfg, seen, frames, i))
  }

  /** After this frame the connection is read on. */
  predicate Quiet(cfg: Setting, seen: seq<Event>, frames: seq<LiveFrame>, i: nat, base: nat)
    requires i < |frames|
  {
    frames[i].kind.Goes? && RunsAt(cfg, seen, frames, i, base) && !DropsAt(cfg, seen, frames, i)
  }

  /** What this frame makes the runner report. */
  ghost predicate Reports(cfg: Setting, seen: seq<Event>, frames: seq<LiveFrame>, i: nat, base: nat, s: Signal)
    requires i < |frames|
  {
    if frames[i].kind.Fails? then s.Failed?
    else if !RunsAt(cfg, seen, frames, i, base) then s.Raised?
    else if DropsAt(cfg, seen, frames, i) then s == Dropped(frames[i].id)
    else s.Done? && frames[i].kind.Completes?
  }

  /** The first frame that is not quiet is the i-th. */
  ghost predicate Decides(cfg: Setting, seen: seq<Event>, frames: seq<LiveFrame>, i: nat, base: nat) {
    && i < |frames| && !Quiet(cfg, seen, frames, i, base)
    && (forall j :: 0 <= j < i ==> Quiet(cfg, seen, frames, j, base))
  }

  /** Nothing has been decided yet, and the schedule has seen all that was recorded. */
  ghost predicate Undecided(cfg: Setting, t: Turn, frames: seq<LiveFrame>, t': Turn) {
    && t'.events == t.events + frames && t'.completes == 0 && t'.taken == t.taken + EventsOf(frames)
    && (forall i :: 0 <= i < |frames| ==> Quiet(cfg, t.taken, frames, i, |t.events|))
  }

  /** A frame has completed the turn, and the rest is only recorded. */
  ghost predicate Completed(cfg: Setting, t: Turn, frames: seq<LiveFrame>, t': Turn) {
    && t'.events == t.events + frames && t'.completes > 0
    && (exists i: nat :: Decides(cfg, t.taken, frames, i, |t.events|) && Reports(cfg, t.taken, frames, i, |t.events|, Done))
  }

  /** The last frame decides, and makes the runner report `s`. */
  ghost predicate Stopped(cfg: Setting, t: Turn, frames: seq<LiveFrame>, t': Turn, s: Signal) {
    && t'.events == t.events + frames && frames != [] && !s.Done?
    && Decides(cfg, t.taken, frames, |frames| - 1, |t.events|)
    && Reports(cfg, t.taken, frames, |frames| - 1, |t.events|, s)
    && t'.completes == (if frames[|frames| - 1].kind.Completes? then 1 else 0)
    && (s.Dropped? ==> t'.taken == t.taken + EventsOf(frames))
  }

  // ---------------------------------------------------------------- one connection

  /** More recorded frames change nothing about the earlier ones. */
  lemma {:induction false} QuietKept(cfg: Setting, seen: seq<Event>, frames: seq<LiveFrame>, more: seq<LiveFrame>, i: nat, base: nat)
    requires i < |frames|
    ensures RunsAt(cfg, seen, frames + more, i, base) == RunsAt(cfg, seen, frames, i, base)
    ensures DropsAt(cfg, seen, frames + more, i) == DropsAt(cfg, seen, frames, i)
    ensures Quiet(cfg, seen, frames + more, i, base) == Quiet(cfg, seen, frames, i, base)
  {
    assert (frames + more)[..i] == frames[..i] && (frames + more)[i] == frames[i];
    assert DueAt(cfg, seen, frames + more, i) == DueAt(cfg, seen, frames, i);
  }

  lemma {:induction false} DecidesKept(cfg: Setting, seen: seq<Event>, frames: seq<LiveFrame>, f: LiveFrame, i: nat, base: nat, s: Signal)
    requires Decides(cfg, seen, frames, i, base)
    ensures Decides(cfg, seen, frames + [f], i, base)
    ensures Reports(cfg, seen, frames, i, base, s) ==> Reports(cfg, seen, frames + [f], i, base, s)
  {
    forall j | 0 <= j <= i ensures Quiet(cfg, seen, frames + [f], j, base) == Quiet(cfg, seen, frames, j, base) {
      QuietKept(cfg, seen, frames, [f], j, base);
    }
    QuietKept(cfg, seen, frames, [f], i, base);
  }

  lemma {:induction false} DueNext(cfg: Setting, seen: seq<Event>, frames: seq<LiveFrame>, f: LiveFrame)
    ensures DueAt(cfg, seen, frames + [f], |frames|) == DueAll(cfg.steps, seen + EventsOf(frames), f.event)
    ensures seen + EventsOf(frames + [f]) == (seen + EventsOf(frames)) + [f.event]
  {
    assert (frames + [f])[..|frames|] == frames;
    assert EventsOf(frames + [f]) == EventsOf(frames) + [f.event];
  }

  /** What one frame of the request does while nothing is decided. */
  lemma {:induction false} FrameTells(cfg: Setting, t: Turn, frames: seq<LiveFrame>, t1: Turn, f: LiveFrame)
    requires LiveStepRules(cfg.steps).Ok? && Undecided(cfg, t, frames, t1) && ForRequest(f, cfg.requestId)
    ensures var (t', s), frames' := Absorb(cfg, t1, f), frames + [f.(requestId := cfg.requestId)];
      && (s.Go? ==> Undecided(cfg, t, frames', t') || Completed(cfg, t, frames', t'))
      && (!s.Go? ==> Stopped(cfg, t, frames', t', s))
  {
    var (t', s) := Absorb(cfg, t1, f);
    var g := f.(requestId := cfg.requestId);
    var frames', n := frames + [g], |frames|;
    DueNext(cfg, t.taken, frames, g);
    DropsArePaired(cfg.steps, t1.taken, f.event);
    forall i | 0 <= i < n ensures Quiet(cfg, t.taken, frames', i, |t.events|) {
      QuietKept(cfg, t.taken, frames, [g], i, |t.events|);
    }
    assert t'.events == t.events + frames';
    if !Quiet(cfg, t.taken, frames', n, |t.events|) {
      assert Decides(cfg, t.taken, frames', n, |t.events|);
    }
  }

  /** Once the turn is complete a frame is only recorded. */
  lemma {:induction false} LaterFrame(cfg: Setting, t: Turn, frames: seq<LiveFrame>, t1: Turn, f: LiveFrame)
    requires Completed(cfg, t, frames, t1) && ForRequest(f, cfg.requestId)
    ensures var (t', s) := Absorb(cfg, t1, f); s.Go? && Completed(cfg, t, frames + [f.(requestId := cfg.requestId)], t')
  {
    var g := f.(requestId := cfg.requestId);
    var i: nat :| Decides(cfg, t.taken, frames, i, |t.events|) && Reports(cfg, t.taken, frames, i, |t.events|, Done);
    DecidesKept(cfg, t.taken, frames, g, i, |t.events|, Done);
    assert t.events + frames + [g] == t.events + (frames + [g]);
  }

  lemma {:induction false} BatchTells(cfg: Setting, t: Turn, frames: seq<LiveFrame>, t1: Turn, batch: seq<LiveFrame>)
    returns (frames': seq<LiveFrame>)
    requires LiveStepRules(cfg.steps).Ok? && (Undecided(cfg, t, frames, t1) || Completed(cfg, t, frames, t1))
    ensures var (t', s) := ReadBatch(cfg, t1, batch);
      && !s.Ended?
      && (s.Go? ==> Undecided(cfg, t, frames', t'))
      && (s.Done? ==> Completed(cfg, t, frames', t'))
      && (!s.Go? && !s.Done? ==> Stopped(cfg, t, frames', t', s))
    decreases |batch|
  {
    frames' := frames;
    if batch != [] {
      var f := batch[0];
      var (t2, s) := Absorb(cfg, t1, f);
      if !ForRequest(f, cfg.requestId) {
        assert t2 == t1.(lastSeen := t2.lastSeen) && s.Go?;
      } else {
        frames' := frames + [f.(requestId := cfg.requestId)];
        if Completed(cfg, t, frames, t1) {
          LaterFrame(cfg, t, frames, t1, f);
        } else {
          FrameTells(cfg, t, frames, t1, f);
        }
      }
      if s.Go? {
        frames' := BatchTells(cfg, t, frames', t2, batch[1..]);
      } else {
        SignalOf(cfg, t1, f);
      }
    }
  }

  lemma {:induction false} SignalOf(cfg: Setting, t: Turn, f: LiveFrame)
    ensures !Absorb(cfg, t, f).1.Done? && !Absorb(cfg, t, f).1.Ended?
  {
  }

  lemma {:induction false} StreamTells(cfg: Setting, t: Turn, frames: seq<LiveFrame>, t1: Turn, batches: seq<seq<LiveFrame>>, grace: nat)
    returns (frames': seq<LiveFrame>)
    requires LiveStepRules(cfg.steps).Ok? && Undecided(cfg, t, frames, t1)
    ensures var (t', s) := ReadStream(cfg, t1, batches, grace);
      && !s.Go?
      && (s.Ended? ==> Undecided(cfg, t, frames', t'))
      && (s.Done? ==> Completed(cfg, t, frames', t'))
      && (!s.Ended? && !s.Done? ==> Stopped(cfg, t, frames', t', s))
    decreases |batches|
  {
    frames' := frames;
    if batches != [] {
      frames' := BatchTells(cfg, t, frames, t1, batches[0]);
      var (t2, s) := ReadBatch(cfg, t1, batches[0]);
      if s.Go? {
        frames' := StreamTells(cfg, t, frames', t2, batches[1..], grace);
      }
    }
  }

  /** The signal of a connection, from the frames it added to a turn that was not complete: it is read
      to its end iff each of them is quiet; otherwise the first that is not decides, and unless it
      completes the turn it is the last one recorded. */
  lemma {:induction false} StreamVerdict(cfg: Setting, t: Turn, batches: seq<seq<LiveFrame>>, grace: nat) returns (added: seq<LiveFrame>)
    requires LiveStepRules(cfg.steps).Ok? && t.completes == 0
    ensures var (t', s) := ReadStream(cfg, t, batches, grace);
      && t'.events == t.events + added
      && (s.Ended? <==> forall i :: 0 <= i < |added| ==> Quiet(cfg, t.taken, added, i, |t.events|))
      && (s.Failed? <==> added != [] && Decides(cfg, t.taken, added, |added| - 1, |t.events|) && added[|added| - 1].kind.Fails?)
      && (s.Raised? <==> added != [] && Decides(cfg, t.taken, added, |added| - 1, |t.events|) && !added[|added| - 1].kind.Fails?
                         && !RunsAt(cfg, t.taken, added, |added| - 1, |t.events|))
      && (s.Dropped? <==> added != [] && Decides(cfg, t.taken, added, |added| - 1, |t.events|) && !added[|added| - 1].kind.Fails?
                          && RunsAt(cfg, t.taken, added, |added| - 1, |t.events|) && DropsAt(cfg, t.taken, added, |added| - 1))
      && (s.Dropped? ==> s.resumeId == added[|added| - 1].id)
      && (s.Done? <==> exists i: nat :: Decides(cfg, t.taken, added, i, |t.events|) && added[i].kind.Completes?
                         && RunsAt(cfg, t.taken, added, i, |t.events|) && !DropsAt(cfg, t.taken, added, i))
  {
    assert t.taken + EventsOf([]) == t.taken && t.events + [] == t.events;
    added := StreamTells(cfg, t, [], t, batches, grace);
    var (t', s) := ReadStream(cfg, t, batches, grace);
    if s.Done? {
      var i: nat :| Decides(cfg, t.taken, added, i, |t.events|) && Reports(cfg, t.taken, added, i, |t.events|, Done);
      assert forall j: nat :: Decides(cfg, t.taken, added, j, |t.events|) ==> j == i;
    } else if !s.Ended? {
      assert forall j: nat :: Decides(cfg, t.taken, added, j, |t.events|) ==> j == |added| - 1;
    }
  }

  /** A turn that was complete when its stream was dropped is done with the next batch, whatever it
      holds, and ends early without one. */
  lemma {:induction false} LateStream(cfg: Setting, t: Turn, batches: seq<seq<LiveFrame>>, grace: nat)
    requires t.completes > 0
    ensures var (t', s) := ReadStream(cfg, t, batches, grace);
      && t.events <= t'.events && t'.completes > 0
      && s == (if batches == [] then Ended else Done)
      && (batches == [] ==> t' == t)
  {
    if batches != [] {
      LateBatch(cfg, t, batches[0]);
    }
  }

  lemma {:induction false} LateBatch(cfg: Setting, t: Turn, batch: seq<LiveFrame>)
    requires t.completes > 0
    ensures var (t', s) := ReadBatch(cfg, t, batch); s.Done? && t'.completes > 0 && t.events <= t'.events
    decreases |batch|
  {
    if batch != [] {
      LateBatch(cfg, Absorb(cfg, t, batch[0]).0, batch[1..]);
    }
  }

  // ---------------------------------------------------------------- how many completions are counted

  lemma {:induction false} BatchCounts(cfg: Setting, t: Turn, batch: seq<LiveFrame>)
    requires LiveStepRules(cfg.steps).Ok?
    ensures var (t', s) := ReadBatch(cfg, t, batch);
      s.Go? || s.Done? ==>
        && t'.events == t.events + Filed(cfg, batch)
        && t'.completes == t.completes + CompletesIn(cfg.requestId, batch)
        && (s.Done? <==> t'.completes > 0)
  {
    var p := BatchProcesses(cfg, t, batch);
    assert batch[..|batch|] == batch;
    BatchAdds(cfg, t, batch);
  }

  lemma {:induction false} BatchAdds(cfg: Setting, t: Turn, batch: seq<LiveFrame>)
    ensures var (t', s) := ReadBatch(cfg, t, batch);
      s.Go? || s.Done? ==> t'.completes == t.completes + CompletesIn(cfg.requestId, batch) && (s.Done? <==> t'.completes > 0)
    decreases |batch|
  {
    if batch != [] {
      var f, rest := batch[0], batch[1..];
      AbsorbCounts(cfg, t, f);
      SignalOf(cfg, t, f);
      var (t1, s1) := Absorb(cfg, t, f);
      if s1.Go? {
        BatchAdds(cfg, t1, rest);
        assert batch == [f] + rest;
        CompletesAppend(cfg.requestId, [f], rest);
        CompletesSnoc(cfg.requestId, [], f);
        assert [] + [f] == [f];
      }
    }
  }

  /** The turn was complete with the k-th batch: the request's frames up to the end of that batch are
      recorded, it is the first with a TurnComplete, and those in it and in the next `grace` batches
      are counted. */
  ghost predicate DoneWith(cfg: Setting, t: Turn, batches: seq<seq<LiveFrame>>, grace: nat, k: nat, t': Turn) {
    && 0 < k <= |batches|
    && CompletesIn(cfg.requestId, Flatten(batches[..k - 1])) == 0 && CompletesIn(cfg.requestId, batches[k - 1]) > 0
    && t'.events == t.events + Filed(cfg, Flatten(batches[..k]))
    && t'.completes == CompletesIn(cfg.requestId, batches[k - 1]) + CompletesIn(cfg.requestId, Flatten(Window(batches, k, grace)))
  }

  /** The next `grace` batches, if there are as many. */
  function Window(batches: seq<seq<LiveFrame>>, k: nat, grace: nat): seq<seq<LiveFrame>>
    requires k <= |batches|
  {
    batches[k..if k + grace < |batches| then k + grace else |batches|]
  }

  lemma {:induction false} DoneCounts(cfg: Setting, t: Turn, batches: seq<seq<LiveFrame>>, grace: nat) returns (k: nat)
    requires LiveStepRules(cfg.steps).Ok? && t.completes == 0 && ReadStream(cfg, t, batches, grace).1.Done?
    ensures DoneWith(cfg, t, batches, grace, k, ReadStream(cfg, t, batches, grace).0)
    decreases |batches|
  {
    var first, rest := batches[0], batches[1..];
    var (t1, s) := ReadBatch(cfg, t, first);
    BatchCounts(cfg, t, first);
    if s.Done? {
      k := 1;
      assert batches[..0] == [] && batches[..1] == [first] && [first][1..] == [];
      assert first + [] == first;
      assert InGrace(rest, grace) == Window(batches, 1, grace);
    } else {
      var m := DoneCounts(cfg, t1, rest, grace);
      k := m + 1;
      DoneLater(cfg, t, batches, grace, m, t1, ReadStream(cfg, t1, rest, grace).0);
    }
  }

  lemma {:induction false} WindowLater(batches: seq<seq<LiveFrame>>, m: nat, grace: nat)
    requires batches != [] && m < |batches|
    ensures Window(batches, m + 1, grace) == Window(batches[1..], m, grace)
  {
    var rest := batches[1..];
    var end := if m + grace < |rest| then m + grace else |rest|;
    assert Window(rest, m, grace) == rest[m..end];
    assert Window(batches, m + 1, grace) == batches[m + 1..end + 1];
    SliceLater(batches, m, end);
  }

  lemma {:induction false} SliceLater(batches: seq<seq<LiveFrame>>, i: nat, j: nat)
    requires i <= j < |batches|
    ensures batches[i + 1..j + 1] == batches[1..][i..j]
  {
    var a, b := batches[i + 1..j + 1], batches[1..][i..j];
    forall k | 0 <= k < j - i ensures a[k] == b[k] {
      assert a[k] == batches[i + 1 + k] && b[k] == batches[1..][i + k];
    }
  }

  /** One batch without a TurnComplete in front. */
  lemma {:induction false} DoneLater(cfg: Setting, t: Turn, batches: seq<seq<LiveFrame>>, grace: nat, m: nat, t1: Turn, t': Turn)
    requires batches != [] && DoneWith(cfg, t1, batches[1..], grace, m, t')
    requires t1.events == t.events + Filed(cfg, batches[0]) && CompletesIn(cfg.requestId, batches[0]) == 0
    ensures DoneWith(cfg, t, batches, grace, m + 1, t')
  {
    var first, rest := batches[0], batches[1..];
    assert batches[..m + 1][1..] == rest[..m] && batches[..m][1..] == rest[..m - 1];
    WindowLater(batches, m, grace);
    CompletesAppend(cfg.requestId, first, Flatten(rest[..m - 1]));
    FiledAppend(cfg, first, Flatten(rest[..m]));
    Assoc(t.events, Filed(cfg, first), Filed(cfg, Flatten(rest[..m])));
  }

  /** The positions of the TurnComplete events that name the request or none. */
  ghost function Completions(requestId: string, frames: seq<LiveFrame>): set<int> {
    set i | 0 <= i < |frames| && frames[i].kind.Completes? && (frames[i].requestId == "" || frames[i].requestId == requestId)
  }

  lemma {:induction false} CompletesMeans(requestId: string, frames: seq<LiveFrame>)
    ensures CompletesIn(requestId, frames) == |Completions(requestId, frames)|
    decreases |frames|
  {
    if frames != [] {
      var n := |frames| - 1;
      var front := Completions(requestId, frames[..n]);
      CompletesMeans(requestId, frames[..n]);
      assert Completions(requestId, frames) ==
        front + (if frames[n].kind.Completes? && ForRequest(frames[n], requestId) then {n} else {});
      assert n !in front;
    }
  }

  /** The recorded frames stand at these positions. */
  ghost predicate FiledAt(requestId: string, frames: seq<LiveFrame>, filed: seq<LiveFrame>, at: seq<nat>) {
    && |at| == |filed| && Increasing(at)
    && (forall i: nat :: i in at <==> i < |frames| && (frames[i].requestId == "" || frames[i].requestId == requestId))
    && (forall k :: 0 <= k < |at| ==> at[k] < |frames| && filed[k] == frames[at[k]].(requestId := requestId))
  }

  lemma {:induction false} FiledNext(requestId: string, frames: seq<LiveFrame>, f: LiveFrame, filed: seq<LiveFrame>, at: seq<nat>)
    requires FiledAt(requestId, frames, filed, at)
    ensures ForRequest(f, requestId) ==>
      FiledAt(requestId, frames + [f], filed + [f.(requestId := requestId)], at + [|frames|])
    ensures !ForRequest(f, requestId) ==> FiledAt(requestId, frames + [f], filed, at)
  {
    assert forall k :: 0 <= k < |at| ==> at[k] in at;
  }

  /** What is recorded of some frames: those that name the request or none, in order, and nothing of
      them is changed but that they name it. */
  lemma {:induction false} FiledMeans(cfg: Setting, frames: seq<LiveFrame>) returns (at: seq<nat>)
    ensures FiledAt(cfg.requestId, frames, Filed(cfg, frames), at)
    decreases |frames|
  {
    at := [];
    if frames != [] {
      var n := |frames| - 1;
      at := FiledMeans(cfg, frames[..n]);
      assert frames == frames[..n] + [frames[n]];
      FiledNext(cfg.requestId, frames[..n], frames[n], Filed(cfg, frames[..n]), at);
      if ForRequest(frames[n], cfg.requestId) {
        at := at + [n];
      }
    }
  }

  // ---------------------------------------------------------------- a turn

  /** After this frame the turn goes on: on the same connection, or on a new one that resumes from it. */
  predicate Passes(cfg: Setting, seen: seq<Event>, frames: seq<LiveFrame>, i: nat)
    requires i < |frames|
  {
    && frames[i].kind.Goes? && RunsAt(cfg, seen, frames, i, 0)
    && (DropsAt(cfg, seen, frames, i) ==> frames[i].id.Some?)
  }

  /** The i-th frame is the first after which it does not. */
  ghost predicate Settles(cfg: Setting, seen: seq<Event>, frames: seq<LiveFrame>, i: nat) {
    && i < |frames| && !Passes(cfg, seen, frames, i)
    && (forall j :: 0 <= j < i ==> Passes(cfg, seen, frames, j))
  }

  /** It completes the turn: a TurnComplete all of whose steps ran, and from which a drop can resume. */
  ghost predicate CompletesAt(cfg: Setting, seen: seq<Event>, frames: seq<LiveFrame>, i: nat)
    requires i < |frames|
  {
    && frames[i].kind.Completes? && RunsAt(cfg, seen, frames, i, 0)
    && (DropsAt(cfg, seen, frames, i) ==> frames[i].id.Some?)
  }

  /** No recorded frame has settled the turn. */
  ghost predicate Going(cfg: Setting, seen: seq<Event>, t: Turn) {
    && t.completes == 0 && t.taken == seen + EventsOf(t.events)
    && (forall i :: 0 <= i < |t.events| ==> Passes(cfg, seen, t.events, i))
  }

  /** The same frame, seen from the beginning of its connection and of its turn. */
  lemma {:induction false} Lift(cfg: Setting, seen: seq<Event>, t: Turn, added: seq<LiveFrame>, i: nat)
    requires t.taken == seen + EventsOf(t.events) && i < |added|
    ensures RunsAt(cfg, t.taken, added, i, |t.events|) == RunsAt(cfg, seen, t.events + added, |t.events| + i, 0)
    ensures DropsAt(cfg, t.taken, added, i) == DropsAt(cfg, seen, t.events + added, |t.events| + i)
    ensures (t.events + added)[|t.events| + i] == added[i]
  {
    var all, n := t.events + added, |t.events| + i;
    assert all[..n] == t.events + added[..i];
    assert EventsOf(all[..n]) == EventsOf(t.events) + EventsOf(added[..i]);
    assert seen + EventsOf(all[..n]) == t.taken + EventsOf(added[..i]);
    assert DueAt(cfg, seen, all, n) == DueAt(cfg, t.taken, added, i);
  }

  /** Frames that are quiet on their connection let the turn go on. */
  lemma {:induction false} QuietPasses(cfg: Setting, seen: seq<Event>, t: Turn, added: seq<LiveFrame>, n: nat)
    requires Going(cfg, seen, t) && n <= |added|
    requires forall i :: 0 <= i < n ==> Quiet(cfg, t.taken, added, i, |t.events|)
    ensures forall i :: 0 <= i < |t.events| + n ==> Passes(cfg, seen, t.events + added, i)
  {
    var all := t.events + added;
    forall i | 0 <= i < |t.events| + n ensures Passes(cfg, seen, all, i) {
      if i < |t.events| {
        QuietKept(cfg, seen, t.events, added, i, 0);
        assert Passes(cfg, seen, t.events, i) && all[i] == t.events[i];
      } else {
        Lift(cfg, seen, t, added, i - |t.events|);
        assert Quiet(cfg, t.taken, added, i - |t.events|, |t.events|);
      }
    }
  }

  lemma {:induction false} SettlesKept(cfg: Setting, seen: seq<Event>, frames: seq<LiveFrame>, more: seq<LiveFrame>, i: nat)
    requires Settles(cfg, seen, frames, i)
    ensures Settles(cfg, seen, frames + more, i)
    ensures CompletesAt(cfg, seen, frames, i) == CompletesAt(cfg, seen, frames + more, i)
    ensures DropsAt(cfg, seen, frames, i) == DropsAt(cfg, seen, frames + more, i)
  {
    forall j | 0 <= j <= i ensures Passes(cfg, seen, frames + more, j) == Passes(cfg, seen, frames, j) {
      QuietKept(cfg, seen, frames, more, j, 0);
      assert (frames + more)[j] == frames[j];
    }
    QuietKept(cfg, seen, frames, more, i, 0);
  }

  /** What a turn's frames and its last connection make the runner report. */
  ghost predicate Told(cfg: Setting, seen: seq<Event>, t: Turn, s: Signal, silent: bool) {
    var frames := t.events;
    match s
    case Failed => frames != [] && Settles(cfg, seen, frames, |frames| - 1) && frames[|frames| - 1].kind.Fails?
    case Raised => frames != [] && Settles(cfg, seen, frames, |frames| - 1) && !frames[|frames| - 1].kind.Fails?
                   && !RunsAt(cfg, seen, frames, |frames| - 1, 0)
    case Dropped(id) => frames != [] && Settles(cfg, seen, frames, |frames| - 1) && !frames[|frames| - 1].kind.Fails?
                        && RunsAt(cfg, seen, frames, |frames| - 1, 0) && DropsAt(cfg, seen, frames, |frames| - 1)
                        && id.None? && frames[|frames| - 1].id.None?
    case Done => exists i: nat :: Settles(cfg, seen, frames, i) && CompletesAt(cfg, seen, frames, i)
    case Ended => Going(cfg, seen, t) || (silent && CutOff(cfg, seen, frames))
    case Refused => Going(cfg, seen, t) || CutOff(cfg, seen, frames)
    case _ => false
  }

  /** The last frame completed the turn and dropped the stream. */
  ghost predicate CutOff(cfg: Setting, seen: seq<Event>, frames: seq<LiveFrame>) {
    && frames != [] && Settles(cfg, seen, frames, |frames| - 1)
    && CompletesAt(cfg, seen, frames, |frames| - 1) && DropsAt(cfg, seen, frames, |frames| - 1)
  }

  /** What one connection of a turn that goes on tells. */
  lemma {:induction false} LinkTells(cfg: Setting, seen: seq<Event>, t: Turn, link: Link)
    requires LiveStepRules(cfg.steps).Ok? && Going(cfg, seen, t)
    ensures var (t', s) := ReadStream(cfg, t, link.batches, link.grace);
      if s.Dropped? && s.resumeId.Some? then Going(cfg, seen, t') || (t'.completes > 0 && CutOff(cfg, seen, t'.events))
      else Told(cfg, seen, t', s, false)
  {
    var (t', s) := ReadStream(cfg, t, link.batches, link.grace);
    assert t.taken + EventsOf([]) == t.taken && t.events + [] == t.events;
    var added := StreamTells(cfg, t, [], t, link.batches, link.grace);
    if s.Ended? {
      QuietPasses(cfg, seen, t, added, |added|);
      assert EventsOf(t.events + added) == EventsOf(t.events) + EventsOf(added);
    } else if s.Done? {
      var i: nat :| Decides(cfg, t.taken, added, i, |t.events|) && Reports(cfg, t.taken, added, i, |t.events|, Done);
      QuietPasses(cfg, seen, t, added, i);
      Lift(cfg, seen, t, added, i);
      assert Settles(cfg, seen, t'.events, |t.events| + i);
    } else {
      StopTells(cfg, seen, t, added, t', s);
    }
  }

  lemma {:induction false} StopTells(cfg: Setting, seen: seq<Event>, t: Turn, added: seq<LiveFrame>, t': Turn, s: Signal)
    requires Going(cfg, seen, t) && Stopped(cfg, t, added, t', s)
    ensures if s.Dropped? && s.resumeId.Some? then Going(cfg, seen, t') || (t'.completes > 0 && CutOff(cfg, seen, t'.events))
      else Told(cfg, seen, t', s, false)
  {
    var n := |added| - 1;
    QuietPasses(cfg, seen, t, added, n);
    Lift(cfg, seen, t, added, n);
    assert EventsOf(t.events + added) == EventsOf(t.events) + EventsOf(added);
    assert |t'.events| - 1 == |t.events| + n;
  }

  lemma {:induction false} ConnectionsTell(cfg: Setting, seen: seq<Event>, t: Turn, links: seq<Link>)
    requires LiveStepRules(cfg.steps).Ok? && Going(cfg, seen, t)
    ensures var (t', s) := Connections(cfg, t, links);
      Told(cfg, seen, t', s, links != [] && LastRead(cfg, t, links).batches == [])
    decreases |links|
  {
    if links != [] {
      var (t1, s1) := ReadStream(cfg, t, links[0].batches, links[0].grace);
      LinkTells(cfg, seen, t, links[0]);
      if s1.Dropped? && s1.resumeId.Some? {
        if Going(cfg, seen, t1) {
          ConnectionsTell(cfg, seen, t1, links[1..]);
        } else if |links| > 1 {
          CutOffTells(cfg, seen, t1, links[1..]);
        }
      }
    }
  }

  /** The connection after a drop that completed the turn is the last. */
  lemma {:induction false} CutOffTells(cfg: Setting, seen: seq<Event>, t: Turn, links: seq<Link>)
    requires t.completes > 0 && CutOff(cfg, seen, t.events) && links != []
    ensures var (t', s) := Connections(cfg, t, links); Told(cfg, seen, t', s, LastRead(cfg, t, links).batches == [])
  {
    var (t', s) := ReadStream(cfg, t, links[0].batches, links[0].grace);
    LateStream(cfg, t, links[0].batches, links[0].grace);
    assert t'.events == t.events + t'.events[|t.events|..];
    SettlesKept(cfg, seen, t.events, t'.events[|t.events|..], |t.events| - 1);
  }

  /** The verdict of a turn, read off its recorded frames.  It fails iff the frame that settles it is an
      Error, raises iff a step of that frame could not run, and is given up iff that frame dropped the
      stream without an id to resume from, and each time that frame is the last one recorded.  It is
      done only if that frame is a TurnComplete, and whenever it is one that did not drop the stream,
      unless the message was refused at the end.  It ends early with no Error recorded, and with no
      TurnComplete either unless the TurnComplete itself dropped the stream and nothing came after. */
  lemma {:induction false} TurnVerdict(cfg: Setting, seen: seq<Event>, post: Post, links: seq<Link>)
    requires LiveStepRules(cfg.steps).Ok?
    ensures var (t, s) := Collect(cfg, StartTurn(seen), post, links);
      var frames, last := t.events, |t.events| - 1;
      && (s.Failed? <==> frames != [] && Settles(cfg, seen, frames, last) && frames[last].kind.Fails?)
      && (s.Raised? <==> frames != [] && Settles(cfg, seen, frames, last) && !frames[last].kind.Fails?
                         && !RunsAt(cfg, seen, frames, last, 0))
      && (s.Dropped? <==> frames != [] && Settles(cfg, seen, frames, last) && !frames[last].kind.Fails?
                          && RunsAt(cfg, seen, frames, last, 0) && DropsAt(cfg, seen, frames, last) && frames[last].id.None?)
      && (s.Done? ==> exists i: nat :: Settles(cfg, seen, frames, i) && CompletesAt(cfg, seen, frames, i))
      && (forall i: nat :: Settles(cfg, seen, frames, i) && CompletesAt(cfg, seen, frames, i) && !DropsAt(cfg, seen, frames, i) ==>
            s.Done? || (s.PostFailed? && post == Tick(false)))
      && (s.Ended? ==> Going(cfg, seen, t)
                       || (CutOff(cfg, seen, frames) && LastRead(cfg, StartTurn(seen), links).batches == []))
      && (s.Refused? ==> Going(cfg, seen, t) || CutOff(cfg, seen, frames))
      && (links == [] ==> s.Refused?)
      && (s.PostFailed? ==> !post.ok)
      && (links != [] && post == Reply(false) ==> s.PostFailed? && frames == [])
      && (post == Tick(false) ==> !s.Done? && !s.Ended?)
      && !s.Go?
  {
    assert seen + EventsOf([]) == seen;
    ConnectionsTell(cfg, seen, StartTurn(seen), links);
    if links != [] && post != Reply(false) {
      var (t, s) := Connections(cfg, StartTurn(seen), links);
      ToldOnce(cfg, seen, t, s, LastRead(cfg, StartTurn(seen), links).batches == []);
    }
  }

  /** What settles a turn settles its report. */
  lemma {:induction false} ToldOnce(cfg: Setting, seen: seq<Event>, t: Turn, s: Signal, silent: bool)
    requires Told(cfg, seen, t, s, silent)
    ensures forall i: nat :: Settles(cfg, seen, t.events, i) ==>
      && (t.events[i].kind.Fails? ==> s.Failed?)
      && (!t.events[i].kind.Fails? && !RunsAt(cfg, seen, t.events, i, 0) ==> s.Raised?)
      && (!t.events[i].kind.Fails? && RunsAt(cfg, seen, t.events, i, 0) && DropsAt(cfg, seen, t.events, i) && t.events[i].id.None? ==> s.Dropped?)
      && (CompletesAt(cfg, seen, t.events, i) && !DropsAt(cfg, seen, t.events, i) ==> s.Done?)
  {
    forall i: nat, j: nat | Settles(cfg, seen, t.events, i) && Settles(cfg, seen, t.events, j) ensures i == j {
    }
  }

  /** So an early end means what it says, but for one case: no Error was recorded, and a TurnComplete
      only if it dropped the stream itself. */
  lemma {:induction false} EndedEarly(cfg: Setting, seen: seq<Event>, post: Post, links: seq<Link>)
    requires LiveStepRules(cfg.steps).Ok? && Collect(cfg, StartTurn(seen), post, links).1.Ended?
    ensures var t := Collect(cfg, StartTurn(seen), post, links).0;
      && (forall f :: f in t.events ==> !f.kind.Fails?)
      && (forall f :: f in t.events && f.kind.Completes? ==>
            CutOff(cfg, seen, t.events) && LastRead(cfg, StartTurn(seen), links).batches == [] && f == t.events[|t.events| - 1])
      && ((forall f :: f in t.events ==> !f.kind.Completes?) ==> t.completes == 0)
  {
    TurnVerdict(cfg, seen, post, links);
    var t := Collect(cfg, StartTurn(seen), post, links).0;
    forall f | f in t.events
      ensures f.kind.Goes? || (f == t.events[|t.events| - 1] && CutOff(cfg, seen, t.events))
    {
      var i :| 0 <= i < |t.events| && t.events[i] == f;
      assert i < |t.events| - 1 || Going(cfg, seen, t) ==> Passes(cfg, seen, t.events, i);
    }
  }

  /** More connections matter only to a turn whose reconnection was refused, and it goes on with them. */
  lemma {:induction false} RefusedGoesOn(cfg: Setting, t: Turn, links: seq<Link>, more: seq<Link>)
    ensures var (t', s) := Connections(cfg, t, links);
      Connections(cfg, t, links + more) == if s.Refused? then Connections(cfg, t', more) else (t', s)
    decreases |links|
  {
    if links == [] {
      assert links + more == more;
    } else {
      assert (links + more)[0] == links[0] && (links + more)[1..] == links[1..] + more;
      var (t1, s1) := ReadStream(cfg, t, links[0].batches, links[0].grace);
      if s1.Dropped? && s1.resumeId.Some? {
        RefusedGoesOn(cfg, t1, links[1..], more);
      } else {
        NotRefused(cfg, t, links[0].batches, links[0].grace);
      }
    }
  }

  lemma {:induction false} NotRefused(cfg: Setting, t: Turn, batches: seq<seq<LiveFrame>>, grace: nat)
    ensures !ReadStream(cfg, t, batches, grace).1.Refused?
    decreases |batches|
  {
    if batches != [] {
      BatchNotRefused(cfg, t, batches[0]);
      NotRefused(cfg, ReadBatch(cfg, t, batches[0]).0, batches[1..], grace);
    }
  }

  lemma {:induction false} BatchNotRefused(cfg: Setting, t: Turn, batch: seq<LiveFrame>)
    ensures !ReadBatch(cfg, t, batch).1.Refused?
    decreases |batch|
  {
    if batch != [] {
      BatchNotRefused(cfg, Absorb(cfg, t, batch[0]).0, batch[1..]);
    }
  }

  /** It happens: a TurnComplete that drops the stream is recorded, and the turn is reported as ended
      before it. */
  lemma {:induction false} EndedAfterComplete(answers: (nat, nat) -> bool) returns (cfg: Setting, links: seq<Link>, log: seq<LiveFrame>)
    ensures LiveStepRules(cfg.steps).Ok? && Log(log) && Served(cfg, StartTurn([]), links, log, None)
    ensures var (t, s) := Collect(cfg, StartTurn([]), Reply(true), links); s.Ended? && t.completes == 1
  {
    var p := Predicate("TurnComplete", 1, None, None);
    var drop, resume := Step(DisconnectSse, Some(p)), Step(ReconnectSse(LastSeenEventId), Some(p));
    var f := LiveFrame(Some("1"), "", Completes, Event("TurnComplete", None, None, None, None, None));
    cfg, log := Setting("r", [drop, resume], answers), [f];
    var first, second := Link(log, [log], 0), Link([], [], 0);
    links := [first, second];
    OneCompletion(cfg, f, drop, resume, p);
    var t := StartTurn([]);
    assert log[1..] == [] && log[..0] == [] && first.batches[1..] == [];
    assert ReadBatch(cfg, t, log) == Absorb(cfg, t, f);
    assert links[1..] == [second];
    assert ReadStream(cfg, t, first.batches, 0) == Absorb(cfg, t, f);
    assert Flatten(first.batches) == log + Flatten([]) && WithId(log) == WithId([]) + [f];
    assert Replay(log, Some("1")) == [] && WithId([]) == [];
    assert Serves(second, log, Some("1"));
    var t1 := Absorb(cfg, t, f).0;
    assert Connections(cfg, t1, [second]) == (t1, Ended);
  }

  lemma {:induction false} OneCompletion(cfg: Setting, f: LiveFrame, drop: Step, resume: Step, p: Predicate)
    requires p == Predicate("TurnComplete", 1, None, None)
    requires drop == Step(DisconnectSse, Some(p)) && resume == Step(ReconnectSse(LastSeenEventId), Some(p))
    requires cfg.steps == [drop, resume] && f == LiveFrame(Some("1"), "", Completes, Event("TurnComplete", None, None, None, None, None))
    ensures LiveStepRules(cfg.steps).Ok?
    ensures var (t, s) := Absorb(cfg, StartTurn([]), f); s == Dropped(Some("1")) && t.completes == 1
  {
    PairAccepted(drop, resume, p);
    BothDue(f.event, drop, resume, p);
    var due := DueAll(cfg.steps, [], f.event);
    assert due[0] == drop && due[1] == resume && drop in due && resume in due;
  }

  lemma {:induction false} PairAccepted(drop: Step, resume: Step, p: Predicate)
    requires drop == Step(DisconnectSse, Some(p)) && resume == Step(ReconnectSse(LastSeenEventId), Some(p))
    ensures LiveStepRules([drop, resume]).Ok?
  {
    var steps := [drop, resume];
    assert steps[1..] == [resume] && [resume][1..] == [];
    assert DropWhens([resume]) == [] && ResumeWhens([resume]) == [Some(p)] + ResumeWhens([]);
    assert DropWhens(steps) == [Some(p)] && ResumeWhens(steps) == [Some(p)];
  }

  lemma {:induction false} BothDue(e: Event, drop: Step, resume: Step, p: Predicate)
    requires p == Predicate("TurnComplete", 1, None, None) && e == Event("TurnComplete", None, None, None, None, None)
    requires drop == Step(DisconnectSse, Some(p)) && resume == Step(ReconnectSse(LastSeenEventId), Some(p))
    ensures DueAll([drop, resume], [], e) == [drop, resume]
  {
    assert KindOf("TurnComplete") == "TurnComplete" by {
      assert "TurnComplete"[0] == 'T';
    }
    assert Count(p, []) == 0 && DueOn(drop, [], e) && DueOn(resume, [], e);
    assert [drop, resume][..1] == [drop] && [drop][..0] == [];
    assert DueAll([drop], [], e) == [drop];
  }

  // ---------------------------------------------------------------- a session

  /** What the schedule has seen before the i-th message. */
  function SeenBefore(seen: seq<Event>, turns: seq<Turn>, i: nat): seq<Event>
    requires i <= |turns|
  {
    if i == 0 then seen else turns[i - 1].taken
  }

  /** What the i-th message comes to, on what the schedule has seen by then. */
  function TurnOf(steps: seq<Step>, seen: seq<Event>, messages: seq<Message>, turns: seq<Turn>, i: nat): (Turn, Signal)
    requires i < |messages| && i <= |turns|
  {
    Collect(CfgOf(messages[i], steps), StartTurn(SeenBefore(seen, turns, i)), messages[i].post, messages[i].links)
  }

  lemma {:induction false} TurnOfLater(steps: seq<Step>, seen: seq<Event>, messages: seq<Message>, t: Turn, turns: seq<Turn>, i: nat)
    requires messages != [] && i < |messages| - 1 && i <= |turns|
    ensures TurnOf(steps, seen, messages, [t] + turns, i + 1) == TurnOf(steps, t.taken, messages[1..], turns, i)
  {
    assert SeenBefore(seen, [t] + turns, i + 1) == SeenBefore(t.taken, turns, i);
  }

  /** A session runs its messages one after the other, each on what the schedule has seen by then, up to
      the first that is not done; it is done iff all are, and otherwise reports what that one reports. */
  lemma {:induction false} SessionMeans(steps: seq<Step>, seen: seq<Event>, messages: seq<Message>)
    ensures var r := Session(steps, seen, messages);
      && |r.turns| <= |messages|
      && (forall i :: 0 <= i < |r.turns| ==> TurnOf(steps, seen, messages, r.turns, i) == (r.turns[i], Done))
      && (r.end.Done? <==> |r.turns| == |messages|)
      && (|r.turns| < |messages| ==>
            && TurnOf(steps, seen, messages, r.turns, |r.turns|).1 == r.end
            && TurnOf(steps, seen, messages, r.turns, |r.turns|).0.taken == r.seen)
    decreases |messages|
  {
    if messages != [] {
      var (t, s) := Collect(CfgOf(messages[0], steps), StartTurn(seen), messages[0].post, messages[0].links);
      if s.Done? {
        SessionMeans(steps, t.taken, messages[1..]);
        var rest := Session(steps, t.taken, messages[1..]);
        SessionLater(steps, seen, messages, t, rest.turns);
      }
    }
  }

  lemma {:induction false} SessionLater(steps: seq<Step>, seen: seq<Event>, messages: seq<Message>, t: Turn, turns: seq<Turn>)
    requires messages != [] && |turns| < |messages| && TurnOf(steps, seen, messages, [], 0) == (t, Done)
    requires forall i :: 0 <= i < |turns| ==> TurnOf(steps, t.taken, messages[1..], turns, i) == (turns[i], Done)
    ensures forall i :: 0 <= i <= |turns| ==> TurnOf(steps, seen, messages, [t] + turns, i) == (([t] + turns)[i], Done)
    ensures |turns| < |messages| - 1 ==>
      TurnOf(steps, seen, messages, [t] + turns, |turns| + 1) == TurnOf(steps, t.taken, messages[1..], turns, |turns|)
  {
    forall i | 0 <= i <= |turns| ensures TurnOf(steps, seen, messages, [t] + turns, i) == (([t] + turns)[i], Done) {
      SessionLaterAt(steps, seen, messages, t, turns, i);
    }
    if |turns| < |messages| - 1 {
      TurnOfLater(steps, seen, messages, t, turns, |turns|);
    }
  }

  lemma {:induction false} SessionLaterAt(steps: seq<Step>, seen: seq<Event>, messages: seq<Message>, t: Turn, turns: seq<Turn>, i: nat)
    requires messages != [] && i <= |turns| < |messages| && TurnOf(steps, seen, messages, [], 0) == (t, Done)
    requires i > 0 ==> TurnOf(steps, t.taken, messages[1..], turns, i - 1) == (turns[i - 1], Done)
    ensures TurnOf(steps, seen, messages, [t] + turns, i) == (([t] + turns)[i], Done)
  {
    if i > 0 {
      TurnOfLater(steps, seen, messages, t, turns, i - 1);
    } else {
      assert SeenBefore(seen, [t] + turns, 0) == SeenBefore(seen, [], 0);
    }
  }
}
