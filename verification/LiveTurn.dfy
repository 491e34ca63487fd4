/** The live runner's turns: reading a connection until the turn ends or a step drops it, resuming
    after the frame that triggered the drop, and the turns of a session, which share one step
    schedule (regression/t4/runner.py). */
module LiveTurn {
  import opened Common
  import opened StepSchedule

  datatype Kind = Completes | Fails | Goes

  /** A parsed frame; `requestId` is "" when the event names none. */
  datatype LiveFrame = LiveFrame(id: Option<string>, requestId: string, kind: Kind, event: Event)

  /** The accumulators of one request.  `taken` is the history the step schedule has seen. */
  datatype Turn = Turn(events: seq<LiveFrame>, taken: seq<Event>, completes: nat, lastSeen: Option<string>)

  /** A turn starts with whatever the session's earlier turns have shown the schedule. */
  function StartTurn(seen: seq<Event>): Turn {
    Turn([], seen, 0, None)
  }

  /** What happens after a frame, a connection or a turn: read on; an Error event; a step that could
      not run; a step dropped the stream, and names where to resume; the turn is complete; the
      stream ended early; the connection was refused; the message could not be posted. */
  datatype Signal = Go | Failed | Raised | Dropped(resumeId: Option<string>) | Done | Ended | Refused | PostFailed

  /** The request being run, the scenario's steps, and the environment: whether the request of the
      i-th step that the n-th recorded event makes due succeeds. */
  datatype Setting = Setting(requestId: string, steps: seq<Step>, answers: (nat, nat) -> bool)

  predicate ForRequest(f: LiveFrame, requestId: string) {
    f.requestId == "" || f.requestId == requestId
  }

  function Effects(cfg: Setting, t: Turn, f: LiveFrame): Signal {
    var due := DueAll(cfg.steps, t.taken, f.event);
    if !AllRun(due, cfg.answers, |t.events|) then Raised
    else if HasDrop(due) then Dropped(if HasResume(due) then f.id else None)
    else Go
  }

  predicate AllRun(due: seq<Step>, answers: (nat, nat) -> bool, n: nat) {
    forall i :: 0 <= i < |due| ==> StepRuns(due[i], i, (k: nat) => answers(n, k))
  }

  /** One frame of a parsed batch. */
  function Absorb(cfg: Setting, t: Turn, f: LiveFrame): (Turn, Signal) {
    var t1 := if f.id.Some? then t.(lastSeen := f.id) else t;
    if !ForRequest(f, cfg.requestId) then (t1, Go)
    else
      var t2 := t1.(events := t1.events + [f.(requestId := cfg.requestId)]);
      if t.completes > 0 then
        (if f.kind.Completes? then t2.(completes := t.completes + 1) else t2, Go)
      else if f.kind.Fails? then (t2, Failed)
      else
        var t3 := if f.kind.Completes? then t2.(completes := 1) else t2;
        (t3.(taken := t.taken + [f.event]), Effects(cfg, t, f))
  }

  function ReadBatch(cfg: Setting, t: Turn, batch: seq<LiveFrame>): (Turn, Signal)
    decreases |batch|
  {
    if batch == [] then (t, if t.completes > 0 then Done else Go)
    else
      var (t', s) := Absorb(cfg, t, batch[0]);
      if s.Go? then ReadBatch(cfg, t', batch[1..]) else (t', s)
  }

  /** The TurnComplete events of the request among some frames. */
  function CompletesIn(requestId: string, frames: seq<LiveFrame>): nat
    decreases |frames|
  {
    if frames == [] then 0
    else
      var f := frames[|frames| - 1];
      CompletesIn(requestId, frames[..|frames| - 1]) + (if f.kind.Completes? && ForRequest(f, requestId) then 1 else 0)
  }

  /** The batches that arrive within the grace after completion. */
  function InGrace(batches: seq<seq<LiveFrame>>, grace: nat): seq<seq<LiveFrame>> {
    if grace < |batches| then batches[..grace] else batches
  }

  /** A connection, as the batches its chunks parse into.  Once the turn is complete, `grace` more
      batches are read, only to count further TurnComplete events. */
  function ReadStream(cfg: Setting, t: Turn, batches: seq<seq<LiveFrame>>, grace: nat): (Turn, Signal)
    decreases |batches|
  {
    if batches == [] then (t, Ended)
    else
      var (t', s) := ReadBatch(cfg, t, batches[0]);
      if s.Go? then ReadStream(cfg, t', batches[1..], grace)
      else if s.Done? then
        (t'.(completes := t'.completes + CompletesIn(cfg.requestId, Flatten(InGrace(batches[1..], grace)))), Done)
      else (t', s)
  }

  lemma {:induction false} StreamNext(cfg: Setting, t: Turn, batches: seq<seq<LiveFrame>>, i: nat, grace: nat)
    requires i < |batches|
    ensures var (t', s) := ReadBatch(cfg, t, batches[i]);
      ReadStream(cfg, t, batches[i..], grace) ==
        if s.Go? then ReadStream(cfg, t', batches[i + 1..], grace)
        else if s.Done? then
          (t'.(completes := t'.completes + CompletesIn(cfg.requestId, Flatten(InGrace(batches[i + 1..], grace)))), Done)
        else (t', s)
  {
    assert batches[i..][0] == batches[i] && batches[i..][1..] == batches[i + 1..];
  }

  // ---------------------------------------------------------------- the runner

  /** `_consume_stream` and the accumulators it fills.  The schedule belongs to the session. */
  class Reader {
    const requestId: string
    const due: DueSteps
    const answers: (nat, nat) -> bool
    var events: seq<LiveFrame>
    var completes: nat
    var lastSeen: Option<string>

    ghost function State(): Turn reads this, due {
      Turn(events, due.seen, completes, lastSeen)
    }

    /** The scenario was accepted. */
    ghost predicate Valid() reads this, due {
      due.Valid() && LiveStepRules(due.steps).Ok?
    }

    ghost function Cfg(): Setting reads this, due {
      Setting(requestId, due.steps, answers)
    }

    constructor (requestId: string, due: DueSteps, answers: (nat, nat) -> bool)
      requires due.Valid() && LiveStepRules(due.steps).Ok?
      ensures Valid() && State() == StartTurn(due.seen) && Cfg() == Setting(requestId, due.steps, answers)
      ensures this.due == due && fresh(this)
    {
      this.requestId, this.due, this.answers := requestId, due, answers;
      events, completes, lastSeen := [], 0, None;
    }

    method AbsorbFrame(f: LiveFrame) returns (s: Signal)
      requires Valid()
      modifies this, due
      ensures Valid() && Cfg() == old(Cfg())
      ensures (State(), s) == Absorb(Cfg(), old(State()), f)
    {
      if f.id.Some? {
        lastSeen := f.id;
      }
      if !ForRequest(f, requestId) {
        return Go;
      }
      events := events + [f.(requestId := requestId)];
      if completes > 0 {
        if f.kind.Completes? {
          completes := completes + 1;
        }
        return Go;
      }
      if f.kind.Fails? {
        return Failed;
      }
      if f.kind.Completes? {
        completes := 1;
      }
      s := RunDue(f, |events| - 1);
    }

    /** The steps that the frame's event, the n-th recorded one, makes due. */
    method RunDue(f: LiveFrame, n: nat) returns (s: Signal)
      requires Valid()
      modifies due
      ensures Valid() && due.steps == old(due.steps) && due.seen == old(due.seen) + [f.event]
      ensures forall t: Turn :: t.taken == old(due.seen) && |t.events| == n ==> s == Effects(Cfg(), t, f)
    {
      var steps := due.Take(f.event);
      var reply := (k: nat) => answers(n, k);
      var effect := ApplySteps(steps, f.id, reply);
      assert effect.Ok? <==> AllRun(steps, answers, n) by {
        assert forall i :: 0 <= i < |steps| ==> (StepRuns(steps[i], i, reply) <==> StepRuns(steps[i], i, (k: nat) => answers(n, k)));
      }
      if effect.Err? {
        return Raised;
      }
      if effect.value.drop {
        return Dropped(effect.value.resumeId);
      }
      return Go;
    }

    /** `_extra_turn_completes`: the batches that still arrive in time are only counted. */
    method ExtraCompletes(batches: seq<seq<LiveFrame>>, grace: nat) returns (extra: nat)
      ensures extra == CompletesIn(requestId, Flatten(InGrace(batches, grace)))
    {
      extra := 0;
      var n := if grace < |batches| then grace else |batches|;
      assert InGrace(batches, grace) == batches[..n];
      for i := 0 to n
        invariant extra == CompletesIn(requestId, Flatten(batches[..i]))
      {
        assert batches[..i + 1] == batches[..i] + [batches[i]];
        FlattenSnoc(batches[..i], batches[i]);
        CompletesAppend(requestId, Flatten(batches[..i]), batches[i]);
        var more := CountCompletes(batches[i]);
        extra := extra + more;
      }
    }

    method CountCompletes(batch: seq<LiveFrame>) returns (n: nat)
      ensures n == CompletesIn(requestId, batch)
    {
      n := 0;
      for k := 0 to |batch|
        invariant n == CompletesIn(requestId, batch[..k])
      {
        assert batch[..k + 1] == batch[..k] + [batch[k]];
        CompletesSnoc(requestId, batch[..k], batch[k]);
        if batch[k].kind.Completes? && ForRequest(batch[k], requestId) {
          n := n + 1;
        }
      }
      assert batch[..|batch|] == batch;
    }

    /** One parsed batch. */
    method ConsumeBatch(batch: seq<LiveFrame>) returns (s: Signal)
      requires Valid()
      modifies this, due
      ensures Valid() && Cfg() == old(Cfg())
      ensures (State(), s) == ReadBatch(Cfg(), old(State()), batch)
    {
      ghost var cfg := Cfg();
      assert batch[0..] == batch;
      for k := 0 to |batch|
        invariant Valid() && Cfg() == cfg
        invariant ReadBatch(cfg, State(), batch[k..]) == ReadBatch(cfg, old(State()), batch)
      {
        assert batch[k..][0] == batch[k] && batch[k..][1..] == batch[k + 1..];
        s := AbsorbFrame(batch[k]);
        if !s.Go? {
          return;
        }
      }
      assert batch[|batch|..] == [];
      s := if completes > 0 then Done else Go;
    }

    method ConsumeStream(batches: seq<seq<LiveFrame>>, grace: nat) returns (s: Signal)
      requires Valid()
      modifies this, due
      ensures Valid() && Cfg() == old(Cfg())
      ensures (State(), s) == ReadStream(Cfg(), old(State()), batches, grace)
    {
      ghost var cfg := Cfg();
      assert batches[0..] == batches;
      for i := 0 to |batches|
        invariant Valid() && Cfg() == cfg
        invariant ReadStream(cfg, State(), batches[i..], grace) == ReadStream(cfg, old(State()), batches, grace)
      {
        StreamNext(cfg, State(), batches, i, grace);
        s := ConsumeBatch(batches[i]);
        if s.Done? {
          var extra := ExtraCompletes(batches[i + 1..], grace);
          completes := completes + extra;
          return;
        }
        if !s.Go? {
          return;
        }
      }
      assert batches[|batches|..] == [];
      return Ended;
    }

    /** The reconnect loop of `_collect_turn_output`: after a drop with an id the next connection
        resumes there.  The message is posted on the first connection. */
    method CollectTurn(post: Post, links: seq<Link>) returns (s: Signal)
      requires Valid()
      modifies this, due
      ensures Valid() && Cfg() == old(Cfg())
      ensures (State(), s) == Collect(Cfg(), old(State()), post, links)
    {
      if links == [] {
        return Refused;
      }
      if post == Reply(false) {
        return PostFailed;
      }
      s := Reconnect(links);
      if post == Tick(false) && (s.Done? || s.Ended?) {
        s := PostFailed;
      }
    }

    method Reconnect(links: seq<Link>) returns (s: Signal)
      requires Valid()
      modifies this, due
      ensures Valid() && Cfg() == old(Cfg())
      ensures (State(), s) == Connections(Cfg(), old(State()), links)
    {
      ghost var cfg := Cfg();
      assert links[0..] == links;
      for i := 0 to |links|
        invariant Valid() && Cfg() == cfg
        invariant Connections(cfg, State(), links[i..]) == Connections(cfg, old(State()), links)
      {
        assert links[i..][0] == links[i] && links[i..][1..] == links[i + 1..];
        s := ConsumeStream(links[i].batches, links[i].grace);
        if !(s.Dropped? && s.resumeId.Some?) {
          return;
        }
      }
      assert links[|links|..] == [];
      return Refused;
    }
  }

  // ---------------------------------------------------------------- the gateway and the reconnect loop

  /** Every logged frame bears an id of its own. */
  ghost predicate Log(log: seq<LiveFrame>) {
    (forall i :: 0 <= i < |log| ==> log[i].id.Some?)
    && forall i, j :: 0 <= i < j < |log| ==> log[i].id != log[j].id
  }

  /** The frames logged after the one with this id. */
  function AfterId(log: seq<LiveFrame>, id: string): seq<LiveFrame> {
    if log == [] then [] else if log[0].id == Some(id) then log[1..] else AfterId(log[1..], id)
  }

  function Replay(log: seq<LiveFrame>, resume: Option<string>): seq<LiveFrame> {
    if resume.None? then log else AfterId(log, resume.value)
  }

  function WithId(frames: seq<LiveFrame>): seq<LiveFrame> {
    if frames == [] then []
    else if frames[|frames| - 1].id.Some? then WithId(frames[..|frames| - 1]) + [frames[|frames| - 1]]
    else WithId(frames[..|frames| - 1])
  }

  function Flatten(batches: seq<seq<LiveFrame>>): seq<LiveFrame> {
    if batches == [] then [] else batches[0] + Flatten(batches[1..])
  }

  lemma {:induction false} FlattenSnoc(batches: seq<seq<LiveFrame>>, batch: seq<LiveFrame>)
    ensures Flatten(batches + [batch]) == Flatten(batches) + batch
    decreases |batches|
  {
    if batches == [] {
      assert batches + [batch] == [batch] && [batch][1..] == [];
    } else {
      assert (batches + [batch])[1..] == batches[1..] + [batch];
      FlattenSnoc(batches[1..], batch);
      assert batches[0] + (Flatten(batches[1..]) + batch) == batches[0] + Flatten(batches[1..]) + batch;
    }
  }

  /** A connection: what the gateway sends on it, the batches that reach the reader, and how many of
      them arrive within the grace after completion. */
  datatype Link = Link(sent: seq<LiveFrame>, batches: seq<seq<LiveFrame>>, grace: nat)

  /** How the message is posted, and whether the gateway accepts it: `Reply` answers before the turn
      runs, `Tick` when it has finished. */
  datatype Post = Reply(ok: bool) | Tick(ok: bool)

  /** The id-bearing frames sent are the replay; id-less events may be interleaved. */
  predicate Serves(link: Link, log: seq<LiveFrame>, resume: Option<string>) {
    WithId(link.sent) == Replay(log, resume) && Flatten(link.batches) <= link.sent
  }

  /** The connections a turn reads; the one after the last is refused. */
  function Connections(cfg: Setting, t: Turn, links: seq<Link>): (Turn, Signal)
    decreases |links|
  {
    if links == [] then (t, Refused)
    else
      var (t', s) := ReadStream(cfg, t, links[0].batches, links[0].grace);
      if s.Dropped? && s.resumeId.Some? then Connections(cfg, t', links[1..]) else (t', s)
  }

  /** `_collect_turn_output`. */
  function Collect(cfg: Setting, t: Turn, post: Post, links: seq<Link>): (Turn, Signal) {
    if links == [] then (t, Refused)
    else if post == Reply(false) then (t, PostFailed)
    else
      var (t', s) := Connections(cfg, t, links);
      (t', if post == Tick(false) && (s.Done? || s.Ended?) then PostFailed else s)
  }

  /** The gateway serves each connection from its log after the id the runner resumes from. */
  ghost predicate Served(cfg: Setting, t: Turn, links: seq<Link>, log: seq<LiveFrame>, resume: Option<string>)
    decreases |links|
  {
    links == [] ||
    (Serves(links[0], log, resume) &&
     var (t', s) := ReadStream(cfg, t, links[0].batches, links[0].grace);
     (s.Dropped? && s.resumeId.Some? ==> Served(cfg, t', links[1..], log, s.resumeId)))
  }

  /** What the turn records of a sequence of frames: those of its request, filed under it. */
  function Filed(cfg: Setting, frames: seq<LiveFrame>): seq<LiveFrame> {
    if frames == [] then []
    else
      var f := frames[|frames| - 1];
      if ForRequest(f, cfg.requestId) then Filed(cfg, frames[..|frames| - 1]) + [f.(requestId := cfg.requestId)]
      else Filed(cfg, frames[..|frames| - 1])
  }

  lemma {:induction false} FiledSnoc(cfg: Setting, frames: seq<LiveFrame>, f: LiveFrame)
    ensures Filed(cfg, frames + [f]) ==
      Filed(cfg, frames) + (if ForRequest(f, cfg.requestId) then [f.(requestId := cfg.requestId)] else [])
  {
    assert (frames + [f])[..|frames|] == frames;
  }

  lemma {:induction false} FiledAppend(cfg: Setting, xs: seq<LiveFrame>, ys: seq<LiveFrame>)
    ensures Filed(cfg, xs + ys) == Filed(cfg, xs) + Filed(cfg, ys)
    decreases |ys|
  {
    if ys == [] {
      assert xs + ys == xs;
    } else {
      var front, f := ys[..|ys| - 1], ys[|ys| - 1];
      assert ys == front + [f] && xs + ys == (xs + front) + [f];
      FiledAppend(cfg, xs, front);
      FiledSnoc(cfg, xs + front, f);
      FiledSnoc(cfg, front, f);
      var more := if ForRequest(f, cfg.requestId) then [f.(requestId := cfg.requestId)] else [];
      Assoc(Filed(cfg, xs), Filed(cfg, front), more);
    }
  }

  lemma {:induction false} Assoc(a: seq<LiveFrame>, b: seq<LiveFrame>, c: seq<LiveFrame>)
    ensures (a + b) + c == a + (b + c)
  {
  }

  lemma {:induction false} WithIdAppend(xs: seq<LiveFrame>, ys: seq<LiveFrame>)
    ensures WithId(xs + ys) == WithId(xs) + WithId(ys)
    decreases |ys|
  {
    if ys == [] {
      assert xs + ys == xs;
    } else {
      var n := |ys| - 1;
      assert (xs + ys)[..|xs| + n] == xs + ys[..n];
      WithIdAppend(xs, ys[..n]);
    }
  }

  lemma {:induction false} FiledWithId(cfg: Setting, frames: seq<LiveFrame>)
    ensures WithId(Filed(cfg, frames)) == Filed(cfg, WithId(frames))
    decreases |frames|
  {
    if frames != [] {
      var n := |frames| - 1;
      FiledWithId(cfg, frames[..n]);
      FiledSnoc(cfg, WithId(frames[..n]), frames[n]);
      if ForRequest(frames[n], cfg.requestId) {
        WithIdAppend(Filed(cfg, frames[..n]), [frames[n].(requestId := cfg.requestId)]);
        assert [frames[n].(requestId := cfg.requestId)][..0] == [];
      }
    }
  }

  lemma {:induction false} AfterIdAt(log: seq<LiveFrame>, i: nat)
    requires Log(log) && i < |log|
    ensures AfterId(log, log[i].id.value) == log[i + 1..]
    decreases |log|
  {
    if i > 0 {
      assert log[0].id != log[i].id;
      var rest := log[1..];
      forall a, b | 0 <= a < b < |rest| ensures rest[a].id != rest[b].id {
        assert rest[a] == log[a + 1] && rest[b] == log[b + 1];
      }
      AfterIdAt(rest, i - 1);
    }
  }

  // ---------------------------------------------------------------- what a connection processes

  /** The reader stopped after `p` frames: it recorded exactly those, and if a step dropped the
      stream, the last of them is the trigger and names where to resume. */
  ghost predicate Processed(cfg: Setting, t: Turn, frames: seq<LiveFrame>, p: nat, t': Turn, s: Signal) {
    && p <= |frames|
    && t'.events == t.events + Filed(cfg, frames[..p])
    && t'.lastSeen == LastId(frames[..p], t.lastSeen)
    && (s.Ended? ==> p == |frames|)
    && (s.Dropped? ==> p > 0 && s.resumeId == frames[p - 1].id)
  }

  /** The id of the last id-bearing frame, `before` when there is none. */
  function LastId(frames: seq<LiveFrame>, before: Option<string>): Option<string> {
    if frames == [] then before
    else if frames[|frames| - 1].id.Some? then frames[|frames| - 1].id
    else LastId(frames[..|frames| - 1], before)
  }

  lemma {:induction false} LastIdAppend(xs: seq<LiveFrame>, ys: seq<LiveFrame>, before: Option<string>)
    ensures LastId(xs + ys, before) == LastId(ys, LastId(xs, before))
    decreases |ys|
  {
    if ys == [] {
      assert xs + ys == xs;
    } else {
      var n := |ys| - 1;
      assert (xs + ys)[..|xs| + n] == xs + ys[..n];
      LastIdAppend(xs, ys[..n], before);
    }
  }

  lemma {:induction false} LastIdIs(frames: seq<LiveFrame>, before: Option<string>)
    ensures LastId(frames, before) == var w := WithId(frames); if w == [] then before else w[|w| - 1].id
    decreases |frames|
  {
    if frames != [] {
      LastIdIs(frames[..|frames| - 1], before);
    }
  }

  lemma {:induction false} AbsorbRecords(cfg: Setting, t: Turn, f: LiveFrame)
    requires LiveStepRules(cfg.steps).Ok?
    ensures var (t', s) := Absorb(cfg, t, f);
      && t'.events == t.events + Filed(cfg, [f])
      && t'.lastSeen == LastId([f], t.lastSeen)
      && !s.Done? && !s.Ended? && (s.Dropped? ==> s.resumeId == f.id)
  {
    DropsArePaired(cfg.steps, t.taken, f.event);
    FiledSnoc(cfg, [], f);
    assert [] + [f] == [f];
    assert [f][..0] == [];
  }

  lemma {:induction false} BatchProcesses(cfg: Setting, t: Turn, batch: seq<LiveFrame>) returns (p: nat)
    requires LiveStepRules(cfg.steps).Ok?
    ensures var (t', s) := ReadBatch(cfg, t, batch);
      Processed(cfg, t, batch, p, t', s) && !s.Ended? && (s.Go? || s.Done? ==> p == |batch|)
    decreases |batch|
  {
    p := 0;
    if batch == [] {
      assert t.events + [] == t.events;
    } else {
      var f := batch[0];
      var (t1, s1) := Absorb(cfg, t, f);
      AbsorbRecords(cfg, t, f);
      if s1.Go? {
        var q := BatchProcesses(cfg, t1, batch[1..]);
        var (t', s) := ReadBatch(cfg, t1, batch[1..]);
        ProcessedThen(cfg, t, [f], t1, batch[1..], q, t', s);
        assert batch == [f] + batch[1..];
        p := q + 1;
      } else {
        p := 1;
        assert batch[..1] == [f];
      }
    }
  }

  lemma {:induction false} StreamProcesses(cfg: Setting, t: Turn, batches: seq<seq<LiveFrame>>, grace: nat) returns (p: nat)
    requires LiveStepRules(cfg.steps).Ok?
    ensures var (t', s) := ReadStream(cfg, t, batches, grace);
      Processed(cfg, t, Flatten(batches), p, t', s)
    decreases |batches|
  {
    p := 0;
    if batches == [] {
      assert t.events + [] == t.events;
    } else {
      var first, rest := batches[0], Flatten(batches[1..]);
      var (t1, s1) := ReadBatch(cfg, t, first);
      p := BatchProcesses(cfg, t, first);
      if s1.Go? {
        var q := StreamProcesses(cfg, t1, batches[1..], grace);
        var (t', s) := ReadStream(cfg, t1, batches[1..], grace);
        assert first[..|first|] == first;
        ProcessedThen(cfg, t, first, t1, rest, q, t', s);
        p := |first| + q;
      } else {
        assert (first + rest)[..p] == first[..p];
      }
    }
  }

  /** All of `first`, and then `q` frames of `rest`. */
  lemma {:induction false} ProcessedThen(cfg: Setting, t: Turn, first: seq<LiveFrame>, t1: Turn, rest: seq<LiveFrame>, q: nat, t': Turn, s: Signal)
    requires t1.events == t.events + Filed(cfg, first) && t1.lastSeen == LastId(first, t.lastSeen)
    requires Processed(cfg, t1, rest, q, t', s)
    ensures Processed(cfg, t, first + rest, |first| + q, t', s)
  {
    var part := rest[..q];
    TakeBoth(first, rest, q);
    FiledAppend(cfg, first, part);
    LastIdAppend(first, part, t.lastSeen);
    Assoc(t.events, Filed(cfg, first), Filed(cfg, part));
  }

  lemma {:induction false} TakeBoth(first: seq<LiveFrame>, rest: seq<LiveFrame>, q: nat)
    requires q <= |rest|
    ensures (first + rest)[..|first| + q] == first + rest[..q]
    ensures q > 0 ==> (first + rest)[|first| + q - 1] == rest[q - 1]
  {
  }

  // ---------------------------------------------------------------- every run of the turn

  ghost predicate ResumesAt(log: seq<LiveFrame>, n: nat, resume: Option<string>) {
    n <= |log| && resume == if n == 0 then None else log[n - 1].id
  }

  /** The request's frames among the first `n` logged ones have been recorded, and the last id
      read is that of the n-th. */
  ghost predicate UpTo(cfg: Setting, t: Turn, log: seq<LiveFrame>, n: nat) {
    ResumesAt(log, n, t.lastSeen) && WithId(t.events) == Filed(cfg, log[..n])
  }

  /** The id-bearing frames processed are the next ones of the log. */
  lemma {:induction false} NextLogged(frames: seq<LiveFrame>, sent: seq<LiveFrame>, log: seq<LiveFrame>, n: nat)
    requires frames <= sent && n <= |log| && WithId(sent) == log[n..]
    ensures n + |WithId(frames)| <= |log| && log[..n + |WithId(frames)|] == log[..n] + WithId(frames)
  {
    assert sent == frames + sent[|frames|..];
    WithIdAppend(frames, sent[|frames|..]);
  }

  lemma {:induction false} ReplayFrom(log: seq<LiveFrame>, n: nat, resume: Option<string>)
    requires Log(log) && ResumesAt(log, n, resume)
    ensures Replay(log, resume) == log[n..]
  {
    if n > 0 {
      AfterIdAt(log, n - 1);
    } else {
      assert log[0..] == log;
    }
  }

  /** Every id-bearing frame sent on the connection reaches the reader. */
  predicate Delivers(link: Link) {
    WithId(Flatten(link.batches)) == WithId(link.sent)
  }

  /** The connection on which the turn ends. */
  function LastRead(cfg: Setting, t: Turn, links: seq<Link>): Link
    requires links != []
    decreases |links|
  {
    var (t', s) := ReadStream(cfg, t, links[0].batches, links[0].grace);
    if s.Dropped? && s.resumeId.Some? && |links| > 1 then LastRead(cfg, t', links[1..]) else links[0]
  }

  lemma {:induction false} LinkKeeps(cfg: Setting, t: Turn, link: Link, log: seq<LiveFrame>, n: nat, resume: Option<string>) returns (n': nat)
    requires LiveStepRules(cfg.steps).Ok? && Log(log) && UpTo(cfg, t, log, n) && ResumesAt(log, n, resume)
    requires Serves(link, log, resume)
    ensures var (t', s) := ReadStream(cfg, t, link.batches, link.grace);
      && UpTo(cfg, t', log, n') && (s.Dropped? && s.resumeId.Some? ==> s.resumeId == t'.lastSeen)
      && (s.Ended? ==> (n' == |log| <==> Delivers(link)))
  {
    var (t', s) := ReadStream(cfg, t, link.batches, link.grace);
    var p := StreamProcesses(cfg, t, link.batches, link.grace);
    ReplayFrom(log, n, resume);
    n' := PartKeeps(cfg, t, Flatten(link.batches), link.sent, p, log, n, t', s);
  }

  /** Of the frames that reach the reader it has processed `p`. */
  lemma {:induction false} PartKeeps(cfg: Setting, t: Turn, frames: seq<LiveFrame>, sent: seq<LiveFrame>, p: nat,
                                     log: seq<LiveFrame>, n: nat, t': Turn, s: Signal) returns (n': nat)
    requires UpTo(cfg, t, log, n) && Processed(cfg, t, frames, p, t', s) && frames <= sent && WithId(sent) == log[n..]
    ensures UpTo(cfg, t', log, n') && (s.Dropped? && s.resumeId.Some? ==> s.resumeId == t'.lastSeen)
    ensures s.Ended? ==> (n' == |log| <==> WithId(frames) == WithId(sent))
  {
    var read := frames[..p];
    NextLogged(read, sent, log, n);
    n' := n + |WithId(read)|;
    ReadKeeps(cfg, t, read, log, n, t');
    if s.Dropped? && s.resumeId.Some? {
      assert read[|read| - 1].id == s.resumeId;
    }
    if s.Ended? {
      assert read == frames;
      RestDelivered(WithId(read), log, n);
    }
  }

  lemma {:induction false} RestDelivered(got: seq<LiveFrame>, log: seq<LiveFrame>, n: nat)
    requires n + |got| <= |log| && log[..n + |got|] == log[..n] + got
    ensures n + |got| == |log| <==> got == log[n..]
  {
    if n + |got| == |log| {
      assert log == log[..n] + got;
    }
  }

  /** Recording the next logged frames keeps the turn at an exact prefix of the log. */
  lemma {:induction false} ReadKeeps(cfg: Setting, t: Turn, read: seq<LiveFrame>, log: seq<LiveFrame>, n: nat, t': Turn)
    requires UpTo(cfg, t, log, n)
    requires t'.events == t.events + Filed(cfg, read) && t'.lastSeen == LastId(read, t.lastSeen)
    requires n + |WithId(read)| <= |log| && log[..n + |WithId(read)|] == log[..n] + WithId(read)
    ensures UpTo(cfg, t', log, n + |WithId(read)|)
  {
    var got, n' := WithId(read), n + |WithId(read)|;
    WithIdAppend(t.events, Filed(cfg, read));
    FiledWithId(cfg, read);
    FiledAppend(cfg, log[..n], got);
    LastIdIs(read, t.lastSeen);
    if got != [] {
      assert log[n' - 1] == log[..n'][n' - 1];
      assert log[..n'][n' - 1] == (log[..n] + got)[n' - 1] == got[|got| - 1];
    }
  }

  lemma {:induction false} CollectKeeps(cfg: Setting, t: Turn, links: seq<Link>, log: seq<LiveFrame>, n: nat, resume: Option<string>)
    returns (k: nat)
    requires LiveStepRules(cfg.steps).Ok? && Log(log) && UpTo(cfg, t, log, n) && ResumesAt(log, n, resume)
    requires Served(cfg, t, links, log, resume)
    ensures UpTo(cfg, Connections(cfg, t, links).0, log, k)
    ensures links != [] && Connections(cfg, t, links).1.Ended? ==> (k == |log| <==> Delivers(LastRead(cfg, t, links)))
    decreases |links|
  {
    k := n;
    if links != [] {
      k := LinkKeeps(cfg, t, links[0], log, n, resume);
      var (t', s) := ReadStream(cfg, t, links[0].batches, links[0].grace);
      if s.Dropped? && s.resumeId.Some? {
        k := CollectKeeps(cfg, t', links[1..], log, k, s.resumeId);
      }
    }
  }

  /** The last id read tells how far a turn has come. */
  lemma {:induction false} UpToUnique(cfg: Setting, t: Turn, log: seq<LiveFrame>, k: nat, n: nat)
    requires Log(log) && UpTo(cfg, t, log, k) && UpTo(cfg, t, log, n)
    ensures k == n
  {
  }

  // ---------------------------------------------------------------- verdicts

  /** The verdict of a turn is about frames it recorded: `completes` counts the recorded TurnComplete
      events, the turn is done only if there is one, and failed only on a recorded Error. */
  ghost predicate Grounded(cfg: Setting, t: Turn, s: Signal) {
    && t.completes == CompletesIn(cfg.requestId, t.events)
    && (s.Done? ==> t.completes > 0)
    && (s.Failed? ==> t.events != [] && t.events[|t.events| - 1].kind.Fails?)
  }

  lemma {:induction false} CompletesSnoc(requestId: string, frames: seq<LiveFrame>, f: LiveFrame)
    ensures CompletesIn(requestId, frames + [f])
      == CompletesIn(requestId, frames) + (if f.kind.Completes? && ForRequest(f, requestId) then 1 else 0)
  {
    assert (frames + [f])[..|frames|] == frames;
  }

  lemma {:induction false} CompletesAppend(requestId: string, xs: seq<LiveFrame>, ys: seq<LiveFrame>)
    ensures CompletesIn(requestId, xs + ys) == CompletesIn(requestId, xs) + CompletesIn(requestId, ys)
    decreases |ys|
  {
    if ys == [] {
      assert xs + ys == xs;
    } else {
      var front, f := ys[..|ys| - 1], ys[|ys| - 1];
      assert ys == front + [f] && xs + ys == (xs + front) + [f];
      CompletesAppend(requestId, xs, front);
      CompletesSnoc(requestId, xs + front, f);
      CompletesSnoc(requestId, front, f);
    }
  }

  /** What a frame does to the record and the count. */
  lemma {:induction false} AbsorbCounts(cfg: Setting, t: Turn, f: LiveFrame)
    ensures var (t', s) := Absorb(cfg, t, f);
      && !s.Done?
      && (!ForRequest(f, cfg.requestId) ==> t'.events == t.events && t'.completes == t.completes && s.Go?)
      && (ForRequest(f, cfg.requestId) ==>
        && t'.events == t.events + [f.(requestId := cfg.requestId)]
        && t'.completes == t.completes + (if f.kind.Completes? then 1 else 0)
        && (s.Failed? ==> f.kind.Fails?))
  {
  }

  lemma {:induction false} AbsorbGrounded(cfg: Setting, t: Turn, f: LiveFrame)
    requires Grounded(cfg, t, Go)
    ensures Grounded(cfg, Absorb(cfg, t, f).0, Absorb(cfg, t, f).1)
  {
    AbsorbCounts(cfg, t, f);
    var (t', s) := Absorb(cfg, t, f);
    RecordGrounded(cfg, t, f, t', s);
  }

  lemma {:induction false} RecordGrounded(cfg: Setting, t: Turn, f: LiveFrame, t': Turn, s: Signal)
    requires Grounded(cfg, t, Go) && !s.Done?
    requires !ForRequest(f, cfg.requestId) ==> t'.events == t.events && t'.completes == t.completes && s.Go?
    requires ForRequest(f, cfg.requestId) ==>
      && t'.events == t.events + [f.(requestId := cfg.requestId)]
      && t'.completes == t.completes + (if f.kind.Completes? then 1 else 0)
      && (s.Failed? ==> f.kind.Fails?)
    ensures Grounded(cfg, t', s)
  {
    CompletesSnoc(cfg.requestId, t.events, f.(requestId := cfg.requestId));
  }

  lemma {:induction false} BatchGrounded(cfg: Setting, t: Turn, batch: seq<LiveFrame>)
    requires Grounded(cfg, t, Go)
    ensures Grounded(cfg, ReadBatch(cfg, t, batch).0, ReadBatch(cfg, t, batch).1)
    decreases |batch|
  {
    if batch != [] {
      AbsorbGrounded(cfg, t, batch[0]);
      var (t1, s1) := Absorb(cfg, t, batch[0]);
      if s1.Go? {
        BatchGrounded(cfg, t1, batch[1..]);
      }
    }
  }

  /** After a connection: still grounded, or complete with the duplicates of the grace added. */
  ghost predicate Counted(cfg: Setting, t: Turn, s: Signal) {
    if s.Done? then 0 < CompletesIn(cfg.requestId, t.events) <= t.completes else Grounded(cfg, t, s)
  }

  lemma {:induction false} StreamCounted(cfg: Setting, t: Turn, batches: seq<seq<LiveFrame>>, grace: nat)
    requires Grounded(cfg, t, Go)
    ensures Counted(cfg, ReadStream(cfg, t, batches, grace).0, ReadStream(cfg, t, batches, grace).1)
    decreases |batches|
  {
    if batches != [] {
      BatchGrounded(cfg, t, batches[0]);
      var (t1, s1) := ReadBatch(cfg, t, batches[0]);
      if s1.Go? {
        StreamCounted(cfg, t1, batches[1..], grace);
      }
    }
  }

  lemma {:induction false} ConnectionsCounted(cfg: Setting, t: Turn, links: seq<Link>)
    requires Grounded(cfg, t, Go)
    ensures Counted(cfg, Connections(cfg, t, links).0, Connections(cfg, t, links).1)
    decreases |links|
  {
    if links != [] {
      StreamCounted(cfg, t, links[0].batches, links[0].grace);
      var (t1, s1) := ReadStream(cfg, t, links[0].batches, links[0].grace);
      if s1.Dropped? && s1.resumeId.Some? {
        ConnectionsCounted(cfg, t1, links[1..]);
      }
    }
  }

  /** What every turn guarantees: the recorded id-bearing events are the request's logged frames up to
      the last id read; a turn reported done has recorded a TurnComplete and counts at least all it
      recorded, and one reported failed ends in an Error. */
  ghost predicate TurnRight(cfg: Setting, t: Turn, s: Signal, log: seq<LiveFrame>) {
    && (exists k :: UpTo(cfg, t, log, k))
    && (s.Done? ==> 0 < CompletesIn(cfg.requestId, t.events) <= t.completes)
    && (s.Failed? ==> t.events != [] && t.events[|t.events| - 1].kind.Fails?)
  }

  /** For every accepted scenario, every history its schedule has already seen, every log, every way
      the frames are cut into batches and connections and every answer of the gateway, the turn has
      recorded exactly its request's logged frames up to the last id it read, each once and in order,
      although a drop discards the frames parsed after its trigger; and its verdict rests on a frame
      it recorded.  A turn whose stream ended early has come to the end of the log exactly when its
      last connection delivered every logged frame it was sent. */
  lemma {:induction false} LiveExactlyOnce(cfg: Setting, seen: seq<Event>, post: Post, links: seq<Link>, log: seq<LiveFrame>)
    requires LiveStepRules(cfg.steps).Ok? && Log(log) && Served(cfg, StartTurn(seen), links, log, None)
    ensures var (t, s) := Collect(cfg, StartTurn(seen), post, links);
      && TurnRight(cfg, t, s, log)
      && (s.Ended? ==> (UpTo(cfg, t, log, |log|) <==> Delivers(LastRead(cfg, StartTurn(seen), links))))
  {
    var t := StartTurn(seen);
    assert log[..0] == [];
    assert UpTo(cfg, t, log, 0);
    var k := CollectKeeps(cfg, t, links, log, 0, None);
    ConnectionsCounted(cfg, t, links);
    var t' := Connections(cfg, t, links).0;
    if UpTo(cfg, t', log, |log|) {
      UpToUnique(cfg, t', log, k, |log|);
    }
  }

  // ---------------------------------------------------------------- a session

  /** One message of a session and what the environment does while its turn runs. */
  datatype Message = Message(requestId: string, answers: (nat, nat) -> bool, post: Post, links: seq<Link>)

  /** The turns of a session that completed, the history of its schedule, and how it ended. */
  datatype SessionRun = SessionRun(turns: seq<Turn>, seen: seq<Event>, end: Signal)

  function CfgOf(m: Message, steps: seq<Step>): Setting {
    Setting(m.requestId, steps, m.answers)
  }

  /** `_run_session`: the messages one after the other, on one schedule, until one does not complete. */
  function Session(steps: seq<Step>, seen: seq<Event>, messages: seq<Message>): SessionRun
    decreases |messages|
  {
    if messages == [] then SessionRun([], seen, Done)
    else
      var (t, s) := Collect(CfgOf(messages[0], steps), StartTurn(seen), messages[0].post, messages[0].links);
      if !s.Done? then SessionRun([], t.taken, s)
      else
        var rest := Session(steps, t.taken, messages[1..]);
        rest.(turns := [t] + rest.turns)
  }

  method RunSession(due: DueSteps, messages: seq<Message>) returns (turns: seq<Turn>, s: Signal)
    requires due.Valid() && LiveStepRules(due.steps).Ok?
    modifies due
    ensures due.Valid() && due.steps == old(due.steps)
    ensures var r := Session(due.steps, old(due.seen), messages);
      Histories(turns, r.turns) && s == r.end && due.seen == r.seen
  {
    turns, s := [], Done;
    ghost var steps, done: seq<Turn> := due.steps, [];
    ghost var goal := Session(steps, due.seen, messages);
    assert messages[0..] == messages;
    for i := 0 to |messages|
      invariant due.Valid() && due.steps == steps && s.Done?
      invariant goal == Prepend(done, Session(steps, due.seen, messages[i..]))
      invariant Histories(turns, done)
    {
      SessionStep(steps, due.seen, messages, i, done);
      var t;
      t, s := RunMessage(due, messages[i]);
      if !s.Done? {
        return;
      }
      turns := turns + [t];
      done := done + [t.(taken := due.seen)];
    }
    assert messages[|messages|..] == [];
  }

  /** One message: a new reader on the session's schedule. */
  method RunMessage(due: DueSteps, m: Message) returns (t: Turn, s: Signal)
    requires due.Valid() && LiveStepRules(due.steps).Ok?
    modifies due
    ensures due.Valid() && due.steps == old(due.steps)
    ensures var r := Collect(CfgOf(m, due.steps), StartTurn(old(due.seen)), m.post, m.links);
      s == r.1 && t == r.0.(taken := []) && due.seen == r.0.taken
  {
    var reader := new Reader(m.requestId, due, m.answers);
    s := reader.CollectTurn(m.post, m.links);
    t := Turn(reader.events, [], reader.completes, reader.lastSeen);
  }

  ghost function Prepend(turns: seq<Turn>, r: SessionRun): SessionRun {
    r.(turns := turns + r.turns)
  }

  lemma {:induction false} SessionStep(steps: seq<Step>, seen: seq<Event>, messages: seq<Message>, i: nat, done: seq<Turn>)
    requires i < |messages|
    ensures var (t, s) := Collect(CfgOf(messages[i], steps), StartTurn(seen), messages[i].post, messages[i].links);
      Prepend(done, Session(steps, seen, messages[i..]))
      == if s.Done? then Prepend(done + [t], Session(steps, t.taken, messages[i + 1..])) else SessionRun(done, t.taken, s)
  {
    var (t, s) := Collect(CfgOf(messages[i], steps), StartTurn(seen), messages[i].post, messages[i].links);
    assert messages[i..][0] == messages[i] && messages[i..][1..] == messages[i + 1..];
    if s.Done? {
      var rest := Session(steps, t.taken, messages[i + 1..]);
      assert done + ([t] + rest.turns) == done + [t] + rest.turns;
    } else {
      assert done + [] == done;
    }
  }

  /** The same turns, but for the schedule's history, which the runner does not keep. */
  ghost predicate Histories(turns: seq<Turn>, full: seq<Turn>) {
    |turns| == |full| && forall i :: 0 <= i < |turns| ==> turns[i] == full[i].(taken := [])
  }

  /** During every turn the gateway serves a log of its session; the log grows between turns. */
  ghost predicate SessionServed(steps: seq<Step>, seen: seq<Event>, messages: seq<Message>, logs: seq<seq<LiveFrame>>)
    decreases |messages|
  {
    messages != [] ==>
      && logs != [] && Log(logs[0])
      && Served(CfgOf(messages[0], steps), StartTurn(seen), messages[0].links, logs[0], None)
      && (var (t, s) := Collect(CfgOf(messages[0], steps), StartTurn(seen), messages[0].post, messages[0].links);
          s.Done? ==> SessionServed(steps, t.taken, messages[1..], logs[1..]))
  }

  /** Every turn of every session of an accepted scenario is right about its own log, although the
      turns share one step schedule, whose drops may fall in any of them. */
  lemma {:induction false} SessionExactlyOnce(steps: seq<Step>, seen: seq<Event>, messages: seq<Message>, logs: seq<seq<LiveFrame>>, i: nat)
    requires LiveStepRules(steps).Ok? && SessionServed(steps, seen, messages, logs)
    requires i < |Session(steps, seen, messages).turns|
    ensures i < |messages| && i < |logs|
    ensures TurnRight(CfgOf(messages[i], steps), Session(steps, seen, messages).turns[i], Done, logs[i])
    decreases |messages|
  {
    var (t, s) := Collect(CfgOf(messages[0], steps), StartTurn(seen), messages[0].post, messages[0].links);
    LiveExactlyOnce(CfgOf(messages[0], steps), seen, messages[0].post, messages[0].links, logs[0]);
    if i > 0 {
      SessionExactlyOnce(steps, t.taken, messages[1..], logs[1..], i - 1);
    }
  }
}
