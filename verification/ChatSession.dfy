/** The chat controller as a transition system: the event pump, the idle watcher and
    `submit` run as cooperative tasks that may interleave at every step.  Every step is
    at most one await-to-await segment of the code, so each schedule of the code is a
    run here. */
module ChatSession {
  import opened Common

  /** `Hitl`: a confirmation, question or elicitation; `Failure`: an Error event;
      `Complete`: a TurnComplete event; `Plain`: every other event. */
  datatype Kind = Hitl | Failure | Complete | Plain

  /** `number` is the arrival position; `rid` is "" when the event names no request. */
  datatype Event = Event(number: nat, rid: string, kind: Kind)

  /** What the pump puts on the queue: a decodable event, a payload that decodes to
      nothing (malformed, `ActiveRequests`), or the end-of-stream marker. */
  datatype Item = Payload(evt: Event) | Noise | StreamEnd

  datatype Reason = AbandonedId | OtherRequestHitl(turn: string) | NoIdWhileIdle | PreludeTail(turn: string)

  datatype TurnPoint = Top | Dequeue | InHitl | InUsage | Exit | CancelWait

  /** A running `_run_turn`. */
  datatype Turn = Turn(rid: string, at: TurnPoint, done: bool)

  datatype Submit = NoSubmit | AwaitIdle(rid: string) | Posting(rid: string) | UserTurn(turn: Turn)

  /** `Absent`: no task; `Finished`: the task is done; `Watching`: at the head of its loop;
      `Polling`: waiting on the queue; `Playing`: inside a turn it started. */
  datatype Idle = Absent | Finished | Watching | Polling | Playing(turn: Turn)

  /** Who runs.  The last three fields are history: `lateBusy` counts the second busy answer of
      `submit`, `stuck` is the request whose posting or turn an exception ended, and `resigned` says
      that the last watcher took the end marker or was ended by an exception. */
  datatype Tasks = Tasks(active: Option<string>, abort: bool, submit: Submit, idle: Idle,
                         cancelling: bool, lateBusy: nat, stuck: Option<string>, resigned: bool)

  /** Where the events are.  `prelude` is what is left of the batch the idle watcher is
      playing.  From `arrived` on the fields are history: the steps write them and never
      read them; `turns[i]` is the turn that dispatched `dispatched[i]`, `reasons[i]` says
      why `dropped[i]` was dropped, `aborted` holds every id ever abandoned, `since` is how much was
      dispatched when the last turn started, and `streamEnded` says that it took the end marker. */
  datatype Mail = Mail(queue: seq<Item>, prelude: seq<Event>, deferred: seq<Event>, abandoned: seq<string>,
                       arrived: seq<Event>, dispatched: seq<Event>, turns: seq<string>,
                       dropped: seq<Event>, reasons: seq<Reason>, aborted: seq<string>,
                       since: nat, streamEnded: bool, putBacks: nat)

  datatype State = State(tasks: Tasks, mail: Mail)

  /** After `connect`: the watcher has been created and nothing has arrived. */
  const Initial := State(Tasks(None, false, NoSubmit, Watching, false, 0, None, false),
                         Mail([], [], [], [], [], [], [], [], [], [], 0, false, 0))

  /** The size of the deque of abandoned ids. */
  const AbandonedMax := 64

  /** The scheduler's and the environment's choices. */
  datatype Action =
    | Arrive(rid: string, kind: Kind)     // the pump enqueues an event
    | ArriveNoise
    | ArriveEnd
    | AbortTurn                           // `abort_turn`, callable at any time
    | SubmitBegin(rid: string)
    | IdleCancelled                       // the cancelled watcher finishes
    | CancelSwallowed                     // the cancel raced a delivered payload and was lost
    | SubmitResume
    | PostRefused
    | PostAccepted
    | IdleHead
    | IdleTimeout
    | IdleTake
    | TurnHead
    | TurnTimeout
    | TurnTake
    | HitlReturns(aborts: bool)
    | UsageReturns
    | CancelSettles
    | Raises                              // an exception escapes the posting, the turn or the watcher

  // ---------------------------------------------------------------- operations on the mail

  function OfRequest(evts: seq<Event>, rid: string): seq<Event> {
    if evts == [] then []
    else if evts[0].rid == rid then [evts[0]] + OfRequest(evts[1..], rid)
    else OfRequest(evts[1..], rid)
  }

  function NotOfRequest(evts: seq<Event>, rid: string): seq<Event> {
    if evts == [] then []
    else if evts[0].rid == rid then NotOfRequest(evts[1..], rid)
    else [evts[0]] + NotOfRequest(evts[1..], rid)
  }

  function Enqueue(m: Mail, item: Item): Mail {
    m.(queue := m.queue + [item])
  }

  function Dispatched(m: Mail, evt: Event, turn: string): Mail {
    m.(dispatched := m.dispatched + [evt], turns := m.turns + [turn])
  }

  function Dropped(m: Mail, evt: Event, reason: Reason): Mail {
    m.(dropped := m.dropped + [evt], reasons := m.reasons + [reason])
  }

  function Deferred(m: Mail, evt: Event): Mail {
    m.(deferred := m.deferred + [evt])
  }

  /** Append to the bounded deque, which forgets its oldest entry when full. */
  function Abandon(m: Mail, rid: string): Mail {
    var kept := if |m.abandoned| >= AbandonedMax then m.abandoned[|m.abandoned| + 1 - AbandonedMax..] else m.abandoned;
    m.(abandoned := kept + [rid], aborted := m.aborted + [rid])
  }

  function NewTurn(m: Mail): Mail {
    m.(since := |m.dispatched|, streamEnded := false)
  }

  datatype Outcome = Outcome(mail: Mail, at: TurnPoint, done: bool)

  /** `_dispatch_turn_event` in a turn of `rid`, up to its first await. */
  function DispatchEvent(m: Mail, rid: string, evt: Event): Outcome {
    var other := evt.rid != "" && evt.rid != rid;
    if evt.kind.Hitl? then
      if other then Outcome(Dropped(m, evt, OtherRequestHitl(rid)), Top, false)
      else Outcome(Dispatched(m, evt, rid), InHitl, false)
    else if other then
      if evt.rid !in m.abandoned then Outcome(Deferred(m, evt), Top, false)
      else Outcome(Dropped(m, evt, AbandonedId), Top, false)
    else
      Outcome(Dispatched(m, evt, rid), if evt.kind.Complete? then InUsage else Top, evt.kind.Failure?)
  }

  /** What is left of a batch is lost when its turn stops. */
  function DropPrelude(m: Mail, rid: string): Mail {
    m.(prelude := [], dropped := m.dropped + m.prelude, reasons := m.reasons + seq(|m.prelude|, i => PreludeTail(rid)))
  }

  /** The prelude loop and the head of the dequeue loop of `_run_turn`. */
  function TurnHeadMail(m: Mail, rid: string, stop: bool): Outcome {
    if m.prelude == [] then Outcome(m, if stop then Exit else Dequeue, false)
    else if stop then Outcome(DropPrelude(m, rid), Top, false)
    else DispatchEvent(m.(prelude := m.prelude[1..]), rid, m.prelude[0])
  }

  /** The body of the dequeue loop of `_run_turn`. */
  function TurnTakeMail(m: Mail, rid: string): Outcome
    requires m.queue != []
  {
    var m' := m.(queue := m.queue[1..]);
    match m.queue[0]
    case StreamEnd => Outcome(m'.(streamEnded := true), Exit, false)
    case Noise => Outcome(m', Top, false)
    case Payload(evt) =>
      if evt.rid != "" && evt.rid in m.abandoned then Outcome(Dropped(m', evt, AbandonedId), Top, false)
      else DispatchEvent(m', rid, evt)
  }

  /** `_watch_idle` with a payload that is not the end marker, no request being active. */
  function IdleTakeMail(m: Mail): Mail
    requires m.queue != []
  {
    var m' := m.(queue := m.queue[1..]);
    if !m.queue[0].Payload? then m'
    else
      var evt := m.queue[0].evt;
      if evt.rid == "" then Dropped(m', evt, NoIdWhileIdle)
      else if evt.rid in m.abandoned then Dropped(m', evt, AbandonedId)
      else Deferred(m', evt)
  }

  // ---------------------------------------------------------------- operations on the tasks

  predicate HasTurn(t: Tasks) {
    t.submit.UserTurn? || t.idle.Playing?
  }

  /** The turn that takes the next turn step.  `MutualExclusion` shows there is never a second. */
  function CurrentTurn(t: Tasks): Turn
    requires HasTurn(t)
  {
    if t.submit.UserTurn? then t.submit.turn else t.idle.turn
  }

  function SetTurn(t: Tasks, at: TurnPoint, done: bool): Tasks
    requires HasTurn(t)
  {
    if t.submit.UserTurn? then t.(submit := UserTurn(Turn(t.submit.turn.rid, at, done)))
    else t.(idle := Playing(Turn(t.idle.turn.rid, at, done)))
  }

  function StartIdle(t: Tasks): Tasks {
    if t.active.Some? then t
    else if t.idle.Absent? || t.idle.Finished? then t.(idle := Watching, resigned := false)
    else t
  }

  function StartPost(t: Tasks, rid: string): Tasks {
    t.(active := Some(rid), abort := false, submit := Posting(rid))
  }

  /** The last lines of `_run_turn` and what its caller does next. */
  function FinishTurn(t: Tasks): Tasks
    requires HasTurn(t)
  {
    if t.submit.UserTurn? then StartIdle(t.(active := None, submit := NoSubmit))
    else t.(active := None, idle := Watching)
  }

  /** `submit` up to its first await. */
  function SubmitBeginTasks(t: Tasks, rid: string): Tasks {
    if t.active.Some? then t
    else if t.idle.Absent? || t.idle.Finished? then StartPost(t.(idle := Absent), rid)
    else t.(cancelling := true, submit := AwaitIdle(rid))
  }

  /** `submit` once the watcher has stopped, including its second busy check. */
  function SubmitResumeTasks(t: Tasks): Tasks
    requires t.submit.AwaitIdle?
  {
    var t' := t.(idle := Absent, cancelling := false);
    if t'.active.Some? then StartIdle(t'.(submit := NoSubmit, lateBusy := t.lateBusy + 1))
    else StartPost(t', t.submit.rid)
  }

  /** Something runs that an exception can end. */
  predicate CanRaise(t: Tasks) {
    t.submit.Posting? || HasTurn(t) || t.idle.Watching? || t.idle.Polling?
  }

  /** An exception escapes: it ends the task and the `submit` that awaits it.  Only the last line of
      `_run_turn` and the handled failures of the posting clear the active request. */
  function RaiseTasks(t: Tasks): Tasks
    requires CanRaise(t)
  {
    if t.submit.Posting? || t.submit.UserTurn? then t.(submit := NoSubmit, stuck := t.active)
    else if t.idle.Playing? then t.(submit := NoSubmit, idle := Finished, cancelling := false, stuck := t.active)
    else t.(submit := NoSubmit, idle := Finished, cancelling := false, resigned := true)
  }

  /** The batch of a turn that an exception ends is lost. */
  function RaiseStep(t: Tasks, m: Mail): State
    requires CanRaise(t)
  {
    State(RaiseTasks(t), if t.idle.Playing? then DropPrelude(m, t.idle.turn.rid) else m)
  }

  // ---------------------------------------------------------------- steps

  /** A fresh request id: non-empty and on no event so far. */
  predicate Fresh(m: Mail, rid: string) {
    rid != "" && NoneOf(m.arrived, rid)
  }

  predicate TurnAt(t: Tasks, at: TurnPoint) {
    HasTurn(t) && CurrentTurn(t).at == at
  }

  /** Which actions the scheduler may choose.  Calls of `submit` do not overlap, and the
      gateway cannot name a request id that has not been posted. */
  predicate Enabled(s: State, a: Action) {
    var t, m := s.tasks, s.mail;
    match a
    case Arrive(rid, _) => !(t.submit.AwaitIdle? && t.submit.rid == rid)
    case SubmitBegin(rid) => t.submit.NoSubmit? && Fresh(m, rid)
    case IdleCancelled => t.cancelling && (t.idle.Watching? || t.idle.Polling?)
    case CancelSwallowed => t.cancelling && t.idle.Polling?
    case SubmitResume => t.submit.AwaitIdle? && t.idle.Finished?
    case PostRefused => t.submit.Posting?
    case PostAccepted => t.submit.Posting?
    case IdleHead => t.idle.Watching? && !t.cancelling
    case IdleTimeout => t.idle.Polling? && !t.cancelling
    case IdleTake => t.idle.Polling? && !t.cancelling && m.queue != []
    case TurnHead => TurnAt(t, Top) || TurnAt(t, Exit)
    case TurnTimeout => TurnAt(t, Dequeue)
    case TurnTake => TurnAt(t, Dequeue) && m.queue != []
    case HitlReturns(_) => TurnAt(t, InHitl)
    case UsageReturns => TurnAt(t, InUsage)
    case CancelSettles => TurnAt(t, CancelWait)
    case Raises => CanRaise(t)
    case _ => true
  }

  /** `_play_deferred` and the head of the loop of `_watch_idle`. */
  function IdleHeadStep(t: Tasks, m: Mail): State {
    if t.active.Some? then State(t.(idle := Finished), m)
    else if m.deferred == [] then State(t.(idle := Polling), m)
    else
      var first, rest := m.deferred[0], m.deferred[1..];
      if first.rid == "" then State(t, Dropped(m.(deferred := rest), first, NoIdWhileIdle))
      else if first.rid in m.abandoned then State(t, Dropped(m.(deferred := rest), first, AbandonedId))
      else
        State(t.(active := Some(first.rid), abort := false, idle := Playing(Turn(first.rid, Top, false))),
              NewTurn(m.(prelude := [first] + OfRequest(rest, first.rid), deferred := NotOfRequest(rest, first.rid))))
  }

  /** `_watch_idle` with the payload it was waiting for, including its put-back branch. */
  function IdleTakeStep(t: Tasks, m: Mail): State
    requires m.queue != []
  {
    var m' := m.(queue := m.queue[1..]);
    if m.queue[0].StreamEnd? then State(t.(idle := Finished, resigned := true), m')
    else if t.active.Some? then
      State(t.(idle := Finished), Enqueue(m', m.queue[0]).(putBacks := m.putBacks + 1))
    else State(t.(idle := Watching), IdleTakeMail(m))
  }

  function TurnStep(t: Tasks, o: Outcome): State
    requires HasTurn(t)
  {
    State(SetTurn(t, o.at, CurrentTurn(t).done || o.done), o.mail)
  }

  /** The abandonment at the end of `_run_turn`. */
  function TurnExitStep(t: Tasks, m: Mail): State
    requires HasTurn(t)
  {
    var turn := CurrentTurn(t);
    if t.abort && !turn.done then State(SetTurn(t, CancelWait, turn.done), Abandon(m, turn.rid))
    else State(FinishTurn(t), m)
  }

  function Step(s: State, a: Action): State
    requires Enabled(s, a)
  {
    var t, m := s.tasks, s.mail;
    match a
    case Arrive(rid, kind) =>
      var evt := Event(|m.arrived|, rid, kind);
      State(t, Enqueue(m, Payload(evt)).(arrived := m.arrived + [evt]))
    case ArriveNoise => State(t, Enqueue(m, Noise))
    case ArriveEnd => State(t, Enqueue(m, StreamEnd))
    case AbortTurn => State(t.(abort := true), m)
    case SubmitBegin(rid) => State(SubmitBeginTasks(t, rid), m)
    case IdleCancelled => State(t.(idle := Finished), m)
    case CancelSwallowed => State(t.(cancelling := false), m)
    case SubmitResume => State(SubmitResumeTasks(t), m)
    case PostRefused => State(StartIdle(t.(active := None, submit := NoSubmit)), m)
    case PostAccepted => State(t.(submit := UserTurn(Turn(t.submit.rid, Top, false))), NewTurn(m))
    case IdleHead => IdleHeadStep(t, m)
    case IdleTimeout => State(t.(idle := Watching), m)
    case IdleTake => IdleTakeStep(t, m)
    case TurnHead =>
      var turn := CurrentTurn(t);
      if turn.at.Exit? then TurnExitStep(t, m)
      else TurnStep(t, TurnHeadMail(m, turn.rid, turn.done || t.abort))
    case TurnTimeout => State(SetTurn(t, Top, CurrentTurn(t).done), m)
    case TurnTake => TurnStep(t, TurnTakeMail(m, CurrentTurn(t).rid))
    case HitlReturns(aborts) => State(SetTurn(t.(abort := t.abort || aborts), Top, CurrentTurn(t).done), m)
    case UsageReturns => State(SetTurn(t, Top, true), m)
    case CancelSettles => State(FinishTurn(t), m)
    case Raises => RaiseStep(t, m)
  }

  predicate Runs(s: State, acts: seq<Action>)
    decreases |acts|
  {
    acts == [] || (Enabled(s, acts[0]) && Runs(Step(s, acts[0]), acts[1..]))
  }

  function After(s: State, acts: seq<Action>): State
    requires Runs(s, acts)
    decreases |acts|
  {
    if acts == [] then s else After(Step(s, acts[0]), acts[1..])
  }

  // ---------------------------------------------------------------- control invariant

  ghost predicate Control(t: Tasks) {
    && (t.submit.Posting? || t.submit.UserTurn? ==> t.idle.Absent? && !t.cancelling)
    && (t.cancelling ==> t.submit.AwaitIdle? && !t.idle.Playing?)
    && (t.submit.AwaitIdle? ==> !t.idle.Absent?)
    && (t.stuck.Some? ==> t.submit.NoSubmit? && (t.idle.Absent? || t.idle.Finished?))
    && t.active ==
       (match t.submit
        case Posting(rid) => Some(rid)
        case UserTurn(turn) => Some(turn.rid)
        case _ => if t.idle.Playing? then Some(t.idle.turn.rid) else t.stuck)
    && t.lateBusy == 0
  }

  predicate OfTurn(a: Action) {
    a.TurnHead? || a.TurnTimeout? || a.TurnTake? || a.HitlReturns? || a.UsageReturns? || a.CancelSettles?
  }

  lemma {:induction false} TurnControl(s: State, a: Action)
    requires Control(s.tasks) && Enabled(s, a) && OfTurn(a)
    ensures Control(Step(s, a).tasks)
    ensures Step(s, a).mail.putBacks == s.mail.putBacks && Step(s, a).tasks.stuck == s.tasks.stuck
  {
  }

  lemma {:induction false} ControlKept(s: State, a: Action)
    requires Control(s.tasks) && Enabled(s, a)
    ensures Control(Step(s, a).tasks)
    ensures Step(s, a).mail.putBacks == s.mail.putBacks
    ensures s.tasks.stuck.Some? || !a.Raises? ==> Step(s, a).tasks.stuck == s.tasks.stuck
  {
    if OfTurn(a) {
      TurnControl(s, a);
    }
  }

  // ---------------------------------------------------------------- flow of events

  function QueueEvents(q: seq<Item>): seq<Event> {
    if q == [] then []
    else if q[0].Payload? then [q[0].evt] + QueueEvents(q[1..])
    else QueueEvents(q[1..])
  }

  lemma {:induction false} QueueAppend(q: seq<Item>, x: Item)
    ensures QueueEvents(q + [x]) == QueueEvents(q) + (if x.Payload? then [x.evt] else [])
  {
    if q != [] {
      assert (q + [x])[1..] == q[1..] + [x];
      QueueAppend(q[1..], x);
    }
  }

  /** The mail with the queue reduced to its events. */
  datatype Flow = Flow(arrived: seq<Event>, queued: seq<Event>, deferred: seq<Event>,
                       prelude: seq<Event>, dispatched: seq<Event>, dropped: seq<Event>)

  function FlowOf(m: Mail): Flow {
    Flow(m.arrived, QueueEvents(m.queue), m.deferred, m.prelude, m.dispatched, m.dropped)
  }

  /** Every event of `xs` arrived before the events of the same request in `ys`. */
  ghost predicate Precede(xs: seq<Event>, ys: seq<Event>) {
    forall x, y :: x in xs && y in ys && x.rid == y.rid ==> x.number < y.number
  }

  /** Events of one request appear in arrival order. */
  ghost predicate InOrder(evts: seq<Event>) {
    evts != [] ==> Precede([evts[0]], evts[1..]) && InOrder(evts[1..])
  }

  lemma {:induction false} InOrderCons(e: Event, evts: seq<Event>)
    requires InOrder(evts) && Precede([e], evts)
    ensures InOrder([e] + evts)
  {
    assert ([e] + evts)[1..] == evts;
  }

  lemma {:induction false} InOrderAppend(evts: seq<Event>, e: Event)
    requires InOrder(evts) && Precede(evts, [e])
    ensures InOrder(evts + [e])
  {
    if evts != [] {
      assert (evts + [e])[1..] == evts[1..] + [e];
      InOrderAppend(evts[1..], e);
    } else {
      assert (evts + [e])[1..] == [];
    }
  }

  /** The order, in terms of positions. */
  lemma {:induction false} InOrderAt(evts: seq<Event>, i: nat, j: nat)
    requires InOrder(evts) && i < j < |evts| && evts[i].rid == evts[j].rid
    ensures evts[i].number < evts[j].number
  {
    if i == 0 {
      assert evts[j] == evts[1..][j - 1];
    } else {
      InOrderAt(evts[1..], i - 1, j - 1);
    }
  }

  predicate NoneOf(evts: seq<Event>, rid: string) {
    forall e :: e in evts ==> e.rid != rid
  }

  predicate AllOf(evts: seq<Event>, rid: string) {
    forall e :: e in evts ==> e.rid == rid
  }

  /** How many arrivals have left the queue. */
  function Taken(f: Flow): int { |f.arrived| - |f.queued| }

  ghost predicate Conserved(f: Flow) {
    && (forall i :: 0 <= i < |f.arrived| ==> f.arrived[i].number == i)
    && Taken(f) >= 0
    && f.queued == f.arrived[Taken(f)..]
    && multiset(f.arrived[..Taken(f)])
       == multiset(f.dispatched) + multiset(f.prelude) + multiset(f.deferred) + multiset(f.dropped)
  }

  ghost predicate Ordered(f: Flow) {
    && InOrder(f.dispatched) && InOrder(f.prelude) && InOrder(f.deferred)
    && Precede(f.dispatched, f.prelude) && Precede(f.dispatched, f.deferred)
    && NoneOf(f.deferred, "")
  }

  ghost predicate FlowOk(f: Flow) {
    Conserved(f) && Ordered(f)
  }

  /** An event that has left the queue arrived before everything still queued. */
  lemma {:induction false} TakenIsOlder(f: Flow, evt: Event)
    requires Conserved(f)
    requires evt in f.dispatched || evt in f.prelude || evt in f.deferred || evt in f.dropped
    ensures evt.number < Taken(f) && f.arrived[evt.number] == evt
  {
    assert evt in multiset(f.dispatched) + multiset(f.prelude) + multiset(f.deferred) + multiset(f.dropped);
    assert evt in f.arrived[..Taken(f)];
    var i :| 0 <= i < Taken(f) && f.arrived[i] == evt;
  }

  lemma {:induction false} AllAccounted(f: Flow)
    requires Conserved(f)
    ensures multiset(f.arrived) == multiset(f.queued) + multiset(f.deferred) + multiset(f.prelude)
                                   + multiset(f.dispatched) + multiset(f.dropped)
    ensures |f.queued| <= |f.arrived| && f.queued == f.arrived[|f.arrived| - |f.queued|..]
  {
    assert f.arrived == f.arrived[..Taken(f)] + f.arrived[Taken(f)..];
  }

  lemma {:induction false} ArriveFlow(f: Flow, evt: Event)
    requires FlowOk(f) && evt.number == |f.arrived|
    ensures FlowOk(f.(arrived := f.arrived + [evt], queued := f.queued + [evt]))
  {
    var f' := f.(arrived := f.arrived + [evt], queued := f.queued + [evt]);
    assert f'.arrived[..Taken(f')] == f.arrived[..Taken(f)];
  }

  /** Taking the head of the queue: the counts balance wherever the event goes, and the
      event is younger than everything taken before. */
  lemma {:induction false} TakeFlow(f: Flow, f': Flow)
    requires Conserved(f) && f.queued != []
    requires f'.arrived == f.arrived && f'.queued == f.queued[1..]
    requires multiset(f'.dispatched) + multiset(f'.prelude) + multiset(f'.deferred) + multiset(f'.dropped)
          == multiset(f.dispatched) + multiset(f.prelude) + multiset(f.deferred) + multiset(f.dropped) + multiset{f.queued[0]}
    ensures Conserved(f')
    ensures Precede(f.dispatched, [f.queued[0]]) && Precede(f.deferred, [f.queued[0]])
  {
    assert f.arrived[..Taken(f')] == f.arrived[..Taken(f)] + [f.queued[0]];
    forall e | e in f.dispatched || e in f.deferred ensures e.number < f.queued[0].number {
      TakenIsOlder(f, e);
    }
  }

  lemma {:induction false} DispatchQueuedFlow(f: Flow)
    requires FlowOk(f) && f.queued != [] && f.prelude == [] && NoneOf(f.deferred, f.queued[0].rid)
    ensures FlowOk(f.(queued := f.queued[1..], dispatched := f.dispatched + [f.queued[0]]))
  {
    TakeFlow(f, f.(queued := f.queued[1..], dispatched := f.dispatched + [f.queued[0]]));
    InOrderAppend(f.dispatched, f.queued[0]);
  }

  lemma {:induction false} DeferQueuedFlow(f: Flow)
    requires FlowOk(f) && f.queued != [] && f.queued[0].rid != ""
    ensures FlowOk(f.(queued := f.queued[1..], deferred := f.deferred + [f.queued[0]]))
  {
    TakeFlow(f, f.(queued := f.queued[1..], deferred := f.deferred + [f.queued[0]]));
    InOrderAppend(f.deferred, f.queued[0]);
  }

  lemma {:induction false} DropQueuedFlow(f: Flow)
    requires FlowOk(f) && f.queued != []
    ensures FlowOk(f.(queued := f.queued[1..], dropped := f.dropped + [f.queued[0]]))
  {
    TakeFlow(f, f.(queued := f.queued[1..], dropped := f.dropped + [f.queued[0]]));
  }

  lemma {:induction false} DropDeferredFlow(f: Flow)
    requires FlowOk(f) && f.deferred != []
    ensures FlowOk(f.(deferred := f.deferred[1..], dropped := f.dropped + [f.deferred[0]]))
  {
    assert f.deferred == [f.deferred[0]] + f.deferred[1..];
  }

  lemma {:induction false} DispatchPreludeFlow(f: Flow)
    requires FlowOk(f) && f.prelude != [] && NoneOf(f.deferred, f.prelude[0].rid)
    ensures FlowOk(f.(prelude := f.prelude[1..], dispatched := f.dispatched + [f.prelude[0]]))
  {
    assert f.prelude == [f.prelude[0]] + f.prelude[1..];
    InOrderAppend(f.dispatched, f.prelude[0]);
  }

  lemma {:induction false} DropPreludeFlow(f: Flow)
    requires FlowOk(f)
    ensures FlowOk(f.(prelude := [], dropped := f.dropped + f.prelude))
  {
  }

  lemma {:induction false} PartitionCounts(evts: seq<Event>, rid: string)
    ensures multiset(OfRequest(evts, rid)) + multiset(NotOfRequest(evts, rid)) == multiset(evts)
  {
    if evts != [] {
      PartitionCounts(evts[1..], rid);
      assert evts == [evts[0]] + evts[1..];
    }
  }

  lemma {:induction false} PartitionMember(evts: seq<Event>, rid: string, e: Event)
    ensures e in OfRequest(evts, rid) <==> e in evts && e.rid == rid
    ensures e in NotOfRequest(evts, rid) <==> e in evts && e.rid != rid
  {
    if evts != [] {
      PartitionMember(evts[1..], rid, e);
    }
  }

  lemma {:induction false} PartitionOrder(evts: seq<Event>, rid: string)
    requires InOrder(evts)
    ensures InOrder(OfRequest(evts, rid)) && InOrder(NotOfRequest(evts, rid))
  {
    if evts != [] {
      var head, rest := evts[0], evts[1..];
      PartitionOrder(rest, rid);
      var part := if head.rid == rid then OfRequest(rest, rid) else NotOfRequest(rest, rid);
      forall e | e in part ensures e in rest {
        PartitionMember(rest, rid, e);
      }
      InOrderCons(head, part);
    }
  }

  lemma {:induction false} BatchConserved(f: Flow, rid: string)
    requires Conserved(f) && f.prelude == []
    ensures Conserved(f.(prelude := OfRequest(f.deferred, rid), deferred := NotOfRequest(f.deferred, rid)))
  {
    PartitionCounts(f.deferred, rid);
    Regroup(multiset(f.dispatched), multiset(f.deferred), multiset(OfRequest(f.deferred, rid)),
            multiset(NotOfRequest(f.deferred, rid)), multiset(f.dropped));
  }

  lemma {:induction false} Regroup(a: multiset<Event>, all: multiset<Event>, b: multiset<Event>, c: multiset<Event>, d: multiset<Event>)
    requires all == b + c
    ensures a + multiset([]) + all + d == a + b + c + d
  {
  }

  lemma {:induction false} BatchOrdered(f: Flow, rid: string)
    requires Ordered(f)
    ensures var f' := f.(prelude := OfRequest(f.deferred, rid), deferred := NotOfRequest(f.deferred, rid));
      Ordered(f') && AllOf(f'.prelude, rid) && NoneOf(f'.deferred, rid)
  {
    var batch, rest := OfRequest(f.deferred, rid), NotOfRequest(f.deferred, rid);
    forall e ensures e in batch ==> e in f.deferred && e.rid == rid
      ensures e in rest ==> e in f.deferred && e.rid != rid
    {
      PartitionMember(f.deferred, rid, e);
    }
    PartitionOrder(f.deferred, rid);
  }

  /** Starting a turn from the deferred list. */
  lemma {:induction false} BatchFlow(f: Flow, rid: string)
    requires FlowOk(f) && f.prelude == []
    ensures var f' := f.(prelude := OfRequest(f.deferred, rid), deferred := NotOfRequest(f.deferred, rid));
      FlowOk(f') && AllOf(f'.prelude, rid) && NoneOf(f'.deferred, rid)
  {
    BatchConserved(f, rid);
    BatchOrdered(f, rid);
  }

  // ---------------------------------------------------------------- data invariant

  /** The ids a turn is or will be entitled to, and what may still be deferred for them. */
  ghost predicate Shape(t: Tasks, m: Mail) {
    && (t.submit.AwaitIdle? ==> t.submit.rid != "" && NoneOf(m.arrived, t.submit.rid))
    && (t.active.Some? ==> t.active.value != "" && NoneOf(m.deferred, t.active.value))
    && (m.prelude != [] ==> t.idle.Playing? && AllOf(m.prelude, t.idle.turn.rid)
                            && !t.idle.turn.at.Dequeue? && !t.idle.turn.at.Exit? && !t.idle.turn.at.CancelWait?)
  }

  ghost predicate Good(s: State) {
    Control(s.tasks) && Shape(s.tasks, s.mail) && FlowOk(FlowOf(s.mail)) && s.mail.putBacks == 0
  }

  lemma {:induction false} DeferredArrived(m: Mail, rid: string)
    requires Conserved(FlowOf(m)) && NoneOf(m.arrived, rid)
    ensures NoneOf(m.deferred, rid)
  {
    forall e | e in m.deferred ensures e.rid != rid {
      TakenIsOlder(FlowOf(m), e);
    }
  }

  lemma {:induction false} TakenDropped(m: Mail, reason: Reason)
    requires m.queue != [] && m.queue[0].Payload? && FlowOk(FlowOf(m))
    ensures FlowOk(FlowOf(Dropped(m.(queue := m.queue[1..]), m.queue[0].evt, reason)))
  {
    DropQueuedFlow(FlowOf(m));
  }

  lemma {:induction false} TakenDispatched(m: Mail, rid: string)
    requires m.queue != [] && m.queue[0].Payload? && m.prelude == [] && FlowOk(FlowOf(m))
    requires NoneOf(m.deferred, m.queue[0].evt.rid)
    ensures FlowOk(FlowOf(Dispatched(m.(queue := m.queue[1..]), m.queue[0].evt, rid)))
  {
    DispatchQueuedFlow(FlowOf(m));
  }

  lemma {:induction false} TakenDeferred(m: Mail)
    requires m.queue != [] && m.queue[0].Payload? && m.queue[0].evt.rid != "" && FlowOk(FlowOf(m))
    ensures FlowOk(FlowOf(Deferred(m.(queue := m.queue[1..]), m.queue[0].evt)))
  {
    DeferQueuedFlow(FlowOf(m));
  }

  lemma {:induction false} TurnTakeFlow(m: Mail, rid: string)
    requires m.queue != [] && m.prelude == [] && rid != "" && NoneOf(m.deferred, rid) && FlowOk(FlowOf(m))
    ensures var m' := TurnTakeMail(m, rid).mail;
      FlowOk(FlowOf(m')) && NoneOf(m'.deferred, rid) && m'.prelude == [] && m'.arrived == m.arrived
  {
    if m.queue[0].Payload? {
      var evt := m.queue[0].evt;
      if evt.rid != "" && evt.rid in m.abandoned {
        TakenDropped(m, AbandonedId);
      } else if evt.rid == "" || evt.rid == rid {
        assert NoneOf(m.deferred, evt.rid);
        TakenDispatched(m, rid);
      } else if evt.kind.Hitl? {
        TakenDropped(m, OtherRequestHitl(rid));
      } else {
        TakenDeferred(m);
      }
    } else {
      assert FlowOf(TurnTakeMail(m, rid).mail) == FlowOf(m);
    }
  }

  /** Dispatching the head of the prelude. */
  lemma {:induction false} PreludeHeadFlow(m: Mail, rid: string)
    requires rid != "" && m.prelude != [] && AllOf(m.prelude, rid) && NoneOf(m.deferred, rid) && FlowOk(FlowOf(m))
    ensures var o := DispatchEvent(m.(prelude := m.prelude[1..]), rid, m.prelude[0]);
      && o.mail == Dispatched(m.(prelude := m.prelude[1..]), m.prelude[0], rid)
      && FlowOk(FlowOf(o.mail)) && AllOf(o.mail.prelude, rid)
      && !o.at.Dequeue? && !o.at.Exit? && !o.at.CancelWait?
  {
    assert m.prelude[0] in m.prelude;
    DispatchPreludeFlow(FlowOf(m));
    assert FlowOf(Dispatched(m.(prelude := m.prelude[1..]), m.prelude[0], rid))
      == FlowOf(m).(prelude := m.prelude[1..], dispatched := m.dispatched + [m.prelude[0]]);
  }

  /** Dropping the rest of the prelude. */
  lemma {:induction false} PreludeTailFlow(m: Mail, rid: string)
    requires FlowOk(FlowOf(m))
    ensures FlowOk(FlowOf(DropPrelude(m, rid)))
  {
    DropPreludeFlow(FlowOf(m));
    assert FlowOf(DropPrelude(m, rid)) == FlowOf(m).(prelude := [], dropped := m.dropped + m.prelude);
  }

  lemma {:induction false} TurnHeadFlow(m: Mail, rid: string, stop: bool)
    requires rid != "" && AllOf(m.prelude, rid) && NoneOf(m.deferred, rid) && FlowOk(FlowOf(m))
    ensures var o := TurnHeadMail(m, rid, stop);
      FlowOk(FlowOf(o.mail)) && o.mail.deferred == m.deferred && o.mail.arrived == m.arrived
      && AllOf(o.mail.prelude, rid) && |o.mail.prelude| <= |m.prelude|
      && (o.mail.prelude != [] ==> !o.at.Dequeue? && !o.at.Exit? && !o.at.CancelWait?)
  {
    if m.prelude != [] {
      if stop {
        PreludeTailFlow(m, rid);
      } else {
        PreludeHeadFlow(m, rid);
      }
    }
  }

  /** The first deferred event starts a turn with all of its request. */
  lemma {:induction false} StartsTurnFlow(m: Mail)
    requires m.prelude == [] && FlowOk(FlowOf(m)) && m.deferred != []
    ensures var first, rest := m.deferred[0], m.deferred[1..];
      var m' := m.(prelude := [first] + OfRequest(rest, first.rid), deferred := NotOfRequest(rest, first.rid));
      && FlowOk(FlowOf(m')) && first.rid != "" && AllOf(m'.prelude, first.rid) && NoneOf(m'.deferred, first.rid)
  {
    var first := m.deferred[0];
    assert first in m.deferred;
    BatchFlow(FlowOf(m), first.rid);
  }

  lemma {:induction false} IdleHeadFlow(t: Tasks, m: Mail)
    requires m.prelude == [] && FlowOk(FlowOf(m))
    ensures var s' := IdleHeadStep(t, m);
      FlowOk(FlowOf(s'.mail)) && s'.mail.arrived == m.arrived
      && if t.active.None? && s'.tasks.active.Some? then
           var rid := s'.tasks.active.value;
           rid != "" && AllOf(s'.mail.prelude, rid) && NoneOf(s'.mail.deferred, rid)
         else s'.mail.prelude == [] && (forall e :: e in s'.mail.deferred ==> e in m.deferred)
  {
    if t.active.None? && m.deferred != [] {
      var first := m.deferred[0];
      if first.rid in m.abandoned {
        DropDeferredFlow(FlowOf(m));
      } else {
        StartsTurnFlow(m);
      }
    }
  }

  lemma {:induction false} IdleTakeFlow(m: Mail)
    requires m.queue != [] && FlowOk(FlowOf(m))
    ensures var m' := IdleTakeMail(m);
      FlowOk(FlowOf(m')) && m'.arrived == m.arrived && m'.prelude == m.prelude
  {
    if m.queue[0].Payload? {
      var evt := m.queue[0].evt;
      if evt.rid == "" || evt.rid in m.abandoned {
        DropQueuedFlow(FlowOf(m));
      } else {
        DeferQueuedFlow(FlowOf(m));
      }
    }
  }

  lemma {:induction false} EventArrives(t: Tasks, m: Mail, evt: Event)
    requires Good(State(t, m)) && evt.number == |m.arrived| && !(t.submit.AwaitIdle? && t.submit.rid == evt.rid)
    ensures Good(State(t, Enqueue(m, Payload(evt)).(arrived := m.arrived + [evt])))
  {
    var m' := Enqueue(m, Payload(evt)).(arrived := m.arrived + [evt]);
    ArrivesFlow(m, evt);
    assert t.submit.AwaitIdle? ==> NoneOf(m'.arrived, t.submit.rid);
  }

  lemma {:induction false} ArrivesFlow(m: Mail, evt: Event)
    requires FlowOk(FlowOf(m)) && evt.number == |m.arrived|
    ensures FlowOk(FlowOf(Enqueue(m, Payload(evt)).(arrived := m.arrived + [evt])))
  {
    QueueAppend(m.queue, Payload(evt));
    ArriveFlow(FlowOf(m), evt);
    assert FlowOf(Enqueue(m, Payload(evt)).(arrived := m.arrived + [evt]))
      == FlowOf(m).(arrived := m.arrived + [evt], queued := QueueEvents(m.queue) + [evt]);
  }

  lemma {:induction false} OtherArrives(t: Tasks, m: Mail, item: Item)
    requires Good(State(t, m)) && !item.Payload?
    ensures Good(State(t, Enqueue(m, item)))
  {
    QueueAppend(m.queue, item);
    assert QueueEvents(m.queue) + [] == QueueEvents(m.queue);
    assert FlowOf(Enqueue(m, item)) == FlowOf(m);
  }

  lemma {:induction false} ArriveGood(s: State, a: Action)
    requires Good(s) && Enabled(s, a) && (a.Arrive? || a.ArriveNoise? || a.ArriveEnd?)
    ensures Good(Step(s, a))
  {
    if a.Arrive? {
      EventArrives(s.tasks, s.mail, Event(|s.mail.arrived|, a.rid, a.kind));
    } else {
      OtherArrives(s.tasks, s.mail, if a.ArriveNoise? then Noise else StreamEnd);
    }
  }

  lemma {:induction false} IdleHeadGood(s: State)
    requires Good(s) && Enabled(s, IdleHead)
    ensures Good(Step(s, IdleHead))
  {
    ControlKept(s, IdleHead);
    IdleHeadFlow(s.tasks, s.mail);
  }

  /** No request is active when the watcher gets a payload, so nothing is put back. */
  lemma {:induction false} IdleTakeGood(s: State)
    requires Good(s) && Enabled(s, IdleTake)
    ensures Good(Step(s, IdleTake))
  {
    ControlKept(s, IdleTake);
    IdleTakeFlow(s.mail);
    assert s.tasks.active.None?;
    assert Step(s, IdleTake).mail == IdleTakeMail(s.mail);
  }

  lemma {:induction false} TurnTakeGood(s: State)
    requires Good(s) && Enabled(s, TurnTake)
    ensures Good(Step(s, TurnTake))
  {
    ControlKept(s, TurnTake);
    TurnTakeFlow(s.mail, CurrentTurn(s.tasks).rid);
  }

  lemma {:induction false} TurnExitGood(s: State)
    requires Good(s) && Enabled(s, TurnHead) && CurrentTurn(s.tasks).at.Exit?
    ensures Good(Step(s, TurnHead))
  {
    ControlKept(s, TurnHead);
    assert FlowOf(Step(s, TurnHead).mail) == FlowOf(s.mail);
  }

  lemma {:induction false} TurnHeadGood(s: State)
    requires Good(s) && Enabled(s, TurnHead) && CurrentTurn(s.tasks).at.Top?
    ensures Good(Step(s, TurnHead))
  {
    ControlKept(s, TurnHead);
    var turn := CurrentTurn(s.tasks);
    TurnHeadFlow(s.mail, turn.rid, turn.done || s.tasks.abort);
  }

  lemma {:induction false} TaskGood(s: State, a: Action)
    requires Good(s) && Enabled(s, a)
    requires !(a.TurnTake? || a.TurnHead? || a.IdleHead? || a.IdleTake? || a.Arrive? || a.ArriveNoise? || a.ArriveEnd? || a.Raises?)
    ensures Good(Step(s, a))
  {
    ControlKept(s, a);
    assert FlowOf(Step(s, a).mail) == FlowOf(s.mail);
    if a.SubmitBegin? {
      DeferredArrived(s.mail, a.rid);
    } else if a.SubmitResume? {
      DeferredArrived(s.mail, s.tasks.submit.rid);
    }
  }

  lemma {:induction false} RaiseGood(s: State)
    requires Good(s) && Enabled(s, Raises)
    ensures Good(Step(s, Raises))
  {
    ControlKept(s, Raises);
    if s.tasks.idle.Playing? {
      PreludeTailFlow(s.mail, s.tasks.idle.turn.rid);
    }
  }

  lemma {:induction false} StepGood(s: State, a: Action)
    requires Good(s) && Enabled(s, a)
    ensures Good(Step(s, a))
  {
    if a.Arrive? || a.ArriveNoise? || a.ArriveEnd? { ArriveGood(s, a); }
    else if a.IdleHead? { IdleHeadGood(s); }
    else if a.IdleTake? { IdleTakeGood(s); }
    else if a.TurnHead? && CurrentTurn(s.tasks).at.Exit? { TurnExitGood(s); }
    else if a.TurnHead? { TurnHeadGood(s); }
    else if a.TurnTake? { TurnTakeGood(s); }
    else if a.Raises? { RaiseGood(s); }
    else { TaskGood(s, a); }
  }

  // ---------------------------------------------------------------- audit of the history

  /** A turn of `rid` has dispatched an Error or a TurnComplete. */
  ghost predicate TerminalSeen(m: Mail, rid: string) {
    exists i :: 0 <= i < |m.dispatched| && i < |m.turns| && m.turns[i] == rid
                && (m.dispatched[i].kind.Failure? || m.dispatched[i].kind.Complete?)
  }

  /** What the reason of a drop claims is true. */
  ghost predicate Justified(t: Tasks, m: Mail, evt: Event, reason: Reason) {
    match reason
    case AbandonedId => evt.rid in m.aborted
    case OtherRequestHitl(turn) => evt.kind.Hitl? && evt.rid != "" && evt.rid != turn
    case NoIdWhileIdle => evt.rid == ""
    case PreludeTail(turn) =>
      evt.rid == turn
      && (TerminalSeen(m, turn) || turn in m.aborted || t.stuck == Some(turn)
          || (t.idle.Playing? && t.idle.turn.rid == turn && t.abort))
  }

  ghost predicate RightTurns(m: Mail) {
    |m.turns| == |m.dispatched|
    && forall i :: 0 <= i < |m.turns| ==> m.dispatched[i].rid == "" || m.dispatched[i].rid == m.turns[i]
  }

  ghost predicate DropsJustified(t: Tasks, m: Mail) {
    |m.reasons| == |m.dropped|
    && forall i :: 0 <= i < |m.reasons| ==> Justified(t, m, m.dropped[i], m.reasons[i])
  }

  /** What the current turn's position says about the history. */
  ghost predicate TurnHistory(t: Tasks, m: Mail) {
    HasTurn(t) ==>
      var turn := CurrentTurn(t);
      (turn.done || turn.at.InUsage? ==> TerminalSeen(m, turn.rid))
      && (turn.at.CancelWait? ==> turn.rid in m.aborted)
  }

  ghost predicate Audit(t: Tasks, m: Mail) {
    && RightTurns(m)
    && DropsJustified(t, m)
    && TurnHistory(t, m)
    && (forall rid :: rid in m.abandoned ==> rid in m.aborted)
  }

  lemma {:induction false} TerminalKept(m: Mail, m': Mail, rid: string)
    requires TerminalSeen(m, rid) && RightTurns(m)
    requires m.dispatched <= m'.dispatched && m.turns <= m'.turns
    ensures TerminalSeen(m', rid)
  {
    var i :| 0 <= i < |m.dispatched| && i < |m.turns| && m.turns[i] == rid
             && (m.dispatched[i].kind.Failure? || m.dispatched[i].kind.Complete?);
    assert m'.dispatched[i] == m.dispatched[i] && m'.turns[i] == rid;
  }

  /** A justification survives while history only grows and an aborting idle turn is not forgotten. */
  lemma {:induction false} JustifiedKept(t: Tasks, m: Mail, t': Tasks, m': Mail, evt: Event, reason: Reason)
    requires Justified(t, m, evt, reason) && RightTurns(m)
    requires m.dispatched <= m'.dispatched && m.turns <= m'.turns
    requires forall rid :: rid in m.aborted ==> rid in m'.aborted
    requires t.stuck.Some? ==> t'.stuck == t.stuck
    requires t.idle.Playing? && t.abort ==>
      var rid := t.idle.turn.rid;
      TerminalSeen(m', rid) || rid in m'.aborted || t'.stuck == Some(rid) || (t'.idle.Playing? && t'.idle.turn.rid == rid && t'.abort)
    ensures Justified(t', m', evt, reason)
  {
    if reason.PreludeTail? && TerminalSeen(m, reason.turn) {
      TerminalKept(m, m', reason.turn);
    }
  }

  /** One step keeps the drops justified if it appends only justified ones. */
  lemma {:induction false} DropsKept(t: Tasks, m: Mail, t': Tasks, m': Mail)
    requires RightTurns(m) && DropsJustified(t, m)
    requires m.dispatched <= m'.dispatched && m.turns <= m'.turns
    requires forall rid :: rid in m.aborted ==> rid in m'.aborted
    requires m.dropped <= m'.dropped && m.reasons <= m'.reasons && |m'.reasons| == |m'.dropped|
    requires forall i :: |m.reasons| <= i < |m'.reasons| ==> Justified(t', m', m'.dropped[i], m'.reasons[i])
    requires t.stuck.Some? ==> t'.stuck == t.stuck
    requires t.idle.Playing? && t.abort ==>
      var rid := t.idle.turn.rid;
      TerminalSeen(m', rid) || rid in m'.aborted || t'.stuck == Some(rid) || (t'.idle.Playing? && t'.idle.turn.rid == rid && t'.abort)
    ensures DropsJustified(t', m')
  {
    forall i | 0 <= i < |m'.reasons| ensures Justified(t', m', m'.dropped[i], m'.reasons[i]) {
      if i < |m.reasons| {
        JustifiedKept(t, m, t', m', m.dropped[i], m.reasons[i]);
      }
    }
  }

  /** One outcome of a turn: at most one dispatch, or drops that are justified. */
  lemma {:induction false} OutcomeAudit(t: Tasks, m: Mail, o: Outcome)
    requires Control(t) && HasTurn(t) && Audit(t, m)
    requires m.dropped <= o.mail.dropped && m.reasons <= o.mail.reasons && |o.mail.reasons| == |o.mail.dropped|
    requires o.mail.aborted == m.aborted && o.mail.abandoned == m.abandoned && !o.at.CancelWait?
    requires (o.mail.dispatched == m.dispatched && o.mail.turns == m.turns && !o.done && !o.at.InUsage?)
      || exists evt :: o.mail == Dispatched(m.(queue := o.mail.queue, prelude := o.mail.prelude), evt, CurrentTurn(t).rid)
           && (evt.rid == "" || evt.rid == CurrentTurn(t).rid)
           && (o.done || o.at.InUsage? ==> evt.kind.Failure? || evt.kind.Complete?)
    requires forall i :: |m.reasons| <= i < |o.mail.reasons| ==> Justified(t, m, o.mail.dropped[i], o.mail.reasons[i])
    ensures Audit(TurnStep(t, o).tasks, o.mail)
  {
    var turn := CurrentTurn(t);
    var t' := TurnStep(t, o).tasks;
    if turn.done {
      TerminalKept(m, o.mail, turn.rid);
    } else if o.done || o.at.InUsage? {
      assert o.mail.turns[|m.turns|] == turn.rid;
    }
    forall i | |m.reasons| <= i < |o.mail.reasons|
      ensures Justified(t', o.mail, o.mail.dropped[i], o.mail.reasons[i])
    {
      JustifiedKept(t, m, t', o.mail, o.mail.dropped[i], o.mail.reasons[i]);
    }
    DropsKept(t, m, t', o.mail);
  }

  lemma {:induction false} TurnTakeAudit(t: Tasks, m: Mail)
    requires Control(t) && HasTurn(t) && Audit(t, m) && m.queue != []
    ensures var o := TurnTakeMail(m, CurrentTurn(t).rid); Audit(TurnStep(t, o).tasks, o.mail)
  {
    var rid := CurrentTurn(t).rid;
    var o := TurnTakeMail(m, rid);
    if m.queue[0].Payload? {
      var evt := m.queue[0].evt;
      assert o.mail.dispatched != m.dispatched ==>
        o.mail == Dispatched(m.(queue := o.mail.queue, prelude := o.mail.prelude), evt, rid);
    }
    OutcomeAudit(t, m, o);
  }

  lemma {:induction false} TurnHeadAudit(t: Tasks, m: Mail)
    requires Control(t) && HasTurn(t) && Shape(t, m) && Audit(t, m)
    ensures var turn := CurrentTurn(t);
      var o := TurnHeadMail(m, turn.rid, turn.done || t.abort); Audit(TurnStep(t, o).tasks, o.mail)
  {
    var turn := CurrentTurn(t);
    var o := TurnHeadMail(m, turn.rid, turn.done || t.abort);
    if m.prelude != [] && !turn.done && !t.abort {
      assert o.mail == Dispatched(m.(queue := o.mail.queue, prelude := o.mail.prelude), m.prelude[0], turn.rid);
    }
    OutcomeAudit(t, m, o);
  }

  lemma {:induction false} ExitAudit(t: Tasks, m: Mail)
    requires Control(t) && HasTurn(t) && Audit(t, m)
    ensures var s' := TurnExitStep(t, m); Audit(s'.tasks, s'.mail)
  {
    var s' := TurnExitStep(t, m);
    DropsKept(t, m, s'.tasks, s'.mail);
  }

  lemma {:induction false} IdleHeadAudit(s: State)
    requires Control(s.tasks) && Audit(s.tasks, s.mail) && Enabled(s, IdleHead)
    ensures Audit(Step(s, IdleHead).tasks, Step(s, IdleHead).mail)
  {
    DropsKept(s.tasks, s.mail, Step(s, IdleHead).tasks, Step(s, IdleHead).mail);
  }

  lemma {:induction false} IdleTakeAudit(s: State)
    requires Control(s.tasks) && Audit(s.tasks, s.mail) && Enabled(s, IdleTake)
    ensures Audit(Step(s, IdleTake).tasks, Step(s, IdleTake).mail)
  {
    DropsKept(s.tasks, s.mail, Step(s, IdleTake).tasks, Step(s, IdleTake).mail);
  }

  lemma {:induction false} TaskAudit(s: State, a: Action)
    requires Control(s.tasks) && Audit(s.tasks, s.mail) && Enabled(s, a)
    requires !a.TurnHead? && !a.TurnTake? && !a.IdleHead? && !a.IdleTake? && !a.Raises?
    ensures Audit(Step(s, a).tasks, Step(s, a).mail)
  {
    DropsKept(s.tasks, s.mail, Step(s, a).tasks, Step(s, a).mail);
  }

  lemma {:induction false} RaiseAudit(s: State)
    requires Control(s.tasks) && Shape(s.tasks, s.mail) && Audit(s.tasks, s.mail) && Enabled(s, Raises)
    ensures Audit(Step(s, Raises).tasks, Step(s, Raises).mail)
  {
    DropsKept(s.tasks, s.mail, Step(s, Raises).tasks, Step(s, Raises).mail);
  }

  lemma {:induction false} StepAudit(s: State, a: Action)
    requires Control(s.tasks) && Shape(s.tasks, s.mail) && Audit(s.tasks, s.mail) && Enabled(s, a)
    ensures Audit(Step(s, a).tasks, Step(s, a).mail)
  {
    if a.TurnTake? { TurnTakeAudit(s.tasks, s.mail); }
    else if a.IdleHead? { IdleHeadAudit(s); }
    else if a.IdleTake? { IdleTakeAudit(s); }
    else if a.Raises? { RaiseAudit(s); }
    else if !a.TurnHead? { TaskAudit(s, a); }
    else if CurrentTurn(s.tasks).at.Exit? { ExitAudit(s.tasks, s.mail); }
    else { TurnHeadAudit(s.tasks, s.mail); }
  }

  // ---------------------------------------------------------------- every run

  lemma {:induction false} RunGood(s: State, acts: seq<Action>)
    requires Good(s) && Audit(s.tasks, s.mail) && Runs(s, acts)
    ensures Good(After(s, acts)) && Audit(After(s, acts).tasks, After(s, acts).mail)
    decreases |acts|
  {
    if acts != [] {
      var a := acts[0];
      StepGood(s, a);
      StepAudit(s, a);
      RunGood(Step(s, a), acts[1..]);
    }
  }

  lemma {:induction false} Reached(acts: seq<Action>)
    requires Runs(Initial, acts)
    ensures Good(After(Initial, acts)) && Audit(After(Initial, acts).tasks, After(Initial, acts).mail)
  {
    RunGood(Initial, acts);
  }

  /** The tasks that take payloads off the queue. */
  datatype Consumer = ByUser | ByIdle

  function Consumers(t: Tasks): set<Consumer> {
    (if t.submit.UserTurn? then {ByUser} else {})
    + (if t.idle.Watching? || t.idle.Polling? || t.idle.Playing? then {ByIdle} else {})
  }

  /** In every run at most one task consumes the queue; a request is active exactly while its
      reply is being posted or its turn runs, or for good once an exception has ended either; the
      watcher never puts a payload back; and the second busy check of `submit` never fires. */
  lemma {:induction false} MutualExclusion(acts: seq<Action>)
    requires Runs(Initial, acts)
    ensures var s := After(Initial, acts);
      && |Consumers(s.tasks)| <= 1
      && (forall rid :: s.tasks.active == Some(rid) <==>
            s.tasks.submit == Posting(rid)
            || (s.tasks.submit.UserTurn? && s.tasks.submit.turn.rid == rid)
            || (s.tasks.idle.Playing? && s.tasks.idle.turn.rid == rid)
            || s.tasks.stuck == Some(rid))
      && (s.tasks.stuck.Some? ==> Raises in acts && Consumers(s.tasks) == {})
      && s.mail.putBacks == 0
      && s.tasks.lateBusy == 0
  {
    Reached(acts);
    if Raises !in acts {
      NothingRaised(Initial, acts);
    }
    GoodExcludes(After(Initial, acts));
  }

  lemma {:induction false} GoodExcludes(s: State)
    requires Good(s)
    ensures |Consumers(s.tasks)| <= 1 && (s.tasks.stuck.Some? ==> Consumers(s.tasks) == {})
    ensures forall rid :: s.tasks.active == Some(rid) <==>
      s.tasks.submit == Posting(rid)
      || (s.tasks.submit.UserTurn? && s.tasks.submit.turn.rid == rid)
      || (s.tasks.idle.Playing? && s.tasks.idle.turn.rid == rid)
      || s.tasks.stuck == Some(rid)
  {
  }

  lemma {:induction false} NothingRaised(s: State, acts: seq<Action>)
    requires Good(s) && Runs(s, acts) && Raises !in acts
    ensures After(s, acts).tasks.stuck == s.tasks.stuck
    decreases |acts|
  {
    if acts != [] {
      assert acts[0] in acts;
      StepGood(s, acts[0]);
      ControlKept(s, acts[0]);
      NothingRaised(Step(s, acts[0]), acts[1..]);
    }
  }

  /** Once an exception has ended a turn or a posting, the session stays busy with that request
      whatever is done: events only pile up on the queue, and every `submit` is refused. */
  lemma {:induction false} StuckForGood(acts: seq<Action>, more: seq<Action>)
    requires Runs(Initial, acts) && After(Initial, acts).tasks.stuck.Some? && Runs(After(Initial, acts), more)
    ensures var s, s' := After(Initial, acts), After(After(Initial, acts), more);
      && s'.tasks == s.tasks.(abort := s'.tasks.abort)
      && s.mail.queue <= s'.mail.queue
      && s'.mail == s.mail.(queue := s'.mail.queue, arrived := s'.mail.arrived)
  {
    Reached(acts);
    StuckRun(After(Initial, acts), more);
  }

  lemma {:induction false} StuckStep(s: State, a: Action)
    requires Control(s.tasks) && s.tasks.stuck.Some? && Enabled(s, a)
    ensures var s' := Step(s, a);
      && s'.tasks == s.tasks.(abort := s'.tasks.abort)
      && s.mail.queue <= s'.mail.queue
      && s'.mail == s.mail.(queue := s'.mail.queue, arrived := s'.mail.arrived)
  {
  }

  lemma {:induction false} StuckRun(s: State, acts: seq<Action>)
    requires Control(s.tasks) && s.tasks.stuck.Some? && Runs(s, acts)
    ensures var s' := After(s, acts);
      && s'.tasks == s.tasks.(abort := s'.tasks.abort)
      && s.mail.queue <= s'.mail.queue
      && s'.mail == s.mail.(queue := s'.mail.queue, arrived := s'.mail.arrived)
    decreases |acts|
  {
    if acts != [] {
      StuckStep(s, acts[0]);
      StuckRun(Step(s, acts[0]), acts[1..]);
    }
  }

  /** Every arrival is in one place, and the queue is the tail of the arrivals. */
  ghost predicate Accounted(m: Mail) {
    && multiset(m.arrived) == multiset(QueueEvents(m.queue)) + multiset(m.deferred) + multiset(m.prelude)
                              + multiset(m.dispatched) + multiset(m.dropped)
    && |QueueEvents(m.queue)| <= |m.arrived|
    && QueueEvents(m.queue) == m.arrived[|m.arrived| - |QueueEvents(m.queue)|..]
  }

  /** In every run every arrival is accounted for exactly once: still queued, deferred,
      waiting in a prelude, dispatched, or dropped for a reason that holds. */
  lemma {:induction false} EventsConserved(acts: seq<Action>)
    requires Runs(Initial, acts)
    ensures Accounted(After(Initial, acts).mail)
    ensures DropsJustified(After(Initial, acts).tasks, After(Initial, acts).mail)
  {
    Reached(acts);
    GoodConserves(After(Initial, acts));
    AuditJustifies(After(Initial, acts));
  }

  lemma {:induction false} AuditJustifies(s: State)
    requires Audit(s.tasks, s.mail)
    ensures DropsJustified(s.tasks, s.mail)
  {
  }

  lemma {:induction false} GoodConserves(s: State)
    requires Good(s)
    ensures Accounted(s.mail)
  {
    AllAccounted(FlowOf(s.mail));
  }

  /** In every run an event is dispatched only in a turn of its own request (or carries no
      request id), and the events of one request are dispatched in arrival order. */
  lemma {:induction false} DispatchedInOrder(acts: seq<Action>)
    requires Runs(Initial, acts)
    ensures var m := After(Initial, acts).mail;
      && |m.turns| == |m.dispatched|
      && (forall i :: 0 <= i < |m.dispatched| ==>
            (m.dispatched[i].rid == "" || m.dispatched[i].rid == m.turns[i])
            && m.dispatched[i].number < |m.arrived| && m.arrived[m.dispatched[i].number] == m.dispatched[i])
      && (forall i, j :: 0 <= i < j < |m.dispatched| && m.dispatched[i].rid == m.dispatched[j].rid ==>
            m.dispatched[i].number < m.dispatched[j].number)
  {
    Reached(acts);
    GoodOrders(After(Initial, acts).mail);
  }

  lemma {:induction false} GoodOrders(m: Mail)
    requires FlowOk(FlowOf(m))
    ensures forall i :: 0 <= i < |m.dispatched| ==>
      m.dispatched[i].number < |m.arrived| && m.arrived[m.dispatched[i].number] == m.dispatched[i]
    ensures forall i, j :: 0 <= i < j < |m.dispatched| && m.dispatched[i].rid == m.dispatched[j].rid ==>
      m.dispatched[i].number < m.dispatched[j].number
  {
    forall i | 0 <= i < |m.dispatched|
      ensures m.dispatched[i].number < |m.arrived| && m.arrived[m.dispatched[i].number] == m.dispatched[i]
    {
      TakenIsOlder(FlowOf(m), m.dispatched[i]);
    }
    forall i, j | 0 <= i < j < |m.dispatched| && m.dispatched[i].rid == m.dispatched[j].rid
      ensures m.dispatched[i].number < m.dispatched[j].number
    {
      InOrderAt(m.dispatched, i, j);
    }
  }

  // ---------------------------------------------------------------- one run

  lemma {:induction false} OneMore(s: State, acts: seq<Action>, a: Action)
    requires Runs(s, acts) && Enabled(After(s, acts), a)
    ensures Runs(s, acts + [a]) && After(s, acts + [a]) == Step(After(s, acts), a)
    decreases |acts|
  {
    if acts == [] {
      assert acts + [a] == [a] && [a][1..] == [];
    } else {
      assert (acts + [a])[1..] == acts[1..] + [a];
      OneMore(Step(s, acts[0]), acts[1..], a);
    }
  }

  /** The run `acts` and where it leads. */
  ghost predicate LeadsTo(acts: seq<Action>, s: State) {
    Runs(Initial, acts) && After(Initial, acts) == s
  }

  lemma {:induction false} Then(acts: seq<Action>, s: State, a: Action) returns (acts': seq<Action>, s': State)
    requires LeadsTo(acts, s) && Enabled(s, a)
    ensures LeadsTo(acts', s') && s' == Step(s, a)
  {
    OneMore(Initial, acts, a);
    acts', s' := acts + [a], Step(s, a);
  }

  const Wake := Event(0, "wake", Plain)
  const UserDone := Event(1, "user", Complete)

  function InUserTurn(at: TurnPoint, done: bool): Tasks {
    Tasks(Some("user"), false, UserTurn(Turn("user", at, done)), Absent, false, 0, None, false)
  }

  lemma {:induction false} UserTurnStarts() returns (acts: seq<Action>)
    ensures LeadsTo(acts, State(InUserTurn(Top, false), Initial.mail))
  {
    var s;
    acts, s := [], Initial;
    acts, s := Then(acts, s, SubmitBegin("user"));
    acts, s := Then(acts, s, IdleCancelled);
    acts, s := Then(acts, s, SubmitResume);
    acts, s := Then(acts, s, PostAccepted);
  }

  /** And it happens: an exception while the user's turn runs. */
  lemma {:induction false} StuckHappens() returns (acts: seq<Action>)
    ensures Runs(Initial, acts) && After(Initial, acts).tasks.stuck == Some("user")
  {
    acts := UserTurnStarts();
    var s := After(Initial, acts);
    acts, s := Then(acts, s, Raises);
  }

  lemma {:induction false} EventsWait() returns (acts: seq<Action>)
    ensures LeadsTo(acts, State(InUserTurn(Dequeue, false),
      Mail([Payload(Wake), Payload(UserDone)], [], [], [], [Wake, UserDone], [], [], [], [], [], 0, false, 0)))
  {
    acts := UserTurnStarts();
    var s := After(Initial, acts);
    acts, s := Then(acts, s, Arrive("wake", Plain));
    acts, s := Then(acts, s, Arrive("user", Complete));
    acts, s := Then(acts, s, TurnHead);
  }

  lemma {:induction false} WakeIsDeferred() returns (acts: seq<Action>)
    ensures LeadsTo(acts, State(InUserTurn(Dequeue, false),
      Mail([Payload(UserDone)], [], [Wake], [], [Wake, UserDone], [], [], [], [], [], 0, false, 0)))
  {
    acts := EventsWait();
    var s := After(Initial, acts);
    assert "wake"[0] != "user"[0];
    acts, s := Then(acts, s, TurnTake);
    assert s.mail.queue == [Payload(UserDone)] && s.mail.deferred == [Wake];
    acts, s := Then(acts, s, TurnHead);
  }

  lemma {:induction false} UserTurnCompletes() returns (acts: seq<Action>)
    ensures LeadsTo(acts, State(InUserTurn(Top, true),
      Mail([], [], [Wake], [], [Wake, UserDone], [UserDone], ["user"], [], [], [], 0, false, 0)))
  {
    acts := WakeIsDeferred();
    var s := After(Initial, acts);
    acts, s := Then(acts, s, TurnTake);
    assert s.mail.queue == [] && s.mail.dispatched == [UserDone] && s.mail.turns == ["user"];
    acts, s := Then(acts, s, UsageReturns);
  }

  lemma {:induction false} UserTurnEnds() returns (acts: seq<Action>)
    ensures LeadsTo(acts, State(Tasks(None, false, NoSubmit, Watching, false, 0, None, false),
      Mail([], [], [Wake], [], [Wake, UserDone], [UserDone], ["user"], [], [], [], 0, false, 0)))
  {
    acts := UserTurnCompletes();
    var s := After(Initial, acts);
    acts, s := Then(acts, s, TurnHead);
    acts, s := Then(acts, s, TurnHead);
  }

  /** There are such runs: a user turn during which another request speaks.  Its event arrives
      first, waits while the user's turn runs, and is shown in a turn of its own that the watcher
      starts. */
  lemma {:induction false} WakeDuringTurn() returns (acts: seq<Action>)
    ensures Runs(Initial, acts)
    ensures var m := After(Initial, acts).mail;
      m.arrived == [Wake, UserDone] && m.dispatched == [UserDone, Wake] && m.turns == ["user", "wake"]
  {
    acts := UserTurnEnds();
    var s := After(Initial, acts);
    acts, s := Then(acts, s, IdleHead);
    assert [Wake][1..] == [] && s.mail.prelude == [Wake];
    acts, s := Then(acts, s, TurnHead);
  }
}
