/** How a turn of the chat controller goes and ends, read off the events it dispatched: an Error, or a
    TurnComplete once the usage is fetched, ends it; nothing is dispatched afterwards; and a turn ends
    for no other reason than these, an abort, the end of the stream, or an exception. */
module ChatTurns {
  import opened Common
  import opened ChatSession

  predicate Terminal(e: Event) {
    e.kind.Failure? || e.kind.Complete?
  }

  /** Dispatched since the last turn started. */
  predicate Spoke(m: Mail) {
    m.since < |m.dispatched|
  }

  function LastSaid(m: Mail): Event
    requires Spoke(m)
  {
    m.dispatched[|m.dispatched| - 1]
  }

  /** What was dispatched since the turn started belongs to it, and only the last of it is terminal. */
  ghost predicate Segment(turn: Turn, m: Mail) {
    && m.since <= |m.dispatched| == |m.turns|
    && (forall i :: m.since <= i < |m.turns| ==> m.turns[i] == turn.rid)
    && (forall i :: m.since <= i < |m.dispatched| - 1 ==> !Terminal(m.dispatched[i]))
  }

  /** Where the turn stands says what it dispatched last, and conversely. */
  ghost predicate Stands(turn: Turn, abort: bool, m: Mail) {
    && (turn.done || turn.at.InUsage? <==> Spoke(m) && Terminal(LastSaid(m)))
    && (turn.at.InUsage? ==> !turn.done && LastSaid(m).kind.Complete?)
    && (turn.at.InHitl? ==> !turn.done && Spoke(m) && LastSaid(m).kind.Hitl?)
    && (turn.done ==> turn.at.Top? || turn.at.Exit?)
    && (turn.at.Exit? ==> turn.done || abort || m.streamEnded)
    && (turn.at.CancelWait? ==> !turn.done && abort && m.aborted != [] && m.aborted[|m.aborted| - 1] == turn.rid)
    && (m.streamEnded ==> turn.at.Exit? || turn.at.CancelWait?)
  }

  /** The ids remembered as abandoned are the last ones that were. */
  function Newest(ids: seq<string>): seq<string> {
    if |ids| > AbandonedMax then ids[|ids| - AbandonedMax..] else ids
  }

  ghost predicate Progress(t: Tasks, m: Mail) {
    && (HasTurn(t) ==> Segment(CurrentTurn(t), m) && Stands(CurrentTurn(t), t.abort, m))
    && m.abandoned == Newest(m.aborted)
    && Watched(t, m)
  }

  /** While nothing is submitted and no request is active the watcher runs, unless it resigned; it waits
      for the queue only when nothing is deferred; and it plays no turn of an abandoned request. */
  ghost predicate Watched(t: Tasks, m: Mail) {
    && (t.active.None? && t.submit.NoSubmit? ==> t.idle.Watching? || t.idle.Polling? || t.resigned)
    && (t.idle.Polling? ==> m.deferred == [])
    && (t.idle.Playing? && !t.idle.turn.at.CancelWait? ==> t.idle.turn.rid !in m.abandoned)
  }

  // ---------------------------------------------------------------- every step

  lemma {:induction false} AbandonKeeps(m: Mail, rid: string)
    requires m.abandoned == Newest(m.aborted)
    ensures Abandon(m, rid).abandoned == Newest(Abandon(m, rid).aborted)
  {
  }

  /** Saying one event in a turn that is not done. */
  lemma {:induction false} SaidProgress(m: Mail, turn: Turn, evt: Event, abort: bool, at: TurnPoint)
    requires Segment(turn, m) && !(Spoke(m) && Terminal(LastSaid(m))) && !m.streamEnded
    requires at == (if evt.kind.Complete? then InUsage else if evt.kind.Hitl? then InHitl else Top)
    ensures var turn', m' := Turn(turn.rid, at, evt.kind.Failure?), Dispatched(m, evt, turn.rid);
      Segment(turn', m') && Stands(turn', abort, m')
  {
    var m' := Dispatched(m, evt, turn.rid);
    assert Spoke(m') && LastSaid(m') == evt;
    assert forall i :: m.since <= i < |m.dispatched| ==> m'.dispatched[i] == m.dispatched[i] && !Terminal(m.dispatched[i]);
  }

  /** Keeping silent. */
  lemma {:induction false} UnsaidProgress(m: Mail, m': Mail, turn: Turn, abort: bool)
    requires Segment(turn, m) && !(Spoke(m) && Terminal(LastSaid(m))) && !m.streamEnded
    requires m'.dispatched == m.dispatched && m'.turns == m.turns && m'.since == m.since && !m'.streamEnded
    ensures var turn' := Turn(turn.rid, Top, false); Segment(turn', m') && Stands(turn', abort, m')
  {
  }

  /** Dispatching one event in a turn that is not done. */
  lemma {:induction false} DispatchProgress(m: Mail, turn: Turn, evt: Event, abort: bool)
    requires Segment(turn, m) && !(Spoke(m) && Terminal(LastSaid(m))) && !m.streamEnded
    requires m.abandoned == Newest(m.aborted)
    ensures var o := DispatchEvent(m, turn.rid, evt);
      var turn' := Turn(turn.rid, o.at, o.done);
      Segment(turn', o.mail) && Stands(turn', abort, o.mail) && o.mail.abandoned == Newest(o.mail.aborted)
  {
    var o := DispatchEvent(m, turn.rid, evt);
    if evt.rid == "" || evt.rid == turn.rid {
      SaidProgress(m, turn, evt, abort, o.at);
    } else {
      UnsaidProgress(m, o.mail, turn, abort);
    }
  }

  /** The turn after an outcome. */
  function Moved(turn: Turn, o: Outcome): Turn {
    Turn(turn.rid, o.at, turn.done || o.done)
  }

  ghost predicate Going(turn: Turn, abort: bool, m: Mail) {
    Segment(turn, m) && Stands(turn, abort, m) && m.abandoned == Newest(m.aborted)
  }

  lemma {:induction false} OutcomeProgress(t: Tasks, o: Outcome)
    requires Control(t) && HasTurn(t) && Going(Moved(CurrentTurn(t), o), t.abort, o.mail)
    requires t.idle.Playing? ==> t.idle.turn.rid !in o.mail.abandoned
    ensures Progress(TurnStep(t, o).tasks, TurnStep(t, o).mail)
  {
  }

  lemma {:induction false} TakeGoes(m: Mail, turn: Turn, abort: bool)
    requires Going(turn, abort, m) && turn.at.Dequeue? && m.queue != []
    ensures var o := TurnTakeMail(m, turn.rid); Going(Moved(turn, o), abort, o.mail) && o.mail.abandoned == m.abandoned
  {
    if m.queue[0].Payload? {
      var evt := m.queue[0].evt;
      if !(evt.rid != "" && evt.rid in m.abandoned) {
        DispatchProgress(m.(queue := m.queue[1..]), turn, evt, abort);
      }
    }
  }

  lemma {:induction false} HeadGoes(m: Mail, turn: Turn, abort: bool)
    requires Going(turn, abort, m) && turn.at.Top?
    ensures var o := TurnHeadMail(m, turn.rid, turn.done || abort); Going(Moved(turn, o), abort, o.mail) && o.mail.abandoned == m.abandoned
  {
    if m.prelude != [] && !turn.done && !abort {
      DispatchProgress(m.(prelude := m.prelude[1..]), turn, m.prelude[0], abort);
    }
  }

  lemma {:induction false} ExitProgress(t: Tasks, m: Mail)
    requires Control(t) && HasTurn(t) && Progress(t, m) && CurrentTurn(t).at.Exit?
    ensures Progress(TurnExitStep(t, m).tasks, TurnExitStep(t, m).mail)
  {
    AbandonKeeps(m, CurrentTurn(t).rid);
  }

  lemma {:induction false} TurnTakeProgress(s: State)
    requires Control(s.tasks) && Progress(s.tasks, s.mail) && Enabled(s, TurnTake)
    ensures Progress(Step(s, TurnTake).tasks, Step(s, TurnTake).mail)
  {
    TakeGoes(s.mail, CurrentTurn(s.tasks), s.tasks.abort);
    OutcomeProgress(s.tasks, TurnTakeMail(s.mail, CurrentTurn(s.tasks).rid));
  }

  lemma {:induction false} TurnHeadProgress(s: State)
    requires Control(s.tasks) && Progress(s.tasks, s.mail) && Enabled(s, TurnHead)
    ensures Progress(Step(s, TurnHead).tasks, Step(s, TurnHead).mail)
  {
    var turn := CurrentTurn(s.tasks);
    if turn.at.Exit? {
      ExitProgress(s.tasks, s.mail);
    } else {
      HeadGoes(s.mail, turn, s.tasks.abort);
      OutcomeProgress(s.tasks, TurnHeadMail(s.mail, turn.rid, turn.done || s.tasks.abort));
    }
  }

  lemma {:induction false} MoveProgress(s: State, a: Action)
    requires Control(s.tasks) && Progress(s.tasks, s.mail) && Enabled(s, a) && OfTurn(a) && !a.TurnHead? && !a.TurnTake?
    ensures Progress(Step(s, a).tasks, Step(s, a).mail)
  {
  }

  lemma {:induction false} IdleHeadProgress(s: State)
    requires Control(s.tasks) && RightTurns(s.mail) && Progress(s.tasks, s.mail) && Enabled(s, IdleHead)
    ensures Progress(Step(s, IdleHead).tasks, Step(s, IdleHead).mail)
  {
  }

  /** Whoever else moves, no turn and nothing it has said changes. */
  lemma {:induction false} SameTurn(t: Tasks, m: Mail, t': Tasks, m': Mail)
    requires HasTurn(t') ==> HasTurn(t)
    requires HasTurn(t) && HasTurn(t') ==> CurrentTurn(t') == CurrentTurn(t) && (t.abort ==> t'.abort)
    requires m'.dispatched == m.dispatched && m'.turns == m.turns && m'.since == m.since && m'.streamEnded == m.streamEnded
    requires m'.aborted == m.aborted && m'.abandoned == m.abandoned && Watched(t', m') && Progress(t, m)
    ensures Progress(t', m')
  {
  }

  lemma {:induction false} SubmitProgress(s: State, a: Action)
    requires Control(s.tasks) && RightTurns(s.mail) && Progress(s.tasks, s.mail) && Enabled(s, a)
    requires a.SubmitBegin? || a.SubmitResume? || a.PostRefused? || a.PostAccepted?
    ensures Progress(Step(s, a).tasks, Step(s, a).mail)
  {
    if !a.PostAccepted? {
      SameTurn(s.tasks, s.mail, Step(s, a).tasks, Step(s, a).mail);
    }
  }

  lemma {:induction false} OtherProgress(s: State, a: Action)
    requires Control(s.tasks) && Progress(s.tasks, s.mail) && Enabled(s, a) && !OfTurn(a) && !a.IdleHead?
    requires !a.SubmitBegin? && !a.SubmitResume? && !a.PostRefused? && !a.PostAccepted?
    ensures Progress(Step(s, a).tasks, Step(s, a).mail)
  {
    SameTurn(s.tasks, s.mail, Step(s, a).tasks, Step(s, a).mail);
  }

  lemma {:induction false} StepProgress(s: State, a: Action)
    requires Control(s.tasks) && RightTurns(s.mail) && Progress(s.tasks, s.mail) && Enabled(s, a)
    ensures Progress(Step(s, a).tasks, Step(s, a).mail)
  {
    if a.TurnHead? {
      TurnHeadProgress(s);
    } else if a.TurnTake? {
      TurnTakeProgress(s);
    } else if OfTurn(a) {
      MoveProgress(s, a);
    } else if a.IdleHead? {
      IdleHeadProgress(s);
    } else if a.SubmitBegin? || a.SubmitResume? || a.PostRefused? || a.PostAccepted? {
      SubmitProgress(s, a);
    } else {
      OtherProgress(s, a);
    }
  }

  // ---------------------------------------------------------------- every run

  lemma {:induction false} RunProgress(s: State, acts: seq<Action>)
    requires Good(s) && Audit(s.tasks, s.mail) && Progress(s.tasks, s.mail) && Runs(s, acts)
    ensures Progress(After(s, acts).tasks, After(s, acts).mail)
    decreases |acts|
  {
    if acts != [] {
      StepGood(s, acts[0]);
      StepAudit(s, acts[0]);
      AuditTurns(s);
      StepProgress(s, acts[0]);
      RunProgress(Step(s, acts[0]), acts[1..]);
    }
  }

  lemma {:induction false} AuditTurns(s: State)
    requires Good(s) && Audit(s.tasks, s.mail)
    ensures Control(s.tasks) && RightTurns(s.mail)
  {
  }

  lemma {:induction false} Progressed(acts: seq<Action>)
    requires Runs(Initial, acts)
    ensures var s := After(Initial, acts); Progress(s.tasks, s.mail) && Control(s.tasks) && RightTurns(s.mail)
  {
    Reached(acts);
    AuditTurns(After(Initial, acts));
    assert Good(Initial) && Audit(Initial.tasks, Initial.mail) by {
      assert Runs(Initial, []);
      Reached([]);
    }
    RunProgress(Initial, acts);
  }

  /** In every run the current turn is done exactly when it has dispatched an Error, or a TurnComplete
      whose usage has been fetched, since it started; that event is the last it dispatched; and the ids
      remembered as abandoned are the newest ones. */
  lemma {:induction false} DoneExactly(acts: seq<Action>)
    requires Runs(Initial, acts)
    ensures var s := After(Initial, acts);
      && (HasTurn(s.tasks) ==>
          var turn, m := CurrentTurn(s.tasks), s.mail;
          && m.since <= |m.dispatched| == |m.turns|
          && (forall i :: m.since <= i < |m.turns| ==> m.turns[i] == turn.rid)
          && (turn.done <==> !turn.at.InUsage? && exists i :: m.since <= i < |m.dispatched| && Terminal(m.dispatched[i]))
          && (turn.at.InUsage? ==> Spoke(m) && LastSaid(m).kind.Complete?)
          && (forall i :: m.since <= i < |m.dispatched| && Terminal(m.dispatched[i]) ==> i == |m.dispatched| - 1))
      && s.mail.abandoned == Newest(s.mail.aborted)
  {
    Progressed(acts);
  }

  /** What the dispatch of an event does to its turn: a turn dispatches only while it is not done; an
      Error makes it done, a TurnComplete has it fetch the usage, a request to the user has it wait for
      the answer, and any other event has it go on. */
  ghost predicate Speaks(s: State, s': State, evt: Event) {
    && HasTurn(s.tasks) && HasTurn(s'.tasks)
    && s'.mail.dispatched == s.mail.dispatched + [evt]
    && s'.mail.turns == s.mail.turns + [CurrentTurn(s.tasks).rid]
    && (evt.rid == "" || evt.rid == CurrentTurn(s.tasks).rid)
    && !CurrentTurn(s.tasks).done
    && CurrentTurn(s'.tasks).rid == CurrentTurn(s.tasks).rid
    && (CurrentTurn(s'.tasks).done <==> evt.kind.Failure?)
    && CurrentTurn(s'.tasks).at == (if evt.kind.Complete? then InUsage else if evt.kind.Hitl? then InHitl else Top)
  }

  /** Nothing was dispatched, or one event. */
  ghost predicate Spoken(s: State, s': State) {
    s'.mail.dispatched == s.mail.dispatched || exists evt :: Speaks(s, s', evt)
  }

  lemma {:induction false} TakeSpeaks(s: State)
    requires Control(s.tasks) && Progress(s.tasks, s.mail) && Enabled(s, TurnTake)
    ensures Spoken(s, Step(s, TurnTake))
  {
    var s' := Step(s, TurnTake);
    if s'.mail.dispatched != s.mail.dispatched {
      assert Speaks(s, s', s.mail.queue[0].evt);
    }
  }

  lemma {:induction false} HeadSpeaks(s: State)
    requires Control(s.tasks) && Progress(s.tasks, s.mail) && Enabled(s, TurnHead)
    ensures Spoken(s, Step(s, TurnHead))
  {
    var s' := Step(s, TurnHead);
    if s'.mail.dispatched != s.mail.dispatched {
      assert Speaks(s, s', s.mail.prelude[0]);
    }
  }

  lemma {:induction false} StepSpeaks(s: State, a: Action)
    requires Control(s.tasks) && Progress(s.tasks, s.mail) && Enabled(s, a)
    ensures Spoken(s, Step(s, a))
  {
    if a.TurnTake? {
      TakeSpeaks(s);
    } else if a.TurnHead? {
      HeadSpeaks(s);
    }
  }

  /** What was dropped while a turn ran named a request. */
  ghost predicate Heard(s: State, s': State) {
    && s.mail.dropped <= s'.mail.dropped
    && (HasTurn(s.tasks) ==> forall i :: |s.mail.dropped| <= i < |s'.mail.dropped| ==> s'.mail.dropped[i].rid != "")
  }

  lemma {:induction false} LostBatch(s: State, a: Action)
    requires Control(s.tasks) && Shape(s.tasks, s.mail) && Enabled(s, a) && (a.TurnHead? || a.Raises?)
    ensures Heard(s, Step(s, a))
  {
    assert forall i :: 0 <= i < |s.mail.prelude| ==> s.mail.prelude[i] in s.mail.prelude;
  }

  lemma {:induction false} StepHears(s: State, a: Action)
    requires Control(s.tasks) && Shape(s.tasks, s.mail) && Enabled(s, a)
    ensures Heard(s, Step(s, a))
  {
    if a.TurnHead? || a.Raises? {
      LostBatch(s, a);
    }
  }

  lemma {:induction false} GoodShape(s: State)
    requires Good(s)
    ensures Shape(s.tasks, s.mail)
  {
  }

  /** In every run: each step dispatches nothing, or one event as `Speaks` says; and while a turn runs
      no event without request id is dropped. */
  lemma {:induction false} TurnsListen(acts: seq<Action>, a: Action)
    requires Runs(Initial, acts) && Enabled(After(Initial, acts), a)
    ensures Spoken(After(Initial, acts), Step(After(Initial, acts), a))
    ensures Heard(After(Initial, acts), Step(After(Initial, acts), a))
  {
    var s := After(Initial, acts);
    Reached(acts);
    GoodShape(s);
    Progressed(acts);
    StepSpeaks(s, a);
    StepHears(s, a);
  }

  /** Of an abandoned request nothing more is dispatched or deferred. */
  ghost predicate Shuns(s: State, s': State) {
    && (forall i :: |s.mail.dispatched| <= i < |s'.mail.dispatched| ==>
          s'.mail.dispatched[i].rid == "" || s'.mail.dispatched[i].rid !in s.mail.abandoned)
    && (forall e :: e in s'.mail.deferred && e !in s.mail.deferred ==> e.rid !in s.mail.abandoned)
  }

  lemma {:induction false} TakeShuns(s: State)
    requires Control(s.tasks) && Shape(s.tasks, s.mail) && Enabled(s, TurnTake)
    ensures Shuns(s, Step(s, TurnTake))
  {
  }

  lemma {:induction false} HeadShuns(s: State)
    requires Control(s.tasks) && Shape(s.tasks, s.mail) && Watched(s.tasks, s.mail) && Enabled(s, TurnHead)
    ensures Shuns(s, Step(s, TurnHead))
  {
    if s.mail.prelude != [] {
      assert s.mail.prelude[0] in s.mail.prelude;
    }
  }

  lemma {:induction false} IdleShuns(s: State, a: Action)
    requires Control(s.tasks) && Enabled(s, a) && (a.IdleHead? || a.IdleTake?)
    ensures Shuns(s, Step(s, a))
  {
    if a.IdleHead? && s.mail.deferred != [] {
      forall e ensures e in NotOfRequest(s.mail.deferred[1..], s.mail.deferred[0].rid) ==> e in s.mail.deferred {
        PartitionMember(s.mail.deferred[1..], s.mail.deferred[0].rid, e);
      }
    }
  }

  lemma {:induction false} StepShuns(s: State, a: Action)
    requires Control(s.tasks) && Shape(s.tasks, s.mail) && Watched(s.tasks, s.mail) && Enabled(s, a)
    ensures Shuns(s, Step(s, a))
  {
    if a.TurnTake? {
      TakeShuns(s);
    } else if a.TurnHead? {
      HeadShuns(s);
    } else if a.IdleHead? || a.IdleTake? {
      IdleShuns(s, a);
    }
  }

  /** What a step does to the abort flag: starting a request clears it, `abort_turn` and a refusing
      answer set it, and nothing else touches it. */
  ghost predicate Aborts(t: Tasks, a: Action, t': Tasks) {
    if t.active.None? && t'.active.Some? then !t'.abort
    else t'.abort == (t.abort || a.AbortTurn? || (a.HitlReturns? && a.aborts))
  }

  lemma {:induction false} StepAborts(s: State, a: Action)
    requires Control(s.tasks) && Enabled(s, a)
    ensures Aborts(s.tasks, a, Step(s, a).tasks)
  {
  }

  /** Who takes the end marker stops, and nobody else stops taking. */
  ghost predicate Ends(s: State, a: Action, t': Tasks) {
    && (a.TurnTake? && s.mail.queue != [] ==> HasTurn(t') && (s.mail.queue[0].StreamEnd? <==> CurrentTurn(t').at.Exit?))
    && (a.IdleTake? && s.mail.queue != [] ==> (s.mail.queue[0].StreamEnd? <==> t'.idle.Finished?))
  }

  lemma {:induction false} StepEnds(s: State, a: Action)
    requires Control(s.tasks) && Enabled(s, a)
    ensures Ends(s, a, Step(s, a).tasks)
  {
  }

  /** What becomes of a submit: refused while a request is active; otherwise posted, at once or when the
      watcher has stopped; and then a turn of its own, or nothing. */
  ghost predicate Submits(t: Tasks, a: Action, t': Tasks) {
    && (a.SubmitBegin? && t.active.Some? ==> t' == t)
    && (a.SubmitBegin? && t.active.None? ==>
          if t.idle.Watching? || t.idle.Polling? then t'.submit == AwaitIdle(a.rid) && t'.cancelling && t'.active.None?
          else t'.submit == Posting(a.rid) && t'.active == Some(a.rid))
    && (a.SubmitResume? && t.submit.AwaitIdle? ==> t'.submit == Posting(t.submit.rid) && t'.active == Some(t.submit.rid))
    && (a.PostAccepted? && t.submit.Posting? ==> t'.submit == UserTurn(Turn(t.submit.rid, Top, false)) && t'.active == t.active)
    && (a.PostRefused? ==> t'.submit == NoSubmit && t'.active.None?)
  }

  lemma {:induction false} StepSubmits(s: State, a: Action)
    requires Control(s.tasks) && Enabled(s, a)
    ensures Submits(s.tasks, a, Step(s, a).tasks)
  {
  }

  /** In every run: events of abandoned requests are neither dispatched nor deferred any more; the abort
      flag is what the aborts since the request started make it; the end marker, and nothing else on the
      queue, stops its taker; and a submit is refused iff a request is active. */
  lemma {:induction false} StepsObey(acts: seq<Action>, a: Action)
    requires Runs(Initial, acts) && Enabled(After(Initial, acts), a)
    ensures Shuns(After(Initial, acts), Step(After(Initial, acts), a))
    ensures Aborts(After(Initial, acts).tasks, a, Step(After(Initial, acts), a).tasks)
    ensures Ends(After(Initial, acts), a, Step(After(Initial, acts), a).tasks)
    ensures Submits(After(Initial, acts).tasks, a, Step(After(Initial, acts), a).tasks)
  {
    var s := After(Initial, acts);
    Reached(acts);
    GoodShape(s);
    Progressed(acts);
    StepShuns(s, a);
    StepAborts(s, a);
    StepEnds(s, a);
    StepSubmits(s, a);
  }

  /** In every run: while nothing is submitted and no request is active, the watcher runs, unless it took
      the end marker or an exception ended it; and it waits for the queue only when nothing is deferred,
      so no deferred event is left behind. */
  lemma {:induction false} WatcherRuns(acts: seq<Action>)
    requires Runs(Initial, acts)
    ensures var t, m := After(Initial, acts).tasks, After(Initial, acts).mail;
      && (t.active.None? && t.submit.NoSubmit? ==> t.idle.Watching? || t.idle.Polling? || t.resigned)
      && (t.idle.Polling? ==> m.deferred == [])
  {
    Progressed(acts);
  }

  /** In every run a turn ends only because it is done, because it was aborted, which its id is then
      remembered for, because the stream ended, or by an exception. */
  lemma {:induction false} TurnEndsBecause(acts: seq<Action>, a: Action)
    requires Runs(Initial, acts) && Enabled(After(Initial, acts), a)
    ensures var s, s' := After(Initial, acts), Step(After(Initial, acts), a);
      HasTurn(s.tasks) && !HasTurn(s'.tasks) && !a.Raises? ==>
        || CurrentTurn(s.tasks).done
        || (s.tasks.abort && s.mail.aborted != [] && s.mail.aborted[|s.mail.aborted| - 1] == CurrentTurn(s.tasks).rid)
        || (s.mail.streamEnded && !s.tasks.abort)
  {
    Progressed(acts);
  }

  /** The steps of the turn that remain once it has nothing more to read. */
  function Ending(s: State): seq<Action>
    requires HasTurn(s.tasks)
  {
    var at := CurrentTurn(s.tasks).at;
    var leave := if s.tasks.abort && !CurrentTurn(s.tasks).done then [TurnHead, CancelSettles] else [TurnHead];
    if at.CancelWait? then [CancelSettles]
    else if at.Exit? then leave
    else if s.mail.prelude == [] then [TurnHead] + leave
    else [TurnHead, TurnHead] + leave
  }

  /** In every run, a turn that is done, aborted or at its exit ends by its own next steps, at most four:
      they clear the active request and dispatch nothing. */
  lemma {:induction false} DoneTurnEnds(acts: seq<Action>)
    requires Runs(Initial, acts) && HasTurn(After(Initial, acts).tasks)
    requires var s := After(Initial, acts);
      var turn := CurrentTurn(s.tasks);
      turn.done || turn.at.Exit? || turn.at.CancelWait? || (turn.at.Top? && s.tasks.abort)
    ensures var s := After(Initial, acts);
      && |Ending(s)| <= 4 && Runs(s, Ending(s))
      && var s' := After(s, Ending(s));
        s'.tasks.active.None? && !HasTurn(s'.tasks) && s'.mail.dispatched == s.mail.dispatched
  {
    Progressed(acts);
    Reached(acts);
    var s := After(Initial, acts);
    var at := CurrentTurn(s.tasks).at;
    if at.CancelWait? {
      Settled(s);
    } else if at.Exit? {
      Leaves(s);
    } else if s.mail.prelude == [] {
      Stops(s);
    } else {
      LosesRest(s);
    }
  }

  lemma {:induction false} OneStep(s: State, a: Action, rest: seq<Action>)
    requires Enabled(s, a) && Runs(Step(s, a), rest)
    ensures Runs(s, [a] + rest) && After(s, [a] + rest) == After(Step(s, a), rest)
  {
    assert ([a] + rest)[1..] == rest;
  }

  lemma {:induction false} Settled(s: State)
    requires Control(s.tasks) && TurnAt(s.tasks, CancelWait)
    ensures Runs(s, [CancelSettles])
    ensures var s' := After(s, [CancelSettles]); s'.tasks.active.None? && !HasTurn(s'.tasks) && s'.mail == s.mail
  {
    OneStep(s, CancelSettles, []);
    assert [CancelSettles] + [] == [CancelSettles];
  }

  lemma {:induction false} Leaves(s: State)
    requires Control(s.tasks) && TurnAt(s.tasks, Exit)
    ensures Runs(s, Ending(s))
    ensures var s' := After(s, Ending(s)); s'.tasks.active.None? && !HasTurn(s'.tasks) && s'.mail.dispatched == s.mail.dispatched
  {
    var s1 := Step(s, TurnHead);
    if s.tasks.abort && !CurrentTurn(s.tasks).done {
      ControlKept(s, TurnHead);
      Settled(s1);
      OneStep(s, TurnHead, [CancelSettles]);
      assert [TurnHead] + [CancelSettles] == [TurnHead, CancelSettles];
    } else {
      OneStep(s, TurnHead, []);
      assert [TurnHead] + [] == [TurnHead];
    }
  }

  lemma {:induction false} Stops(s: State)
    requires Control(s.tasks) && TurnAt(s.tasks, Top) && s.mail.prelude == [] && (CurrentTurn(s.tasks).done || s.tasks.abort)
    ensures Runs(s, Ending(s))
    ensures var s' := After(s, Ending(s)); s'.tasks.active.None? && !HasTurn(s'.tasks) && s'.mail.dispatched == s.mail.dispatched
  {
    var s1 := Step(s, TurnHead);
    ControlKept(s, TurnHead);
    assert Ending(s) == [TurnHead] + Ending(s1);
    Leaves(s1);
    OneStep(s, TurnHead, Ending(s1));
  }

  lemma {:induction false} LosesRest(s: State)
    requires Control(s.tasks) && TurnAt(s.tasks, Top) && s.mail.prelude != [] && (CurrentTurn(s.tasks).done || s.tasks.abort)
    ensures Runs(s, Ending(s))
    ensures var s' := After(s, Ending(s)); s'.tasks.active.None? && !HasTurn(s'.tasks) && s'.mail.dispatched == s.mail.dispatched
  {
    var s1 := Step(s, TurnHead);
    ControlKept(s, TurnHead);
    assert Ending(s) == [TurnHead] + Ending(s1);
    Stops(s1);
    OneStep(s, TurnHead, Ending(s1));
  }
}
