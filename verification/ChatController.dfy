/** `ChatSessionController` as an object: each method performs, on the controller's fields, the code
    between two awaits, and is one step of the transition system in ChatSession. */
module ChatController {
  import opened Common
  import opened ChatSession
  import opened ChatTurns

  class Controller {
    var eventQueue: seq<Item>
    var deferred: seq<Event>
    var abandoned: seq<string>
    var activeRequestId: Option<string>
    var turnAbort: bool
    var idleTask: Idle
    var cancelling: bool
    var submitTask: Submit
    var prelude: seq<Event>
    /** Numbers the events; the source tells them apart by identity. */
    var arrivals: nat
    /** History; only its history fields matter. */
    ghost var past: Mail
    ghost var lateBusy: nat
    ghost var stuck: Option<string>
    ghost var resigned: bool

    ghost function Mails(): Mail reads this {
      past.(queue := eventQueue, prelude := prelude, deferred := deferred, abandoned := abandoned)
    }

    ghost function Tasking(): Tasks reads this {
      Tasks(activeRequestId, turnAbort, submitTask, idleTask, cancelling, lateBusy, stuck, resigned)
    }

    ghost function Now(): State reads this {
      State(Tasking(), Mails())
    }

    ghost predicate Valid() reads this {
      Good(Now()) && Audit(Tasking(), Mails()) && Progress(Tasking(), Mails()) && arrivals == |past.arrived|
    }

    constructor ()
      ensures Valid() && Now() == Initial
    {
      eventQueue, deferred, abandoned, prelude := [], [], [], [];
      activeRequestId, turnAbort := None, false;
      idleTask, cancelling, submitTask := Watching, false, NoSubmit;
      past, lateBusy, stuck, resigned, arrivals := Initial.mail, 0, None, false, 0;
      new;
      assert Runs(Initial, []);
      Reached([]);
    }

    // -------------------------------------------------------------- events

    /** `_dispatch_turn_event` up to its first await. */
    method DispatchTurnEvent(evt: Event, requestId: string) returns (at: TurnPoint, done: bool)
      modifies this`deferred, this`past
      ensures Mails() == DispatchEvent(old(Mails()), requestId, evt).mail
      ensures at == DispatchEvent(old(Mails()), requestId, evt).at && done == DispatchEvent(old(Mails()), requestId, evt).done
    {
      at, done := Top, false;
      if evt.kind.Hitl? {
        if evt.rid != "" && evt.rid != requestId {
          past := Dropped(past, evt, OtherRequestHitl(requestId));
          return;
        }
        past := Dispatched(past, evt, requestId);
        return InHitl, false;
      }
      if evt.rid != "" && evt.rid != requestId {
        if evt.rid !in abandoned {
          deferred := deferred + [evt];
        } else {
          past := Dropped(past, evt, AbandonedId);
        }
        return;
      }
      past := Dispatched(past, evt, requestId);
      if evt.kind.Failure? {
        done := true;
      } else if evt.kind.Complete? {
        at := InUsage;
      }
    }

    /** One pass of the loop of `_play_deferred`: drop the first deferred event, or start a turn with
        all the deferred events of its request. */
    method PlayDeferred()
      requires activeRequestId.None? && deferred != []
      modifies this
      ensures arrivals == old(arrivals)
      ensures Now() == IdleHeadStep(old(Tasking()), old(Mails()))
    {
      var first := deferred[0];
      deferred := deferred[1..];
      if first.rid == "" {
        past := Dropped(past, first, NoIdWhileIdle);
      } else if first.rid in abandoned {
        past := Dropped(past, first, AbandonedId);
      } else {
        StartTurn(first);
      }
    }

    /** Start the turn of a request that spoke first with `first`. */
    method StartTurn(first: Event)
      modifies this`deferred, this`prelude, this`activeRequestId, this`turnAbort, this`idleTask, this`past
      ensures prelude == [first] + OfRequest(old(deferred), first.rid) && deferred == NotOfRequest(old(deferred), first.rid)
      ensures activeRequestId == Some(first.rid) && !turnAbort && idleTask == Playing(Turn(first.rid, Top, false))
      ensures past == NewTurn(old(past))
    {
      var batch, rest := SplitDeferred(first);
      deferred, prelude := rest, batch;
      activeRequestId, turnAbort := Some(first.rid), false;
      idleTask := Playing(Turn(first.rid, Top, false));
      past := NewTurn(past);
    }

    method SplitDeferred(first: Event) returns (batch: seq<Event>, rest: seq<Event>)
      ensures batch == [first] + OfRequest(deferred, first.rid) && rest == NotOfRequest(deferred, first.rid)
    {
      batch, rest := [first], [];
      for i := 0 to |deferred|
        invariant batch == [first] + OfRequest(deferred[..i], first.rid) && rest == NotOfRequest(deferred[..i], first.rid)
      {
        assert deferred[..i + 1] == deferred[..i] + [deferred[i]];
        SplitSnoc(deferred[..i], deferred[i], first.rid);
        if deferred[i].rid == first.rid {
          batch := batch + [deferred[i]];
        } else {
          rest := rest + [deferred[i]];
        }
      }
      assert deferred[..|deferred|] == deferred;
    }

    /** The head of the loop of `_watch_idle`. */
    method WatchIdle()
      modifies this
      ensures arrivals == old(arrivals)
      ensures Now() == IdleHeadStep(old(Tasking()), old(Mails()))
    {
      if activeRequestId.Some? {
        idleTask := Finished;
      } else if deferred != [] {
        PlayDeferred();
      } else {
        idleTask := Polling;
      }
    }

    /** `_watch_idle` with the payload it waited for. */
    method WatchPayload()
      requires eventQueue != []
      modifies this
      ensures arrivals == old(arrivals)
      ensures Now() == IdleTakeStep(old(Tasking()), old(Mails()))
    {
      var payload := eventQueue[0];
      eventQueue := eventQueue[1..];
      if payload.StreamEnd? {
        idleTask, resigned := Finished, true;
        return;
      }
      if activeRequestId.Some? {
        eventQueue := eventQueue + [payload];
        past := past.(putBacks := past.putBacks + 1);
        idleTask := Finished;
        return;
      }
      idleTask := Watching;
      if payload.Payload? {
        var evt := payload.evt;
        if evt.rid == "" {
          past := Dropped(past, evt, NoIdWhileIdle);
        } else if evt.rid in abandoned {
          past := Dropped(past, evt, AbandonedId);
        } else {
          deferred := deferred + [evt];
        }
      }
    }

    // -------------------------------------------------------------- turns

    method MoveTurn(at: TurnPoint, done: bool)
      requires HasTurn(Tasking())
      modifies this`submitTask, this`idleTask
      ensures Tasking() == SetTurn(old(Tasking()), at, done)
    {
      if submitTask.UserTurn? {
        submitTask := UserTurn(Turn(submitTask.turn.rid, at, done));
      } else {
        idleTask := Playing(Turn(idleTask.turn.rid, at, done));
      }
    }

    method RunningTurn() returns (turn: Turn)
      requires HasTurn(Tasking())
      ensures turn == CurrentTurn(Tasking())
    {
      turn := if submitTask.UserTurn? then submitTask.turn else idleTask.turn;
    }

    method StartIdleWatch()
      modifies this`idleTask, this`resigned
      ensures Tasking() == StartIdle(old(Tasking()))
    {
      if activeRequestId.Some? {
        return;
      }
      if idleTask.Absent? || idleTask.Finished? {
        idleTask, resigned := Watching, false;
      }
    }

    /** The last lines of `_run_turn`, and what its caller does next. */
    method EndTurn()
      requires HasTurn(Tasking())
      modifies this`activeRequestId, this`submitTask, this`idleTask, this`resigned
      ensures Tasking() == FinishTurn(old(Tasking()))
    {
      activeRequestId := None;
      if submitTask.UserTurn? {
        submitTask := NoSubmit;
        StartIdleWatch();
      } else {
        idleTask := Watching;
      }
    }

    /** The prelude loop and the head of the dequeue loop of `_run_turn`. */
    method TurnHeadStep()
      requires HasTurn(Tasking()) && !CurrentTurn(Tasking()).at.Exit?
      modifies this
      ensures arrivals == old(arrivals)
      ensures var t, m := old(Tasking()), old(Mails());
        Now() == TurnStep(t, TurnHeadMail(m, CurrentTurn(t).rid, CurrentTurn(t).done || t.abort))
    {
      var turn := RunningTurn();
      var stop := turn.done || turnAbort;
      if prelude == [] {
        MoveTurn(if stop then Exit else Dequeue, turn.done);
      } else if stop {
        LosePrelude(turn.rid);
        MoveTurn(Top, turn.done);
      } else {
        var evt := prelude[0];
        prelude := prelude[1..];
        var at, done := DispatchTurnEvent(evt, turn.rid);
        MoveTurn(at, turn.done || done);
      }
    }

    /** The body of the dequeue loop of `_run_turn`. */
    method TurnPayload()
      requires HasTurn(Tasking()) && eventQueue != []
      modifies this
      ensures arrivals == old(arrivals)
      ensures Now() == TurnStep(old(Tasking()), TurnTakeMail(old(Mails()), CurrentTurn(old(Tasking())).rid))
    {
      var turn := RunningTurn();
      var at, done := DequeuePayload(turn.rid);
      MoveTurn(at, turn.done || done);
    }

    method DequeuePayload(requestId: string) returns (at: TurnPoint, done: bool)
      requires eventQueue != []
      modifies this`eventQueue, this`deferred, this`past
      ensures Outcome(Mails(), at, done) == TurnTakeMail(old(Mails()), requestId)
    {
      var payload := eventQueue[0];
      eventQueue := eventQueue[1..];
      at, done := Top, false;
      if payload.StreamEnd? {
        past := past.(streamEnded := true);
        at := Exit;
      } else if payload.Payload? {
        var evt := payload.evt;
        if evt.rid != "" && evt.rid in abandoned {
          past := Dropped(past, evt, AbandonedId);
        } else {
          at, done := DispatchTurnEvent(evt, requestId);
        }
      }
    }

    /** After the loops of `_run_turn`: an aborted turn is abandoned, any other ends. */
    method TurnEnds()
      requires HasTurn(Tasking())
      modifies this
      ensures arrivals == old(arrivals)
      ensures Now() == TurnExitStep(old(Tasking()), old(Mails()))
    {
      var turn := RunningTurn();
      if turnAbort && !turn.done {
        if |abandoned| >= AbandonedMax {
          abandoned := abandoned[|abandoned| + 1 - AbandonedMax..];
        }
        abandoned := abandoned + [turn.rid];
        past := past.(aborted := past.aborted + [turn.rid]);
        MoveTurn(CancelWait, turn.done);
      } else {
        EndTurn();
      }
    }

    /** An exception escapes the posting, the turn or the watcher. */
    method Raise()
      requires CanRaise(Tasking())
      modifies this
      ensures arrivals == old(arrivals)
      ensures Now() == RaiseStep(old(Tasking()), old(Mails()))
    {
      if submitTask.Posting? || HasTurn(Tasking()) {
        stuck := activeRequestId;
      } else {
        resigned := true;
      }
      if idleTask.Playing? {
        LosePrelude(idleTask.turn.rid);
      }
      if !submitTask.Posting? && !submitTask.UserTurn? {
        idleTask, cancelling := Finished, false;
      }
      submitTask := NoSubmit;
    }

    method LosePrelude(requestId: string)
      modifies this`prelude, this`past
      ensures Mails() == DropPrelude(old(Mails()), requestId)
    {
      past := past.(dropped := past.dropped + prelude,
        reasons := past.reasons + seq(|prelude|, i => PreludeTail(requestId)));
      prelude := [];
    }

    // -------------------------------------------------------------- submit

    method Post(requestId: string)
      modifies this`activeRequestId, this`turnAbort, this`submitTask
      ensures Tasking() == StartPost(old(Tasking()), requestId)
    {
      activeRequestId, turnAbort := Some(requestId), false;
      submitTask := Posting(requestId);
    }

    /** `submit` up to its first await. */
    method Begin(requestId: string)
      modifies this
      ensures arrivals == old(arrivals)
      ensures Tasking() == SubmitBeginTasks(old(Tasking()), requestId) && Mails() == old(Mails())
    {
      if activeRequestId.Some? {
        return;
      }
      if idleTask.Absent? || idleTask.Finished? {
        idleTask := Absent;
        Post(requestId);
      } else {
        cancelling, submitTask := true, AwaitIdle(requestId);
      }
    }

    /** `submit` once the watcher has stopped. */
    method Resume()
      requires submitTask.AwaitIdle?
      modifies this
      ensures arrivals == old(arrivals)
      ensures Tasking() == SubmitResumeTasks(old(Tasking())) && Mails() == old(Mails())
    {
      idleTask, cancelling := Absent, false;
      if activeRequestId.Some? {
        submitTask := NoSubmit;
        lateBusy := lateBusy + 1;
        StartIdleWatch();
      } else {
        Post(submitTask.rid);
      }
    }

    // -------------------------------------------------------------- one step

    /** Whatever the scheduler chooses, the controller takes that step and stays valid. */
    method Advance(a: Action)
      requires Valid() && Enabled(Now(), a)
      modifies this
      ensures Now() == Step(old(Now()), a)
      ensures Valid()
    {
      StepGood(Now(), a);
      StepAudit(Now(), a);
      AuditTurns(Now());
      StepProgress(Now(), a);
      Take(a);
    }

    method Take(a: Action)
      requires Enabled(Now(), a) && arrivals == |past.arrived|
      modifies this
      ensures Now() == Step(old(Now()), a) && arrivals == |past.arrived|
    {
      if a.Arrive? || a.ArriveNoise? || a.ArriveEnd? {
        TakeArrival(a);
      } else if OfTurn(a) {
        TakeTurn(a);
      } else if a.Raises? {
        Raise();
      } else if a.SubmitBegin? || a.SubmitResume? || a.PostRefused? || a.PostAccepted? {
        TakeSubmit(a);
      } else {
        TakeOther(a);
      }
    }

    /** The pump puts something on the queue. */
    method TakeArrival(a: Action)
      requires (a.Arrive? || a.ArriveNoise? || a.ArriveEnd?) && Enabled(Now(), a) && arrivals == |past.arrived|
      modifies this
      ensures Now() == Step(old(Now()), a) && arrivals == |past.arrived|
    {
      match a {
        case Arrive(rid, kind) =>
          var evt := Event(arrivals, rid, kind);
          eventQueue, arrivals := eventQueue + [Payload(evt)], arrivals + 1;
          past := past.(arrived := past.arrived + [evt]);
        case ArriveNoise => eventQueue := eventQueue + [Noise];
        case ArriveEnd => eventQueue := eventQueue + [StreamEnd];
      }
    }

    /** The running turn moves on. */
    method TakeTurn(a: Action)
      requires a.TurnHead? || a.TurnTimeout? || a.TurnTake? || a.HitlReturns? || a.UsageReturns? || a.CancelSettles?
      requires Enabled(Now(), a)
      modifies this
      ensures arrivals == old(arrivals)
      ensures Now() == Step(old(Now()), a)
    {
      if a.TurnHead? {
        HeadOrEnd();
      } else if a.TurnTake? {
        TurnPayload();
      } else if a.CancelSettles? {
        EndTurn();
      } else if a.HitlReturns? {
        HitlReturned(a.aborts);
      } else if a.TurnTimeout? {
        TurnPolls();
      } else {
        MoveTurn(Top, true);
      }
    }

    method HeadOrEnd()
      requires Enabled(Now(), TurnHead)
      modifies this
      ensures arrivals == old(arrivals)
      ensures Now() == Step(old(Now()), TurnHead)
    {
      var turn := RunningTurn();
      if turn.at.Exit? {
        TurnEnds();
      } else {
        TurnHeadStep();
      }
    }

    /** A poll timed out. */
    method TurnPolls()
      requires Enabled(Now(), TurnTimeout)
      modifies this`submitTask, this`idleTask
      ensures Now() == Step(old(Now()), TurnTimeout)
    {
      var turn := RunningTurn();
      MoveTurn(Top, turn.done);
    }

    /** The HITL handler returned; answering may have aborted the turn. */
    method HitlReturned(aborts: bool)
      requires Enabled(Now(), HitlReturns(aborts))
      modifies this`turnAbort, this`submitTask, this`idleTask
      ensures Now() == Step(old(Now()), HitlReturns(aborts))
    {
      var turn := RunningTurn();
      turnAbort := turnAbort || aborts;
      MoveTurn(Top, turn.done);
    }

    /** `submit` moves on. */
    method TakeSubmit(a: Action)
      requires a.SubmitBegin? || a.SubmitResume? || a.PostRefused? || a.PostAccepted?
      requires Enabled(Now(), a)
      modifies this
      ensures arrivals == old(arrivals)
      ensures Now() == Step(old(Now()), a)
    {
      match a {
        case SubmitBegin(rid) => Begin(rid);
        case SubmitResume => Resume();
        case PostRefused =>
          activeRequestId, submitTask := None, NoSubmit;
          StartIdleWatch();
        case PostAccepted =>
          submitTask := UserTurn(Turn(submitTask.rid, Top, false));
          past := NewTurn(past);
      }
    }

    /** The watcher or an abort moves on. */
    method TakeOther(a: Action)
      requires a.AbortTurn? || a.IdleCancelled? || a.CancelSwallowed? || a.IdleHead? || a.IdleTimeout? || a.IdleTake?
      requires Enabled(Now(), a)
      modifies this
      ensures arrivals == old(arrivals)
      ensures Now() == Step(old(Now()), a)
    {
      match a {
        case AbortTurn => turnAbort := true;
        case IdleCancelled => idleTask := Finished;
        case CancelSwallowed => cancelling := false;
        case IdleHead => WatchIdle();
        case IdleTimeout => idleTask := Watching;
        case IdleTake => WatchPayload();
      }
    }
  }

  lemma {:induction false} SplitSnoc(evts: seq<Event>, e: Event, rid: string)
    ensures OfRequest(evts + [e], rid) == OfRequest(evts, rid) + (if e.rid == rid then [e] else [])
    ensures NotOfRequest(evts + [e], rid) == NotOfRequest(evts, rid) + (if e.rid == rid then [] else [e])
    decreases |evts|
  {
    if evts != [] {
      assert (evts + [e])[1..] == evts[1..] + [e];
      SplitSnoc(evts[1..], e, rid);
    }
  }
}
