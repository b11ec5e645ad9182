/**
  The encoder's methods (internal/encoder/encoder.go).

  Each is one region under its lock, or one step of a source loop, a teardown, a restart or a
  recording sync between two such regions; calling them in any order is any interleaving. Waiting is
  a precondition. An explicit Stop is counted by `generation`, whose wrap-around after 2^64 stops is
  not modelled.
 */
module EncoderLifecycle {
  import opened Tickets
  import opened EncoderStates

  class Lifecycle {
    var e: Encoder
    // The history, its length when each restart was asked for, and when one more was.
    ghost var history: seq<Entry>
    ghost var asked: seq<nat>
    ghost var askedAgain: nat

    ghost predicate Valid()
      reads this
    {
      Invariant(e) && Tells(e, history, asked, askedAgain)
    }

    // A new encoder takes over an outage an earlier process left open.
    constructor (outage: bool)
      ensures Valid() && e.state.Stopped? && e.events == [] && e.outage == e.outageBefore == outage
      ensures history == [] && asked == []
    {
      history, asked, askedAgain := [], [], 0;
      e := Encoder(Stopped, 0, false, [], 0, [], None, Idle, outage, outage, [], false, false, 0, None);
    }

    // start: an explicit one, or that of a restart.
    method Start(expected: Option<nat>, configured: bool) returns (started: bool)
      requires Valid()
      modifies `e, `history
      ensures Valid()
      ensures started <==> MayStart(old(e), expected, configured)
      ensures started ==> e == Begun(old(e))
      ensures history == old(history) + if started then [LoopBegan] else []
      ensures !started ==> e == old(e).(operatorStopped := old(e).operatorStopped && expected.Some?)
    {
      if expected.Some? && e.generation != expected.value {
        return false;
      }
      if expected.None? {
        ForgetStop();
      }
      if !configured || e.state != Stopped {
        return false;
      }
      BeginLoop();
      return true;
    }

    // An explicit start takes back an explicit Stop.
    method ForgetStop()
      requires Valid()
      modifies `e
      ensures Valid() && e == old(e).(operatorStopped := false)
    {
      e := e.(operatorStopped := false);
    }

    method BeginLoop()
      requires Valid() && e.state.Stopped?
      modifies `e, `history
      ensures Valid() && e == Begun(old(e)) && history == old(history) + [LoopBegan]
    {
      BegunKeepsInvariant(e, history, asked, askedAgain);
      e, history := Begun(e), history + [LoopBegan];
    }

    // stop: an explicit one counts and ends the recordings too; that of a restart gives way to it.
    method Stop(expected: Option<nat>) returns (halts: bool)
      requires Valid()
      modifies `e, `history
      ensures Valid() && history == old(history) + if expected.None? then [StopCame] else []
      ensures expected.None? ==>
                && e.generation == old(e).generation + 1 && e.operatorStopped && !e.recordingWanted && e.syncs > 0
                && (forall i | 0 <= i < |e.restarts| :: e.restarts[i].generation < e.generation)
                && (e.background.Busy? && e.background.again.Some? ==> e.background.again.value < e.generation)
                && IsStopping(e)
      ensures expected.Some? && expected.value != old(e).generation ==> e == old(e) && !halts
      ensures expected.Some? && expected.value == old(e).generation ==> IsStopping(e) && e == old(e).(state := e.state, loops := e.loops)
      ensures halts ==> (old(e).state.Running? || old(e).state.Starting?) && e.state.Stopping?
      ensures !halts ==> e.state == old(e).state && e.loops == old(e).loops
    {
      if expected.None? {
        CountedKeepsInvariant(e, history, asked, askedAgain);
        e, history := Counted(e), history + [StopCame];
      } else if e.generation != expected.value {
        return false;
      }
      if e.state == Stopped || e.state == Stopping {
        return false;
      }
      HaltedKeepsInvariant(e, history, asked, askedAgain);
      e := Halted(e);
      return true;
    }

    // The old loop is gone: only now may another start.
    method TeardownEnds()
      requires Valid() && e.state.Stopping? && Current(e).Finished?
      modifies `e
      ensures Valid() && e == old(e).(state := Stopped)
    {
      e := e.(state := Stopped);
    }

    // The source loop.

    method Move(l: Loop)
      requires Valid() && e.loops != [] && LastLoop(e.state, l, e.lastRun)
      requires PendingReport(l.stage) == PendingReport(Current(e)) && (l.stage.Finished? <==> Current(e).Finished?)
      modifies `e
      ensures Valid() && e == old(e).(loops := old(e).loops[|old(e).loops| - 1 := l])
    {
      LastLoopChanges(e.state, e.loops, e.lastRun, e.state, l, e.lastRun);
      e := e.(loops := e.loops[|e.loops| - 1 := l]);
    }

    // The loop returns.
    method Finish()
      requires Valid() && e.loops != [] && !Current(e).Finished? && IsStopping(e) && PendingReport(Current(e)) == []
      modifies `e, `history
      ensures Valid() && e == WithStage(old(e), Finished) && history == old(history) + [LoopEnded]
    {
      FinishKeepsInvariant(e);
      FinishIsTold(e, history, asked, askedAgain);
      e, history := WithStage(e, Finished), history + [LoopEnded];
    }

    // Before every attempt the loop looks for a shutdown.
    method CheckShutdown()
      requires Valid() && e.loops != [] && Current(e).Top?
      modifies `e, `history
      ensures Valid() && e == WithStage(old(e), if IsStopping(old(e)) then Finished else Reserving)
      ensures history == old(history) + if IsStopping(old(e)) then [LoopEnded] else []
    {
      if IsStopping(e) {
        Finish();
        return;
      }
      Move(e.loops[|e.loops| - 1].(stage := Reserving));
    }

    // reserveSource: a source that is opened can be cancelled from the first moment on.
    method Reserve()
      requires Valid() && e.loops != [] && Current(e).Reserving?
      modifies `e
      ensures Valid() && e == old(e).(loops := e.loops) && |e.loops| == |old(e).loops|
      ensures Current(e) == if IsStopping(old(e)) then Ended else Opening
    {
      var l := e.loops[|e.loops| - 1];
      Move(if IsStopping(e) then l.(stage := Ended) else l.(stage := Opening, cancelled := false));
    }

    // publishSource: unless a shutdown has begun, the source is the run the encoder is running.
    method Publish() returns (run: Option<nat>)
      requires Valid() && e.loops != [] && Current(e).Opening?
      modifies `e
      ensures Valid() && (run.Some? <==> !IsStopping(old(e)))
      ensures run.Some? ==> e == WithStage(old(e), Supervising(run.value)).(lastRun := run.value, state := Running) && run.value == old(e).lastRun + 1
      ensures run.None? ==> e == WithStage(old(e), Ended) && old(e).loops[|old(e).loops| - 1].cancelled
    {
      var l := e.loops[|e.loops| - 1];
      if IsStopping(e) {
        Move(l.(stage := Ended));
        return None;
      }
      var next := e.lastRun + 1;
      LastLoopChanges(e.state, e.loops, e.lastRun, Running, l.(stage := Supervising(next)), next);
      e := e.(lastRun := next, state := Running, loops := e.loops[|e.loops| - 1 := l.(stage := Supervising(next))]);
      return Some(next);
    }

    // The source cannot be opened, or exits.
    method SourceEnds()
      requires Valid() && e.loops != [] && (Current(e).Opening? || Current(e).Supervising?)
      modifies `e
      ensures Valid() && e == WithStage(old(e), Ended)
    {
      Move(e.loops[|e.loops| - 1].(stage := Ended));
    }

    // confirmInput: steady audio ends an outage, for the run that is running only.
    method ConfirmInput()
      requires Valid() && e.loops != [] && Current(e).Supervising?
      modifies `e
      ensures Valid()
      ensures e == if !old(e).state.Running? || !old(e).outage then old(e)
                   else WithStage(old(e), PendingRestored(old(e).lastRun)).(outage := false)
    {
      var l := e.loops[|e.loops| - 1];
      if e.lastRun != l.stage.run || e.state != Running || !e.outage {
        return;
      }
      ReportJoins(e.outageBefore, Reported(e.events, e.loops), InputRestored);
      LastLoopChanges(e.state, e.loops, e.lastRun, e.state, l.(stage := PendingRestored(l.stage.run)), e.lastRun);
      assert Reported(e.events, e.loops) == e.events;
      e := WithStage(e, PendingRestored(l.stage.run)).(outage := false);
    }

    method ReportRestored()
      requires Valid() && e.loops != [] && Current(e).PendingRestored?
      modifies `e
      ensures Valid() && e == WithStage(old(e), Supervising(old(e).lastRun)).(events := old(e).events + [InputRestored])
    {
      var run := Current(e).run;
      ReportKeepsInvariant(e, Supervising(run), InputRestored);
      e := WithStage(e, Supervising(run)).(events := e.events + [InputRestored]);
    }

    // The loop takes note of the end of its source: unless it is shutting down the input is lost,
    // which is news only if no outage is open.
    method RecordEnd()
      requires Valid() && e.loops != [] && Current(e).Ended?
      modifies `e, `history
      ensures Valid() && history == old(history) + if IsStopping(old(e)) then [LoopEnded] else []
      ensures IsStopping(old(e)) ==> e == WithStage(old(e), Finished)
      ensures !IsStopping(old(e)) ==>
                e == WithStage(old(e), if old(e).outage then Backoff else PendingLost).(outage := true, state := Starting)
    {
      var l := e.loops[|e.loops| - 1];
      if IsStopping(e) {
        Finish();
        return;
      }
      var next := if e.outage then Backoff else PendingLost;
      if !e.outage {
        ReportJoins(e.outageBefore, Reported(e.events, e.loops), InputLost);
      }
      assert Reported(e.events, e.loops) == e.events;
      LastLoopChanges(e.state, e.loops, e.lastRun, Starting, l.(stage := next), e.lastRun);
      e := WithStage(e, next).(outage := true, state := Starting);
    }

    method ReportLost()
      requires Valid() && e.loops != [] && Current(e).PendingLost?
      modifies `e
      ensures Valid() && e == WithStage(old(e), Backoff).(events := old(e).events + [InputLost])
    {
      ReportKeepsInvariant(e, Backoff, InputLost);
      e := WithStage(e, Backoff).(events := e.events + [InputLost]);
    }

    // The delay is over, or the stop signal came first.
    method BackoffEnds(signalled: bool)
      requires Valid() && e.loops != [] && Current(e).Backoff? && (signalled ==> e.loops[|e.loops| - 1].stopSignal)
      modifies `e, `history
      ensures Valid() && e == WithStage(old(e), if signalled then Finished else Top)
      ensures history == old(history) + if signalled then [LoopEnded] else []
    {
      if signalled {
        Finish();
        return;
      }
      Move(e.loops[|e.loops| - 1].(stage := Top));
    }

    // Restarts.

    // It remembers how many Stops had come when it was asked for.
    method AskRestart(generation: nat, background: bool, ghost date: nat) returns (restart: nat)
      requires Valid() && generation <= e.generation && Dated(generation, history, date)
      modifies `e, `asked
      ensures Valid() && restart == |old(e).restarts| && asked == old(asked) + [date]
      ensures e == WithRestart(old(e), generation).(background := if background then Busy(restart, None) else old(e).background)
    {
      restart := |e.restarts|;
      var next := if background then Busy(restart, None) else e.background;
      RestartJoins(e, history, asked, askedAgain, generation, date, next);
      e, asked := WithRestart(e, generation).(background := next), asked + [date];
    }

    // Restart: asked for now, so an explicit Stop from now on supersedes it.
    method RestartNow() returns (restart: nat)
      requires Valid()
      modifies `e, `asked
      ensures Valid() && restart == |old(e).restarts| && asked == old(asked) + [|history|]
      ensures e == WithRestart(old(e), old(e).generation)
    {
      assert history[..|history|] == history;
      restart := AskRestart(e.generation, false, |history|);
    }

    // RestartInBackground: not after an explicit Stop; requests made meanwhile collapse into one.
    method RestartInBackground()
      requires Valid()
      modifies `e, `asked, `askedAgain
      ensures Valid()
      ensures var refused := old(e).state.Stopping? || (old(e).state.Stopped? && old(e).operatorStopped);
        var collapses := !refused && old(e).background.Busy?;
        && e == (if refused then old(e) else if collapses then AskedAgain(old(e)) else AskedInBackground(old(e)))
        && asked == (if refused || collapses then old(asked) else old(asked) + [|history|])
        && askedAgain == if collapses then |history| else old(askedAgain)
    {
      var failedStop := e.state == Stopped && !e.operatorStopped;
      if e.state != Running && e.state != Starting && !failedStop {
        return;
      }
      assert history[..|history|] == history;
      if e.background.Busy? {
        RestartsChange(e, history, asked, askedAgain, AskedAgain(e), asked, |history|);
        e, askedAgain := AskedAgain(e), |history|;
        return;
      }
      var _ := AskRestart(e.generation, true, |history|);
    }

    // A restart has its turn and asks for the stop.
    method TakeTurn(i: nat)
      requires Valid() && i < |e.restarts| && e.restarts[i].stage.Queued? && e.gate.None?
      modifies `e, `history
      ensures Valid() && history == old(history) && e.gate == Some(i) && e.generation == old(e).generation
      ensures e.restarts == old(e).restarts[i := old(e).restarts[i].(stage := Waiting)]
      ensures old(e).restarts[i].generation != e.generation ==> e.state == old(e).state && e.loops == old(e).loops
      ensures old(e).restarts[i].generation == e.generation ==> IsStopping(e)
    {
      var generation := e.restarts[i].generation;
      TurnKeepsInvariant(e, history, asked, askedAgain, i);
      e := AtTurn(e, i);
      var _ := Stop(Some(generation));
    }

    // The restart goes on once the teardown is over, or gives up waiting. It brings the encoder up
    // only if no explicit Stop came since it was asked for.
    method FinishRestart(i: nat, timedOut: bool, configured: bool) returns (started: bool)
      requires Valid() && i < |e.restarts| && e.restarts[i].stage.Waiting?
      modifies `e, `history
      ensures Valid() && e.restarts == old(e).restarts[i := old(e).restarts[i].(stage := Over)] && e.gate.None?
      ensures e.generation == old(e).generation
      ensures history == old(history) + if started then [LoopBegan, RestartBegan(asked[i])] else []
      ensures started <==> !timedOut && configured && old(e).restarts[i].generation == e.generation && old(e).state.Stopped?
      ensures started ==> e.state.Starting? && e.recordingWanted && !e.operatorStopped
      ensures !started ==> e.state == old(e).state && e.loops == old(e).loops
    {
      EndTurn(i);
      if timedOut {
        return false;
      }
      started := StartAgain(i, configured);
    }

    method StartAgain(i: nat, configured: bool) returns (started: bool)
      requires Valid() && i < |e.restarts|
      modifies `e, `history
      ensures Valid() && e == if started then Begun(old(e)) else old(e)
      ensures started <==> configured && e.restarts[i].generation == e.generation && old(e).state.Stopped?
      ensures history == old(history) + if started then [LoopBegan, RestartBegan(asked[i])] else []
    {
      started := Start(Some(e.restarts[i].generation), configured);
      if started {
        RestartKeepsOrder(e, history, asked, askedAgain, i);
        history := history + [RestartBegan(asked[i])];
      }
    }

    method EndTurn(i: nat)
      requires Valid() && i < |e.restarts| && e.restarts[i].stage.Waiting?
      modifies `e
      ensures Valid() && e == TurnOver(old(e), i)
    {
      TurnKeepsInvariant(e, history, asked, askedAgain, i);
      e := TurnOver(e, i);
    }

    // restartUntilSettled: one more restart if one was asked for meanwhile, for that request.
    method SettleBackground()
      requires Valid() && e.background.Busy? && e.restarts[e.background.restart].stage.Over?
      modifies `e, `asked
      ensures Valid() && asked == old(asked) + if old(e).background.again.Some? then [askedAgain] else []
      ensures e == match old(e).background.again
                   case None => old(e).(background := Idle)
                   case Some(generation) => WithRestart(old(e), generation).(background := Busy(|old(e).restarts|, None))
    {
      if e.background.again.None? {
        RestartsChange(e, history, asked, askedAgain, e.(background := Idle), asked, askedAgain);
        e := e.(background := Idle);
      } else {
        var _ := AskRestart(e.background.again.value, true, askedAgain);
      }
    }

    // Recordings.

    // syncRecording, one call at a time: it reads the wish, then the recordings follow what it read.
    method ReadWish()
      requires Valid() && e.syncs > 0 && e.syncing.None?
      modifies `e
      ensures Valid() && e == old(e).(syncs := old(e).syncs - 1, syncing := Some(old(e).recordingWanted))
    {
      e := e.(syncs := e.syncs - 1, syncing := Some(e.recordingWanted));
    }

    method FollowWish()
      requires Valid() && e.syncing.Some?
      modifies `e
      ensures Valid() && e == old(e).(recording := old(e).syncing.value, syncing := None)
    {
      e := e.(recording := e.syncing.value, syncing := None);
    }
  }
}
