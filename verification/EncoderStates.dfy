/**
  What keeps the encoder's source loops, restarts, reports and recordings in order
  (internal/encoder/encoder.go), and what that means for its whole history.
 */
module EncoderStates {
  import opened Tickets

  datatype EncoderState = Stopped | Starting | Running | Stopping

  datatype InputEvent = InputLost | InputRestored

  // Where a source loop is. In the two pending stages it is about to report what it recorded.
  datatype Stage =
    | Top                  // About to check for a shutdown.
    | Reserving            // About to register the cancellation of its next source.
    | Opening              // The source is being opened.
    | Supervising(run: nat)
    | PendingRestored(run: nat)
    | Ended                // The source exited.
    | PendingLost
    | Backoff              // Waiting before the next attempt.
    | Finished

  datatype Loop = Loop(stage: Stage, stopSignal: bool, cancelled: bool)

  // A restart: for its turn, for the stop it asks for, for the teardown to finish.
  datatype RestartStage = Queued | Waiting | Over
  datatype Restart = Restart(generation: nat, stage: RestartStage)

  // The restart in the background, and the generation of one more that was asked for meanwhile.
  datatype Background = Idle | Busy(restart: nat, again: Option<nat>)

  datatype Encoder = Encoder(
    state: EncoderState,
    generation: nat,
    operatorStopped: bool,
    loops: seq<Loop>,
    lastRun: nat,
    restarts: seq<Restart>,
    gate: Option<nat>,        // The restart whose turn it is.
    background: Background,
    outage: bool,             // An input_lost awaits its input_restored.
    outageBefore: bool,       // An earlier process left one open.
    events: seq<InputEvent>,
    recordingWanted: bool,
    recording: bool,
    syncs: nat,               // Calls of syncRecording that have yet to read the wish.
    syncing: Option<bool>)    // The wish the current call read.

  predicate IsStopping(e: Encoder) {
    e.state.Stopping? || e.state.Stopped?
  }

  function OpenAfter(before: bool, events: seq<InputEvent>): bool {
    if events == [] then before else events[|events| - 1].InputLost?
  }

  // The report whose turn it is after i others.
  function Turn(before: bool, i: nat): InputEvent {
    var last := if i == 0 then before else Turn(before, i - 1).InputLost?;
    if last then InputRestored else InputLost
  }

  // Losses and restorations take turns.
  predicate Alternate(before: bool, events: seq<InputEvent>) {
    forall i | 0 <= i < |events| :: events[i] == Turn(before, i)
  }

  // What a loop is about to report.
  function PendingReport(stage: Stage): seq<InputEvent> {
    match stage
    case PendingRestored(_) => [InputRestored]
    case PendingLost => [InputLost]
    case _ => []
  }

  function Reported(events: seq<InputEvent>, loops: seq<Loop>): seq<InputEvent> {
    events + if loops == [] then [] else PendingReport(loops[|loops| - 1].stage)
  }

  predicate HasSource(stage: Stage) {
    stage.Opening? || stage.Supervising? || stage.PendingRestored?
  }

  // What holds of the last loop: it runs while the encoder is not stopped; one that has to end was
  // told so, and so was its source.
  predicate LastLoop(state: EncoderState, l: Loop, lastRun: nat) {
    && (state.Stopped? ==> l.stage.Finished?)
    && (state.Running? || state.Starting? ==> !l.stopSignal && !l.stage.Finished?)
    && (state.Stopping? ==> l.stopSignal && (HasSource(l.stage) ==> l.cancelled))
    && (state.Running? ==> l.stage.Supervising? || l.stage.PendingRestored? || l.stage.Ended?)
    && (l.stage.Supervising? || l.stage.PendingRestored? ==> l.stage.run == lastRun)
  }

  // At most one source loop runs.
  ghost predicate OneLoop(state: EncoderState, loops: seq<Loop>, lastRun: nat) {
    && (forall i | 0 <= i < |loops| - 1 :: loops[i].stage.Finished?)
    && (!state.Stopped? ==> loops != [])
    && (loops != [] ==> LastLoop(state, loops[|loops| - 1], lastRun))
  }

  // A restart knows the generation in which it was asked for; one at a time has its turn.
  ghost predicate Restarts(generation: nat, restarts: seq<Restart>, gate: Option<nat>, background: Background) {
    && (forall i | 0 <= i < |restarts| :: restarts[i].generation <= generation)
    && (forall i | 0 <= i < |restarts| :: restarts[i].stage.Waiting? <==> gate == Some(i))
    && (gate.Some? ==> gate.value < |restarts|)
    && (background.Busy? ==> background.restart < |restarts|)
    && (background.Busy? && background.again.Some? ==> background.again.value <= generation)
  }

  // Once no sync is under way the recordings follow the wish.
  predicate Recordings(e: Encoder) {
    e.syncs == 0 ==> (if e.syncing.Some? then e.syncing.value else e.recording) == e.recordingWanted
  }

  // An outage is open exactly if the last report was a loss; losses and restorations alternate.
  predicate Inputs(before: bool, outage: bool, reported: seq<InputEvent>) {
    Alternate(before, reported) && outage == OpenAfter(before, reported)
  }

  // What happened so far: a source loop began or ended, an explicit Stop came, or a restart that was
  // asked for when the history had that length brought the encoder up.
  datatype Entry = LoopBegan | LoopEnded | StopCame | RestartBegan(asked: nat)

  function Stops(history: seq<Entry>): nat {
    if history == [] then 0
    else Stops(history[..|history| - 1]) + if history[|history| - 1].StopCame? then 1 else 0
  }

  // How many loops run.
  function Loops(history: seq<Entry>): int {
    if history == [] then 0
    else Loops(history[..|history| - 1])
         + if history[|history| - 1].LoopBegan? then 1 else if history[|history| - 1].LoopEnded? then -1 else 0
  }

  // Never more than one loop ran, and no restart went through after a Stop that came since it was
  // asked for.
  predicate Orderly(history: seq<Entry>) {
    history == [] ||
      (var before := history[..|history| - 1];
       && Orderly(before) && 0 <= Loops(history) <= 1
       && match history[|history| - 1]
          case RestartBegan(asked) => asked <= |before| && Stops(before[..asked]) == Stops(before)
          case _ => true)
  }

  // A restart carries the number of Stops that had come when it was asked for.
  ghost predicate Dates(generation: nat, restarts: seq<Restart>, background: Background, history: seq<Entry>, asked: seq<nat>, askedAgain: nat) {
    && generation == Stops(history)
    && |asked| == |restarts|
    && (forall i | 0 <= i < |asked| :: Dated(restarts[i].generation, history, asked[i]))
    && (background.Busy? && background.again.Some? ==> Dated(background.again.value, history, askedAgain))
  }

  predicate Dated(generation: nat, history: seq<Entry>, asked: nat) {
    asked <= |history| && generation == Stops(history[..asked])
  }

  ghost predicate Invariant(e: Encoder) {
    && OneLoop(e.state, e.loops, e.lastRun)
    && Restarts(e.generation, e.restarts, e.gate, e.background)
    && Inputs(e.outageBefore, e.outage, Reported(e.events, e.loops))
    && Recordings(e)
  }

  // The history tells whether a loop runs, and when each restart was asked for.
  ghost predicate Tells(e: Encoder, history: seq<Entry>, asked: seq<nat>, askedAgain: nat) {
    && Orderly(history)
    && Loops(history) == (if e.loops == [] || Current(e).Finished? then 0 else 1)
    && Dates(e.generation, e.restarts, e.background, history, asked, askedAgain)
  }

  function WithStage(e: Encoder, stage: Stage): Encoder
    requires e.loops != []
  {
    e.(loops := e.loops[|e.loops| - 1 := e.loops[|e.loops| - 1].(stage := stage)])
  }

  function Current(e: Encoder): Stage
    requires e.loops != []
  {
    e.loops[|e.loops| - 1].stage
  }

  function WithRestart(e: Encoder, generation: nat): Encoder {
    e.(restarts := e.restarts + [Restart(generation, Queued)])
  }

  function AskedInBackground(e: Encoder): Encoder {
    WithRestart(e, e.generation).(background := Busy(|e.restarts|, None))
  }

  function AskedAgain(e: Encoder): Encoder
    requires e.background.Busy?
  {
    e.(background := Busy(e.background.restart, Some(e.generation)))
  }

  // Whether a start goes through: a restart must not be superseded by an explicit Stop.
  predicate MayStart(e: Encoder, expected: Option<nat>, configured: bool) {
    (expected.None? || expected.value == e.generation) && configured && e.state.Stopped?
  }

  function Begun(e: Encoder): Encoder {
    e.(operatorStopped := false, recordingWanted := true, state := Starting, syncs := e.syncs + 1,
       loops := e.loops + [Loop(Top, false, false)])
  }

  function Halted(e: Encoder): Encoder
    requires e.loops != []
  {
    var l := e.loops[|e.loops| - 1];
    e.(state := Stopping, loops := e.loops[|e.loops| - 1 := l.(stopSignal := true, cancelled := l.cancelled || HasSource(l.stage))])
  }

  // An explicit Stop counts, and ends the recordings too.
  function Counted(e: Encoder): Encoder {
    e.(generation := e.generation + 1, operatorStopped := true, recordingWanted := false, syncs := e.syncs + 1)
  }

  lemma EntryJoins(history: seq<Entry>, entry: Entry)
    ensures Stops(history + [entry]) == Stops(history) + if entry.StopCame? then 1 else 0
    ensures Loops(history + [entry]) == Loops(history) + if entry.LoopBegan? then 1 else if entry.LoopEnded? then -1 else 0
    ensures (Orderly(history) && 0 <= Loops(history + [entry]) <= 1
             && (entry.RestartBegan? ==> Dated(Stops(history), history, entry.asked)))
            ==> Orderly(history + [entry])
  {
    assert (history + [entry])[..|history|] == history;
  }

  lemma DateStays(generation: nat, history: seq<Entry>, asked: nat, entry: Entry)
    requires Dated(generation, history, asked)
    ensures Dated(generation, history + [entry], asked)
  {
    assert (history + [entry])[..asked] == history[..asked];
  }

  lemma DatesStay(e: Encoder, history: seq<Entry>, asked: seq<nat>, askedAgain: nat, entry: Entry, generation: nat)
    requires Dates(e.generation, e.restarts, e.background, history, asked, askedAgain)
    requires generation == e.generation + if entry.StopCame? then 1 else 0
    ensures Dates(generation, e.restarts, e.background, history + [entry], asked, askedAgain)
  {
    EntryJoins(history, entry);
    forall i | 0 <= i < |asked|
      ensures Dated(e.restarts[i].generation, history + [entry], asked[i])
    {
      DateStays(e.restarts[i].generation, history, asked[i], entry);
    }
    if e.background.Busy? && e.background.again.Some? {
      DateStays(e.background.again.value, history, askedAgain, entry);
    }
  }

  lemma LastLoopChanges(state: EncoderState, loops: seq<Loop>, lastRun: nat, state': EncoderState, l: Loop, lastRun': nat)
    requires OneLoop(state, loops, lastRun) && loops != [] && LastLoop(state', l, lastRun')
    ensures OneLoop(state', loops[|loops| - 1 := l], lastRun')
  {
  }

  lemma LoopJoins(e: Encoder)
    requires OneLoop(e.state, e.loops, e.lastRun) && e.state.Stopped?
    ensures OneLoop(Starting, e.loops + [Loop(Top, false, false)], e.lastRun)
    ensures Reported(e.events, e.loops + [Loop(Top, false, false)]) == Reported(e.events, e.loops)
  {
    var loops := e.loops + [Loop(Top, false, false)];
    forall i | 0 <= i < |loops| - 1
      ensures loops[i].stage.Finished?
    {
      assert loops[i] == e.loops[i];
    }
  }

  lemma BegunKeepsInvariant(e: Encoder, history: seq<Entry>, asked: seq<nat>, askedAgain: nat)
    requires Invariant(e) && Tells(e, history, asked, askedAgain) && e.state.Stopped?
    ensures Invariant(Begun(e)) && Tells(Begun(e), history + [LoopBegan], asked, askedAgain)
  {
    LoopJoins(e);
    EntryJoins(history, LoopBegan);
    DatesStay(e, history, asked, askedAgain, LoopBegan, e.generation);
  }

  lemma CountedKeepsInvariant(e: Encoder, history: seq<Entry>, asked: seq<nat>, askedAgain: nat)
    requires Invariant(e) && Tells(e, history, asked, askedAgain)
    ensures Invariant(Counted(e)) && Tells(Counted(e), history + [StopCame], asked, askedAgain)
  {
    EntryJoins(history, StopCame);
    DatesStay(e, history, asked, askedAgain, StopCame, e.generation + 1);
  }

  lemma HaltedKeepsInvariant(e: Encoder, history: seq<Entry>, asked: seq<nat>, askedAgain: nat)
    requires Invariant(e) && Tells(e, history, asked, askedAgain) && (e.state.Running? || e.state.Starting?)
    ensures Invariant(Halted(e)) && Tells(Halted(e), history, asked, askedAgain)
  {
    LastLoopChanges(e.state, e.loops, e.lastRun, Stopping, Halted(e).loops[|e.loops| - 1], e.lastRun);
    assert Reported(e.events, Halted(e).loops) == Reported(e.events, e.loops);
  }

  lemma FinishKeepsInvariant(e: Encoder)
    requires Invariant(e) && e.loops != [] && IsStopping(e) && PendingReport(Current(e)) == []
    ensures Invariant(WithStage(e, Finished))
  {
    LastLoopChanges(e.state, e.loops, e.lastRun, e.state, e.loops[|e.loops| - 1].(stage := Finished), e.lastRun);
    assert Reported(e.events, WithStage(e, Finished).loops) == Reported(e.events, e.loops);
  }

  lemma FinishIsTold(e: Encoder, history: seq<Entry>, asked: seq<nat>, askedAgain: nat)
    requires Tells(e, history, asked, askedAgain) && e.loops != [] && !Current(e).Finished?
    ensures Tells(WithStage(e, Finished), history + [LoopEnded], asked, askedAgain)
  {
    EntryJoins(history, LoopEnded);
    DatesStay(e, history, asked, askedAgain, LoopEnded, e.generation);
  }

  // Restarts change on their own.
  lemma RestartsChange(e: Encoder, history: seq<Entry>, asked: seq<nat>, askedAgain: nat, e': Encoder, asked': seq<nat>, askedAgain': nat)
    requires Invariant(e) && Tells(e, history, asked, askedAgain)
    requires e' == e.(restarts := e'.restarts, gate := e'.gate, background := e'.background)
    requires Restarts(e.generation, e'.restarts, e'.gate, e'.background)
    requires Dates(e.generation, e'.restarts, e'.background, history, asked', askedAgain')
    ensures Invariant(e') && Tells(e', history, asked', askedAgain')
  {
  }

  lemma RestartJoins(e: Encoder, history: seq<Entry>, asked: seq<nat>, askedAgain: nat, generation: nat, date: nat, background: Background)
    requires Invariant(e) && Tells(e, history, asked, askedAgain)
    requires generation <= e.generation && Dated(generation, history, date)
    requires background == e.background || background == Busy(|e.restarts|, None)
    ensures var e' := WithRestart(e, generation).(background := background); Invariant(e') && Tells(e', history, asked + [date], askedAgain)
  {
    var e' := WithRestart(e, generation).(background := background);
    forall i | 0 <= i < |e'.restarts|
      ensures e'.restarts[i].generation <= e.generation && (e'.restarts[i].stage.Waiting? <==> e.gate == Some(i))
      ensures Dated(e'.restarts[i].generation, history, (asked + [date])[i])
    {
      if i < |e.restarts| {
        assert e'.restarts[i] == e.restarts[i] && (asked + [date])[i] == asked[i];
      }
    }
    RestartsChange(e, history, asked, askedAgain, e', asked + [date], askedAgain);
  }

  function AtTurn(e: Encoder, i: nat): Encoder
    requires i < |e.restarts|
  {
    e.(gate := Some(i), restarts := e.restarts[i := e.restarts[i].(stage := Waiting)])
  }

  function TurnOver(e: Encoder, i: nat): Encoder
    requires i < |e.restarts|
  {
    e.(gate := None, restarts := e.restarts[i := e.restarts[i].(stage := Over)])
  }

  lemma TurnKeepsInvariant(e: Encoder, history: seq<Entry>, asked: seq<nat>, askedAgain: nat, i: nat)
    requires Invariant(e) && Tells(e, history, asked, askedAgain) && i < |e.restarts|
    ensures e.gate.None? ==> Invariant(AtTurn(e, i)) && Tells(AtTurn(e, i), history, asked, askedAgain)
    ensures e.gate == Some(i) ==> Invariant(TurnOver(e, i)) && Tells(TurnOver(e, i), history, asked, askedAgain)
  {
    if e.gate.None? {
      RestartsChange(e, history, asked, askedAgain, AtTurn(e, i), asked, askedAgain);
    } else if e.gate == Some(i) {
      RestartsChange(e, history, asked, askedAgain, TurnOver(e, i), asked, askedAgain);
    }
  }

  // No Stop came since the restart was asked for.
  lemma RestartKeepsOrder(e: Encoder, history: seq<Entry>, asked: seq<nat>, askedAgain: nat, i: nat)
    requires Tells(e, history, asked, askedAgain) && i < |e.restarts| && e.restarts[i].generation == e.generation
    ensures Tells(e, history + [RestartBegan(asked[i])], asked, askedAgain)
  {
    EntryJoins(history, RestartBegan(asked[i]));
    DatesStay(e, history, asked, askedAgain, RestartBegan(asked[i]), e.generation);
  }

  // What the last loop was about to report is in the log.
  lemma ReportKeepsInvariant(e: Encoder, stage: Stage, event: InputEvent)
    requires Invariant(e) && e.loops != [] && PendingReport(Current(e)) == [event] && PendingReport(stage) == []
    requires LastLoop(e.state, e.loops[|e.loops| - 1].(stage := stage), e.lastRun)
    ensures Invariant(WithStage(e, stage).(events := e.events + [event]))
  {
    LastLoopChanges(e.state, e.loops, e.lastRun, e.state, e.loops[|e.loops| - 1].(stage := stage), e.lastRun);
    ReportMade(e, stage, event);
  }

  lemma ReportMade(e: Encoder, stage: Stage, event: InputEvent)
    requires e.loops != [] && PendingReport(Current(e)) == [event] && PendingReport(stage) == []
    ensures Reported(e.events + [event], WithStage(e, stage).loops) == Reported(e.events, e.loops)
  {
  }

  lemma ReportJoins(before: bool, reported: seq<InputEvent>, event: InputEvent)
    requires Alternate(before, reported) && event == if OpenAfter(before, reported) then InputRestored else InputLost
    ensures Alternate(before, reported + [event]) && OpenAfter(before, reported + [event]) == event.InputLost?
  {
  }

  // A loss comes first unless one was open, and no two reports in a row are the same.
  lemma AlternateAt(before: bool, events: seq<InputEvent>, i: nat)
    requires Alternate(before, events) && i < |events|
    ensures i == 0 ==> events[i] == if before then InputRestored else InputLost
    ensures i > 0 ==> events[i] != events[i - 1]
  {
    assert i > 0 ==> events[i - 1] == Turn(before, i - 1);
  }

  // What is in the log alternates too, also while a report is still to come.
  lemma LogAlternates(e: Encoder)
    requires Invariant(e)
    ensures Alternate(e.outageBefore, e.events)
  {
    assert forall i | 0 <= i < |e.events| :: e.events[i] == Reported(e.events, e.loops)[i];
  }

  // Whatever happens, a restart that was asked for before an explicit Stop never brings the encoder up.
  lemma {:induction false} SupersededNeverBegins(history: seq<Entry>, k: nat, j: nat)
    requires Orderly(history) && k < |history| && history[k].RestartBegan? && history[k].asked <= j < k
    ensures !history[j].StopCame?
  {
    var before := history[..|history| - 1];
    if k < |before| {
      SupersededNeverBegins(before, k, j);
    } else if history[j].StopCame? {
      StopCounts(before, history[k].asked, j);
    }
  }

  lemma {:induction false} StopCounts(history: seq<Entry>, i: nat, j: nat)
    requires i <= j < |history| && history[j].StopCame?
    ensures Stops(history[..i]) < Stops(history)
  {
    var before := history[..|history| - 1];
    assert before[..i] == history[..i];
    if j < |before| {
      StopCounts(before, i, j);
    } else {
      StopsGrow(before, i);
    }
  }

  lemma {:induction false} StopsGrow(history: seq<Entry>, i: nat)
    requires i <= |history|
    ensures Stops(history[..i]) <= Stops(history)
  {
    if i < |history| {
      assert history[..|history| - 1][..i] == history[..i];
      StopsGrow(history[..|history| - 1], i);
    } else {
      assert history[..i] == history;
    }
  }

  // No two source loops ever run at once: before one begins, the one before it has ended.
  lemma {:induction false} LoopsDoNotOverlap(history: seq<Entry>, i: nat, j: nat)
    requires Orderly(history) && i < j < |history| && history[i].LoopBegan? && history[j].LoopBegan?
    ensures exists k | i < k < j :: history[k].LoopEnded?
  {
    var before := history[..|history| - 1];
    if j < |before| {
      LoopsDoNotOverlap(before, i, j);
      var k :| i < k < j && before[k].LoopEnded?;
      assert history[k].LoopEnded?;
    } else if forall k | i < k < j :: !history[k].LoopEnded? {
      LoopStaysUp(before, i);
    }
  }

  lemma {:induction false} LoopStaysUp(history: seq<Entry>, i: nat)
    requires Orderly(history) && i < |history| && history[i].LoopBegan?
    requires forall k | i < k < |history| :: !history[k].LoopEnded?
    ensures Loops(history) == 1
  {
    var before := history[..|history| - 1];
    if i < |before| {
      LoopStaysUp(before, i);
    } else if before != [] {
      assert Loops(before) >= 0;
    }
  }
}
