/**
  Runs of the recorder loop (internal/recording/recorder.go): it takes whatever comes next, as do
  capture, the writers and the helpers beside it, in any order and any number.
 */
module RecorderRuns {
  import opened Tickets
  import opened Recorder

  // What comes next. One that cannot come now is passed over.
  datatype Event =
    | Activates
    | Deactivates
    | StartsOnDemand
    | StopsOnDemand
    | SetsMaxDuration(minutes: int)
    | Configures(cfg: Config)
    | TimerFires(timer: nat)
    | ClockPolled(job: nat, synced: bool)
    | SegmentOpens(job: nat)
    | JobEnds(job: nat)
    | FinalizationEnds(segment: nat)
    | WriteBreaks(segment: nat)
    | AudioComes(chunk: Chunk)
    | AudioTaken(channel: nat)
    | Quits

  lemma ProgressAtRest(l: Run, l': Run)
    requires l'.segments == l.segments && l'.accepted == l.accepted && l'.closed == l.closed
    ensures Progress(l, l')
  {
  }

  // Events the loop itself handles.
  method Handle(r: Recorder, event: Event)
    requires r.Valid() && !r.l.quit
    modifies r
    ensures r.Valid() && Progress(old(r.l), r.l)
  {
    ProgressAtRest(r.l, r.l);
    match event
    case Activates => r.Activate();
    case Deactivates => var _ := r.Deactivate();
    case StartsOnDemand => var _ := r.StartOnDemand();
    case StopsOnDemand => var _ := r.StopOnDemand();
    case Configures(cfg) => var _ := r.ApplyConfig(cfg);
    case TimerFires(timer) => if timer < |r.l.tasks| { r.FireTimer(timer); }
    case FinalizationEnds(segment) => if segment in r.l.finalizing { r.Finalized(segment); }
    case WriteBreaks(segment) => if segment < |r.l.segments| { r.WriteFailed(segment); }
    case Quits => r.Quit();
    case _ =>
  }

  // Events beside the loop, which also come after it has ended.
  method Beside(r: Recorder, event: Event)
    requires r.Valid()
    modifies r
    ensures r.Valid() && Progress(old(r.l), r.l)
  {
    ProgressAtRest(r.l, r.l);
    match event
    case SetsMaxDuration(minutes) => r.SetMaxDuration(minutes);
    case ClockPolled(job, synced) => if job < |r.l.jobs| && r.l.jobs[job].phase.Waiting? { r.PollClock(job, synced); }
    case SegmentOpens(job) => if job < |r.l.jobs| && r.l.jobs[job].phase.Opening? { r.OpenSegment(job); }
    case JobEnds(job) =>
      if job < |r.l.jobs| && (r.l.jobs[job].phase.Opened? || r.l.jobs[job].phase.OpenFailed?) {
        r.Prepared(job);
      }
    case AudioComes(chunk) => r.WriteAudio(chunk);
    case AudioTaken(channel) =>
      if channel < |r.l.channels| && r.l.channels[channel].taken < |r.l.channels[channel].sent| {
        var _ := r.TakeAudio(channel);
      }
    case _ =>
  }

  predicate ForLoop(event: Event) {
    match event
    case SetsMaxDuration(_) => false
    case ClockPolled(_, _) => false
    case SegmentOpens(_) => false
    case JobEnds(_) => false
    case AudioComes(_) => false
    case AudioTaken(_) => false
    case _ => true
  }

  method Take(r: Recorder, event: Event)
    requires r.Valid()
    modifies r
    ensures r.Valid() && Progress(old(r.l), r.l)
  {
    if !ForLoop(event) {
      Beside(r, event);
    } else if !r.l.quit {
      Handle(r, event);
    } else {
      ProgressAtRest(r.l, r.l);
    }
  }

  lemma AdvancesFurther(runs: seq<Run>, l: Run)
    requires Advances(runs) && runs != [] && Progress(runs[|runs| - 1], l)
    ensures Advances(runs + [l])
  {
    var more := runs + [l];
    forall k | 0 <= k < |more| - 1
      ensures Progress(more[k], more[k + 1])
    {
      if k < |runs| - 1 {
        assert Progress(runs[k], runs[k + 1]);
      }
    }
  }

  // What has ended, was accepted or was closed stays so.
  ghost predicate Keeps(l: Run, l': Run) {
    && Progress(l, l')
    && forall s | 0 <= s < |l.segments| && (l.segments[s].fate.Retired? || l.segments[s].fate.Abandoned?) ::
         l'.segments[s] == l.segments[s]
  }

  lemma RunsKeep(runs: seq<Run>, i: nat, j: nat)
    requires Advances(runs) && i <= j < |runs|
    ensures Keeps(runs[i], runs[j])
  {
    EndsOnce(runs, i, j, 0);
    forall s: nat | s < |runs[i].segments|
      ensures runs[i].segments[s].fate.Retired? || runs[i].segments[s].fate.Abandoned? ==> runs[j].segments[s] == runs[i].segments[s]
    {
      EndsOnce(runs, i, j, s);
    }
  }

  // Whatever comes, a recorder keeps its invariant from the first moment to the last, and no segment
  // ends twice, no audio once accepted is lost, and no stop is undone.
  method Loop(spool: string, cfg: Config, maxMinutes: int, events: seq<Event>) returns (runs: seq<Run>)
    ensures |runs| == |events| + 1 && runs[0].state.Stopped? && runs[0].segments == []
    ensures forall i | 0 <= i < |runs| :: Invariant(spool, runs[i]) && Resumes(runs[i])
    ensures forall i, j | 0 <= i <= j < |runs| :: Keeps(runs[i], runs[j])
  {
    var r := new Recorder(spool, cfg, maxMinutes);
    runs := [r.l];
    for k := 0 to |events|
      invariant r.Valid() && r.spool == spool && |runs| == k + 1 && runs[k] == r.l
      invariant runs[0].state.Stopped? && runs[0].segments == []
      invariant forall i | 0 <= i < |runs| :: Invariant(spool, runs[i]) && Resumes(runs[i])
      invariant Advances(runs)
    {
      Take(r, events[k]);
      AdvancesFurther(runs, r.l);
      runs := runs + [r.l];
    }
    forall i, j | 0 <= i <= j < |runs|
      ensures Keeps(runs[i], runs[j])
    {
      RunsKeep(runs, i, j);
    }
  }
}
