/**
  The recorder loop (internal/recording/recorder_run.go, recorder.go, recorder_segment.go).

  Every method under "Events" is one closure the loop runs, one atomic step of a helper, or one
  call by capture. The helpers at work and the timers armed are fields here, so their completions
  may come in any order, any time later. Jobs, segments, timers and stop channels are identified by
  their index, as the source identifies them by pointer.
 */
module Recorder {
  import opened Tickets

  type Chunk = seq<bv8>

  datatype Storage = Local | S3 | Both
  datatype Config = Config(
    enabled: bool,
    hourly: bool,
    codec: string,
    bitrate: int,
    storage: Storage,
    localPath: string,
    s3Endpoint: string,
    s3Bucket: string,
    s3AccessKey: string,
    s3Secret: string)

  predicate HasS3Credentials(c: Config) {
    c.s3Bucket != "" && c.s3AccessKey != "" && c.s3Secret != ""
  }

  // The settings that make one encoder's output differ from another's.
  predicate SameOutput(a: Config, b: Config) {
    && a.codec == b.codec && a.bitrate == b.bitrate
    && a.storage == b.storage && a.localPath == b.localPath
    && a.s3Endpoint == b.s3Endpoint && a.s3Bucket == b.s3Bucket
    && HasS3Credentials(a) == HasS3Credentials(b)
  }

  // S3-only recordings go to the spool; `spool` stands for its directory of this recorder.
  function DirectoryOf(spool: string, cfg: Config): string {
    if cfg.storage.S3? then spool else cfg.localPath
  }

  // What of the settings a segment is made with, and what its ticket says about S3.
  datatype Output = Output(codec: string, bitrate: int, dir: string, dest: Option<(string, string)>, deleteAfterUpload: bool)

  function OutputOf(spool: string, c: Config): Output {
    var uploads := !c.storage.Local? && HasS3Credentials(c);
    Output(c.codec, c.bitrate, DirectoryOf(spool, c), if uploads then Some((c.s3Endpoint, c.s3Bucket)) else None, uploads && c.storage.S3?)
  }

  // Only switching a recorder on or off, its mode and new secrets leave the output as it is; all else
  // counts, and whenever the output counts as the same the next segment would be made like this one.
  lemma SameOutputIff(spool: string, a: Config, b: Config)
    ensures SameOutput(a, b) <==>
            && a.(enabled := b.enabled, hourly := b.hourly, s3AccessKey := b.s3AccessKey, s3Secret := b.s3Secret) == b
            && HasS3Credentials(a) == HasS3Credentials(b)
    ensures SameOutput(a, b) ==> OutputOf(spool, a) == OutputOf(spool, b)
  {
  }

  datatype ProcessState = Stopped | Starting | Running | Stopping | Error

  // Stopped, or about to be.
  predicate Over(state: ProcessState) {
    state.Stopped? || state.Stopping?
  }

  predicate Under(state: ProcessState) {
    state.Starting? || state.Running?
  }

  // Where the helper of a job is; `segment` is what openSegment returned and the loop has not seen.
  datatype Phase = Waiting(warned: bool) | Opening | Opened(segment: nat) | OpenFailed | Done
  datatype Job = Job(cfg: Config, dir: string, phase: Phase)

  // What became of a segment openSegment returned.
  datatype Fate = InFlight | Current | Retired | Abandoned
  datatype Segment = Segment(job: nat, cfg: Config, fate: Fate)

  datatype Task = Rotate | Retry | Limit

  // The audio channel of a segment: what capture sent, how much of it the writer took.
  datatype Channel = Channel(segment: nat, sent: seq<Chunk>, taken: nat, open: bool)

  const AUDIO_BUFFER_CHUNKS := 30

  function AllSent(channels: seq<Channel>): seq<Chunk> {
    if channels == [] then [] else AllSent(channels[..|channels| - 1]) + channels[|channels| - 1].sent
  }

  // setAudio closes the channel it replaces.
  function Closed(channels: seq<Channel>): seq<Channel> {
    if channels == [] then [] else channels[|channels| - 1 := channels[|channels| - 1].(open := false)]
  }

  // Only the channel capture writes to is open, the last one; no writer lags more than its buffer.
  ghost predicate Sound(audio: Option<nat>, channels: seq<Channel>) {
    && (forall i | 0 <= i < |channels| - 1 :: !channels[i].open)
    && (forall i | 0 <= i < |channels| :: channels[i].taken <= |channels[i].sent| <= channels[i].taken + AUDIO_BUFFER_CHUNKS)
    && (audio.Some? <==> channels != [] && channels[|channels| - 1].open)
    && (audio.Some? ==> channels[|channels| - 1].segment == audio.value)
  }

  function Switched(channels: seq<Channel>, to: Option<nat>): seq<Channel> {
    Closed(channels) + if to.Some? then [Channel(to.value, [], 0, true)] else []
  }

  // A segment ends once: it is retired after it was written to, or abandoned without.
  predicate MayBecome(before: Segment, after: Segment) {
    && after == before.(fate := after.fate)
    && (after.fate == before.fate || before.fate == InFlight || (before.fate == Current && after.fate == Retired))
  }

  // Every segment is in flight from one job, current, retired or abandoned.
  ghost predicate Owned(seg: Option<nat>, jobs: seq<Job>, segments: seq<Segment>, finalizing: set<nat>) {
    && (seg.Some? ==> seg.value < |segments|)
    && (forall i | 0 <= i < |segments| :: segments[i].fate == Current <==> seg == Some(i))
    && (forall i | 0 <= i < |segments| :: segments[i].fate == InFlight ==>
         segments[i].job < |jobs| && jobs[segments[i].job].phase == Opened(i))
    && (forall j | 0 <= j < |jobs| :: jobs[j].phase.Opened? ==> Carries(jobs, j, segments))
    && (forall i :: i in finalizing ==> i < |segments| && segments[i].fate == Retired)
  }

  predicate Carries(jobs: seq<Job>, j: nat, segments: seq<Segment>)
    requires j < |jobs| && jobs[j].phase.Opened?
  {
    jobs[j].phase.segment < |segments| && segments[jobs[j].phase.segment] == Segment(j, jobs[j].cfg, InFlight)
  }

  ghost predicate Forward(segments: seq<Segment>, segments': seq<Segment>) {
    && |segments| <= |segments'|
    && forall i | 0 <= i < |segments| :: MayBecome(segments[i], segments'[i])
  }

  predicate WasCurrent(segment: Segment) {
    segment.fate.Current? || segment.fate.Retired?
  }

  // Only segments that were written to have a channel, and no two share one.
  ghost predicate OneChannelEach(segments: seq<Segment>, channels: seq<Channel>) {
    && (forall i | 0 <= i < |channels| ::
         channels[i].segment < |segments| && WasCurrent(segments[channels[i].segment]))
    && (forall i, j | 0 <= i < j < |channels| :: channels[i].segment != channels[j].segment)
  }

  function WithFate(segments: seq<Segment>, i: nat, fate: Fate): seq<Segment>
    requires i < |segments|
  {
    segments[i := segments[i].(fate := fate)]
  }

  function WithPhase(jobs: seq<Job>, j: nat, phase: Phase): seq<Job>
    requires j < |jobs|
  {
    jobs[j := jobs[j].(phase := phase)]
  }

  lemma OpenKeepsOwned(seg: Option<nat>, jobs: seq<Job>, segments: seq<Segment>, finalizing: set<nat>, j: nat)
    requires Owned(seg, jobs, segments, finalizing) && j < |jobs| && !jobs[j].phase.Opened?
    ensures Owned(seg, WithPhase(jobs, j, Opened(|segments|)), segments + [Segment(j, jobs[j].cfg, InFlight)], finalizing)
  {
  }

  lemma PhaseKeepsOwned(seg: Option<nat>, jobs: seq<Job>, segments: seq<Segment>, finalizing: set<nat>, j: nat, job: Job)
    requires Owned(seg, jobs, segments, finalizing) && j < |jobs| && !jobs[j].phase.Opened? && !job.phase.Opened?
    ensures Owned(seg, jobs[j := job], segments, finalizing)
  {
  }

  lemma AbandonKeepsOwned(seg: Option<nat>, jobs: seq<Job>, segments: seq<Segment>, finalizing: set<nat>, j: nat)
    requires Owned(seg, jobs, segments, finalizing) && j < |jobs| && jobs[j].phase.Opened?
    ensures Owned(seg, WithPhase(jobs, j, Done), WithFate(segments, jobs[j].phase.segment, Abandoned), finalizing)
  {
  }

  lemma BeginKeepsOwned(jobs: seq<Job>, segments: seq<Segment>, finalizing: set<nat>, j: nat)
    requires Owned(None, jobs, segments, finalizing) && j < |jobs| && jobs[j].phase.Opened?
    ensures Owned(Some(jobs[j].phase.segment), WithPhase(jobs, j, Done),
                  WithFate(segments, jobs[j].phase.segment, Current), finalizing)
  {
  }

  lemma RetireKeepsOwned(s: nat, jobs: seq<Job>, segments: seq<Segment>, finalizing: set<nat>)
    requires Owned(Some(s), jobs, segments, finalizing)
    ensures Owned(None, jobs, WithFate(segments, s, Retired), finalizing + {s}) && s !in finalizing
  {
  }

  lemma CurrentIsNotFinalizing(s: nat, jobs: seq<Job>, segments: seq<Segment>, finalizing: set<nat>)
    requires Owned(Some(s), jobs, segments, finalizing)
    ensures s !in finalizing && |finalizing + {s}| == |finalizing| + 1
  {
  }

  lemma FateKeepsChannels(segments: seq<Segment>, channels: seq<Channel>, i: nat, fate: Fate)
    requires OneChannelEach(segments, channels) && i < |segments|
    requires segments[i].fate == InFlight || (segments[i].fate == Current && fate == Retired)
    ensures OneChannelEach(WithFate(segments, i, fate), channels)
  {
  }

  lemma ClosedKeepsChannels(segments: seq<Segment>, channels: seq<Channel>)
    requires OneChannelEach(segments, channels)
    ensures OneChannelEach(segments, Closed(channels))
  {
  }

  // A segment that was not current yet gets the next channel.
  lemma SwitchKeepsChannels(segments: seq<Segment>, channels: seq<Channel>, i: nat)
    requires OneChannelEach(segments, channels) && i < |segments| && segments[i].fate == InFlight
    ensures OneChannelEach(WithFate(segments, i, Current), Switched(channels, Some(i)))
  {
    ClosedKeepsChannels(segments, channels);
    FateKeepsChannels(segments, Closed(channels), i, Current);
  }

  datatype StartResult = Started | AlreadyRecording | RecorderStopping | ManagerNotRunning | HourlyNotControllable | Disabled
  datatype StopResult = Stops(channel: nat) | NotControllable | NotRecording

  // The run the loop owns, what its helpers and timers are about to report, and the capture path.
  datatype Run = Run(
    cfg: Config,
    maxMinutes: int,
    active: bool,
    state: ProcessState,
    seg: Option<nat>,       // The encoder being written to.
    next: Option<nat>,      // The only preparation the loop accepts.
    retiring: nat,          // Segments being finalized; a stop waits for them.
    restart: bool,          // Start again (hourly) once the stop in progress is done.
    stopped: nat,           // The channel of the latest stop.
    hourly: Option<nat>,    // Rotate the current segment, or retry a failed run.
    duration: Option<nat>,  // The duration limit of an on-demand run.
    jobs: seq<Job>,
    segments: seq<Segment>,
    finalizing: set<nat>,   // Segments whose finalization is not reported yet.
    tasks: seq<Task>,       // What each timer armed so far does.
    closed: set<nat>,       // The stop channels closed so far.
    quit: bool,             // The loop has ended.
    failedPrepare: bool,    // The last preparation failed while a segment kept running.
    recording: bool,
    audio: Option<nat>,     // The segment whose channel capture writes to.
    channels: seq<Channel>,
    accepted: seq<Chunk>,   // The chunks capture got in so far.
    drops: nat)

  // The states of a run.
  predicate Lifecycle(l: Run) {
    && (l.state.Running? <==> l.seg.Some?)
    && (l.state.Running? <==> l.recording)
    && (l.state.Starting? ==> l.next.Some?)
    && (l.next.Some? ==> Under(l.state))
    && (l.state.Stopped? ==> l.retiring == 0)
    && (l.restart ==> l.state.Stopping?)
    && (l.hourly.Some? ==> l.state.Running? || l.state.Error?)
    && (l.duration.Some? ==> l.state.Running?)
  }

  // A stop in progress waits for a segment.
  predicate Ending(l: Run) {
    l.state.Stopping? ==> l.retiring > 0
  }

  predicate Allowed(l: Run) {
    !Over(l.state) ==> l.active && l.cfg.enabled
  }

  function HourlyTask(state: ProcessState): Task {
    if state.Running? then Rotate else Retry
  }

  // Each armed timer does what its state asks for.
  predicate Timers(l: Run) {
    && (l.hourly.Some? ==> l.hourly.value < |l.tasks| && l.cfg.hourly && l.tasks[l.hourly.value] == HourlyTask(l.state))
    && (l.duration.Some? ==> l.duration.value < |l.tasks| && !l.cfg.hourly && l.tasks[l.duration.value] == Limit)
  }

  // An hourly run always has its next step ahead.
  predicate Scheduled(l: Run) {
    && (l.cfg.hourly && l.state.Running? ==> l.hourly.Some? || l.next.Some?)
    && (l.cfg.hourly && l.state.Error? ==> l.hourly.Some?)
  }

  // Every stop channel but that of a stop in progress is closed.
  ghost predicate AllClosedBut(closed: set<nat>, stopped: nat, waiting: bool) {
    forall c: nat :: c in closed <==> c < stopped || (c == stopped && !waiting)
  }

  // Every job works for the directory of its settings.
  ghost predicate AtWork(spool: string, jobs: seq<Job>) {
    forall j | 0 <= j < |jobs| :: jobs[j].dir == DirectoryOf(spool, jobs[j].cfg)
  }

  // The pending job is still to report.
  predicate Pending(l: Run) {
    l.next.Some? ==> l.next.value < |l.jobs| && (l.quit || l.jobs[l.next.value].phase != Done)
  }

  // What is being prepared is what the configuration asks for, and what runs is too unless a
  // preparation is pending or failed.
  predicate Planned(l: Run) {
    && (l.next.Some? ==> l.next.value < |l.jobs| && SameOutput(l.jobs[l.next.value].cfg, l.cfg))
    && (l.next.None? && !l.failedPrepare && l.seg.Some? && l.seg.value < |l.segments| ==>
         SameOutput(l.segments[l.seg.value].cfg, l.cfg))
  }

  // What holds in every state and whatever the configuration says.
  ghost predicate Facts(spool: string, l: Run) {
    && AtWork(spool, l.jobs)
    && Owned(l.seg, l.jobs, l.segments, l.finalizing)
    && l.retiring == |l.finalizing|
    && l.accepted == AllSent(l.channels)
    && l.audio == l.seg
    && Sound(l.audio, l.channels)
    && OneChannelEach(l.segments, l.channels)
  }

  ghost predicate Core(spool: string, l: Run) {
    Lifecycle(l) && Pending(l) && Facts(spool, l) && AllClosedBut(l.closed, l.stopped, l.state.Stopping? && !l.quit)
  }

  ghost predicate Invariant(spool: string, l: Run) {
    Core(spool, l) && Ending(l) && Allowed(l) && Timers(l) && Scheduled(l) && Planned(l)
  }

  // An active, enabled hourly recorder records, is about to, waits to retry, or starts again once the
  // stop in progress is done.
  predicate Resumes(l: Run) {
    !l.quit && l.active && l.cfg.enabled && l.cfg.hourly ==>
      Under(l.state) || l.state.Error? || (l.state.Stopping? && l.restart)
  }

  // Segments are never forgotten and end once; what capture got in stays, as do closed channels.
  ghost predicate Progress(l: Run, l': Run) {
    && Forward(l.segments, l'.segments)
    && l.accepted <= l'.accepted
    && l.closed <= l'.closed
  }

  lemma ProgressIsTransitive(l1: Run, l2: Run, l3: Run)
    requires Progress(l1, l2) && Progress(l2, l3)
    ensures Progress(l1, l3)
  {
    forall i | 0 <= i < |l1.segments|
      ensures MayBecome(l1.segments[i], l3.segments[i])
    {
      assert MayBecome(l1.segments[i], l2.segments[i]) && MayBecome(l2.segments[i], l3.segments[i]);
    }
  }

  ghost predicate Advances(runs: seq<Run>) {
    forall k | 0 <= k < |runs| - 1 :: Progress(runs[k], runs[k + 1])
  }

  // Over any number of steps progress is kept, and a segment that was retired or abandoned stays
  // just that.
  lemma {:induction false} EndsOnce(runs: seq<Run>, i: nat, j: nat, s: nat)
    requires Advances(runs) && i <= j < |runs|
    ensures Progress(runs[i], runs[j])
    ensures s < |runs[i].segments| && (runs[i].segments[s].fate.Retired? || runs[i].segments[s].fate.Abandoned?) ==>
              runs[j].segments[s] == runs[i].segments[s]
    decreases j
  {
    if i < j {
      EndsOnce(runs, i, j - 1, s);
      assert Progress(runs[j - 1], runs[j - 1 + 1]);
      ProgressIsTransitive(runs[i], runs[j - 1], runs[j]);
      assert s < |runs[i].segments| ==> MayBecome(runs[i].segments[s], runs[j].segments[s]);
    } else {
      assert forall k | 0 <= k < |runs[i].segments| :: MayBecome(runs[i].segments[k], runs[j].segments[k]);
    }
  }

  predicate Untouched(l: Run, l': Run) {
    l'.segments == l.segments && l'.accepted == l.accepted && l'.closed == l.closed && l'.cfg == l.cfg && l'.active == l.active
  }

  // Steps.

  // Leaves the running states: capture stops, timers are cancelled, a preparation becomes stale.
  function EndRun(l: Run, to: ProcessState): Run {
    l.(state := to, recording := false, next := None, hourly := None, duration := None)
  }

  function ArmHourly(l: Run, task: Task): Run {
    l.(hourly := Some(|l.tasks|), tasks := l.tasks + [task])
  }

  function ArmDurationLimit(l: Run): Run {
    if l.maxMinutes <= 0 then l else l.(duration := Some(|l.tasks|), tasks := l.tasks + [Limit])
  }

  // Supersedes a preparation in progress; only the first segment of a run waits for the clock.
  function Prepare(spool: string, l: Run): Run {
    l.(next := Some(|l.jobs|), jobs := l.jobs + [NewJob(spool, l)])
  }

  function NewJob(spool: string, l: Run): Job {
    Job(l.cfg, DirectoryOf(spool, l.cfg), if l.state.Starting? then Waiting(false) else Opening)
  }

  // The first segment of a run waits for the clock, and no other does.
  lemma OnlyFirstWaits(spool: string, l: Run)
    ensures Began(spool, l).next == Some(|l.jobs|) && Began(spool, l).jobs[|l.jobs|].phase == Waiting(false)
    ensures l.state.Running? ==> Prepare(spool, l).next == Some(|l.jobs|) && Prepare(spool, l).jobs[|l.jobs|].phase == Opening
  {
  }

  function SetAudio(l: Run, to: Option<nat>): Run {
    l.(audio := to, channels := Switched(l.channels, to))
  }

  // Finalizes a segment in a helper.
  function Retire(l: Run, s: nat): Run
    requires s < |l.segments|
  {
    l.(segments := WithFate(l.segments, s, Retired), finalizing := l.finalizing + {s}, retiring := l.retiring + 1)
  }

  // Takes the current segment from capture and retires it.
  function LetGo(l: Run): Run
    requires l.seg.Some? && l.seg.value < |l.segments|
  {
    Retire(SetAudio(l.(seg := None), None), l.seg.value)
  }

  function Began(spool: string, l: Run): Run {
    Prepare(spool, l.(hourly := None, state := Starting, drops := 0))
  }

  // An enabled, active, hourly recorder runs, is started, or starts after the stop in progress.
  function HourlyStarted(spool: string, l: Run): Run {
    if !l.active || !l.cfg.enabled || !l.cfg.hourly || Under(l.state) then l
    else if l.state.Stopping? then l.(restart := true)
    else Began(spool, l)
  }

  function StopFinished(spool: string, l: Run): Run {
    if !l.state.Stopping? || l.retiring > 0 then l
    else
      var done := l.(state := Stopped, closed := l.closed + {l.stopped}, restart := false);
      if l.restart then HourlyStarted(spool, done) else done
  }

  function RunFailed(l: Run): Run {
    if l.cfg.hourly then ArmHourly(EndRun(l, Error), Retry) else EndRun(l, Error)
  }

  // A run that changes mode changes its timers; leaving hourly mode cancels a pending rotation.
  function ModeSwitched(l: Run, wasHourly: bool): Run {
    var toHourly := l.state.Running? && l.cfg.hourly && !wasHourly;
    var toOnDemand := l.state.Running? && !l.cfg.hourly && wasHourly;
    var limited := toOnDemand && l.maxMinutes > 0;
    l.(next := if toOnDemand then None else l.next,
       hourly := if toHourly then Some(|l.tasks|) else if toOnDemand then None else l.hourly,
       duration := if toHourly then None else if limited then Some(|l.tasks|) else l.duration,
       tasks := if toHourly then l.tasks + [Rotate] else if limited then l.tasks + [Limit] else l.tasks)
  }

  function Replanned(spool: string, l: Run, before: Config): Run {
    if !Under(l.state) then l
    else
      var planned := if l.next.Some? || l.seg.None? || l.seg.value >= |l.segments| then before else l.segments[l.seg.value].cfg;
      if SameOutput(planned, l.cfg) then l.(failedPrepare := false) else Prepare(spool, l.(failedPrepare := false))
  }

  function Adjusted(spool: string, l: Run, before: Config): Run {
    HourlyStarted(spool, Replanned(spool, ModeSwitched(l, before.hourly), before))
  }

  // A start in progress goes on with the new settings, anew if their output differs.
  function Restarted(spool: string, l: Run, cfg: Config): Run {
    var l' := l.(cfg := cfg, failedPrepare := false);
    if SameOutput(l.cfg, cfg) then l' else Prepare(spool, l')
  }

  // What a change of settings leaves of a run with a current segment.
  ghost predicate KeepsRunning(l: Run, l': Run) {
    && l'.state.Running? && l'.seg == l.seg && l'.segments == l.segments && l'.channels == l.channels && l'.audio == l.audio
    && l.seg.Some? && l.seg.value < |l.segments|
    && (l'.next.Some? || SameOutput(l.segments[l.seg.value].cfg, l'.cfg))
    && (l'.cfg.hourly == l.cfg.hourly ==> l'.hourly == l.hourly && l'.duration == l.duration)
    && (l'.cfg.hourly && !l.cfg.hourly ==> l'.hourly.Some? && l'.duration.None?)
    && (!l'.cfg.hourly && l.cfg.hourly ==>
         l'.hourly.None? && (l'.next.Some? <==> !SameOutput(l.segments[l.seg.value].cfg, l'.cfg)))
    // Nothing is prepared needlessly.
    && (l.next.Some? && SameOutput(l.cfg, l'.cfg) && (l'.cfg.hourly || !l.cfg.hourly) ==> l'.next == l.next && l'.jobs == l.jobs)
  }

  predicate SameRun(l: Run, l': Run) {
    && l'.state == l.state && l'.cfg == l.cfg && l'.seg == l.seg && l'.segments == l.segments
    && l'.channels == l.channels && l'.audio == l.audio
  }

  lemma ModeSwitchedKeepsRun(l: Run, wasHourly: bool)
    requires l.state.Running? && (l.duration.Some? ==> !wasHourly)
    ensures var l' := ModeSwitched(l, wasHourly);
      && SameRun(l, l') && l'.jobs == l.jobs
      && l'.next == (if wasHourly && !l.cfg.hourly then None else l.next)
      && (l.cfg.hourly == wasHourly ==> l'.hourly == l.hourly && l'.duration == l.duration)
      && (l.cfg.hourly && !wasHourly ==> l'.hourly.Some? && l'.duration.None?)
      && (!l.cfg.hourly && wasHourly ==> l'.hourly.None?)
  {
  }

  lemma ReplannedKeepsRun(spool: string, l: Run, before: Config)
    requires l.state.Running? && l.seg.Some? && l.seg.value < |l.segments|
    requires l.next.Some? && l.next.value < |l.jobs| ==> SameOutput(l.jobs[l.next.value].cfg, before)
    ensures var l' := Replanned(spool, l, before);
      && SameRun(l, l') && l'.hourly == l.hourly && l'.duration == l.duration
      && (l.next.None? ==> (l'.next.Some? <==> !SameOutput(l.segments[l.seg.value].cfg, l.cfg)))
      && (l.next.Some? ==> l'.next.Some?)
      && (l.next.Some? && SameOutput(before, l.cfg) ==> l'.next == l.next && l'.jobs == l.jobs)
  {
  }

  lemma AdjustmentKeepsRunning(spool: string, l: Run, cfg: Config)
    requires Lifecycle(l) && Planned(l) && Timers(l) && l.state.Running? && l.seg.value < |l.segments|
    ensures KeepsRunning(l, Adjusted(spool, l.(cfg := cfg), l.cfg))
  {
    var switched := ModeSwitched(l.(cfg := cfg), l.cfg.hourly);
    ModeSwitchedKeepsRun(l.(cfg := cfg), l.cfg.hourly);
    ReplannedKeepsRun(spool, switched, l.cfg);
    assert HourlyStarted(spool, Replanned(spool, switched, l.cfg)) == Replanned(spool, switched, l.cfg);
  }

  lemma AdjustmentStarts(spool: string, l: Run, cfg: Config)
    requires Lifecycle(l) && !l.state.Running?
    ensures Adjusted(spool, l.(cfg := cfg), l.cfg) ==
            if l.state.Starting? then Restarted(spool, l, cfg) else HourlyStarted(spool, l.(cfg := cfg))
  {
  }

  lemma ModeSwitchedKeepsCore(spool: string, l: Run, before: Config)
    requires Invariant(spool, l.(cfg := before)) && l.cfg.enabled && (l.cfg.hourly || !l.state.Error?)
    ensures var l' := ModeSwitched(l, before.hourly);
      && Core(spool, l') && Ending(l') && Allowed(l') && Timers(l') && (l'.state.Running? ==> Scheduled(l'))
  {
  }

  lemma PrepareKeepsFacts(spool: string, l: Run)
    requires Facts(spool, l)
    ensures Facts(spool, Prepare(spool, l)) && Progress(l, Prepare(spool, l))
  {
  }

  lemma LetGoKeepsFacts(spool: string, l: Run)
    requires Facts(spool, l) && l.seg.Some?
    ensures Facts(spool, LetGo(l)) && Progress(l, LetGo(l))
  {
    RetireKeepsOwned(l.seg.value, l.jobs, l.segments, l.finalizing);
    FateKeepsChannels(l.segments, l.channels, l.seg.value, Retired);
    ClosedKeepsChannels(WithFate(l.segments, l.seg.value, Retired), l.channels);
    assert Switched(l.channels, None) == Closed(l.channels);
    SwitchKeepsSent(l.channels, None);
    SwitchKeepsSound(l.audio, l.channels, None);
  }

  // Makes the segment of job `j` the one capture writes to.
  function Begin(l: Run, j: nat): Run
    requires j < |l.jobs| && l.jobs[j].phase.Opened? && l.jobs[j].phase.segment < |l.segments|
  {
    var i := l.jobs[j].phase.segment;
    SetAudio(l.(seg := Some(i), jobs := WithPhase(l.jobs, j, Done), segments := WithFate(l.segments, i, Current)), Some(i))
  }

  // The previous segment, if any, is retired once the next one is current.
  function Succeeded(l: Run, j: nat): Run
    requires j < |l.jobs| && l.jobs[j].phase.Opened? && l.jobs[j].phase.segment < |l.segments|
    requires l.seg.Some? ==> l.seg.value < |l.segments|
  {
    if l.seg.Some? then Retire(Begin(l, j), l.seg.value) else Begin(l, j)
  }

  lemma SucceededKeepsOwned(l: Run, j: nat)
    requires Owned(l.seg, l.jobs, l.segments, l.finalizing) && j < |l.jobs| && l.jobs[j].phase.Opened?
    requires OneChannelEach(l.segments, l.channels)
    ensures var l' := Succeeded(l, j);
      Owned(l'.seg, l'.jobs, l'.segments, l'.finalizing) && OneChannelEach(l'.segments, l'.channels)
  {
    var i := l.jobs[j].phase.segment;
    assert Carries(l.jobs, j, l.segments);
    var segments, finalizing := l.segments, l.finalizing;
    if l.seg.Some? {
      var p := l.seg.value;
      RetireKeepsOwned(p, l.jobs, segments, finalizing);
      FateKeepsChannels(segments, l.channels, p, Retired);
      assert WithFate(WithFate(segments, p, Retired), i, Current) == WithFate(WithFate(segments, i, Current), p, Retired);
      segments, finalizing := WithFate(segments, p, Retired), finalizing + {p};
    }
    BeginKeepsOwned(l.jobs, segments, finalizing, j);
    SwitchKeepsChannels(segments, l.channels, i);
  }

  lemma SucceededIsForward(l: Run, j: nat)
    requires j < |l.jobs| && l.jobs[j].phase.Opened? && Carries(l.jobs, j, l.segments)
    requires l.seg.Some? ==> l.seg.value < |l.segments| && l.segments[l.seg.value].fate == Current
    ensures Forward(l.segments, Succeeded(l, j).segments)
  {
  }

  lemma WorkGoesOn(spool: string, jobs: seq<Job>, j: nat, job: Job)
    requires AtWork(spool, jobs) && j < |jobs| && job.dir == DirectoryOf(spool, job.cfg)
    ensures AtWork(spool, jobs[j := job])
  {
  }

  lemma SucceededKeepsCapture(l: Run, j: nat)
    requires j < |l.jobs| && l.jobs[j].phase.Opened? && l.jobs[j].phase.segment < |l.segments|
    requires l.seg.Some? ==> l.seg.value < |l.segments|
    requires l.accepted == AllSent(l.channels) && Sound(l.audio, l.channels)
    ensures Succeeded(l, j).accepted == AllSent(Succeeded(l, j).channels)
    ensures Sound(Succeeded(l, j).audio, Succeeded(l, j).channels)
  {
    SwitchKeepsSent(l.channels, Some(l.jobs[j].phase.segment));
    SwitchKeepsSound(l.audio, l.channels, Some(l.jobs[j].phase.segment));
  }

  lemma SucceededKeepsFacts(spool: string, l: Run, j: nat)
    requires Facts(spool, l) && j < |l.jobs| && l.jobs[j].phase.Opened? && Carries(l.jobs, j, l.segments)
    ensures Facts(spool, Succeeded(l, j)) && Forward(l.segments, Succeeded(l, j).segments)
  {
    SucceededKeepsOwned(l, j);
    SucceededKeepsCapture(l, j);
    SucceededIsForward(l, j);
    WorkGoesOn(spool, l.jobs, j, l.jobs[j].(phase := Done));
    if l.seg.Some? {
      CurrentIsNotFinalizing(l.seg.value, l.jobs, l.segments, l.finalizing);
    }
  }

  // What the loop makes of the pending job having succeeded.
  function TakenOver(l: Run, j: nat): Run
    requires j < |l.jobs| && l.jobs[j].phase.Opened? && l.jobs[j].phase.segment < |l.segments|
    requires l.seg.Some? ==> l.seg.value < |l.segments|
  {
    Continued(Succeeded(l.(next := None, failedPrepare := false), j), l.seg.None?)
  }

  // The run goes on with a new current segment, its first or a later one.
  function Continued(l: Run, first: bool): Run {
    var limited := !l.cfg.hourly && first && l.maxMinutes > 0;
    l.(state := Running,
       recording := true,
       hourly := if l.cfg.hourly then Some(|l.tasks|) else l.hourly,
       duration := if limited then Some(|l.tasks|) else l.duration,
       tasks := if l.cfg.hourly then l.tasks + [Rotate] else if limited then l.tasks + [Limit] else l.tasks)
  }

  lemma TakenOverKeepsFacts(spool: string, l: Run, j: nat)
    requires Facts(spool, l) && j < |l.jobs| && l.jobs[j].phase.Opened? && Carries(l.jobs, j, l.segments)
    ensures Facts(spool, TakenOver(l, j)) && Progress(l, TakenOver(l, j))
  {
    var l' := l.(next := None, failedPrepare := false);
    SucceededKeepsFacts(spool, l', j);
  }

  lemma TakenOverIsPlanned(l: Run, j: nat)
    requires Lifecycle(l) && Planned(l) && Timers(l) && l.next == Some(j) && j < |l.jobs| && l.jobs[j].phase.Opened?
    requires Carries(l.jobs, j, l.segments) && (l.seg.Some? ==> l.seg.value < |l.segments|)
    ensures var l' := TakenOver(l, j); Lifecycle(l') && Pending(l') && Timers(l') && Scheduled(l') && Planned(l')
  {
  }

  lemma TakenOverKeepsInvariant(spool: string, l: Run, j: nat)
    requires Invariant(spool, l) && !l.quit && l.next == Some(j) && l.jobs[j].phase.Opened?
    requires Carries(l.jobs, j, l.segments)
    ensures Invariant(spool, TakenOver(l, j)) && Progress(l, TakenOver(l, j))
  {
    TakenOverKeepsFacts(spool, l, j);
    TakenOverIsPlanned(l, j);
  }

  // A helper moves on without a segment.
  lemma MoveKeepsFacts(spool: string, l: Run, j: nat, job: Job)
    requires Facts(spool, l) && j < |l.jobs| && !l.jobs[j].phase.Opened? && !job.phase.Opened?
    requires job.dir == DirectoryOf(spool, job.cfg)
    ensures Facts(spool, l.(jobs := l.jobs[j := job]))
  {
    PhaseKeepsOwned(l.seg, l.jobs, l.segments, l.finalizing, j, job);
  }

  // A job is over without its segment being wanted.
  function Abandon(l: Run, j: nat): Run
    requires j < |l.jobs| && (l.jobs[j].phase.Opened? ==> l.jobs[j].phase.segment < |l.segments|)
  {
    l.(jobs := WithPhase(l.jobs, j, Done),
       segments := if l.jobs[j].phase.Opened? then WithFate(l.segments, l.jobs[j].phase.segment, Abandoned) else l.segments)
  }

  lemma AbandonKeepsFacts(spool: string, l: Run, j: nat)
    requires Facts(spool, l) && j < |l.jobs|
    ensures Facts(spool, Abandon(l, j)) && Progress(l, Abandon(l, j))
  {
    if l.jobs[j].phase.Opened? {
      assert Carries(l.jobs, j, l.segments);
      AbandonKeepsOwned(l.seg, l.jobs, l.segments, l.finalizing, j);
      FateKeepsChannels(l.segments, l.channels, l.jobs[j].phase.segment, Abandoned);
    } else {
      MoveKeepsFacts(spool, l, j, l.jobs[j].(phase := Done));
    }
  }

  class Recorder {
    const spool: string
    var l: Run

    ghost predicate Valid()
      reads this
    {
      Invariant(spool, l) && Resumes(l)
    }

    // A new recorder is stopped.
    constructor (spool: string, cfg: Config, maxMinutes: int)
      ensures Valid() && this.spool == spool && l.state.Stopped? && l.cfg == cfg && !l.active && !l.quit
      ensures l.segments == [] && l.accepted == []
    {
      this.spool := spool;
      l := Run(cfg, maxMinutes, false, Stopped, None, None, 0, false, 0, None, None, [], [], {}, [], {0}, false, false, false, None, [], [], 0);
    }

    // Begins a run; a refused start changes nothing.
    method StartRun() returns (result: StartResult)
      requires Core(spool, l) && Ending(l) && Timers(l) && Planned(l) && (l.state.Running? ==> Scheduled(l))
      requires l.active && l.cfg.enabled
      modifies `l
      ensures Invariant(spool, l) && Progress(old(l), l)
      ensures result == match old(l).state
                        case Running => AlreadyRecording
                        case Starting => AlreadyRecording
                        case Stopping => RecorderStopping
                        case _ => Started
      ensures l == if result.Started? then Began(spool, old(l)) else old(l)
    {
      match l.state
      case Running => return AlreadyRecording;
      case Starting => return AlreadyRecording;
      case Stopping => return RecorderStopping;
      case _ =>
        l := l.(hourly := None);
        l := l.(state := Starting);
        l := l.(drops := 0);
        PrepareKeepsFacts(spool, l);
        l := Prepare(spool, l);
        return Started;
    }

    method StartHourly()
      requires Core(spool, l) && Ending(l) && Allowed(l) && Timers(l) && Planned(l) && (l.state.Running? ==> Scheduled(l))
      modifies `l
      ensures Valid() && Untouched(old(l), l) && l == HourlyStarted(spool, old(l))
    {
      if !l.active || !l.cfg.enabled || !l.cfg.hourly {
        return;
      }
      if l.state == Stopping {
        l := l.(restart := true);
        return;
      }
      if l.state == Stopped || l.state == Error {
        var _ := StartRun();
      }
    }

    // Closes the channel of a stop; a channel closes once.
    method Close(channel: nat)
      requires channel !in l.closed
      modifies `l
      ensures l == old(l).(closed := old(l).closed + {channel})
    {
      l := l.(closed := l.closed + {channel});
    }

    // Completes a stop once no segment is being finalized.
    method FinishStop()
      requires !l.quit && Core(spool, l) && Allowed(l) && Timers(l) && Scheduled(l) && Planned(l)
      modifies `l
      ensures Invariant(spool, l) && Progress(old(l), l) && (Resumes(old(l)) ==> Resumes(l))
      ensures l == StopFinished(spool, old(l))
    {
      if l.state != Stopping || l.retiring > 0 {
        return;
      }
      l := l.(state := Stopped);
      Close(l.stopped);
      if l.restart {
        l := l.(restart := false);
        StartHourly();
      }
    }

    // Ends the run. The channel returned closes once every segment is finalized.
    method Stop() returns (channel: nat)
      requires !l.quit && Core(spool, l) && Ending(l)
      modifies `l
      ensures Invariant(spool, l) && Progress(old(l), l)
      ensures Over(l.state) && !l.restart && channel == l.stopped && (channel in l.closed <==> l.state.Stopped?)
      ensures channel == if Over(old(l).state) then old(l).stopped else old(l).stopped + 1
      ensures l.state.Stopped? <==> l.retiring == 0 && !old(l).state.Stopping?
      ensures l.segments == if old(l).seg.Some? then WithFate(old(l).segments, old(l).seg.value, Retired) else old(l).segments
      ensures l.cfg == old(l).cfg && l.active == old(l).active && l.jobs == old(l).jobs && l.accepted == old(l).accepted
    {
      l := l.(restart := false);
      if l.state == Stopped || l.state == Stopping {
        return l.stopped;
      }
      BeginStop();
      FinishStop();
      return l.stopped;
    }

    // Capture, timers and pending preparation go, and the current segment is retired.
    method BeginStop()
      requires !l.quit && Core(spool, l) && !Over(l.state)
      modifies `l
      ensures Core(spool, l) && Progress(old(l), l) && l.stopped == old(l).stopped + 1
      ensures l.state.Stopping? && l.hourly.None? && l.duration.None? && l.next.None? && l.seg.None? && !l.restart
      ensures l.segments == if old(l).seg.Some? then WithFate(old(l).segments, old(l).seg.value, Retired) else old(l).segments
      ensures l.retiring == old(l).retiring + if old(l).seg.Some? then 1 else 0
      ensures l.cfg == old(l).cfg && l.active == old(l).active && l.jobs == old(l).jobs && l.accepted == old(l).accepted && !l.quit
    {
      l := l.(stopped := l.stopped + 1);
      l := EndRun(l, Stopping);
      if l.seg.Some? {
        LetGoKeepsFacts(spool, l);
        l := LetGo(l);
      }
    }

    // Events.

    // Capture started; an enabled hourly recorder starts.
    method Activate()
      requires Valid() && !l.quit
      modifies `l
      ensures Valid() && Progress(old(l), l) && l == HourlyStarted(spool, old(l).(active := true))
    {
      l := l.(active := true);
      StartHourly();
    }

    // Stops the recorder and refuses starts until the next activation.
    method Deactivate() returns (channel: nat)
      requires Valid() && !l.quit
      modifies `l
      ensures Valid() && Progress(old(l), l) && !l.active
      ensures Over(l.state) && !l.restart && channel == l.stopped && (channel in l.closed <==> l.state.Stopped?)
    {
      l := l.(active := false);
      channel := Stop();
    }

    method StartOnDemand() returns (result: StartResult)
      requires Valid() && !l.quit
      modifies `l
      ensures Valid() && Progress(old(l), l)
      ensures result.Started? <==> old(l).active && !old(l).cfg.hourly && old(l).cfg.enabled && (old(l).state.Stopped? || old(l).state.Error?)
      ensures (result.ManagerNotRunning? <==> !old(l).active) && (result.HourlyNotControllable? <==> old(l).active && old(l).cfg.hourly)
      ensures result.Disabled? <==> old(l).active && !old(l).cfg.hourly && !old(l).cfg.enabled
      ensures l == if result.Started? then Began(spool, old(l)) else old(l)
    {
      if !l.active {
        return ManagerNotRunning;
      } else if l.cfg.hourly {
        return HourlyNotControllable;
      } else if !l.cfg.enabled {
        return Disabled;
      }
      result := StartRun();
    }

    method StopOnDemand() returns (result: StopResult)
      requires Valid() && !l.quit
      modifies `l
      ensures Valid() && Progress(old(l), l)
      ensures result.Stops? <==> !old(l).cfg.hourly && Under(old(l).state)
      ensures result.NotControllable? <==> old(l).cfg.hourly
      ensures result.Stops? ==> Over(l.state) && result.channel == l.stopped == old(l).stopped + 1
      ensures !result.Stops? ==> l == old(l)
    {
      if l.cfg.hourly {
        return NotControllable;
      } else if l.state != Running && l.state != Starting {
        return NotRecording;
      }
      var channel := Stop();
      return Stops(channel);
    }

    method SetMaxDuration(minutes: int)
      requires Valid()
      modifies `l
      ensures Valid() && l == old(l).(maxMinutes := minutes)
    {
      l := l.(maxMinutes := minutes);
    }

    // A timer acts only while it is still the one in its slot.
    method FireTimer(timer: nat)
      requires Valid() && !l.quit && timer < |l.tasks|
      modifies `l
      ensures Valid() && Progress(old(l), l)
      ensures old(l).hourly != Some(timer) && old(l).duration != Some(timer) ==> l == old(l)
      ensures old(l).hourly == Some(timer) ==>
                l == if old(l).state.Running? then Prepare(spool, old(l).(hourly := None)) else Began(spool, old(l))
      ensures old(l).duration == Some(timer) ==> Over(l.state)
    {
      if l.hourly == Some(timer) {
        l := l.(hourly := None);
        if l.tasks[timer] == Rotate {
          PrepareKeepsFacts(spool, l);
          l := Prepare(spool, l);
        } else {
          StartHourly();
        }
      } else if l.duration == Some(timer) {
        l := l.(duration := None);
        var _ := Stop();
      }
    }

    // The result of job `j` reaches the loop, or finds it gone. Only the pending job counts; what
    // any other opened is abandoned.
    method Prepared(j: nat)
      requires Valid() && j < |l.jobs| && (l.jobs[j].phase.Opened? || l.jobs[j].phase.OpenFailed?)
      modifies `l
      ensures Valid() && Progress(old(l), l) && l.jobs == WithPhase(old(l).jobs, j, Done)
      ensures old(l).quit || old(l).next != Some(j) ==> l == Abandon(old(l), j)
      ensures !old(l).quit && old(l).next == Some(j) ==>
                l.next.None? && l.cfg == old(l).cfg && (l.hourly.Some? <==> l.cfg.hourly)
      ensures !old(l).quit && old(l).next == Some(j) && old(l).jobs[j].phase.OpenFailed? ==>
                l.seg == old(l).seg && l.channels == old(l).channels && (l.state.Running? || l.state.Error?)
      ensures !old(l).quit && old(l).next == Some(j) && old(l).jobs[j].phase.Opened? ==>
                NowCurrent(old(l), l, old(l).jobs[j].phase.segment)
    {
      if l.quit || l.next != Some(j) {
        AbandonKeepsFacts(spool, l, j);
        l := Abandon(l, j);
      } else if l.jobs[j].phase.OpenFailed? {
        PrepareFailed(j);
      } else {
        Succeed(j);
      }
    }

    // The first segment of a run failing ends the run; a later one keeps the current encoder going.
    method PrepareFailed(j: nat)
      requires Valid() && !l.quit && l.next == Some(j) && l.jobs[j].phase.OpenFailed?
      modifies `l
      ensures Valid() && Progress(old(l), l) && l.jobs == WithPhase(old(l).jobs, j, Done)
      ensures l.next.None? && l.cfg == old(l).cfg && l.seg == old(l).seg && l.channels == old(l).channels
      ensures (l.hourly.Some? <==> l.cfg.hourly) && (l.state.Running? || l.state.Error?)
    {
      l := l.(next := None);
      AbandonKeepsFacts(spool, l, j);
      l := Abandon(l, j);
      if l.seg.None? {
        l := RunFailed(l);
        return;
      }
      l := l.(failedPrepare := true);
      if l.cfg.hourly {
        l := ArmHourly(l, Rotate);
      }
    }

    // Make before break: capture moves to the new segment, then the previous one is finalized.
    method Succeed(j: nat)
      requires Valid() && !l.quit && l.next == Some(j) && l.jobs[j].phase.Opened?
      modifies `l
      ensures Valid() && Progress(old(l), l) && l.jobs == WithPhase(old(l).jobs, j, Done)
      ensures l.next.None? && l.cfg == old(l).cfg && (l.hourly.Some? <==> l.cfg.hourly)
      ensures NowCurrent(old(l), l, old(l).jobs[j].phase.segment)
    {
      assert Carries(l.jobs, j, l.segments);
      TakenOverKeepsInvariant(spool, l, j);
      var previous := l.seg;
      l := l.(next := None, failedPrepare := false);
      l := Begin(l, j);
      if previous.None? {
        l := l.(state := Running, recording := true);
        if !l.cfg.hourly {
          l := ArmDurationLimit(l);
        }
      } else {
        l := Retire(l, previous.value);
      }
      if l.cfg.hourly {
        l := ArmHourly(l, Rotate);
      }
      assert l == TakenOver(old(l), j);
    }

    // The finalization of a segment is reported; the last one completes a stop in progress.
    method Finalized(s: nat)
      requires Valid() && !l.quit && s in l.finalizing
      modifies `l
      ensures Valid() && Progress(old(l), l)
      ensures l == StopFinished(spool, old(l).(retiring := old(l).retiring - 1, finalizing := old(l).finalizing - {s}))
    {
      l := l.(retiring := l.retiring - 1, finalizing := l.finalizing - {s});
      FinishStop();
    }

    // An encoder broke; one that is no longer current is finished by a stop or a rotation.
    method WriteFailed(s: nat)
      requires Valid() && !l.quit && s < |l.segments|
      modifies `l
      ensures Valid() && Progress(old(l), l)
      ensures old(l).seg != Some(s) ==> l == old(l)
      ensures old(l).seg == Some(s) ==>
                && l.state.Error? && l.next.None? && l.duration.None? && (l.hourly.Some? <==> l.cfg.hourly) && l.cfg == old(l).cfg
                && l.segments == WithFate(old(l).segments, s, Retired) && s in l.finalizing
                && l.channels == Switched(old(l).channels, None)
    {
      if l.seg != Some(s) {
        return;
      }
      LetGoKeepsFacts(spool, l);
      l := LetGo(l);
      l := RunFailed(l);
    }

    // Makes `cfg` the configuration. A running recorder keeps its segment until the next is ready.
    // The channel returned, if any, closes when the stop the change caused is done.
    method ApplyConfig(cfg: Config) returns (stop: Option<nat>)
      requires Valid() && !l.quit
      modifies `l
      ensures Valid() && Progress(old(l), l) && l.cfg == cfg && l.active == old(l).active
      ensures stop.Some? <==> !cfg.enabled || (!cfg.hourly && old(l).state.Error?)
      ensures stop.Some? ==> Over(l.state) && stop.value == l.stopped && (stop.value in l.closed <==> l.state.Stopped?)
      ensures stop.None? && old(l).state.Running? ==> KeepsRunning(old(l), l)
      ensures stop.None? && old(l).state.Starting? ==> l == Restarted(spool, old(l), cfg)
      ensures stop.None? && !Under(old(l).state) ==> l == HourlyStarted(spool, old(l).(cfg := cfg))
    {
      var before := l.cfg;
      l := l.(cfg := cfg);
      if !cfg.enabled || (!cfg.hourly && l.state == Error) {
        var channel := Stop();
        return Some(channel);
      }
      if old(l).state.Running? {
        AdjustmentKeepsRunning(spool, old(l), cfg);
      } else {
        AdjustmentStarts(spool, old(l), cfg);
      }
      Adjust(before);
      return None;
    }

    method Adjust(before: Config)
      requires Invariant(spool, l.(cfg := before)) && l.cfg.enabled && (l.cfg.hourly || !l.state.Error?)
      modifies `l
      ensures Valid() && Untouched(old(l), l) && l == Adjusted(spool, old(l), before)
    {
      SwitchMode(before);
      Replan(before);
      StartHourly();
    }

    // A run that changes mode changes its timers; leaving hourly mode cancels a pending rotation.
    method SwitchMode(before: Config)
      requires Invariant(spool, l.(cfg := before)) && l.cfg.enabled && (l.cfg.hourly || !l.state.Error?)
      modifies `l
      ensures Core(spool, l) && Ending(l) && Allowed(l) && Timers(l) && (l.state.Running? ==> Scheduled(l))
      ensures l.next.Some? ==> SameOutput(l.jobs[l.next.value].cfg, before)
      ensures Untouched(old(l), l) && l == ModeSwitched(old(l), before.hourly)
    {
      ModeSwitchedKeepsCore(spool, l, before);
      if l.state == Running && l.cfg.hourly != before.hourly {
        if l.cfg.hourly {
          l := l.(duration := None);
          l := ArmHourly(l, Rotate);
        } else {
          l := l.(hourly := None);
          l := l.(next := None);
          l := ArmDurationLimit(l);
        }
      }
    }

    // A segment being prepared has the output of the previous settings; without one, the current
    // segment's output is what runs. Other output than that asks for a new segment.
    method Replan(before: Config)
      requires Core(spool, l) && Ending(l) && Allowed(l) && Timers(l) && (l.state.Running? ==> Scheduled(l))
      requires l.next.Some? ==> SameOutput(l.jobs[l.next.value].cfg, before)
      modifies `l
      ensures Core(spool, l) && Ending(l) && Allowed(l) && Timers(l) && Planned(l) && (l.state.Running? ==> Scheduled(l))
      ensures Untouched(old(l), l) && l == Replanned(spool, old(l), before)
    {
      if l.state == Running || l.state == Starting {
        var planned := if l.next.None? then l.segments[l.seg.value].cfg else before;
        l := l.(failedPrepare := false);
        if !SameOutput(planned, l.cfg) {
          PrepareAnew();
        }
      }
    }

    // A preparation with the settings of the moment supersedes any other.
    method PrepareAnew()
      requires Core(spool, l) && Under(l.state) && Ending(l) && Allowed(l) && Timers(l) && (l.state.Running? ==> Scheduled(l))
      modifies `l
      ensures Core(spool, l) && Ending(l) && Allowed(l) && Timers(l) && Planned(l) && (l.state.Running? ==> Scheduled(l))
      ensures l == Prepare(spool, old(l))
    {
      PrepareKeepsFacts(spool, l);
      l := Prepare(spool, l);
    }

    // One poll of waitForClock by the helper of job `j`, which gives up once the job is stale. A
    // clock that had to be waited for takes the configuration of that moment.
    method PollClock(j: nat, synced: bool)
      requires Valid() && j < |l.jobs| && l.jobs[j].phase.Waiting?
      modifies `l
      ensures Valid() && Progress(old(l), l)
      ensures |l.jobs| == |old(l).jobs| && l == old(l).(jobs := old(l).jobs[j := l.jobs[j]])
      ensures l.jobs[j] == if l.quit || l.next != Some(j) then old(l).jobs[j].(phase := Done)
                           else if !synced then old(l).jobs[j].(phase := Waiting(true))
                           else old(l).jobs[j].(phase := Opening, cfg := if old(l).jobs[j].phase.warned then l.cfg else old(l).jobs[j].cfg)
    {
      var job := l.jobs[j];
      if l.quit || l.next != Some(j) {
        job := job.(phase := Done);
      } else if !synced {
        job := job.(phase := Waiting(true));
      } else if job.phase.warned {
        job := job.(phase := Opening, cfg := l.cfg);
      } else {
        job := job.(phase := Opening);
      }
      MoveKeepsFacts(spool, l, j, job);
      l := l.(jobs := l.jobs[j := job]);
    }

    // openSegment by the helper of job `j`; nothing is started once the loop has ended.
    method OpenSegment(j: nat)
      requires Valid() && j < |l.jobs| && l.jobs[j].phase.Opening?
      modifies `l
      ensures Valid() && Progress(old(l), l)
      ensures |l.jobs| == |old(l).jobs|
      ensures l == old(l).(jobs := WithPhase(old(l).jobs, j, l.jobs[j].phase), segments := l.segments)
      ensures l.jobs[j].phase.Opened? || (l.jobs[j].phase.OpenFailed? && l.segments == old(l).segments)
      ensures l.jobs[j].phase.Opened? ==>
                && !l.quit && l.jobs[j].phase.segment == |old(l).segments|
                && l.segments == old(l).segments + [Segment(j, l.jobs[j].cfg, InFlight)]
    {
      var started: bool := *;
      if l.quit || !started {
        MoveKeepsFacts(spool, l, j, l.jobs[j].(phase := OpenFailed));
        l := l.(jobs := WithPhase(l.jobs, j, OpenFailed));
      } else {
        OpenKeepsOwned(l.seg, l.jobs, l.segments, l.finalizing, j);
        l := l.(jobs := WithPhase(l.jobs, j, Opened(|l.segments|)), segments := l.segments + [Segment(j, l.jobs[j].cfg, InFlight)]);
      }
    }

    // Capture hands over a chunk: it goes to the current segment, is counted as dropped when the
    // buffer is full, and is ignored while nothing records.
    method WriteAudio(chunk: Chunk)
      requires Valid()
      modifies `l
      ensures Valid() && Progress(old(l), l)
      ensures l == old(l).(channels := l.channels, accepted := l.accepted, drops := l.drops)
      ensures l.seg.None? ==> l == old(l)
      ensures l.seg.Some? ==> (l.drops == old(l).drops <==> |old(l).channels[|old(l).channels| - 1].sent| - old(l).channels[|old(l).channels| - 1].taken < AUDIO_BUFFER_CHUNKS)
      ensures l.seg.Some? ==>
                && old(l).channels != [] && old(l).channels[|old(l).channels| - 1].open
                && old(l).channels[|old(l).channels| - 1].segment == l.seg.value
                && if HasRoom(old(l).channels) then l.accepted == old(l).accepted + [chunk] && l.drops == old(l).drops
                   else l == old(l).(drops := old(l).drops + 1)
    {
      if l.audio.None? || !l.recording {
        return;
      }
      if HasRoom(l.channels) {
        SendKeepsSound(l.audio, l.channels, chunk);
        l := l.(channels := Sent(l.channels, chunk), accepted := l.accepted + [chunk]);
      } else {
        l := l.(drops := l.drops + 1);
      }
    }

    // The writer of channel `c` takes the next chunk.
    method TakeAudio(c: nat) returns (chunk: Chunk)
      requires Valid() && c < |l.channels| && l.channels[c].taken < |l.channels[c].sent|
      modifies `l
      ensures Valid() && Progress(old(l), l) && chunk == old(l).channels[c].sent[old(l).channels[c].taken]
      ensures l == old(l).(channels := Taken(old(l).channels, c))
    {
      chunk := l.channels[c].sent[l.channels[c].taken];
      TakeKeepsFacts(spool, l, c);
      l := l.(channels := Taken(l.channels, c));
    }

    // The loop ends; waiters of a stop in progress are released.
    method Quit()
      requires Valid() && !l.quit
      modifies `l
      ensures Valid() && Progress(old(l), l) && l.quit
      ensures l.stopped in l.closed
      ensures !l.active ==> l.seg.None? && l.next.None?
    {
      if l.state == Stopping {
        Close(l.stopped);
      }
      l := l.(quit := true);
    }
  }

  // Segment `i` took over: from nothing, or from a segment that is now being finalized.
  ghost predicate NowCurrent(l: Run, l': Run, i: nat) {
    && l'.seg == Some(i) && i < |l'.segments| && SameOutput(l'.segments[i].cfg, l'.cfg)
    && l'.state.Running? && l'.channels == Switched(l.channels, Some(i))
    && (l.seg.Some? ==>
         l.seg.value < |l'.segments| && l'.segments[l.seg.value].fate == Retired && l.seg.value in l'.finalizing
         && l'.duration == l.duration)
    && (l.seg.None? ==> (l'.duration.Some? <==> !l'.cfg.hourly && l'.maxMinutes > 0))
  }

  // Whether the channel capture writes to can take a chunk.
  predicate HasRoom(channels: seq<Channel>)
    requires channels != []
  {
    |channels[|channels| - 1].sent| < channels[|channels| - 1].taken + AUDIO_BUFFER_CHUNKS
  }

  function Sent(channels: seq<Channel>, chunk: Chunk): seq<Channel>
    requires channels != []
  {
    channels[|channels| - 1 := channels[|channels| - 1].(sent := channels[|channels| - 1].sent + [chunk])]
  }

  function Taken(channels: seq<Channel>, c: nat): seq<Channel>
    requires c < |channels|
  {
    channels[c := channels[c].(taken := channels[c].taken + 1)]
  }

  lemma SendKeepsSound(audio: Option<nat>, channels: seq<Channel>, chunk: Chunk)
    requires Sound(audio, channels) && audio.Some? && HasRoom(channels)
    ensures Sound(audio, Sent(channels, chunk)) && AllSent(Sent(channels, chunk)) == AllSent(channels) + [chunk]
  {
    var last := |channels| - 1;
    assert Sent(channels, chunk)[..last] == channels[..last];
    assert AllSent(channels[..last]) + (channels[last].sent + [chunk]) == AllSent(channels) + [chunk];
  }

  lemma {:induction false} TakeKeepsSent(channels: seq<Channel>, c: nat)
    requires c < |channels|
    ensures AllSent(Taken(channels, c)) == AllSent(channels)
  {
    var last := |channels| - 1;
    if c == last {
      assert Taken(channels, c)[..last] == channels[..last];
    } else {
      TakeKeepsSent(channels[..last], c);
      assert Taken(channels, c)[..last] == Taken(channels[..last], c);
    }
  }

  lemma TakeKeepsFacts(spool: string, l: Run, c: nat)
    requires Facts(spool, l) && c < |l.channels| && l.channels[c].taken < |l.channels[c].sent|
    ensures Facts(spool, l.(channels := Taken(l.channels, c)))
  {
    TakeKeepsSent(l.channels, c);
  }

  lemma ClosedKeepsSent(channels: seq<Channel>)
    ensures AllSent(Closed(channels)) == AllSent(channels)
  {
    if channels != [] {
      assert Closed(channels)[..|channels| - 1] == channels[..|channels| - 1];
    }
  }

  // A hand-over loses nothing that was sent.
  lemma SwitchKeepsSent(channels: seq<Channel>, to: Option<nat>)
    ensures AllSent(Switched(channels, to)) == AllSent(channels)
  {
    ClosedKeepsSent(channels);
    var closed := Closed(channels);
    if to.Some? {
      var last := Channel(to.value, [], 0, true);
      assert Switched(channels, to) == closed + [last];
      assert (closed + [last])[..|closed|] == closed;
      assert AllSent(closed + [last]) == AllSent(closed) + [];
    } else {
      assert Switched(channels, to) == closed;
    }
  }

  lemma SwitchKeepsSound(audio: Option<nat>, channels: seq<Channel>, to: Option<nat>)
    requires Sound(audio, channels)
    ensures Sound(to, Switched(channels, to))
  {
  }
}
