/**
  The claim, stop and retry protocol of the stream manager (internal/streaming/manager.go).

  The state is that of one stream ID; IDs do not share anything the protocol uses. Each method of
  Manager is one region under the manager's lock, or one step of a starter, a Stop or a retry
  monitor between two such regions, so calling them in any order is any interleaving. An entry and
  the placeholder that claims it are one entry here: it is a placeholder until it is published, and
  from then on only the running entry of the source is ever looked up. Entries are identified by
  their index, as the source identifies them by pointer.
 */
module Streams {
  import opened Tickets

  datatype Mode = Caller | Listener
  datatype EntryState = Starting | Running | Exited | Stopping | Error

  // Where the starter of an entry is; Gone has returned.
  datatype Starter = Releasing(replaced: Option<nat>) | Preparing | PortBound | Launched | Gone

  datatype Process = NoProcess | Alive | Ended
  datatype Port = Unbound | Bound | Closed

  datatype Entry = Entry(
    mode: Mode,
    state: EntryState,
    starter: Starter,
    cancelled: bool,   // The context of its startup, or of its latest encoder.
    process: Process,
    port: Port,
    stops: nat,        // How many Stop calls took it on; each emits one stopped event.
    duties: nat,       // How many Stop calls and monitors are about to stop its resources.
    replacing: bool)   // A claim that replaced it is about to stop its resources.

  // Where a retry monitor is. A caller goes Watching, ExitSeen, Judged, Waiting, Claiming,
  // Restarting; a listener goes Watching, Retrying, Delaying, Reserving, Reserved, Holding, Checking, or
  // ends by GivingUp.
  datatype Stage =
    | Watching | ExitSeen | Judged | Waiting | Claiming | Restarting(claim: nat)
    | Retrying | Delaying | GivingUp | Reserving | Reserved | Holding | Checking
    | Over

  datatype Monitor = Monitor(owned: nat, stage: Stage)

  datatype State = State(
    entries: seq<Entry>,
    current: Option<nat>,   // The managed entry.
    monitors: seq<Monitor>,
    revived: bool)          // An entry was published or restarted after Stop took it on.

  predicate AfterExit(stage: Stage) {
    stage.ExitSeen? || stage.Judged? || stage.Waiting? || stage.Claiming?
  }

  predicate InRetry(stage: Stage) {
    stage.Retrying? || stage.Delaying? || stage.GivingUp? || stage.Reserving? || stage.Reserved? || stage.Holding?
  }

  predicate OnDuty(x: Entry) {
    x.duties > 0 || x.replacing
  }

  // What holds of an entry, given whether it is current and whether a monitor has yet to check an
  // encoder it just started for it. What starts is current until a Stop takes it on, and what runs is not
  // replaced. The last two lines say that nothing leaks.
  predicate EntryOk(x: Entry, current: bool, checked: bool) {
    && (x.starter != Gone ==> x.state.Starting?)
    && (x.state.Starting? && x.starter == Gone ==> !current)
    && (x.replacing ==> !current && !x.state.Running?)
    && (!current && x.stops == 0 ==> x.starter == Gone)
    && (x.starter != Gone && !x.starter.Launched? ==> x.process == NoProcess)
    && (x.starter.Releasing? || x.starter.Preparing? ==> x.port == Unbound)
    && (x.stops > 0 ==> x.stops == 1 && x.cancelled && !x.state.Running? && (current ==> x.state.Stopping?))
    && (x.state.Stopping? ==> x.stops == 1 && (OnDuty(x) || ((x.process != Alive || checked) && x.port != Bound)))
    && (x.process == Alive ==> current || x.starter != Gone || OnDuty(x) || checked)
    && (x.port == Bound ==> current || x.starter != Gone || OnDuty(x))
  }

  predicate MonitorOk(m: Monitor, x: Entry, current: bool) {
    && x.starter == Gone && !x.state.Starting?
    && (AfterExit(m.stage) || m.stage.Restarting? ==> x.mode == Caller)
    && (AfterExit(m.stage) && current ==> x.state.Exited? || x.state.Error?)
    && (InRetry(m.stage) || m.stage.Checking? ==> x.mode == Listener)
    && (InRetry(m.stage) ==> x.process == NoProcess)
  }

  ghost predicate Checked(monitors: seq<Monitor>, e: nat) {
    exists i :: 0 <= i < |monitors| && monitors[i] == Monitor(e, Checking)
  }

  ghost predicate Entries(s: State) {
    && (s.current.Some? ==> s.current.value < |s.entries|)
    && forall e | 0 <= e < |s.entries| :: EntryOk(s.entries[e], s.current == Some(e), Checked(s.monitors, e))
  }

  ghost predicate Monitors(s: State) {
    && (forall i | 0 <= i < |s.monitors| ::
         && s.monitors[i].owned < |s.entries|
         && MonitorOk(s.monitors[i], s.entries[s.monitors[i].owned], s.current == Some(s.monitors[i].owned))
         && (s.monitors[i].stage.Restarting? ==> s.monitors[i].stage.claim < |s.entries|))
    && (forall i, j | 0 <= i < j < |s.monitors| && InRetry(s.monitors[i].stage) && InRetry(s.monitors[j].stage) ::
         s.monitors[i].owned != s.monitors[j].owned)
  }

  ghost predicate Invariant(s: State) {
    Entries(s) && Monitors(s) && !s.revived
  }

  // What the steps need to make sense at all; the protocol may be broken.
  ghost predicate Shaped(s: State) {
    && (s.current.Some? ==> s.current.value < |s.entries|)
    && forall i | 0 <= i < |s.monitors| ::
         s.monitors[i].owned < |s.entries| && (s.monitors[i].stage.Restarting? ==> s.monitors[i].stage.claim < |s.entries|)
  }

  // What the invariant means: there is one starter at a time but for those a Stop took on, none
  // replaces what runs, Stop takes an entry on once and ends it for good, and what is not anyone's to
  // stop any more is stopped.
  lemma StoppedStaysStopped(s: State, e: nat)
    requires Invariant(s) && e < |s.entries|
    ensures s.entries[e].starter != Gone && s.entries[e].stops == 0 ==> s.current == Some(e)
    ensures s.entries[e].replacing ==> s.current != Some(e) && !s.entries[e].state.Running?
    ensures s.entries[e].stops <= 1
    ensures s.entries[e].stops > 0 ==> !s.entries[e].state.Running? && (s.current == Some(e) ==> s.entries[e].starter == Gone)
    ensures s.current != Some(e) && s.entries[e].starter == Gone && !OnDuty(s.entries[e]) && !Checked(s.monitors, e) ==>
              s.entries[e].process != Alive && s.entries[e].port != Bound
  {
    assert EntryOk(s.entries[e], s.current == Some(e), Checked(s.monitors, e));
  }

  // Steps.

  function WithEntry(s: State, e: nat, x: Entry): State
    requires e < |s.entries|
  {
    s.(entries := s.entries[e := x])
  }

  // stopStreamResources. The process of a starting entry is still its starter's.
  function Released(x: Entry): Entry {
    x.(cancelled := true,
       process := if x.process == Alive && x.starter == Gone then Ended else x.process,
       port := if x.port == Bound then Closed else x.port)
  }

  predicate Owns(s: State, e: nat)
    requires e < |s.entries|
  {
    s.current == Some(e) && !s.entries[e].state.Stopping?
  }

  function NewEntry(mode: Mode, replaced: Option<nat>): Entry {
    Entry(mode, Starting, Releasing(replaced), false, NoProcess, Unbound, 0, 0, false)
  }

  // The lemmas below are about one entry changing, and perhaps no longer being current.

  lemma EntryChanges(s: State, e: nat, x: Entry, current: Option<nat>)
    requires Invariant(s) && e < |s.entries|
    requires current == s.current || (current.None? && s.current == Some(e))
    requires EntryOk(x, current == Some(e), Checked(s.monitors, e))
    requires x.mode == s.entries[e].mode
    requires s.entries[e].starter == Gone && !s.entries[e].state.Starting? ==> x.starter == Gone && !x.state.Starting?
    requires x.process == NoProcess || s.entries[e].process != NoProcess || s.entries[e].starter != Gone
    requires current == Some(e) && (s.entries[e].state.Exited? || s.entries[e].state.Error?) ==> x.state.Exited? || x.state.Error?
    ensures Invariant(WithEntry(s, e, x).(current := current))
  {
    var s' := WithEntry(s, e, x).(current := current);
    forall f | 0 <= f < |s'.entries|
      ensures EntryOk(s'.entries[f], s'.current == Some(f), Checked(s'.monitors, f))
    {
      assert EntryOk(s.entries[f], s.current == Some(f), Checked(s.monitors, f));
    }
    forall i | 0 <= i < |s'.monitors|
      ensures MonitorOk(s'.monitors[i], s'.entries[s'.monitors[i].owned], s'.current == Some(s'.monitors[i].owned))
    {
      assert MonitorOk(s.monitors[i], s.entries[s.monitors[i].owned], s.current == Some(s.monitors[i].owned));
    }
  }

  function WithStage(s: State, i: nat, stage: Stage): State
    requires i < |s.monitors|
  {
    s.(monitors := s.monitors[i := s.monitors[i].(stage := stage)])
  }

  // A monitor moves on; one that has checked its encoder no longer answers for it.
  lemma MonitorMoves(s: State, i: nat, stage: Stage)
    requires Invariant(s) && i < |s.monitors|
    requires var e := s.monitors[i].owned;
      && MonitorOk(s.monitors[i].(stage := stage), s.entries[e], s.current == Some(e))
      && EntryOk(s.entries[e], s.current == Some(e), false)
    requires stage.Restarting? ==> stage.claim < |s.entries|
    requires InRetry(stage) && !InRetry(s.monitors[i].stage) ==>
               forall j | 0 <= j < |s.monitors| && InRetry(s.monitors[j].stage) :: s.monitors[j].owned != s.monitors[i].owned
    ensures Invariant(WithStage(s, i, stage))
  {
    var s' := WithStage(s, i, stage);
    forall f | 0 <= f < |s'.entries|
      ensures EntryOk(s'.entries[f], s'.current == Some(f), Checked(s'.monitors, f))
    {
      assert EntryOk(s.entries[f], s.current == Some(f), Checked(s.monitors, f));
      if f != s.monitors[i].owned {
        CheckedByOthers(s.monitors, i, stage, f);
      }
    }
    forall j | 0 <= j < |s'.monitors|
      ensures MonitorOk(s'.monitors[j], s'.entries[s'.monitors[j].owned], s'.current == Some(s'.monitors[j].owned))
    {
      assert MonitorOk(s.monitors[j], s.entries[s.monitors[j].owned], s.current == Some(s.monitors[j].owned));
    }
  }

  lemma CheckedByOthers(monitors: seq<Monitor>, i: nat, stage: Stage, e: nat)
    requires i < |monitors| && monitors[i].owned != e
    ensures Checked(monitors[i := monitors[i].(stage := stage)], e) == Checked(monitors, e)
  {
    var monitors' := monitors[i := monitors[i].(stage := stage)];
    if Checked(monitors, e) {
      var j :| 0 <= j < |monitors| && monitors[j] == Monitor(e, Checking);
      assert monitors'[j] == Monitor(e, Checking);
    }
    if Checked(monitors', e) {
      var j :| 0 <= j < |monitors'| && monitors'[j] == Monitor(e, Checking);
      assert monitors[j] == Monitor(e, Checking);
    }
  }

  lemma EntryJoins(s: State, x: Entry)
    requires Invariant(s) && s.current.None?
    requires x.state.Starting? && x.starter != Gone && x.stops == 0 && !x.replacing && x.process == NoProcess && x.port == Unbound
    ensures Invariant(s.(entries := s.entries + [x], current := Some(|s.entries|)))
  {
    var s' := s.(entries := s.entries + [x], current := Some(|s.entries|));
    forall f | 0 <= f < |s'.entries|
      ensures EntryOk(s'.entries[f], s'.current == Some(f), Checked(s'.monitors, f))
    {
      if f < |s.entries| {
        assert EntryOk(s.entries[f], false, Checked(s.monitors, f));
      }
    }
    forall i | 0 <= i < |s'.monitors|
      ensures MonitorOk(s'.monitors[i], s'.entries[s'.monitors[i].owned], s'.current == Some(s'.monitors[i].owned))
    {
      assert MonitorOk(s.monitors[i], s.entries[s.monitors[i].owned], s.current == Some(s.monitors[i].owned));
    }
  }

  // An encoder started by a monitor becomes its entry's; no other monitor retries that entry.
  lemma EncoderAttaches(s: State, i: nat)
    requires Invariant(s) && i < |s.monitors| && s.monitors[i].stage.Holding?
    ensures var e := s.monitors[i].owned;
      Invariant(WithEntry(WithStage(s, i, Checking), e, s.entries[e].(process := Alive)))
  {
    var e := s.monitors[i].owned;
    var s' := WithEntry(WithStage(s, i, Checking), e, s.entries[e].(process := Alive));
    assert s'.monitors[i] == Monitor(e, Checking);
    forall f | 0 <= f < |s'.entries|
      ensures EntryOk(s'.entries[f], s'.current == Some(f), Checked(s'.monitors, f))
    {
      assert EntryOk(s.entries[f], s.current == Some(f), Checked(s.monitors, f));
      if f != e {
        CheckedByOthers(s.monitors, i, Checking, f);
      }
    }
    forall j | 0 <= j < |s'.monitors|
      ensures MonitorOk(s'.monitors[j], s'.entries[s'.monitors[j].owned], s'.current == Some(s'.monitors[j].owned))
    {
      assert MonitorOk(s.monitors[j], s.entries[s.monitors[j].owned], s.current == Some(s.monitors[j].owned));
    }
  }

  lemma MonitorJoins(s: State, e: nat)
    requires Invariant(s) && e < |s.entries| && s.entries[e].starter == Gone && !s.entries[e].state.Starting?
    ensures Invariant(s.(monitors := s.monitors + [Monitor(e, Watching)]))
  {
    var s' := s.(monitors := s.monitors + [Monitor(e, Watching)]);
    forall f | 0 <= f < |s'.entries|
      ensures EntryOk(s'.entries[f], s'.current == Some(f), Checked(s'.monitors, f))
    {
      assert EntryOk(s.entries[f], s.current == Some(f), Checked(s.monitors, f));
      if Checked(s.monitors, f) {
        var j :| 0 <= j < |s.monitors| && s.monitors[j] == Monitor(f, Checking);
        assert s'.monitors[j] == Monitor(f, Checking);
      }
      if Checked(s'.monitors, f) {
        var j :| 0 <= j < |s'.monitors| && s'.monitors[j] == Monitor(f, Checking);
        assert s.monitors[j] == Monitor(f, Checking);
      }
    }
  }

  // The unconditional mark of SetError: whatever entry is current becomes failed.
  function ErrorMarked(s: State): State
    requires s.current.Some? ==> s.current.value < |s.entries|
  {
    if s.current.None? then s else WithEntry(s, s.current.value, s.entries[s.current.value].(state := Error))
  }

  predicate MarkIsSafe(s: State)
    requires s.current.Some? ==> s.current.value < |s.entries|
  {
    s.current.Some? ==> !s.entries[s.current.value].state.Starting? && !s.entries[s.current.value].state.Stopping?
  }

  // SetError breaks the protocol exactly when it hits an entry that is starting or being stopped.
  lemma MarkIsSafeIff(s: State)
    requires Invariant(s)
    ensures Invariant(ErrorMarked(s)) <==> MarkIsSafe(s)
  {
    if s.current.Some? {
      var e := s.current.value;
      assert EntryOk(s.entries[e], true, Checked(s.monitors, e));
      if MarkIsSafe(s) {
        EntryChanges(s, e, s.entries[e].(state := Error), s.current);
      } else {
        assert !EntryOk(ErrorMarked(s).entries[e], true, Checked(s.monitors, e));
      }
    }
  }

  // It never does while the monitor that calls it still has the current entry.
  lemma OwnMarkIsSafe(s: State, i: nat)
    requires Invariant(s) && i < |s.monitors| && AfterExit(s.monitors[i].stage)
    requires s.current == Some(s.monitors[i].owned) || s.current.None?
    ensures MarkIsSafe(s)
  {
  }

  // Whether a claim succeeds: nothing runs or starts, and the expected entry, if any, is current.
  predicate MayClaim(s: State, expected: Option<nat>)
    requires s.current.Some? ==> s.current.value < |s.entries|
  {
    && (s.current.Some? ==> !s.entries[s.current.value].state.Running? && !s.entries[s.current.value].state.Starting?)
    && (expected.Some? ==> s.current == expected)
  }

  // A new entry takes the place of the current one, whose resources the claim is about to stop.
  function Claimed(s: State, mode: Mode, expected: Option<nat>): State
    requires s.current.Some? ==> s.current.value < |s.entries|
  {
    s.(entries := Replaced(s).entries + [NewEntry(mode, s.current)],
       current := Some(|s.entries|),
       revived := s.revived || (expected.Some? && expected.value < |s.entries| && s.entries[expected.value].stops > 0))
  }

  function Replaced(s: State): State
    requires s.current.Some? ==> s.current.value < |s.entries|
  {
    if s.current.None? then s
    else WithEntry(s, s.current.value, s.entries[s.current.value].(replacing := true)).(current := None)
  }

  lemma ClaimedKeepsInvariant(s: State, mode: Mode, expected: Option<nat>)
    requires Invariant(s) && MayClaim(s, expected)
    requires expected.Some? ==> s.entries[expected.value].stops == 0
    ensures Invariant(Claimed(s, mode, expected))
  {
    if s.current.Some? {
      EntryChanges(s, s.current.value, s.entries[s.current.value].(replacing := true), None);
    }
    EntryJoins(Replaced(s), NewEntry(mode, s.current));
  }

  function Published(s: State, e: nat): State
    requires e < |s.entries|
  {
    WithEntry(s, e, s.entries[e].(state := Running, starter := Gone)).(revived := s.revived || s.entries[e].stops > 0)
  }

  function StopTaken(x: Entry): Entry {
    x.(cancelled := true, stops := x.stops + 1, duties := x.duties + 1,
       state := if x.state.Running? || (x.mode == Listener && !x.state.Starting?) then Stopping else x.state)
  }

  // The new entry goes on to prepare once the one it replaced, if any, is stopped.
  function ClaimReleases(s: State, e: nat): State
    requires e < |s.entries| && s.entries[e].starter.Releasing?
    requires s.entries[e].starter.replaced.Some? ==> s.entries[e].starter.replaced.value < |s.entries|
  {
    var replaced := s.entries[e].starter.replaced;
    var s' := WithEntry(s, e, s.entries[e].(starter := Preparing));
    if replaced.None? then s'
    else WithEntry(s', replaced.value, Released(s'.entries[replaced.value]).(replacing := false))
  }

  // A start that failed leaves neither its claim nor its port.
  function Aborted(s: State, e: nat): State
    requires e < |s.entries|
  {
    WithEntry(s, e, s.entries[e].(starter := Gone, port := if s.entries[e].port == Bound then Closed else s.entries[e].port))
      .(current := if s.current == Some(e) then None else s.current)
  }

  function ExitMarked(s: State, i: nat): State
    requires Shaped(s) && i < |s.monitors|
  {
    var e := s.monitors[i].owned;
    if Owns(s, e) then WithStage(WithEntry(s, e, s.entries[e].(state := Exited)), i, ExitSeen) else WithStage(s, i, Over)
  }

  lemma ExitMarkedKeepsInvariant(s: State, i: nat)
    requires Invariant(s) && i < |s.monitors| && s.monitors[i].stage.Watching? && s.entries[s.monitors[i].owned].mode == Caller
    ensures Invariant(ExitMarked(s, i))
  {
    var e := s.monitors[i].owned;
    assert MonitorOk(s.monitors[i], s.entries[e], s.current == Some(e));
    if Owns(s, e) {
      assert EntryOk(s.entries[e], true, Checked(s.monitors, e));
      EntryChanges(s, e, s.entries[e].(state := Exited), s.current);
      StageMoves(WithEntry(s, e, s.entries[e].(state := Exited)), i, ExitSeen);
    } else {
      StageMoves(s, i, Over);
    }
  }

  // The entry goes, and its resources are about to be stopped.
  function LetGo(s: State, e: nat): State
    requires e < |s.entries|
  {
    WithEntry(s, e, s.entries[e].(duties := s.entries[e].duties + 1)).(current := None)
  }

  lemma LetGoKeepsInvariant(s: State, e: nat)
    requires Invariant(s) && e < |s.entries| && Owns(s, e) && s.entries[e].starter == Gone
    ensures Invariant(LetGo(s, e))
  {
    assert EntryOk(s.entries[e], true, Checked(s.monitors, e));
    EntryChanges(s, e, s.entries[e].(duties := s.entries[e].duties + 1), None);
  }

  // A failed write of a caller that runs marks it; its process is left to end.
  function WriteMarked(s: State, e: nat): State
    requires e < |s.entries|
  {
    if s.current == Some(e) && s.entries[e].state.Running? then WithEntry(s, e, s.entries[e].(state := Error)) else s
  }

  class Manager {
    var s: State

    ghost predicate Valid()
      reads this
    {
      Invariant(s)
    }

    constructor ()
      ensures Valid() && s == State([], None, [], false)
    {
      s := State([], None, [], false);
    }

    // Starters.

    // claimStream: a new entry, unless another path already runs or starts the stream, the source
    // has ended, or the expected entry is no longer current.
    method Claim(mode: Mode, expected: Option<nat>, active: bool) returns (claimed: Option<nat>)
      requires Shaped(s)
      modifies `s
      ensures Shaped(s)
      ensures old(Valid()) && (expected.Some? && old(s).current == expected ==> old(s).entries[expected.value].stops == 0) ==> Valid()
      ensures claimed.Some? <==> active && MayClaim(old(s), expected)
      ensures claimed.None? ==> s == old(s)
      ensures claimed.Some? ==> s == Claimed(old(s), mode, expected) && claimed == s.current == Some(|old(s).entries|)
    {
      if !active {
        return None;
      }
      if s.current.Some? && (s.entries[s.current.value].state == Running || s.entries[s.current.value].state == Starting) {
        return None;
      }
      if expected.Some? && s.current != expected {
        return None;
      }
      if Invariant(s) && (expected.Some? ==> s.entries[expected.value].stops == 0) {
        ClaimedKeepsInvariant(s, mode, expected);
      }
      s := Claimed(s, mode, expected);
      return s.current;
    }

    // The claim stops the resources of the entry it replaced before it starts its own.
    method ReleaseReplaced(e: nat)
      requires Valid() && e < |s.entries| && s.entries[e].starter.Releasing?
      requires s.entries[e].starter.replaced.Some? ==> s.entries[e].starter.replaced.value < |s.entries|
      modifies `s
      ensures Valid() && s == ClaimReleases(old(s), e)
    {
      var replaced := s.entries[e].starter.replaced;
      EntryChanges(s, e, s.entries[e].(starter := Preparing), s.current);
      s := WithEntry(s, e, s.entries[e].(starter := Preparing));
      if replaced.Some? {
        var x := s.entries[replaced.value];
        EntryChanges(s, replaced.value, Released(x).(replacing := false), s.current);
        s := WithEntry(s, replaced.value, Released(x).(replacing := false));
      }
    }

    // A listener binds its port while it still has the claim, under the lock Stop takes.
    method Bind(e: nat, ok: bool)
      requires Valid() && e < |s.entries| && s.entries[e].starter.Preparing? && s.entries[e].mode == Listener
      modifies `s
      ensures Valid()
      ensures s == if old(s).current == Some(e) && ok then WithEntry(old(s), e, old(s).entries[e].(starter := PortBound, port := Bound))
                   else Aborted(old(s), e)
    {
      if s.current == Some(e) && ok {
        EntryChanges(s, e, s.entries[e].(starter := PortBound, port := Bound), s.current);
        s := WithEntry(s, e, s.entries[e].(starter := PortBound, port := Bound));
      } else {
        Abort(e);
      }
    }

    // A start that failed: the claim goes, and so does a port that was bound for it.
    method Abort(e: nat)
      requires Valid() && e < |s.entries| && s.entries[e].starter != Gone && s.entries[e].process != Alive
      modifies `s
      ensures Valid() && s == Aborted(old(s), e)
    {
      var x := s.entries[e].(starter := Gone, port := if s.entries[e].port == Bound then Closed else s.entries[e].port);
      var current := if s.current == Some(e) then None else s.current;
      EntryChanges(s, e, x, current);
      s := WithEntry(s, e, x).(current := current);
    }

    // Starts the process; a cancelled context refuses.
    method Launch(e: nat, ok: bool)
      requires Valid() && e < |s.entries|
      requires s.entries[e].starter == if s.entries[e].mode == Caller then Preparing else PortBound
      modifies `s
      ensures Valid()
      ensures s == if ok && !old(s).entries[e].cancelled then WithEntry(old(s), e, old(s).entries[e].(starter := Launched, process := Alive))
                   else Aborted(old(s), e)
    {
      if ok && !s.entries[e].cancelled {
        EntryChanges(s, e, s.entries[e].(starter := Launched, process := Alive), s.current);
        s := WithEntry(s, e, s.entries[e].(starter := Launched, process := Alive));
      } else {
        Abort(e);
      }
    }

    // The started stream becomes the managed entry if its claim still stands; what was started
    // under a lost claim is cancelled and waited for. A claim that Stop took on is lost.
    method Publish(e: nat) returns (published: bool)
      requires Shaped(s) && e < |s.entries| && s.entries[e].starter.Launched?
      modifies `s
      ensures Shaped(s) && (old(Valid()) ==> Valid())
      ensures |s.entries| == |old(s).entries| && s.monitors == old(s).monitors && s.current == old(s).current
      ensures published <==> old(s).current == Some(e)
      ensures published ==> s == Published(old(s), e) && (old(Valid()) ==> old(s).entries[e].stops == 0)
      ensures !published ==> s == WithEntry(old(s), e, s.entries[e])
      ensures !published ==> s.entries[e].starter == Gone && s.entries[e].process != Alive && s.entries[e].port != Bound
    {
      published := s.current == Some(e);
      if Invariant(s) {
        PublishKeepsInvariant(s, e);
      }
      s := if published then Published(s, e) else WithEntry(s, e, Released(s.entries[e].(starter := Gone)));
    }

    // A process ends on its own, or because its context was cancelled.
    method ProcessEnds(e: nat)
      requires Shaped(s) && e < |s.entries| && s.entries[e].process == Alive
      modifies `s
      ensures Shaped(s) && (old(Valid()) ==> Valid()) && s == WithEntry(old(s), e, old(s).entries[e].(process := Ended))
    {
      if Invariant(s) {
        EntryChanges(s, e, s.entries[e].(process := Ended), s.current);
      }
      s := WithEntry(s, e, s.entries[e].(process := Ended));
    }

    // runWriter: a write that fails marks the stream as failed while it runs.
    method WriterFails(e: nat)
      requires Valid() && e < |s.entries| && s.entries[e].mode == Caller
      modifies `s
      ensures Valid() && s == WriteMarked(old(s), e)
    {
      if s.current == Some(e) && s.entries[e].state == Running {
        assert EntryOk(s.entries[e], true, Checked(s.monitors, e));
        EntryChanges(s, e, s.entries[e].(state := Error), s.current);
        s := WithEntry(s, e, s.entries[e].(state := Error));
      }
    }

    // Stop.

    // Stop takes on the managed entry, unless another Stop has it. What is not running is removed
    // at once, what runs is removed when its resources are stopped.
    method StopBegins() returns (taken: Option<nat>)
      requires Shaped(s)
      modifies `s
      ensures Shaped(s) && (old(Valid()) ==> Valid()) && s.monitors == old(s).monitors
      ensures taken == if old(s).current.Some? && !old(s).entries[old(s).current.value].state.Stopping? then old(s).current else None
      ensures taken.None? ==> s == old(s)
      ensures taken.Some? ==>
                var e := taken.value;
                && s == WithEntry(old(s), e, StopTaken(old(s).entries[e])).(current := s.current)
                && (old(Valid()) ==> s.entries[e].stops == 1) && s.entries[e].cancelled && s.entries[e].duties > 0
                && s.current == (if s.entries[e].state.Stopping? then Some(e) else None)
    {
      if s.current.None? || s.entries[s.current.value].state == Stopping {
        return None;
      }
      var e := s.current.value;
      var x := StopTaken(s.entries[e]);
      var current := if x.state == Stopping then s.current else None;
      if Invariant(s) {
        assert EntryOk(s.entries[e], true, Checked(s.monitors, e));
        StopKeepsInvariant(s, e, x, current);
      }
      s := WithEntry(s, e, x).(current := current);
      return Some(e);
    }

    // A Stop, or a monitor that removed an entry, stops its resources.
    method StopResources(e: nat)
      requires Valid() && e < |s.entries| && s.entries[e].duties > 0
      modifies `s
      ensures Valid() && s == WithEntry(old(s), e, Released(old(s).entries[e]).(duties := old(s).entries[e].duties - 1))
    {
      var x := Released(s.entries[e]).(duties := s.entries[e].duties - 1);
      EntryChanges(s, e, x, s.current);
      s := WithEntry(s, e, x);
    }

    // Stop returns; the entry it waited for goes, unless another path replaced it meanwhile.
    method StopEnds(e: nat)
      requires Valid() && e < |s.entries| && s.entries[e].state.Stopping?
      requires s.current == Some(e) ==> s.entries[e].duties == 0
      modifies `s
      ensures Valid() && s == old(s).(current := s.current)
      ensures s.current == if old(s).current == Some(e) then None else old(s).current
    {
      if s.current == Some(e) {
        assert EntryOk(s.entries[e], true, Checked(s.monitors, e));
        EntryChanges(s, e, s.entries[e], None);
        assert WithEntry(s, e, s.entries[e]) == s;
        s := s.(current := None);
      }
    }

    // Retry monitors.

    // A monitor begins to watch the managed entry; a placeholder has nothing to watch.
    method Watch() returns (monitor: Option<nat>)
      requires Valid()
      modifies `s
      ensures Valid() && s == old(s).(monitors := s.monitors)
      ensures monitor.Some? <==> old(s).current.Some? && old(s).entries[old(s).current.value].starter == Gone
      ensures s.monitors == old(s).monitors + if monitor.Some? then [Monitor(old(s).current.value, Watching)] else []
    {
      if s.current.None? || s.entries[s.current.value].starter != Gone {
        return None;
      }
      assert EntryOk(s.entries[s.current.value], true, Checked(s.monitors, s.current.value));
      MonitorJoins(s, s.current.value);
      s := s.(monitors := s.monitors + [Monitor(s.current.value, Watching)]);
      return Some(|s.monitors| - 1);
    }

    // The monitor leaves, because the source ended or there is nothing left for it to do.
    method Leave(i: nat)
      requires Valid() && i < |s.monitors| && !s.monitors[i].stage.Checking?
      modifies `s
      ensures Valid() && s == WithStage(old(s), i, Over)
    {
      Move(i, Over);
    }

    method Move(i: nat, stage: Stage)
      requires Valid() && i < |s.monitors| && !s.monitors[i].stage.Checking?
      requires MonitorOk(s.monitors[i].(stage := stage), s.entries[s.monitors[i].owned], s.current == Some(s.monitors[i].owned))
      requires !stage.Checking? && (stage.Restarting? ==> stage.claim < |s.entries|)
      requires InRetry(stage) && !InRetry(s.monitors[i].stage) ==>
                 forall j | 0 <= j < |s.monitors| && InRetry(s.monitors[j].stage) :: s.monitors[j].owned != s.monitors[i].owned
      modifies `s
      ensures Valid() && s == WithStage(old(s), i, stage)
    {
      StageMoves(s, i, stage);
      s := WithStage(s, i, stage);
    }

    // markExited: the monitor acts on the exit only while it owns the entry.
    method SeeExit(i: nat)
      requires Shaped(s) && i < |s.monitors| && s.monitors[i].stage.Watching?
      requires s.entries[s.monitors[i].owned].mode == Caller && s.entries[s.monitors[i].owned].process != Alive
      modifies `s
      ensures Shaped(s) && (old(Valid()) ==> Valid()) && s == ExitMarked(old(s), i)
    {
      var e := s.monitors[i].owned;
      if Invariant(s) {
        ExitMarkedKeepsInvariant(s, i);
      }
      s := if Owns(s, e) then WithStage(WithEntry(s, e, s.entries[e].(state := Exited)), i, ExitSeen) else WithStage(s, i, Over);
    }

    // handleStreamExit: a failure marks the entry; an end that was asked for or was normal does not.
    method Judge(i: nat, failure: bool)
      requires Shaped(s) && i < |s.monitors| && s.monitors[i].stage.ExitSeen?
      modifies `s
      ensures Shaped(s) && (old(Valid()) && (!failure || MarkIsSafe(old(s))) ==> Valid())
      ensures s == if failure then ErrorMarked(WithStage(old(s), i, Judged)) else WithStage(old(s), i, Judged)
    {
      Step(i, Judged);
      if failure {
        if Invariant(s) {
          MarkIsSafeIff(s);
        }
        s := ErrorMarked(s);
      }
    }

    // removeIfOwned, by a monitor: the entry goes, unless it was replaced or a Stop has it.
    method RemoveIfOwned(e: nat)
      requires Shaped(s) && e < |s.entries|
      modifies `s
      ensures Shaped(s) && (old(Valid()) && old(s).entries[e].starter == Gone ==> Valid())
      ensures s == if Owns(old(s), e) then LetGo(old(s), e) else old(s)
    {
      if Owns(s, e) {
        if Invariant(s) && s.entries[e].starter == Gone {
          LetGoKeepsInvariant(s, e);
        }
        s := LetGo(s, e);
      }
    }

    // A monitor leaves its stage for one that asks no more of its entry.
    method Step(i: nat, stage: Stage)
      requires Shaped(s) && i < |s.monitors| && !s.monitors[i].stage.Checking?
      requires stage.Over? || (stage.Restarting? && s.monitors[i].stage.Claiming? && stage.claim < |s.entries|)
            || (AfterExit(stage) && AfterExit(s.monitors[i].stage))
      modifies `s
      ensures Shaped(s) && (old(Valid()) ==> Valid()) && s == WithStage(old(s), i, stage)
    {
      if Invariant(s) {
        assert MonitorOk(s.monitors[i], s.entries[s.monitors[i].owned], s.current == Some(s.monitors[i].owned));
        StageMoves(s, i, stage);
      }
      s := WithStage(s, i, stage);
    }

    // shouldContinueRetry, before and after the delay. An entry out of retries stays as it is.
    method Decide(i: nat, goOn: bool, exhausted: bool)
      requires Shaped(s) && i < |s.monitors| && (s.monitors[i].stage.Judged? || s.monitors[i].stage.Waiting?)
      modifies `s
      ensures Shaped(s) && (old(Valid()) ==> Valid()) && |s.monitors| == |old(s).monitors| && |s.entries| == |old(s).entries|
      ensures goOn && Owns(old(s), old(s).monitors[i].owned) ==>
                s == WithStage(old(s), i, if old(s).monitors[i].stage.Judged? then Waiting else Claiming)
      ensures !goOn || !Owns(old(s), old(s).monitors[i].owned) ==> s.monitors[i].stage.Over?
      ensures !goOn && exhausted ==> s == WithStage(old(s), i, Over)
      ensures !goOn && !exhausted ==> !Owns(s, s.monitors[i].owned)
    {
      var e := s.monitors[i].owned;
      if Owns(s, e) && goOn {
        Step(i, if s.monitors[i].stage.Judged? then Waiting else Claiming);
        return;
      }
      if !exhausted || !Owns(s, e) {
        RemoveIfOwned(e);
      }
      Step(i, Over);
    }

    // The monitor restarts its entry: it claims only the exact entry it owns, and while the protocol
    // holds never one that a Stop took on.
    method Restart(i: nat, mode: Mode, active: bool)
      requires Shaped(s) && i < |s.monitors| && s.monitors[i].stage.Claiming?
      modifies `s
      ensures Shaped(s) && (old(Valid()) ==> Valid())
      ensures |s.monitors| == |old(s).monitors| && s.monitors[i].owned == old(s).monitors[i].owned
      ensures old(Valid()) && old(s).current == Some(old(s).monitors[i].owned) ==>
                MayClaim(old(s), old(s).current) && old(s).entries[old(s).monitors[i].owned].stops == 0
      ensures active && MayClaim(old(s), Some(old(s).monitors[i].owned)) ==>
                s == WithStage(Claimed(old(s), mode, old(s).current), i, Restarting(|old(s).entries|))
      ensures !active || !MayClaim(old(s), Some(old(s).monitors[i].owned)) ==>
                |s.entries| == |old(s).entries| && s.monitors[i].stage.Over? && !Owns(s, s.monitors[i].owned)
      ensures old(s).current != Some(old(s).monitors[i].owned) ==> s == WithStage(old(s), i, Over)
    {
      var e := s.monitors[i].owned;
      if Invariant(s) && s.current == Some(e) {
        assert EntryOk(s.entries[e], true, Checked(s.monitors, e));
        assert MonitorOk(s.monitors[i], s.entries[e], true);
      }
      var claimed := Claim(mode, Some(e), active);
      if claimed.None? {
        RemoveIfOwned(e);
        Step(i, Over);
      } else {
        Step(i, Restarting(claimed.value));
      }
    }

    // The starter of the restart returned: the monitor now owns what was published, or gives up.
    method Restarted(i: nat)
      requires Valid() && i < |s.monitors| && s.monitors[i].stage.Restarting?
      requires s.entries[s.monitors[i].stage.claim].starter == Gone
      modifies `s
      ensures Valid() && |s.monitors| == |old(s).monitors| && |s.entries| == |old(s).entries|
      ensures var claim := old(s).monitors[i].stage.claim;
        if old(s).entries[claim].state.Starting? then s.monitors[i].stage.Over? && !Owns(s, s.monitors[i].owned)
        else s == old(s).(monitors := old(s).monitors[i := Monitor(claim, Watching)])
    {
      var claim := s.monitors[i].stage.claim;
      if s.entries[claim].state == Starting {
        RemoveIfOwned(s.monitors[i].owned);
        Move(i, Over);
      } else {
        Move(i, Over);
        MonitorTurns(s, i, claim);
        s := s.(monitors := s.monitors[i := Monitor(claim, Watching)]);
      }
    }

    // The encoder of a listener ended; only one monitor takes it, and only while it owns the entry.
    method SeeRunEnd(i: nat)
      requires Valid() && i < |s.monitors| && s.monitors[i].stage.Watching?
      requires s.entries[s.monitors[i].owned].mode == Listener && s.entries[s.monitors[i].owned].process != Alive
      modifies `s
      ensures Valid() && |s.monitors| == |old(s).monitors| && s.current == old(s).current
      ensures var e := old(s).monitors[i].owned;
        && s.entries == old(s).entries[e := old(s).entries[e].(process := NoProcess)]
        && (s.monitors[i].stage == if old(s).entries[e].process == Ended && !old(s).entries[e].cancelled && Owns(old(s), e)
                                   then Retrying else Over)
    {
      var e := s.monitors[i].owned;
      var ended := s.entries[e].process == Ended;
      EntryChanges(s, e, s.entries[e].(process := NoProcess), s.current);
      NobodyRetries(s, e);
      s := WithEntry(s, e, s.entries[e].(process := NoProcess));
      if ended && !s.entries[e].cancelled && Owns(s, e) {
        Move(i, Retrying);
      } else {
        Move(i, Over);
      }
    }

    // prepareListenerRetry, before and after the delay.
    method DecideListener(i: nat, goOn: bool, exhausted: bool)
      requires Valid() && i < |s.monitors| && (s.monitors[i].stage.Retrying? || s.monitors[i].stage.Delaying?)
      modifies `s
      ensures Valid() && |s.monitors| == |old(s).monitors| && |s.entries| == |old(s).entries|
      ensures var owns := Owns(old(s), old(s).monitors[i].owned);
        && (goOn && owns ==> s == WithStage(old(s), i, if old(s).monitors[i].stage.Retrying? then Delaying else Reserving))
        && (!goOn && owns && exhausted ==> s == WithStage(old(s), i, GivingUp))
        && (!owns ==> s == WithStage(old(s), i, Over))
        && (!goOn && owns && !exhausted ==> s.monitors[i].stage.Over? && s.current.None?)
    {
      var e := s.monitors[i].owned;
      if Owns(s, e) && goOn {
        Move(i, if s.monitors[i].stage.Retrying? then Delaying else Reserving);
      } else if Owns(s, e) && exhausted {
        Move(i, GivingUp);
      } else {
        RemoveIfOwned(e);
        Move(i, Over);
      }
    }

    // A listener out of retries fails and closes its port. The mark looks only at the pointer, so a
    // Stop that took the entry on since the decision is overwritten.
    method GiveUp(i: nat)
      requires Valid() && i < |s.monitors| && s.monitors[i].stage.GivingUp?
      modifies `s
      ensures s == GivenUp(old(s), i)
      ensures Shaped(s)
      ensures Valid() <==> !(old(s).current == Some(old(s).monitors[i].owned) && old(s).entries[old(s).monitors[i].owned].state.Stopping?)
    {
      GiveUpIsSafeIff(s, i);
      s := GivenUp(s, i);
    }

    // reserveListenerEncoderStart: a new context, only while the stream runs and no Stop has it.
    method Reserve(i: nat, active: bool)
      requires Valid() && i < |s.monitors| && s.monitors[i].stage.Reserving?
      modifies `s
      ensures Valid() && |s.monitors| == |old(s).monitors| && |s.entries| == |old(s).entries|
      ensures s.monitors[i].stage.Reserved? ==>
                && Owns(old(s), s.monitors[i].owned) && old(s).entries[s.monitors[i].owned].stops == 0
                && s == WithStage(WithEntry(old(s), s.monitors[i].owned, old(s).entries[s.monitors[i].owned].(cancelled := false)), i, Reserved)
      ensures !s.monitors[i].stage.Reserved? ==> s.monitors[i].stage.Over? && !Owns(s, s.monitors[i].owned)
    {
      var e := s.monitors[i].owned;
      if s.current == Some(e) && s.entries[e].state == Running && active {
        assert EntryOk(s.entries[e], true, Checked(s.monitors, e));
        EntryChanges(s, e, s.entries[e].(cancelled := false), s.current);
        s := WithEntry(s, e, s.entries[e].(cancelled := false));
        Move(i, Reserved);
      } else {
        RemoveIfOwned(e);
        Move(i, Over);
      }
    }

    // A new encoder under the reserved context; a Stop that cancelled it owns the cleanup.
    method LaunchRun(i: nat, ok: bool)
      requires Valid() && i < |s.monitors| && s.monitors[i].stage.Reserved?
      modifies `s
      ensures Valid()
      ensures s == WithStage(old(s), i, if old(s).entries[old(s).monitors[i].owned].cancelled then Over else if ok then Holding else Retrying)
    {
      Move(i, if s.entries[s.monitors[i].owned].cancelled then Over else if ok then Holding else Retrying);
    }

    // The encoder becomes the entry's, for a Stop to find.
    method Attach(i: nat)
      requires Valid() && i < |s.monitors| && s.monitors[i].stage.Holding?
      modifies `s
      ensures Valid()
      ensures s == WithEntry(WithStage(old(s), i, Checking), old(s).monitors[i].owned,
                             old(s).entries[old(s).monitors[i].owned].(process := Alive))
    {
      var e := s.monitors[i].owned;
      EncoderAttaches(s, i);
      s := WithEntry(WithStage(s, i, Checking), e, s.entries[e].(process := Alive));
    }

    // A Stop that began meanwhile may have missed the new encoder: it is stopped here.
    method CheckRun(i: nat)
      requires Valid() && i < |s.monitors| && s.monitors[i].stage.Checking?
      modifies `s
      ensures Valid()
      ensures var e := old(s).monitors[i].owned;
        s == if Owns(old(s), e) then WithStage(old(s), i, Watching)
             else WithStage(WithEntry(old(s), e, old(s).entries[e].(process := NoProcess)), i, Over)
    {
      var e := s.monitors[i].owned;
      if Owns(s, e) {
        assert EntryOk(s.entries[e], true, Checked(s.monitors, e));
        MonitorMoves(s, i, Watching);
        s := WithStage(s, i, Watching);
      } else {
        assert EntryOk(s.entries[e], s.current == Some(e), Checked(s.monitors, e));
        EntryChanges(s, e, s.entries[e].(process := NoProcess), s.current);
        s := WithEntry(s, e, s.entries[e].(process := NoProcess));
        MonitorMoves(s, i, Over);
        s := WithStage(s, i, Over);
      }
    }
  }

  lemma PublishKeepsInvariant(s: State, e: nat)
    requires Invariant(s) && e < |s.entries| && s.entries[e].starter.Launched?
    ensures s.current == Some(e) ==> s.entries[e].stops == 0 && Invariant(Published(s, e))
    ensures s.current != Some(e) ==> Invariant(WithEntry(s, e, Released(s.entries[e].(starter := Gone))))
  {
    assert EntryOk(s.entries[e], s.current == Some(e), Checked(s.monitors, e));
    if s.current == Some(e) {
      EntryChanges(s, e, s.entries[e].(state := Running, starter := Gone), s.current);
    } else {
      EntryChanges(s, e, Released(s.entries[e].(starter := Gone)), s.current);
    }
  }

  function GivenUp(s: State, i: nat): State
    requires i < |s.monitors| && s.monitors[i].owned < |s.entries|
  {
    var e := s.monitors[i].owned;
    var x := s.entries[e].(port := if s.entries[e].port == Bound then Closed else s.entries[e].port);
    WithStage(WithEntry(s, e, x.(state := if s.current == Some(e) then Error else x.state)), i, Over)
  }

  lemma GiveUpIsSafeIff(s: State, i: nat)
    requires Invariant(s) && i < |s.monitors| && s.monitors[i].stage.GivingUp?
    ensures Invariant(GivenUp(s, i)) <==>
            !(s.current == Some(s.monitors[i].owned) && s.entries[s.monitors[i].owned].state.Stopping?)
  {
    var e, s' := s.monitors[i].owned, GivenUp(s, i);
    assert EntryOk(s.entries[e], s.current == Some(e), Checked(s.monitors, e));
    if s.current == Some(e) && s.entries[e].state.Stopping? {
      assert !EntryOk(s'.entries[e], true, Checked(s'.monitors, e));
    } else {
      EntryChanges(s, e, s'.entries[e], s.current);
      StageMoves(WithEntry(s, e, s'.entries[e]), i, Over);
    }
  }

  lemma StageMoves(s: State, i: nat, stage: Stage)
    requires Invariant(s) && i < |s.monitors| && !s.monitors[i].stage.Checking? && !stage.Checking?
    requires MonitorOk(s.monitors[i].(stage := stage), s.entries[s.monitors[i].owned], s.current == Some(s.monitors[i].owned))
    requires stage.Restarting? ==> stage.claim < |s.entries|
    requires InRetry(stage) && !InRetry(s.monitors[i].stage) ==>
               forall j | 0 <= j < |s.monitors| && InRetry(s.monitors[j].stage) :: s.monitors[j].owned != s.monitors[i].owned
    ensures Invariant(WithStage(s, i, stage))
  {
    var s' := WithStage(s, i, stage);
    forall f | 0 <= f < |s'.entries|
      ensures EntryOk(s'.entries[f], s'.current == Some(f), Checked(s'.monitors, f))
    {
      assert EntryOk(s.entries[f], s.current == Some(f), Checked(s.monitors, f));
      CheckedAsBefore(s.monitors, i, Monitor(s.monitors[i].owned, stage), f);
    }
    forall j | 0 <= j < |s'.monitors|
      ensures MonitorOk(s'.monitors[j], s'.entries[s'.monitors[j].owned], s'.current == Some(s'.monitors[j].owned))
    {
      assert MonitorOk(s.monitors[j], s.entries[s.monitors[j].owned], s.current == Some(s.monitors[j].owned));
    }
  }

  lemma CheckedAsBefore(monitors: seq<Monitor>, i: nat, m: Monitor, e: nat)
    requires i < |monitors| && !monitors[i].stage.Checking? && !m.stage.Checking?
    ensures Checked(monitors[i := m], e) == Checked(monitors, e)
  {
    if Checked(monitors, e) {
      var j :| 0 <= j < |monitors| && monitors[j] == Monitor(e, Checking);
      assert monitors[i := m][j] == Monitor(e, Checking);
    }
  }

  lemma MonitorTurns(s: State, i: nat, e: nat)
    requires Invariant(s) && i < |s.monitors| && s.monitors[i].stage.Over?
    requires e < |s.entries| && s.entries[e].starter == Gone && !s.entries[e].state.Starting?
    ensures Invariant(s.(monitors := s.monitors[i := Monitor(e, Watching)]))
  {
    var s' := s.(monitors := s.monitors[i := Monitor(e, Watching)]);
    forall f | 0 <= f < |s'.entries|
      ensures EntryOk(s'.entries[f], s'.current == Some(f), Checked(s'.monitors, f))
    {
      assert EntryOk(s.entries[f], s.current == Some(f), Checked(s.monitors, f));
      CheckedAsBefore(s.monitors, i, Monitor(e, Watching), f);
    }
    forall j | 0 <= j < |s'.monitors|
      ensures MonitorOk(s'.monitors[j], s'.entries[s'.monitors[j].owned], s'.current == Some(s'.monitors[j].owned))
    {
      assert j != i ==> MonitorOk(s.monitors[j], s.entries[s.monitors[j].owned], s.current == Some(s.monitors[j].owned));
    }
  }

  // While an ended encoder is still its entry's, no monitor retries that entry.
  lemma NobodyRetries(s: State, e: nat)
    requires Invariant(s) && e < |s.entries|
    ensures s.entries[e].process != NoProcess ==>
              forall j | 0 <= j < |s.monitors| && InRetry(s.monitors[j].stage) :: s.monitors[j].owned != e
  {
    forall j | 0 <= j < |s.monitors| && InRetry(s.monitors[j].stage) && s.entries[e].process != NoProcess
      ensures s.monitors[j].owned != e
    {
      assert MonitorOk(s.monitors[j], s.entries[s.monitors[j].owned], s.current == Some(s.monitors[j].owned));
    }
  }

  lemma StopKeepsInvariant(s: State, e: nat, x: Entry, current: Option<nat>)
    requires Invariant(s) && s.current == Some(e) && !s.entries[e].state.Stopping?
    requires x == StopTaken(s.entries[e]) && current == if x.state.Stopping? then s.current else None
    ensures Invariant(WithEntry(s, e, x).(current := current))
  {
    assert EntryOk(s.entries[e], true, Checked(s.monitors, e));
    if current.Some? && (s.entries[e].state.Exited? || s.entries[e].state.Error?) {
      // A listener: no monitor is past its exit.
      ListenerStops(s, e, x);
    } else {
      EntryChanges(s, e, x, current);
    }
  }

  lemma ListenerStops(s: State, e: nat, x: Entry)
    requires Invariant(s) && s.current == Some(e) && s.entries[e].mode == Listener && !s.entries[e].state.Stopping?
    requires x == StopTaken(s.entries[e]) && x.state.Stopping?
    ensures Invariant(WithEntry(s, e, x))
  {
    var s' := WithEntry(s, e, x);
    forall f | 0 <= f < |s'.entries|
      ensures EntryOk(s'.entries[f], s'.current == Some(f), Checked(s'.monitors, f))
    {
      assert EntryOk(s.entries[f], s.current == Some(f), Checked(s.monitors, f));
    }
    forall i | 0 <= i < |s'.monitors|
      ensures MonitorOk(s'.monitors[i], s'.entries[s'.monitors[i].owned], s'.current == Some(s'.monitors[i].owned))
    {
      assert MonitorOk(s.monitors[i], s.entries[s.monitors[i].owned], s.current == Some(s.monitors[i].owned));
    }
  }

  // Runs of the manager that break the protocol, from a manager without entries on.

  // The monitor of a caller is late: before it marks the exit it saw as a failure, that caller was
  // stopped and another started and is being stopped. The mark makes the other's monitor take the
  // end of the process for an exit to recover from, and claim the stream anew.
  method LateMarkRevivesCaller() returns (s: State)
    ensures s.revived && |s.entries| == 3 && s.current == Some(2)
    ensures s.entries[1].stops == 1 && |s.monitors| == 2 && s.monitors[1] == Monitor(1, Restarting(2))
  {
    var m := new Manager();
    CallerStopsWithLateMonitor(m);
    NextCallerIsBeingStopped(m);
    m.Judge(0, true);
    m.ProcessEnds(1);
    m.SeeExit(1);
    StoppedCallerIsRestarted(m);
    return m.s;
  }

  const STOPPED_CALLER := Entry(Caller, Exited, Gone, true, Ended, Unbound, 1, 0, false)

  method CallerStopsWithLateMonitor(m: Manager)
    requires m.Valid() && m.s == State([], None, [], false)
    modifies m
    ensures m.Valid() && m.s == State([STOPPED_CALLER], None, [Monitor(0, ExitSeen)], false)
  {
    RunCaller(m, 0);
    m.ProcessEnds(0);
    m.SeeExit(0);
    var stopped := m.StopBegins();
    m.StopResources(0);
  }

  method NextCallerIsBeingStopped(m: Manager)
    requires m.Valid() && m.s == State([STOPPED_CALLER], None, [Monitor(0, ExitSeen)], false)
    modifies m
    ensures m.Valid()
    ensures m.s == State([STOPPED_CALLER, Entry(Caller, Stopping, Gone, true, Alive, Unbound, 1, 1, false)], Some(1),
                         [Monitor(0, ExitSeen), Monitor(1, Watching)], false)
  {
    RunCaller(m, 1);
    var stopped := m.StopBegins();
  }

  method StoppedCallerIsRestarted(m: Manager)
    requires m.s == State([STOPPED_CALLER, Entry(Caller, Exited, Gone, true, Ended, Unbound, 1, 1, false)], Some(1),
                          [Monitor(0, Judged), Monitor(1, ExitSeen)], false)
    modifies m
    ensures m.s.revived && |m.s.entries| == 3 && m.s.current == Some(2)
    ensures m.s.entries[1].stops == 1 && |m.s.monitors| == 2 && m.s.monitors[1] == Monitor(1, Restarting(2))
  {
    m.Judge(1, false);
    m.Decide(1, true, false);
    m.Decide(1, true, false);
    m.Restart(1, Caller, true);
  }

  // Starts a caller and its monitor.
  method RunCaller(m: Manager, e: nat)
    requires m.Valid() && m.s.current.None? && e == |m.s.entries| == |m.s.monitors|
    modifies m
    ensures m.Valid()
    ensures m.s == State(old(m.s).entries + [Entry(Caller, Running, Gone, false, Alive, Unbound, 0, 0, false)], Some(e),
                         old(m.s).monitors + [Monitor(e, Watching)], false)
  {
    var claimed := m.Claim(Caller, None, true);
    m.ReleaseReplaced(e);
    m.Launch(e, true);
    var published := m.Publish(e);
    var monitor := m.Watch();
  }

  // A listener starts while the monitor of a stopped caller is late: the mark makes it fail, a Stop
  // then leaves it in place, and its starter publishes it.
  method LateMarkRevivesListener() returns (s: State)
    ensures s.revived && |s.entries| == 2 && s.current == Some(1)
    ensures s.entries[1].stops == 1 && s.entries[1].state.Running?
  {
    var m := new Manager();
    CallerStopsWithLateMonitor(m);
    LaunchListener(m, 1);
    m.Judge(0, true);
    var stopped := m.StopBegins();
    var published := m.Publish(1);
    return m.s;
  }

  // Starts a listener, up to its publication.
  method LaunchListener(m: Manager, e: nat)
    requires m.Valid() && m.s.current.None? && e == |m.s.entries|
    modifies m
    ensures m.Valid()
    ensures m.s == State(old(m.s).entries + [Entry(Listener, Starting, Launched, false, Alive, Bound, 0, 0, false)], Some(e),
                         old(m.s).monitors, false)
  {
    var claimed := m.Claim(Listener, None, true);
    m.ReleaseReplaced(e);
    m.Bind(e, true);
    m.Launch(e, true);
  }

  // A listener out of retries gives up after a Stop took it on: the Stop is overwritten, and a second
  // one takes the entry on again, so it emits two stopped events.
  method LateGiveUpIsStoppedTwice() returns (s: State)
    ensures |s.entries| == 1 && s.entries[0].stops == 2
  {
    var m := new Manager();
    LaunchListener(m, 0);
    var published := m.Publish(0);
    var monitor := m.Watch();
    m.ProcessEnds(0);
    m.SeeRunEnd(0);
    m.DecideListener(0, false, true);
    var stopped := m.StopBegins();
    m.GiveUp(0);
    stopped := m.StopBegins();
    return m.s;
  }
}
