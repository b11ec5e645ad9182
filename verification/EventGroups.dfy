/**
  Grouping events into incidents for display (internal/eventlog/groups.go).

  Events come newest first and are processed from the last one back, in append order; an event is
  identified by its position. What a row says about its events (titles, chips, durations) is not
  modelled, only which events it holds and what it is keyed by.
 */
module EventGroups {
  import opened Tickets
  import ItemKeys

  datatype Kind =
    | RecordingStorageLow | RecordingStorageRestored | UploadOverdue | UploadOverdueCleared
    | SilenceStart | SilenceEnd | AudioDumpReady | ChannelImbalanceStart | ChannelImbalanceEnd
    | InputLost | InputRestored
    | StreamStarted | StreamStable | StreamError | StreamRetry | StreamStopped
    | RecorderStarted | RecorderStopped | RecorderError | RecorderFile
    | UploadQueued | UploadCompleted | UploadFailed | UploadRetry | UploadAbandoned
    | CleanupCompleted | Other

  datatype Category = Stream | Audio | Recorder | NoCategory
  datatype Reason = Problem | Recovery | Lifecycle | Routine | Unknown

  // `source` is what eventSourceKey makes of an event.
  datatype Event = Event(
    kind: Kind,
    category: Category,
    reason: Reason,
    run: string,
    source: string,
    at: int,
    incident: int,
    streamId: string,
    endedNormally: bool,
    listener: bool,
    stoppedEnd: bool,
    trigger: string)

  datatype Key = Key(source: string, incident: int)

  function KeyOf(e: Event): Key {
    Key(e.source, if e.category.Audio? then e.incident else 0)
  }

  // Audio events of a source go together by the number of their incident, all others of it do.
  lemma KeysDiffer(a: Event, b: Event)
    requires a.source == b.source
    ensures a.category.Audio? && b.category.Audio? ==> (KeyOf(a) == KeyOf(b) <==> a.incident == b.incident)
    ensures !a.category.Audio? && !b.category.Audio? ==> KeyOf(a) == KeyOf(b)
    ensures a.category.Audio? && !b.category.Audio? ==> (KeyOf(a) == KeyOf(b) <==> a.incident == 0)
  {
  }

  function Closer(kind: Kind): Option<Kind> {
    match kind
    case RecordingStorageLow => Some(RecordingStorageRestored)
    case UploadOverdue => Some(UploadOverdueCleared)
    case SilenceStart => Some(SilenceEnd)
    case ChannelImbalanceStart => Some(ChannelImbalanceEnd)
    case InputLost => Some(InputRestored)
    case StreamError => Some(StreamStable)
    case StreamRetry => Some(StreamStable)
    case UploadFailed => Some(UploadCompleted)
    case UploadRetry => Some(UploadCompleted)
    case _ => None
  }

  // A stop ends a stream incident without recovery; a clean exit is followed by a retry and does
  // not; a listener that starts has recovered.
  predicate Closes(closer: Option<Kind>, e: Event) {
    || closer == Some(e.kind)
    || (closer == Some(StreamStable) && ((e.kind.StreamStopped? && !e.endedNormally) || (e.kind.StreamStarted? && e.listener)))
  }

  // What an event is about.
  datatype Subject = Disk | Backlog | Silence | Balance | Input | Link | Delivery | Capture | Nothing

  function SubjectOf(kind: Kind): Subject {
    match kind
    case RecordingStorageLow => Disk
    case RecordingStorageRestored => Disk
    case UploadOverdue => Backlog
    case UploadOverdueCleared => Backlog
    case SilenceStart => Silence
    case SilenceEnd => Silence
    case ChannelImbalanceStart => Balance
    case ChannelImbalanceEnd => Balance
    case InputLost => Input
    case InputRestored => Input
    case StreamStarted => Link
    case StreamStable => Link
    case StreamError => Link
    case StreamRetry => Link
    case StreamStopped => Link
    case UploadQueued => Delivery
    case UploadCompleted => Delivery
    case UploadFailed => Delivery
    case UploadRetry => Delivery
    case UploadAbandoned => Delivery
    case RecorderStarted => Capture
    case RecorderStopped => Capture
    case RecorderError => Capture
    case RecorderFile => Capture
    case _ => Nothing
  }

  predicate IsTrouble(kind: Kind) {
    kind in {RecordingStorageLow, UploadOverdue, SilenceStart, ChannelImbalanceStart, InputLost, StreamError, StreamRetry, UploadFailed, UploadRetry}
  }

  // Exactly the kinds of trouble that can pass have an end, which is of the same subject and no trouble
  // itself; only a stream can also end by being stopped, or by starting anew as a listener.
  lemma EndsMatchStarts(kind: Kind, e: Event)
    ensures Closer(kind).Some? <==> IsTrouble(kind)
    ensures Closes(Closer(kind), e) ==> IsTrouble(kind) && !IsTrouble(e.kind) && SubjectOf(e.kind) == SubjectOf(kind)
    ensures Closes(Closer(kind), e) && SubjectOf(kind) == Link ==>
              e.kind.StreamStable? || (e.kind.StreamStopped? && !e.endedNormally) || (e.kind.StreamStarted? && e.listener)
    ensures IsTrouble(kind) && e.kind in {RecordingStorageRestored, UploadOverdueCleared, SilenceEnd, ChannelImbalanceEnd, InputRestored, StreamStable, UploadCompleted} ==>
              (Closes(Closer(kind), e) <==> SubjectOf(e.kind) == SubjectOf(kind))
  {
  }

  datatype Status = Open | Closed | Abandoned

  datatype Incident = Incident(key: Key, closer: Option<Kind>, events: seq<nat>, stopped: bool, dump: bool, status: Status)

  // `owner` tells for the proofs which incident an event went to.
  datatype State = State(
    incidents: seq<Incident>,
    open: map<Key, nat>,
    closed: seq<nat>,
    failed: seq<nat>,
    run: string,
    runStart: nat,
    owner: seq<Option<nat>>)

  predicate NoDuplicates(s: seq<nat>) {
    forall i, j | 0 <= i < j < |s| :: s[i] != s[j]
  }

  function First(inc: Incident): nat
    requires inc.events != []
  {
    inc.events[0]
  }

  function Last(inc: Incident): nat
    requires inc.events != []
  {
    inc.events[|inc.events| - 1]
  }

  // All events of a stretch are of one run.
  predicate OneRun(input: seq<Event>, from: nat, to: nat, run: string)
    requires to <= |input|
  {
    forall e | from <= e < to :: input[e].run == run
  }

  // The events of an incident, newest last; they are its own.
  predicate EventsOk(input: seq<Event>, i: nat, events: seq<nat>, x: nat, owner: seq<Option<nat>>)
    requires |owner| == |input|
  {
    && events != []
    && (forall a, b | 0 <= a < b < |events| :: events[a] > events[b])
    && (forall a | 0 <= a < |events| :: i <= events[a] < |input| && owner[events[a]] == Some(x))
    && (forall e | 0 <= e < |owner| && owner[e] == Some(x) :: e in events)
  }

  // An identified incident stays within one run; while it can still grow that is the current one.
  predicate RunOk(input: seq<Event>, i: nat, key: Key, events: seq<nat>, growing: bool, run: string)
    requires i <= |input| && events != [] && events[0] < |input|
  {
    key.incident != 0 ==>
      && OneRun(input, events[|events| - 1], events[0] + 1, input[events[0]].run)
      && (growing ==> input[events[0]].run == run && OneRun(input, i, events[0] + 1, run))
  }

  ghost predicate IncidentOk(input: seq<Event>, i: nat, s: State, x: nat)
    requires i <= |input| && |s.owner| == |input| && x < |s.incidents|
  {
    && EventsOk(input, i, s.incidents[x].events, x, s.owner)
    && RunOk(input, i, s.incidents[x].key, s.incidents[x].events, Growing(s, x), s.run)
  }

  ghost predicate StatusOk(s: State, x: nat)
    requires x < |s.incidents|
  {
    && (s.incidents[x].status.Open? <==> s.incidents[x].key in s.open && s.open[s.incidents[x].key] == x)
    && (s.incidents[x].status.Closed? <==> x in s.closed)
    && (s.incidents[x].status.Abandoned? <==> x in s.failed)
  }

  // Whether an incident may still get events: it is open, or was closed in the current run.
  ghost predicate Growing(s: State, x: nat)
    requires x < |s.incidents|
  {
    s.incidents[x].status.Open? || (s.runStart <= |s.closed| && x in s.closed[s.runStart..])
  }

  ghost predicate Lists(s: State) {
    && NoDuplicates(s.closed) && NoDuplicates(s.failed) && s.runStart <= |s.closed|
    && (forall k <- s.open :: s.open[k] < |s.incidents| && s.incidents[s.open[k]].key == k)
    && (forall a | 0 <= a < |s.closed| :: s.closed[a] < |s.incidents|)
    && (forall a | 0 <= a < |s.failed| :: s.failed[a] < |s.incidents|)
    && (forall x | 0 <= x < |s.incidents| :: StatusOk(s, x))
  }

  ghost predicate Events(input: seq<Event>, i: nat, s: State)
    requires i <= |input|
  {
    && |s.owner| == |input|
    && (forall e | 0 <= e < i :: s.owner[e].None?)
    && (forall e | 0 <= e < |input| :: s.owner[e].Some? ==> s.owner[e].value < |s.incidents|)
    && (forall x | 0 <= x < |s.incidents| :: IncidentOk(input, i, s, x))
  }

  // What holds once the events from `i` on are processed.
  ghost predicate Invariant(input: seq<Event>, i: nat, s: State)
    requires i <= |input|
  {
    Lists(s) && Events(input, i, s)
  }

  function Added(inc: Incident, e: nat, dump: bool): Incident {
    inc.(events := inc.events + [e], dump := inc.dump || dump)
  }

  function WithIncident(s: State, x: nat, inc: Incident): State
    requires x < |s.incidents|
  {
    s.(incidents := s.incidents[x := inc])
  }

  // An event joins an incident.
  function Joined(s: State, x: nat, e: nat, dump: bool): State
    requires x < |s.incidents| && e < |s.owner|
  {
    WithIncident(s, x, Added(s.incidents[x], e, dump)).(owner := s.owner[e := Some(x)])
  }

  // An event opens an incident.
  function Opened(s: State, key: Key, closer: Option<Kind>, e: nat): State
    requires e < |s.owner|
  {
    s.(incidents := s.incidents + [Incident(key, closer, [e], false, false, Open)],
       open := s.open[key := |s.incidents|],
       owner := s.owner[e := Some(|s.incidents|)])
  }

  function Ended(s: State, key: Key, stopped: bool): State
    requires key in s.open && s.open[key] < |s.incidents|
  {
    var x := s.open[key];
    s.(incidents := s.incidents[x := s.incidents[x].(status := Closed, stopped := stopped)],
       open := s.open - {key}, closed := s.closed + [x])
  }

  function GaveUp(s: State, key: Key): State
    requires key in s.open && s.open[key] < |s.incidents|
  {
    var x := s.open[key];
    s.(incidents := s.incidents[x := s.incidents[x].(status := Abandoned)], open := s.open - {key}, failed := s.failed + [x])
  }

  lemma PassedKeepsInvariant(input: seq<Event>, i: nat, s: State)
    requires 0 < i <= |input| && Invariant(input, i, s) && s.run == input[i - 1].run
    ensures Invariant(input, i - 1, s)
  {
    var e := i - 1;
    forall x | 0 <= x < |s.incidents|
      ensures IncidentOk(input, e, s, x)
    {
      assert IncidentOk(input, i, s, x);
    }
  }

  lemma JoinedEvents(input: seq<Event>, e: nat, events: seq<nat>, x: nat, owner: seq<Option<nat>>)
    requires |owner| == |input| && e < |input| && owner[e].None? && EventsOk(input, e, events, x, owner)
    ensures EventsOk(input, e, events + [e], x, owner[e := Some(x)])
  {
    var events', owner' := events + [e], owner[e := Some(x)];
    forall f | 0 <= f < |owner'| && owner'[f] == Some(x)
      ensures f in events'
    {
      assert f == e || f in events;
      assert events'[|events|] == e;
    }
  }

  lemma OtherEvents(input: seq<Event>, e: nat, events: seq<nat>, y: nat, owner: seq<Option<nat>>, x: nat)
    requires |owner| == |input| && e < |input| && owner[e].None? && EventsOk(input, e, events, y, owner) && x != y
    ensures EventsOk(input, e, events, y, owner[e := Some(x)])
  {
  }

  lemma JoinedRun(input: seq<Event>, e: nat, key: Key, events: seq<nat>, growing: bool, run: string)
    requires e < |input| && events != [] && events[0] < |input| && RunOk(input, e, key, events, growing, run)
    requires key.incident != 0 ==> growing
    ensures RunOk(input, e, key, events + [e], growing, run)
  {
  }

  lemma JoinedKeepsInvariant(input: seq<Event>, e: nat, s: State, x: nat, dump: bool)
    requires e < |input| && Invariant(input, e, s) && s.owner[e].None? && x < |s.incidents|
    requires s.incidents[x].key.incident != 0 ==> Growing(s, x)
    ensures Invariant(input, e, Joined(s, x, e, dump))
  {
    var s' := Joined(s, x, e, dump);
    forall y | 0 <= y < |s.incidents|
      ensures IncidentOk(input, e, s', y)
    {
      assert IncidentOk(input, e, s, y);
      if y != x {
        OtherEvents(input, e, s.incidents[y].events, y, s.owner, x);
      } else {
        JoinedEvents(input, e, s.incidents[x].events, x, s.owner);
        JoinedRun(input, e, s.incidents[x].key, s.incidents[x].events, Growing(s, x), s.run);
      }
      assert Growing(s', y) == Growing(s, y);
    }
    forall y | 0 <= y < |s.incidents|
      ensures StatusOk(s', y)
    {
      assert StatusOk(s, y);
    }
  }

  lemma OpenedKeepsInvariant(input: seq<Event>, e: nat, s: State, key: Key, closer: Option<Kind>)
    requires e < |input| && Invariant(input, e, s) && s.owner[e].None? && key !in s.open && s.run == input[e].run
    ensures Invariant(input, e, Opened(s, key, closer, e))
  {
    var x, s' := |s.incidents|, Opened(s, key, closer, e);
    forall y | 0 <= y < |s'.incidents|
      ensures IncidentOk(input, e, s', y)
    {
      if y < x {
        assert IncidentOk(input, e, s, y);
        OtherEvents(input, e, s.incidents[y].events, y, s.owner, x);
        assert Growing(s', y) == Growing(s, y);
      }
    }
    forall y | 0 <= y < |s'.incidents|
      ensures StatusOk(s', y)
    {
      if y < x {
        assert StatusOk(s, y);
      }
    }
  }

  // An open incident ends, one way or the other.

  lemma ListsGrow(list: seq<nat>, x: nat, n: nat)
    requires NoDuplicates(list) && x !in list && x < n && forall a | 0 <= a < |list| :: list[a] < n
    ensures NoDuplicates(list + [x]) && forall a | 0 <= a < |list + [x]| :: (list + [x])[a] < n
    ensures forall y :: y in list + [x] <==> y in list || y == x
  {
  }

  lemma EndedKeepsLists(s: State, key: Key, stopped: bool)
    requires Lists(s) && key in s.open
    ensures Lists(Ended(s, key, stopped)) && Lists(GaveUp(s, key))
  {
    var x, ended, gaveUp := s.open[key], Ended(s, key, stopped), GaveUp(s, key);
    assert StatusOk(s, x);
    ListsGrow(s.closed, x, |s.incidents|);
    ListsGrow(s.failed, x, |s.incidents|);
    forall y | 0 <= y < |s.incidents|
      ensures StatusOk(ended, y) && StatusOk(gaveUp, y)
    {
      assert StatusOk(s, y);
    }
  }

  lemma EndedKeepsGrowth(s: State, key: Key, stopped: bool, y: nat)
    requires Lists(s) && key in s.open && y < |s.incidents|
    ensures Growing(Ended(s, key, stopped), y) ==> Growing(s, y)
    ensures Growing(GaveUp(s, key), y) ==> Growing(s, y)
  {
    var x := s.open[key];
    assert StatusOk(s, x) && StatusOk(s, y);
    assert (s.closed + [x])[s.runStart..] == s.closed[s.runStart..] + [x];
  }

  lemma EndedKeepsInvariant(input: seq<Event>, i: nat, s: State, key: Key, stopped: bool)
    requires i <= |input| && Invariant(input, i, s) && key in s.open
    ensures Invariant(input, i, Ended(s, key, stopped))
  {
    var s' := Ended(s, key, stopped);
    EndedKeepsLists(s, key, stopped);
    forall y | 0 <= y < |s.incidents|
      ensures IncidentOk(input, i, s', y)
    {
      assert IncidentOk(input, i, s, y);
      EndedKeepsGrowth(s, key, stopped, y);
      assert s'.incidents[y].events == s.incidents[y].events && s'.incidents[y].key == s.incidents[y].key;
    }
  }

  lemma GaveUpKeepsInvariant(input: seq<Event>, i: nat, s: State, key: Key)
    requires i <= |input| && Invariant(input, i, s) && key in s.open
    ensures Invariant(input, i, GaveUp(s, key))
  {
    var s' := GaveUp(s, key);
    EndedKeepsLists(s, key, false);
    forall y | 0 <= y < |s.incidents|
      ensures IncidentOk(input, i, s', y)
    {
      assert IncidentOk(input, i, s, y);
      EndedKeepsGrowth(s, key, false, y);
      assert s'.incidents[y].events == s.incidents[y].events && s'.incidents[y].key == s.incidents[y].key;
    }
  }

  // A new run begins once no identified incident is open.
  lemma TurnedKeepsInvariant(input: seq<Event>, i: nat, s: State, run: string)
    requires i <= |input| && Invariant(input, i, s) && forall k <- s.open :: k.incident == 0
    ensures Invariant(input, i, s.(run := run, runStart := |s.closed|))
  {
    var s' := s.(run := run, runStart := |s.closed|);
    forall y | 0 <= y < |s'.incidents|
      ensures IncidentOk(input, i, s', y)
    {
      assert IncidentOk(input, i, s, y);
      assert StatusOk(s, y);
    }
    forall y | 0 <= y < |s'.incidents|
      ensures StatusOk(s', y)
    {
      assert StatusOk(s, y);
    }
  }

  // Two open incidents have different keys.
  lemma OpenIncidentsDiffer(s: State, x: nat, y: nat)
    requires Lists(s) && x < y < |s.incidents| && s.incidents[x].status.Open? && s.incidents[y].status.Open?
    ensures s.incidents[x].key != s.incidents[y].key
  {
    assert StatusOk(s, x) && StatusOk(s, y);
  }

  // The incident a dump belongs to: the latest of its kind that ended in this run, unless that one
  // was stopped.
  function DumpTarget(input: seq<Event>, s: State, e: Event, n: nat): Option<nat>
    requires n <= |s.closed| && forall a | 0 <= a < |s.closed| :: s.closed[a] < |s.incidents|
  {
    var kind := DumpKind(e.trigger);
    if kind.None? || n <= s.runStart then None
    else
      var x := s.closed[n - 1];
      if DumpMatches(input, s.incidents[x], kind.value, e.incident) then (if s.incidents[x].stopped then None else Some(x))
      else DumpTarget(input, s, e, n - 1)
  }

  lemma {:induction false} DumpTargetGrows(input: seq<Event>, s: State, e: Event, n: nat)
    requires n <= |s.closed| && forall a | 0 <= a < |s.closed| :: s.closed[a] < |s.incidents|
    ensures var x := DumpTarget(input, s, e, n); x.Some? ==> x.value < |s.incidents| && Growing(s, x.value)
  {
    if DumpKind(e.trigger).Some? && n > s.runStart {
      assert s.closed[s.runStart..][n - 1 - s.runStart] == s.closed[n - 1];
      DumpTargetGrows(input, s, e, n - 1);
    }
  }

  // Silence dumps go to silences and imbalance dumps to imbalances, by number if they carry one.
  predicate IsDumpOf(input: seq<Event>, e: Event, inc: Incident) {
    && inc.events != [] && First(inc) < |input|
    && (e.incident == 0 || e.incident == input[First(inc)].incident)
    && (if e.trigger == "channel_imbalance" then input[First(inc)].kind.ChannelImbalanceStart?
        else (e.trigger == "" || e.trigger == "silence") && input[First(inc)].kind.SilenceStart?)
  }

  // A dump joins the latest incident of this run it can be of, or none if that one was stopped.
  lemma {:induction false} DumpJoinsItsOwn(input: seq<Event>, s: State, e: Event, n: nat)
    requires n <= |s.closed| && forall a | 0 <= a < |s.closed| :: s.closed[a] < |s.incidents|
    ensures var x := DumpTarget(input, s, e, n);
      if x.None? then forall a | s.runStart <= a < n && IsDumpOf(input, e, s.incidents[s.closed[a]]) ::
                        exists b :: a <= b < n && IsDumpOf(input, e, s.incidents[s.closed[b]]) && s.incidents[s.closed[b]].stopped
      else exists a :: s.runStart <= a < n && s.closed[a] == x.value && IsDumpOf(input, e, s.incidents[s.closed[a]])
             && !s.incidents[s.closed[a]].stopped && forall b | a < b < n :: !IsDumpOf(input, e, s.incidents[s.closed[b]])
  {
    if DumpKind(e.trigger).Some? && n > s.runStart {
      var last := s.incidents[s.closed[n - 1]];
      assert DumpMatches(input, last, DumpKind(e.trigger).value, e.incident) <==> IsDumpOf(input, e, last);
      if !IsDumpOf(input, e, last) {
        DumpJoinsItsOwn(input, s, e, n - 1);
      }
    }
  }

  // An open identified incident whose ID starts again is from a run that ended.
  function Superseded(input: seq<Event>, e: nat, s: State): State
    requires e < |input| && Lists(s)
  {
    if KeyOf(input[e]) in s.open && input[e].reason.Problem? then Ended(s, KeyOf(input[e]), true) else s
  }

  // What an event makes of the incidents, once its run is entered.
  ghost function Outcome(input: seq<Event>, e: nat, s: State): State
    requires e < |input| && Invariant(input, e, s)
  {
    var ev, key := input[e], KeyOf(input[e]);
    if ev.kind.UploadAbandoned? then
      GaveUp(if key in s.open then Joined(s, s.open[key], e, false) else Opened(s, key, None, e), key)
    else if key in s.open && Closes(s.incidents[s.open[key]].closer, ev) then
      Ended(Joined(s, s.open[key], e, false), key, ev.kind.StreamStopped? || ev.stoppedEnd)
    else if key in s.open && ev.reason.Problem? && key.incident == 0 then
      Joined(s, s.open[key], e, false)
    else
      SupersededKeepsLists(s, key);
      Placed(input, e, Superseded(input, e, s))
  }

  // A dump joins an incident that ended, a problem begins one, anything else stands alone.
  ghost function Placed(input: seq<Event>, e: nat, s: State): State
    requires e < |input| && Lists(s) && e < |s.owner|
  {
    var ev := input[e];
    if ev.kind.AudioDumpReady? then
      var x := DumpTarget(input, s, ev, |s.closed|);
      DumpTargetGrows(input, s, ev, |s.closed|);
      if x.Some? then Joined(s, x.value, e, true) else s
    else if ev.reason.Problem? then Opened(s, KeyOf(ev), Closer(ev.kind), e)
    else s
  }

  lemma SupersededKeepsLists(s: State, key: Key)
    requires Lists(s)
    ensures key in s.open ==> Lists(Ended(s, key, true))
  {
    if key in s.open {
      EndedKeepsLists(s, key, true);
    }
  }

  const NEW_STATE := State([], map[], [], [], "", 0, [])

  // The kind of incident a dump belongs to; an unknown trigger belongs to none.
  function DumpKind(trigger: string): Option<Kind> {
    if trigger == "" || trigger == "silence" then Some(SilenceStart)
    else if trigger == "channel_imbalance" then Some(ChannelImbalanceStart)
    else None
  }

  predicate DumpMatches(input: seq<Event>, inc: Incident, kind: Kind, incident: int) {
    && inc.events != [] && First(inc) < |input| && input[First(inc)].kind == kind
    && (incident == 0 || input[First(inc)].incident == incident)
  }

  class Grouping {
    const input: seq<Event>   // Newest first.
    var s: State

    constructor (input: seq<Event>)
      ensures this.input == input && Invariant(input, |input|, s) && IsNew(input, s)
    {
      this.input := input;
      s := NEW_STATE.(owner := seq(|input|, _ => None));
    }

    // A process that ended took its identified incidents with it.
    method EnterRun(i: nat, run: string)
      requires i <= |input| && Invariant(input, i, s)
      modifies `s
      ensures Invariant(input, i, s) && RunEntered(old(s), s, run)
    {
      if run == s.run {
        return;
      }
      ghost var before := s;
      EndIdentified(i);
      forall x | 0 <= x < |s.incidents|
        ensures EndedWithRun(before.incidents[x], s.incidents[x])
      {
        assert StatusOk(s, x);
        assert StillOrEnded(before.incidents[x], s.incidents[x]);
      }
      TurnedKeepsInvariant(input, i, s, run);
      s := s.(run := run, runStart := |s.closed|);
    }

    method EndIdentified(i: nat)
      requires i <= |input| && Invariant(input, i, s)
      modifies `s
      ensures Invariant(input, i, s) && s.run == old(s).run && s.owner == old(s).owner
      ensures forall k <- s.open :: k.incident == 0
      ensures OnlyIdentifiedEnd(old(s), s)
    {
      var left := set k | k in s.open && k.incident != 0;
      while left != {}
        invariant Invariant(input, i, s) && s.run == old(s).run && s.owner == old(s).owner
        invariant forall k <- left :: k in s.open && k.incident != 0
        invariant forall k <- s.open :: k.incident != 0 ==> k in left
        invariant OnlyIdentifiedEnd(old(s), s)
        decreases |left|
      {
        var key :| key in left;
        ghost var before := s;
        EndOne(i, key);
        EndsAreTransitive(old(s), before, s);
        left := left - {key};
      }
    }

    method EndOne(i: nat, key: Key)
      requires i <= |input| && Invariant(input, i, s) && key in s.open && key.incident != 0
      modifies `s
      ensures Invariant(input, i, s) && s == Ended(old(s), key, true)
      ensures OnlyIdentifiedEnd(old(s), s)
    {
      EndedKeepsInvariant(input, i, s, key, true);
      EndedOnlyIdentified(s, key);
      s := Ended(s, key, true);
    }

    // Takes up the event `e`, the next one in append order.
    method Process(e: nat) returns (ghost entered: State)
      requires e < |input| && Invariant(input, e + 1, s)
      modifies `s
      ensures Invariant(input, e, s) && s.run == input[e].run
      ensures Invariant(input, e, entered) && RunEntered(old(s), entered, input[e].run) && s == Outcome(input, e, entered)
    {
      EnterRun(e + 1, input[e].run);
      entered := s;
      PassedKeepsInvariant(input, e + 1, s);
      OutcomeKeepsInvariant(input, e, s);
      Group(e);
    }

    method Group(e: nat)
      requires e < |input| && Invariant(input, e, s)
      modifies `s
      ensures s == Outcome(input, e, old(s))
    {
      var ev, key := input[e], KeyOf(input[e]);
      if ev.kind.UploadAbandoned? {
        s := if key in s.open then Joined(s, s.open[key], e, false) else Opened(s, key, None, e);
        s := GaveUp(s, key);
        return;
      }
      if key in s.open && Closes(s.incidents[s.open[key]].closer, ev) {
        s := Joined(s, s.open[key], e, false);
        s := Ended(s, key, ev.kind.StreamStopped? || ev.stoppedEnd);
        return;
      }
      SupersededKeepsLists(s, key);
      if key in s.open && ev.reason.Problem? {
        if key.incident == 0 {
          s := Joined(s, s.open[key], e, false);
          return;
        }
        s := Ended(s, key, true);
      }
      Place(e);
    }

    method Place(e: nat)
      requires e < |input| && Lists(s) && e < |s.owner|
      modifies `s
      ensures s == Placed(input, e, old(s))
    {
      var ev := input[e];
      if ev.kind.AudioDumpReady? {
        DumpTargetGrows(input, s, ev, |s.closed|);
        var target := FindDumpTarget(ev);
        if target.Some? {
          s := Joined(s, target.value, e, true);
        }
        return;
      }
      if ev.reason.Problem? {
        s := Opened(s, KeyOf(ev), Closer(ev.kind), e);
      }
    }

    // audioIncidentForDump: the latest match among the incidents closed in this run.
    method FindDumpTarget(ev: Event) returns (target: Option<nat>)
      requires Lists(s)
      ensures target == DumpTarget(input, s, ev, |s.closed|)
    {
      var kind := DumpKind(ev.trigger);
      if kind.None? {
        return None;
      }
      var n := |s.closed|;
      while n > s.runStart
        invariant s.runStart <= n <= |s.closed|
        invariant DumpTarget(input, s, ev, n) == DumpTarget(input, s, ev, |s.closed|)
      {
        var x := s.closed[n - 1];
        if DumpMatches(input, s.incidents[x], kind.value, ev.incident) {
          return if s.incidents[x].stopped then None else Some(x);
        }
        n := n - 1;
      }
      return None;
    }

    // Pairs the events in append order; `entered` tells what each found.
    method ProcessAll() returns (ghost entered: seq<State>)
      requires Invariant(input, |input|, s) && AllEndWell(input, s)
      modifies `s
      ensures Invariant(input, 0, s) && Steps(input, 0, old(s), entered, s) && AllPlaced(input, 0, s) && AllEndWell(input, s)
    {
      entered := [];
      for e := |input| downto 0
        invariant Invariant(input, e, s) && Steps(input, e, old(s), entered, s) && AllPlaced(input, e, s) && AllEndWell(input, s)
      {
        ghost var before := s;
        ghost var next := Process(e);
        StepPlaces(input, e, before, next);
        StepEndsWell(input, e, before, next);
        OneMoreStep(input, e, old(s), entered, before, next);
        entered := [next] + entered;
      }
    }

    // Stream incidents whose stream is no longer configured end as stopped.
    method CloseRemoved(streamExists: string -> bool)
      requires Invariant(input, 0, s)
      modifies `s
      ensures Invariant(input, 0, s) && s.owner == old(s).owner && |s.incidents| == |old(s).incidents|
      ensures forall x | 0 <= x < |s.incidents| ::
                s.incidents[x] == if old(s).incidents[x].status.Open? && IsRemoved(input, old(s).incidents[x], streamExists)
                                  then Gone(old(s).incidents[x]) else old(s).incidents[x]
    {
      var left := s.open.Keys;
      while left != {}
        invariant Invariant(input, 0, s) && s.owner == old(s).owner && RemovedAreGone(input, old(s), s, streamExists)
        invariant forall k <- s.open :: k !in left ==> !IsRemoved(input, s.incidents[s.open[k]], streamExists)
        decreases |left|
      {
        var key :| key in left;
        if key in s.open && IsRemoved(input, s.incidents[s.open[key]], streamExists) {
          EndAny(key);
        }
        left := left - {key};
      }
      forall x | 0 <= x < |s.incidents|
        ensures s.incidents[x].status.Open? ==> !IsRemoved(input, s.incidents[x], streamExists)
      {
        assert StatusOk(s, x);
      }
    }

    method EndAny(key: Key)
      requires Invariant(input, 0, s) && key in s.open
      modifies `s
      ensures Invariant(input, 0, s) && s.owner == old(s).owner && SubsetOpen(old(s), s) && key !in s.open
      ensures old(s).incidents[old(s).open[key]].status.Open?
      ensures var x := old(s).open[key]; s.incidents == old(s).incidents[x := Gone(old(s).incidents[x])]
    {
      assert StatusOk(s, s.open[key]);
      EndedKeepsInvariant(input, 0, s, key, true);
      forall k | k in s.open && k != key
        ensures s.open[k] != s.open[key]
      {
        assert StatusOk(s, s.open[k]) && StatusOk(s, s.open[key]);
      }
      s := Ended(s, key, true);
    }

    method Ongoing() returns (ongoing: seq<nat>)
      requires Lists(s)
      ensures IsOngoing(s, ongoing)
    {
      ongoing := [];
      var left := s.open.Keys;
      forall x | 0 <= x < |s.incidents|
        ensures s.incidents[x].status.Open? ==> s.incidents[x].key in left
      {
        assert StatusOk(s, x);
      }
      while left != {}
        invariant left <= s.open.Keys && NoDuplicates(ongoing)
        invariant forall a | 0 <= a < |ongoing| :: ongoing[a] < |s.incidents|
        invariant forall x | 0 <= x < |s.incidents| :: x in ongoing <==> (s.incidents[x].status.Open? && s.incidents[x].key !in left)
        decreases |left|
      {
        var key :| key in left;
        assert StatusOk(s, s.open[key]);
        OngoingGrows(s, ongoing, left, key);
        ongoing := ongoing + [s.open[key]];
        left := left - {key};
      }
      forall x | 0 <= x < |s.incidents|
        ensures x in ongoing <==> s.incidents[x].status.Open?
      {
        assert StatusOk(s, x);
      }
    }

    // The rows of GroupEvents, before each list is sorted.
    method Rows(ongoing: seq<nat>) returns (g: Groups)
      requires Invariant(input, 0, s) && IsOngoing(s, ongoing)
      ensures IsPartition(Range(|input|), g.attention + g.resolved + g.activity + g.routine)
      ensures g.attention == RowsOf(s, ongoing + s.failed) && g.resolved == RowsOf(s, s.closed)
      ensures g.activity == Singles(Loose(input, s.owner, false, |input|)) && g.routine == RoutineRow(Loose(input, s.owner, true, |input|))
    {
      var activity, routine := Ungrouped();
      g := Groups(RowsOf(s, ongoing + s.failed), RowsOf(s, s.closed), activity, RoutineRow(routine));
      RowsPartition(input, s, ongoing);
    }

    // Events of no incident: each is a row of its own, but for routine ones.
    method Ungrouped() returns (activity: seq<Row>, routine: seq<nat>)
      requires |s.owner| == |input|
      ensures activity == Singles(Loose(input, s.owner, false, |input|)) && routine == Loose(input, s.owner, true, |input|)
    {
      activity, routine := [], [];
      var e := 0;
      while e < |input|
        invariant 0 <= e <= |input|
        invariant activity == Singles(Loose(input, s.owner, false, e)) && routine == Loose(input, s.owner, true, e)
      {
        var next := e + 1;
        LooseGrow(input, s.owner, e, next);
        if s.owner[e].None? {
          if input[e].reason.Routine? {
            routine := routine + [e];
          } else {
            activity := activity + [[e]];
          }
        }
        e := next;
      }
    }
  }

  // A row holds the events it shows.
  type Row = seq<nat>
  datatype Groups = Groups(attention: seq<Row>, resolved: seq<Row>, activity: seq<Row>, routine: seq<Row>)

  predicate IsRemoved(input: seq<Event>, inc: Incident, streamExists: string -> bool) {
    inc.events != [] && First(inc) < |input| && input[First(inc)].streamId != "" && !streamExists(input[First(inc)].streamId)
  }

  // An incident whose stream is gone ends as stopped.
  function Gone(inc: Incident): Incident {
    inc.(status := Closed, stopped := true)
  }

  ghost predicate RemovedAreGone(input: seq<Event>, before: State, after: State, streamExists: string -> bool) {
    && |after.incidents| == |before.incidents|
    && forall x | 0 <= x < |after.incidents| ::
         || after.incidents[x] == before.incidents[x]
         || (before.incidents[x].status.Open? && IsRemoved(input, before.incidents[x], streamExists)
             && after.incidents[x] == Gone(before.incidents[x]))
  }

  // What is still open is as it was.
  ghost predicate SubsetOpen(before: State, after: State) {
    forall k <- after.open :: k in before.open && after.open[k] == before.open[k] && before.open[k] < |before.incidents|
      && before.open[k] < |after.incidents| && after.incidents[after.open[k]] == before.incidents[before.open[k]]
  }

  ghost predicate IsOngoing(s: State, ongoing: seq<nat>) {
    && NoDuplicates(ongoing) && (forall a | 0 <= a < |ongoing| :: ongoing[a] < |s.incidents|)
    && forall x | 0 <= x < |s.incidents| :: x in ongoing <==> s.incidents[x].status.Open?
  }

  lemma OngoingGrows(s: State, ongoing: seq<nat>, left: set<Key>, key: Key)
    requires Lists(s) && left <= s.open.Keys && key in left
    requires forall x | 0 <= x < |s.incidents| :: x in ongoing <==> (s.incidents[x].status.Open? && s.incidents[x].key !in left)
    ensures forall x | 0 <= x < |s.incidents| ::
              x in ongoing + [s.open[key]] <==> (s.incidents[x].status.Open? && s.incidents[x].key !in left - {key})
  {
    forall x | 0 <= x < |s.incidents|
      ensures x in ongoing + [s.open[key]] <==> (s.incidents[x].status.Open? && s.incidents[x].key !in left - {key})
    {
      assert StatusOk(s, x) && StatusOk(s, s.open[key]);
    }
  }

  function RowsOf(s: State, xs: seq<nat>): (rows: seq<Row>)
    requires forall a | 0 <= a < |xs| :: xs[a] < |s.incidents|
    ensures |rows| == |xs| && forall a | 0 <= a < |xs| :: rows[a] == s.incidents[xs[a]].events
  {
    seq(|xs|, a requires 0 <= a < |xs| => s.incidents[xs[a]].events)
  }

  // The events below `n` that went to no incident.
  function Loose(input: seq<Event>, owner: seq<Option<nat>>, routine: bool, n: nat): (loose: seq<nat>)
    requires |owner| == |input| && n <= |input|
    ensures forall e: nat :: e in loose <==> e < n && owner[e].None? && input[e].reason.Routine? == routine
    ensures NoDuplicates(loose)
  {
    if n == 0 then []
    else
      Loose(input, owner, routine, n - 1)
      + if owner[n - 1].None? && input[n - 1].reason.Routine? == routine then [n - 1] else []
  }

  function Singles(es: seq<nat>): (rows: seq<Row>)
    ensures |rows| == |es| && forall a | 0 <= a < |es| :: rows[a] == [es[a]]
  {
    seq(|es|, a requires 0 <= a < |es| => [es[a]])
  }

  lemma SinglesGrow(es: seq<nat>, e: nat)
    ensures Singles(es + [e]) == Singles(es) + [[e]] && Singles(es + []) == Singles(es) && es + [] == es
  {
    assert es + [] == es;
  }

  lemma LooseGrow(input: seq<Event>, owner: seq<Option<nat>>, e: nat, next: nat)
    requires |owner| == |input| && e < |input| && next == e + 1
    ensures var activity, routine := Singles(Loose(input, owner, false, e)), Loose(input, owner, true, e);
      var isRoutine, isLoose := input[e].reason.Routine?, owner[e].None?;
      && Singles(Loose(input, owner, false, next)) == (if isLoose && !isRoutine then activity + [[e]] else activity)
      && Loose(input, owner, true, next) == if isLoose && isRoutine then routine + [e] else routine
  {
    SinglesGrow(Loose(input, owner, false, e), e);
    assert Loose(input, owner, true, e) + [] == Loose(input, owner, true, e);
  }

  // Each of the events is in exactly one row, and nothing else is in any.
  ghost predicate IsPartition(events: set<nat>, rows: seq<Row>) {
    && (forall r, e | 0 <= r < |rows| && e in rows[r] :: e in events)
    && (forall e <- events :: exists r :: 0 <= r < |rows| && e in rows[r])
    && (forall q, r | 0 <= q < r < |rows| :: Apart(rows[q], rows[r]))
  }

  ghost predicate Apart(a: Row, b: Row) {
    forall e :: e in a ==> e !in b
  }

  lemma PartitionsJoin(a: set<nat>, rowsA: seq<Row>, b: set<nat>, rowsB: seq<Row>)
    requires IsPartition(a, rowsA) && IsPartition(b, rowsB) && a !! b
    ensures IsPartition(a + b, rowsA + rowsB)
  {
    forall e <- a + b
      ensures exists r :: 0 <= r < |rowsA + rowsB| && e in (rowsA + rowsB)[r]
    {
      if e in a {
        var r :| 0 <= r < |rowsA| && e in rowsA[r];
        assert e in (rowsA + rowsB)[r];
      } else {
        var r :| 0 <= r < |rowsB| && e in rowsB[r];
        assert e in (rowsA + rowsB)[|rowsA| + r];
      }
    }
    forall q, r | 0 <= q < r < |rowsA + rowsB|
      ensures Apart((rowsA + rowsB)[q], (rowsA + rowsB)[r])
    {
      if q < |rowsA| <= r {
        assert forall e | e in rowsA[q] :: e in a;
        assert forall e | e in rowsB[r - |rowsA|] :: e in b;
      } else if |rowsA| <= q {
        assert Apart(rowsB[q - |rowsA|], rowsB[r - |rowsA|]);
      }
    }
  }

  // The positions below `n` that went to an incident, or to none.
  function Positions(owner: seq<Option<nat>>, grouped: bool, n: nat): (r: set<nat>)
    requires n <= |owner|
    ensures forall e: nat :: e in r <==> e < n && owner[e].Some? == grouped
  {
    if n == 0 then {}
    else Positions(owner, grouped, n - 1) + if owner[n - 1].Some? == grouped then {n - 1} else {}
  }

  function Range(n: nat): (r: set<nat>)
    ensures forall e: nat :: e in r <==> e < n
  {
    if n == 0 then {} else Range(n - 1) + {n - 1}
  }

  lemma RowIsOwned(input: seq<Event>, s: State, x: nat, e: nat)
    requires Invariant(input, 0, s) && x < |s.incidents|
    ensures e in s.incidents[x].events <==> e < |s.owner| && s.owner[e] == Some(x)
  {
    assert IncidentOk(input, 0, s, x);
    if e in s.incidents[x].events {
      var a :| 0 <= a < |s.incidents[x].events| && s.incidents[x].events[a] == e;
    }
  }

  lemma RowOfOwned(input: seq<Event>, s: State, order: seq<nat>, e: nat) returns (r: nat)
    requires Invariant(input, 0, s) && (forall a | 0 <= a < |order| :: order[a] < |s.incidents|)
    requires forall x | 0 <= x < |s.incidents| :: x in order
    requires e < |input| && s.owner[e].Some?
    ensures r < |order| && e in s.incidents[order[r]].events
  {
    assert s.owner[e].value in order;
    r :| 0 <= r < |order| && order[r] == s.owner[e].value;
    RowIsOwned(input, s, order[r], e);
  }

  // Every incident in some order: its events are those that went to an incident.
  lemma IncidentRowsPartition(input: seq<Event>, s: State, order: seq<nat>)
    requires Invariant(input, 0, s) && NoDuplicates(order) && (forall a | 0 <= a < |order| :: order[a] < |s.incidents|)
    requires forall x | 0 <= x < |s.incidents| :: x in order
    ensures IsPartition(Positions(s.owner, true, |input|), RowsOf(s, order))
  {
    var rows := RowsOf(s, order);
    forall r, e | 0 <= r < |rows| && e in rows[r]
      ensures e < |s.owner| && s.owner[e] == Some(order[r])
    {
      RowIsOwned(input, s, order[r], e);
    }
    forall e <- Positions(s.owner, true, |input|)
      ensures exists r :: 0 <= r < |rows| && e in rows[r]
    {
      var r := RowOfOwned(input, s, order, e);
      assert e in rows[r];
    }
    AllApart(input, s, order);
  }

  lemma AllApart(input: seq<Event>, s: State, order: seq<nat>)
    requires Invariant(input, 0, s) && NoDuplicates(order) && (forall a | 0 <= a < |order| :: order[a] < |s.incidents|)
    ensures forall q, r | 0 <= q < r < |order| :: Apart(RowsOf(s, order)[q], RowsOf(s, order)[r])
  {
    forall q, r | 0 <= q < r < |order|
      ensures Apart(RowsOf(s, order)[q], RowsOf(s, order)[r])
    {
      RowsApart(input, s, order[q], order[r]);
    }
  }

  lemma RowsApart(input: seq<Event>, s: State, x: nat, y: nat)
    requires Invariant(input, 0, s) && x < |s.incidents| && y < |s.incidents| && x != y
    ensures Apart(s.incidents[x].events, s.incidents[y].events)
  {
    forall e | e in s.incidents[x].events
      ensures e !in s.incidents[y].events
    {
      RowIsOwned(input, s, x, e);
      RowIsOwned(input, s, y, e);
    }
  }

  // Each incident is ongoing, abandoned or closed.
  lemma EachIncidentOnce(s: State, ongoing: seq<nat>, x: nat)
    requires Lists(s) && IsOngoing(s, ongoing) && x < |s.incidents|
    ensures x in ongoing || x in s.failed || x in s.closed
    ensures !(x in ongoing && x in s.failed) && !(x in ongoing && x in s.closed) && !(x in s.failed && x in s.closed)
  {
    assert StatusOk(s, x);
  }

  lemma OrderIsComplete(s: State, ongoing: seq<nat>)
    requires Lists(s) && IsOngoing(s, ongoing)
    ensures var order := ongoing + s.failed + s.closed;
      && NoDuplicates(order) && (forall a | 0 <= a < |order| :: order[a] < |s.incidents|)
      && forall x | 0 <= x < |s.incidents| :: x in order
  {
    forall x | 0 <= x < |s.incidents|
      ensures x in ongoing + s.failed + s.closed
      ensures x in ongoing ==> x !in s.failed
      ensures x in ongoing + s.failed ==> x !in s.closed
    {
      EachIncidentOnce(s, ongoing, x);
      assert x in ongoing + s.failed <==> x in ongoing || x in s.failed;
    }
    NoDuplicatesJoin(ongoing, s.failed);
    NoDuplicatesJoin(ongoing + s.failed, s.closed);
  }

  lemma NoDuplicatesJoin(a: seq<nat>, b: seq<nat>)
    requires NoDuplicates(a) && NoDuplicates(b) && forall x | x in a :: x !in b
    ensures NoDuplicates(a + b)
  {
    forall i, j | 0 <= i < j < |a + b|
      ensures (a + b)[i] != (a + b)[j]
    {
      if i < |a| <= j {
        assert a[i] in a && b[j - |a|] in b;
      }
    }
  }

  function Elements(es: seq<nat>): (r: set<nat>)
    ensures forall e :: e in r <==> e in es
  {
    if es == [] then {} else Elements(es[..|es| - 1]) + {es[|es| - 1]}
  }

  function RoutineRow(routine: seq<nat>): seq<Row> {
    if routine == [] then [] else [routine]
  }

  lemma RoutineRowPartition(routine: seq<nat>)
    ensures IsPartition(Elements(routine), RoutineRow(routine))
  {
    if routine != [] {
      assert RoutineRow(routine)[0] == routine;
    }
  }

  lemma LooseRowsPartition(input: seq<Event>, owner: seq<Option<nat>>)
    requires |owner| == |input|
    ensures var activity, routine := Loose(input, owner, false, |input|), Loose(input, owner, true, |input|);
      IsPartition(Positions(owner, false, |input|), Singles(activity) + RoutineRow(routine))
  {
    var activity, routine := Loose(input, owner, false, |input|), Loose(input, owner, true, |input|);
    SinglesPartition(activity);
    RoutineRowPartition(routine);
    LooseCovers(input, owner);
    PartitionsJoin(Elements(activity), Singles(activity), Elements(routine), RoutineRow(routine));
  }

  lemma LooseCovers(input: seq<Event>, owner: seq<Option<nat>>)
    requires |owner| == |input|
    ensures var activity, routine := Elements(Loose(input, owner, false, |input|)), Elements(Loose(input, owner, true, |input|));
      activity !! routine && activity + routine == Positions(owner, false, |input|)
  {
  }

  lemma PositionsCover(owner: seq<Option<nat>>)
    ensures Positions(owner, true, |owner|) !! Positions(owner, false, |owner|)
    ensures Positions(owner, true, |owner|) + Positions(owner, false, |owner|) == Range(|owner|)
  {
  }

  lemma RowsOfJoin(s: State, xs: seq<nat>, ys: seq<nat>)
    requires (forall a | 0 <= a < |xs| :: xs[a] < |s.incidents|) && (forall a | 0 <= a < |ys| :: ys[a] < |s.incidents|)
    requires forall a | 0 <= a < |xs + ys| :: (xs + ys)[a] < |s.incidents|
    ensures RowsOf(s, xs + ys) == RowsOf(s, xs) + RowsOf(s, ys)
  {
  }

  lemma SinglesPartition(es: seq<nat>)
    requires NoDuplicates(es)
    ensures IsPartition(Elements(es), Singles(es))
  {
    forall e | e in es
      ensures exists r :: 0 <= r < |es| && e in Singles(es)[r]
    {
      var r :| 0 <= r < |es| && es[r] == e;
      assert e in Singles(es)[r];
    }
  }

  lemma AllRowsPartition(input: seq<Event>, s: State, order: seq<nat>)
    requires Invariant(input, 0, s) && NoDuplicates(order) && (forall a | 0 <= a < |order| :: order[a] < |s.incidents|)
    requires forall x | 0 <= x < |s.incidents| :: x in order
    ensures IsPartition(Range(|input|),
                        RowsOf(s, order) + (Singles(Loose(input, s.owner, false, |input|)) + RoutineRow(Loose(input, s.owner, true, |input|))))
  {
    IncidentRowsPartition(input, s, order);
    LooseRowsPartition(input, s.owner);
    PositionsCover(s.owner);
    PartitionsJoin(Positions(s.owner, true, |input|), RowsOf(s, order), Positions(s.owner, false, |input|),
                   Singles(Loose(input, s.owner, false, |input|)) + RoutineRow(Loose(input, s.owner, true, |input|)));
  }

  // The rows of the four lists hold every event once.
  lemma RowsPartition(input: seq<Event>, s: State, ongoing: seq<nat>)
    requires Invariant(input, 0, s) && IsOngoing(s, ongoing)
    ensures IsPartition(Range(|input|),
                        RowsOf(s, ongoing + s.failed) + RowsOf(s, s.closed)
                        + Singles(Loose(input, s.owner, false, |input|)) + RoutineRow(Loose(input, s.owner, true, |input|)))
  {
    var order, activity, routine := ongoing + s.failed + s.closed,
      Singles(Loose(input, s.owner, false, |input|)), RoutineRow(Loose(input, s.owner, true, |input|));
    OrderIsComplete(s, ongoing);
    AllRowsPartition(input, s, order);
    RowsOfJoin(s, ongoing + s.failed, s.closed);
    Regrouped(RowsOf(s, order), activity, routine);
  }

  lemma Regrouped(a: seq<Row>, b: seq<Row>, c: seq<Row>)
    ensures a + (b + c) == a + b + c
  {
  }

  // The event goes to one incident or to none; all others stay where they are.
  predicate OnlyOwner(before: State, after: State, e: nat) {
    && |after.owner| == |before.owner| && e < |before.owner| && after.owner == before.owner[e := after.owner[e]]
    && after.run == before.run
  }

  lemma OutcomeKeepsInvariant(input: seq<Event>, e: nat, s: State)
    requires e < |input| && Invariant(input, e, s) && s.owner[e].None? && s.run == input[e].run
    ensures Invariant(input, e, Outcome(input, e, s)) && OnlyOwner(s, Outcome(input, e, s), e)
  {
    var ev, key := input[e], KeyOf(input[e]);
    if ev.kind.UploadAbandoned? {
      AbandonKeepsInvariant(input, e, s, key);
    } else if key in s.open && Closes(s.incidents[s.open[key]].closer, ev) {
      CloseKeepsInvariant(input, e, s, key, ev.kind.StreamStopped? || ev.stoppedEnd);
    } else if key in s.open && ev.reason.Problem? && key.incident == 0 {
      JoinOpenKeepsInvariant(input, e, s, key);
    } else {
      PlaceKeepsInvariant(input, e, s);
    }
  }

  lemma CloseKeepsInvariant(input: seq<Event>, e: nat, s: State, key: Key, stopped: bool)
    requires e < |input| && Invariant(input, e, s) && s.owner[e].None? && key in s.open
    ensures Invariant(input, e, Ended(Joined(s, s.open[key], e, false), key, stopped))
    ensures OnlyOwner(s, Ended(Joined(s, s.open[key], e, false), key, stopped), e)
  {
    JoinOpenKeepsInvariant(input, e, s, key);
    EndedKeepsInvariant(input, e, Joined(s, s.open[key], e, false), key, stopped);
  }

  lemma PlaceKeepsInvariant(input: seq<Event>, e: nat, s: State)
    requires e < |input| && Invariant(input, e, s) && s.owner[e].None? && s.run == input[e].run
    requires KeyOf(input[e]) in s.open && input[e].reason.Problem? ==> KeyOf(input[e]).incident != 0
    ensures var s1 := Superseded(input, e, s);
      Invariant(input, e, s1) && Invariant(input, e, Placed(input, e, s1)) && OnlyOwner(s, Placed(input, e, s1), e)
  {
    StartKeepsInvariant(input, e, s);
    assert input[e].reason.Problem? ==> KeyOf(input[e]) !in Superseded(input, e, s).open;
  }

  lemma JoinOpenKeepsInvariant(input: seq<Event>, e: nat, s: State, key: Key)
    requires e < |input| && Invariant(input, e, s) && s.owner[e].None? && key in s.open
    ensures Invariant(input, e, Joined(s, s.open[key], e, false))
  {
    assert StatusOk(s, s.open[key]);
    JoinedKeepsInvariant(input, e, s, s.open[key], false);
  }

  lemma AbandonKeepsInvariant(input: seq<Event>, e: nat, s: State, key: Key)
    requires e < |input| && Invariant(input, e, s) && s.owner[e].None? && s.run == input[e].run
    ensures OnlyOwner(s, GaveUp(if key in s.open then Joined(s, s.open[key], e, false) else Opened(s, key, None, e), key), e)
    ensures Invariant(input, e, GaveUp(if key in s.open then Joined(s, s.open[key], e, false) else Opened(s, key, None, e), key))
  {
    if key in s.open {
      JoinOpenKeepsInvariant(input, e, s, key);
      GaveUpKeepsInvariant(input, e, Joined(s, s.open[key], e, false), key);
    } else {
      OpenedKeepsInvariant(input, e, s, key, None);
      GaveUpKeepsInvariant(input, e, Opened(s, key, None, e), key);
    }
  }

  lemma StartKeepsInvariant(input: seq<Event>, e: nat, s: State)
    requires e < |input| && Invariant(input, e, s) && s.owner[e].None? && s.run == input[e].run
    ensures var s1 := Superseded(input, e, s);
      && Invariant(input, e, s1)
      && (KeyOf(input[e]) !in s1.open ==> Invariant(input, e, Opened(s1, KeyOf(input[e]), Closer(input[e].kind), e)))
      && (var x := DumpTarget(input, s1, input[e], |s1.closed|);
          x.Some? ==> x.value < |s1.incidents| && Invariant(input, e, Joined(s1, x.value, e, true)))
  {
    var key := KeyOf(input[e]);
    if key in s.open && input[e].reason.Problem? {
      EndedKeepsInvariant(input, e, s, key, true);
    }
    var s1 := Superseded(input, e, s);
    if key !in s1.open {
      OpenedKeepsInvariant(input, e, s1, key, Closer(input[e].kind));
    }
    DumpTargetGrows(input, s1, input[e], |s1.closed|);
    var x := DumpTarget(input, s1, input[e], |s1.closed|);
    if x.Some? {
      JoinedKeepsInvariant(input, e, s1, x.value, true);
    }
  }

  predicate StillOrEnded(before: Incident, after: Incident) {
    || after == before
    || (before.status.Open? && before.key.incident != 0 && after == before.(status := Closed, stopped := true))
  }

  ghost predicate OnlyIdentifiedEnd(before: State, after: State) {
    && |after.incidents| == |before.incidents|
    && (forall k <- before.open :: k.incident == 0 ==> k in after.open && after.open[k] == before.open[k])
    && forall x | 0 <= x < |after.incidents| :: StillOrEnded(before.incidents[x], after.incidents[x])
  }

  lemma EndedOnlyIdentified(s: State, key: Key)
    requires Lists(s) && key in s.open && key.incident != 0
    ensures OnlyIdentifiedEnd(s, Ended(s, key, true))
  {
    assert StatusOk(s, s.open[key]);
  }

  lemma EndsAreTransitive(s1: State, s2: State, s3: State)
    requires OnlyIdentifiedEnd(s1, s2) && OnlyIdentifiedEnd(s2, s3)
    ensures OnlyIdentifiedEnd(s1, s3)
  {
    forall x | 0 <= x < |s3.incidents|
      ensures StillOrEnded(s1.incidents[x], s3.incidents[x])
    {
      assert StillOrEnded(s1.incidents[x], s2.incidents[x]) && StillOrEnded(s2.incidents[x], s3.incidents[x]);
    }
  }

  predicate EndedWithRun(before: Incident, after: Incident) {
    after == if before.status.Open? && before.key.incident != 0 then before.(status := Closed, stopped := true) else before
  }

  // An identified incident never spans two runs: everything logged from its first to its last event
  // is of one run.
  lemma IdentifiedStaysInRun(input: seq<Event>, s: State, x: nat, e: nat)
    requires Invariant(input, 0, s) && x < |s.incidents| && s.incidents[x].key.incident != 0
    requires e in s.incidents[x].events
    ensures Last(s.incidents[x]) <= e <= First(s.incidents[x]) < |input|
    ensures input[e].run == input[First(s.incidents[x])].run
    ensures OneRun(input, Last(s.incidents[x]), First(s.incidents[x]) + 1, input[e].run)
  {
    var inc := s.incidents[x];
    assert IncidentOk(input, 0, s, x);
    var a :| 0 <= a < |inc.events| && inc.events[a] == e;
  }

  // A new run ends the identified incidents of the one before, in any order.
  ghost predicate RunEntered(before: State, after: State, run: string) {
    && after.run == run && after.owner == before.owner && |after.incidents| == |before.incidents|
    && (before.run == run ==> after == before)
    && (before.run != run ==>
         && after.runStart == |after.closed| && (forall k <- after.open :: k.incident == 0)
         && (forall k <- before.open :: k.incident == 0 ==> k in after.open && after.open[k] == before.open[k])
         && (forall x | 0 <= x < |after.incidents| :: EndedWithRun(before.incidents[x], after.incidents[x])))
  }

  // The events from `e` on took `start` to `s`, one by one; `entered` is what each found once its
  // run was entered.
  ghost predicate Steps(input: seq<Event>, e: nat, start: State, entered: seq<State>, s: State)
    requires e <= |input|
    decreases |input| - e
  {
    && |entered| == |input| - e
    && if e == |input| then s == start
       else
         && Invariant(input, e, entered[0]) && s == Outcome(input, e, entered[0])
         && exists before :: RunEntered(before, entered[0], input[e].run) && Steps(input, e + 1, start, entered[1..], before)
  }

  lemma OneMoreStep(input: seq<Event>, e: nat, start: State, entered: seq<State>, before: State, next: State)
    requires e < |input| && Steps(input, e + 1, start, entered, before)
    requires Invariant(input, e, next) && RunEntered(before, next, input[e].run)
    ensures Steps(input, e, start, [next] + entered, Outcome(input, e, next))
  {
    assert ([next] + entered)[1..] == entered;
  }

  predicate NeedsIncident(ev: Event) {
    ev.kind.UploadAbandoned? || (ev.reason.Problem? && !ev.kind.AudioDumpReady?)
  }

  // A problem is part of an incident of its key, an upload given up of one that was abandoned.
  predicate IsPlaced(input: seq<Event>, s: State, e: nat)
    requires e < |input| && |s.owner| == |input|
  {
    NeedsIncident(input[e]) ==>
      && s.owner[e].Some? && s.owner[e].value < |s.incidents| && s.incidents[s.owner[e].value].key == KeyOf(input[e])
      && (input[e].kind.UploadAbandoned? ==> s.incidents[s.owner[e].value].status.Abandoned?)
  }

  ghost predicate AllPlaced(input: seq<Event>, i: nat, s: State)
    requires |s.owner| == |input|
  {
    forall e | i <= e < |input| :: IsPlaced(input, s, e)
  }

  // Incidents keep their key, and one that was abandoned stays so.
  ghost predicate SameKeys(before: State, after: State) {
    && |before.incidents| <= |after.incidents|
    && forall x | 0 <= x < |before.incidents| ::
         after.incidents[x].key == before.incidents[x].key && (before.incidents[x].status.Abandoned? ==> after.incidents[x].status.Abandoned?)
  }

  // What ended an incident by itself is an event in it that ends what its first event began.
  predicate EndsWell(input: seq<Event>, inc: Incident) {
    && inc.events != [] && First(inc) < |input|
    && (inc.closer.Some? ==> inc.closer == Closer(input[First(inc)].kind))
    && (inc.status.Closed? && !inc.stopped ==> exists f :: f in inc.events && f < |input| && Closes(inc.closer, input[f]))
  }

  ghost predicate AllEndWell(input: seq<Event>, s: State) {
    forall x | 0 <= x < |s.incidents| :: EndsWell(input, s.incidents[x])
  }

  lemma AddedEndsWell(input: seq<Event>, inc: Incident, e: nat, dump: bool)
    requires EndsWell(input, inc)
    ensures EndsWell(input, Added(inc, e, dump)) && e in Added(inc, e, dump).events
  {
    var added := Added(inc, e, dump);
    assert added.events[|inc.events|] == e;
    if inc.status.Closed? && !inc.stopped {
      var f :| f in inc.events && f < |input| && Closes(inc.closer, input[f]);
      var a :| 0 <= a < |inc.events| && inc.events[a] == f;
      assert added.events[a] == f;
    }
  }

  lemma JoinedEndsWell(input: seq<Event>, e: nat, s: State, x: nat, dump: bool)
    requires AllEndWell(input, s) && x < |s.incidents| && e < |s.owner|
    ensures AllEndWell(input, Joined(s, x, e, dump)) && e in Joined(s, x, e, dump).incidents[x].events
  {
    AddedEndsWell(input, s.incidents[x], e, dump);
  }

  lemma OutcomeEndsWell(input: seq<Event>, e: nat, s: State)
    requires e < |input| && Invariant(input, e, s) && AllEndWell(input, s)
    ensures AllEndWell(input, Outcome(input, e, s))
  {
    var ev, key := input[e], KeyOf(input[e]);
    if key in s.open {
      assert StatusOk(s, s.open[key]);
      JoinedEndsWell(input, e, s, s.open[key], false);
    }
    SupersededKeepsLists(s, key);
    if !ev.kind.UploadAbandoned? {
      PlacedEndsWell(input, e, s);
      PlacedEndsWell(input, e, Superseded(input, e, s));
    }
  }

  lemma PlacedEndsWell(input: seq<Event>, e: nat, s: State)
    requires e < |input| && Lists(s) && e < |s.owner| && AllEndWell(input, s)
    ensures AllEndWell(input, Placed(input, e, s))
  {
    DumpTargetGrows(input, s, input[e], |s.closed|);
    var x := DumpTarget(input, s, input[e], |s.closed|);
    if x.Some? {
      JoinedEndsWell(input, e, s, x.value, true);
    }
  }

  lemma StepEndsWell(input: seq<Event>, e: nat, before: State, entered: State)
    requires e < |input| && AllEndWell(input, before)
    requires Invariant(input, e, entered) && RunEntered(before, entered, input[e].run)
    ensures AllEndWell(input, Outcome(input, e, entered))
  {
    forall x | 0 <= x < |entered.incidents|
      ensures EndsWell(input, entered.incidents[x])
    {
      assert EndsWell(input, before.incidents[x]);
    }
    OutcomeEndsWell(input, e, entered);
  }

  lemma StepPlaces(input: seq<Event>, e: nat, before: State, entered: State)
    requires e < |input| && Invariant(input, e + 1, before) && AllPlaced(input, e + 1, before)
    requires Invariant(input, e, entered) && RunEntered(before, entered, input[e].run)
    ensures AllPlaced(input, e, Outcome(input, e, entered))
  {
    var s := Outcome(input, e, entered);
    OutcomeKeepsInvariant(input, e, entered);
    OutcomeKeepsKeys(input, e, entered);
    EventIsPlaced(input, e, entered);
    forall f | e < f < |input|
      ensures IsPlaced(input, s, f)
    {
      assert IsPlaced(input, before, f);
    }
  }

  ghost predicate IsNew(input: seq<Event>, s: State) {
    s == NEW_STATE.(owner := s.owner) && |s.owner| == |input| && forall e | 0 <= e < |input| :: s.owner[e].None?
  }

  lemma OutcomeKeepsKeys(input: seq<Event>, e: nat, s: State)
    requires e < |input| && Invariant(input, e, s)
    ensures SameKeys(s, Outcome(input, e, s))
  {
    var key := KeyOf(input[e]);
    if key in s.open {
      assert StatusOk(s, s.open[key]);
    }
    SupersededKeepsLists(s, key);
    if !input[e].kind.UploadAbandoned? {
      PlacedKeepsKeys(input, e, s);
      PlacedKeepsKeys(input, e, Superseded(input, e, s));
    }
  }

  lemma PlacedKeepsKeys(input: seq<Event>, e: nat, s: State)
    requires e < |input| && Lists(s) && e < |s.owner|
    ensures SameKeys(s, Placed(input, e, s))
  {
    DumpTargetGrows(input, s, input[e], |s.closed|);
  }

  lemma EventIsPlaced(input: seq<Event>, e: nat, s: State)
    requires e < |input| && Invariant(input, e, s) && s.owner[e].None? && s.run == input[e].run
    ensures |Outcome(input, e, s).owner| == |input| && IsPlaced(input, Outcome(input, e, s), e)
  {
    OutcomeKeepsInvariant(input, e, s);
    if NeedsIncident(input[e]) && !input[e].kind.UploadAbandoned? {
      ProblemsAreGrouped(input, e, s);
    }
  }

  // A problem is always part of an incident.
  lemma ProblemsAreGrouped(input: seq<Event>, e: nat, s: State)
    requires e < |input| && Invariant(input, e, s) && s.owner[e].None? && s.run == input[e].run
    requires input[e].reason.Problem? && !input[e].kind.AudioDumpReady?
    ensures var s' := Outcome(input, e, s);
      s'.owner[e].Some? && s'.owner[e].value < |s'.incidents| && s'.incidents[s'.owner[e].value].key == KeyOf(input[e])
  {
    OutcomeKeepsInvariant(input, e, s);
    if KeyOf(input[e]) in s.open {
      assert StatusOk(s, s.open[KeyOf(input[e])]);
    }
  }

  // An event that was placed is in a row of an incident that needs attention or is resolved.
  lemma PlacedIsListed(input: seq<Event>, s: State, ongoing: seq<nat>, e: nat)
    requires Invariant(input, 0, s) && IsOngoing(s, ongoing) && e < |input| && NeedsIncident(input[e]) && IsPlaced(input, s, e)
    ensures Shows(RowsOf(s, ongoing + s.failed), e) || Shows(RowsOf(s, s.closed), e)
    ensures input[e].kind.UploadAbandoned? ==> Shows(RowsOf(s, ongoing + s.failed), e)
  {
    var x := s.owner[e].value;
    EachIncidentOnce(s, ongoing, x);
    RowIsOwned(input, s, x, e);
    assert StatusOk(s, x);
    if x in s.closed {
      var a :| 0 <= a < |s.closed| && s.closed[a] == x;
      assert e in RowsOf(s, s.closed)[a];
    } else {
      assert x in ongoing + s.failed;
      var a :| 0 <= a < |ongoing + s.failed| && (ongoing + s.failed)[a] == x;
      assert e in RowsOf(s, ongoing + s.failed)[a];
    }
  }

  lemma AllListed(input: seq<Event>, paired: State, s: State, ongoing: seq<nat>)
    requires Invariant(input, 0, paired) && Invariant(input, 0, s) && IsOngoing(s, ongoing) && AllPlaced(input, 0, paired)
    requires s.owner == paired.owner && SameKeys(paired, s)
    ensures forall e | 0 <= e < |input| && NeedsIncident(input[e]) ::
              Shows(RowsOf(s, ongoing + s.failed), e) || Shows(RowsOf(s, s.closed), e)
    ensures forall e | 0 <= e < |input| && input[e].kind.UploadAbandoned? :: Shows(RowsOf(s, ongoing + s.failed), e)
  {
    forall e | 0 <= e < |input| && NeedsIncident(input[e])
      ensures Shows(RowsOf(s, ongoing + s.failed), e) || Shows(RowsOf(s, s.closed), e)
      ensures input[e].kind.UploadAbandoned? ==> Shows(RowsOf(s, ongoing + s.failed), e)
    {
      assert IsPlaced(input, paired, e);
      PlacedIsListed(input, s, ongoing, e);
    }
  }

  lemma GoneEndWell(input: seq<Event>, paired: State, s: State)
    requires AllEndWell(input, paired) && |s.incidents| == |paired.incidents|
    requires forall x | 0 <= x < |s.incidents| :: s.incidents[x] in {paired.incidents[x], Gone(paired.incidents[x])}
    ensures AllEndWell(input, s)
  {
    forall x | 0 <= x < |s.incidents|
      ensures EndsWell(input, s.incidents[x])
    {
      assert EndsWell(input, paired.incidents[x]);
    }
  }

  ghost predicate Shows(rows: seq<Row>, e: nat) {
    exists r :: 0 <= r < |rows| && e in rows[r]
  }

  // GroupEvents: every event ends up in exactly one row. Incidents that go on or were abandoned need
  // attention, those that ended are resolved, by an event that ends what began them unless they were
  // stopped; a problem is among them, and an upload given up needs attention. Of the rest routine events share a row, and any other has one of its own.
  method GroupEvents(input: seq<Event>, streamExists: string -> bool)
    returns (g: Groups, ghost start: State, ghost entered: seq<State>, ghost paired: State, ghost s: State, ghost ongoing: seq<nat>)
    ensures IsPartition(Range(|input|), g.attention + g.resolved + g.activity + g.routine)
    ensures IsNew(input, start) && Steps(input, 0, start, entered, paired) && Invariant(input, 0, paired)
    ensures Invariant(input, 0, s) && s.owner == paired.owner && |s.incidents| == |paired.incidents|
    ensures forall x | 0 <= x < |s.incidents| ::
              s.incidents[x] == if paired.incidents[x].status.Open? && IsRemoved(input, paired.incidents[x], streamExists)
                                then Gone(paired.incidents[x]) else paired.incidents[x]
    ensures IsOngoing(s, ongoing) && g.attention == RowsOf(s, ongoing + s.failed) && g.resolved == RowsOf(s, s.closed)
    ensures g.activity == Singles(Loose(input, s.owner, false, |input|)) && g.routine == RoutineRow(Loose(input, s.owner, true, |input|))
    ensures forall e | 0 <= e < |input| && NeedsIncident(input[e]) :: Shows(g.attention, e) || Shows(g.resolved, e)
    ensures forall e | 0 <= e < |input| && input[e].kind.UploadAbandoned? :: Shows(g.attention, e)
    ensures AllEndWell(input, s)
  {
    var grouping := new Grouping(input);
    start := grouping.s;
    entered := grouping.ProcessAll();
    paired := grouping.s;
    grouping.CloseRemoved(streamExists);
    s := grouping.s;
    var goingOn := grouping.Ongoing();
    ongoing := goingOn;
    g := grouping.Rows(goingOn);
    AllListed(input, paired, s, ongoing);
    GoneEndWell(input, paired, s);
  }
}
