/**
  Watching the free space of recording directories (internal/recording/storage.go, manager.go).

  A log write that fails is not modelled; what the log says about a path is what a restart reads.
 */
module Storage {
  import opened Tickets

  // Arithmetic on it is checked never to leave 64 bits.
  newtype uint64 = n: int | 0 <= n < 0x1_0000_0000_0000_0000

  const GIB: uint64 := 0x4000_0000

  function Max(a: uint64, b: uint64): uint64 {
    if a > b then a else b
  }

  function Min(a: uint64, b: uint64): uint64 {
    if a < b then a else b
  }

  function Threshold(total: uint64): uint64 {
    Max(GIB, total / 20)
  }

  function RecoveryMargin(threshold: uint64, total: uint64): uint64 {
    if total <= threshold then 0 else Min(Max(GIB, total / 40), (total - threshold) / 2)
  }

  // The space a low path needs to recover: more than it was low at, and never more than there is.
  function Recovery(total: uint64): (recovery: uint64)
    ensures Threshold(total) <= recovery
    ensures total > Threshold(total) ==> recovery <= total
    ensures total > Threshold(total) + 1 ==> recovery > Threshold(total)
    ensures total <= Threshold(total) ==> recovery == Threshold(total)
  {
    Threshold(total) + RecoveryMargin(Threshold(total), total)
  }

  // From 3 GiB up the margin absorbs an hour of recordings; it is never less than that or half of
  // what lies above the threshold.
  lemma MarginIsFull(total: uint64)
    ensures total >= 3 * GIB <==> total > Threshold(total) && RecoveryMargin(Threshold(total), total) == Max(GIB, total / 40)
  {
  }

  datatype Status = Status(
    path: string,
    available: uint64,
    total: uint64,
    threshold: uint64,
    recovery: uint64,
    low: bool,
    error: bool)

  predicate Unhealthy(s: Status) {
    s.low || s.error
  }

  // What the operating system says about a path.
  datatype Space = Space(available: uint64, total: uint64) | Failure

  datatype Event = Event(path: string, low: bool, restored: bool, available: uint64, recovery: uint64)

  predicate DistinctPaths(statuses: seq<Status>) {
    forall i, j | 0 <= i < j < |statuses| :: statuses[i].path != statuses[j].path
  }

  function Find(statuses: seq<Status>, path: string): (found: Option<Status>)
    ensures found.Some? ==> found.value in statuses && found.value.path == path
    ensures found.None? ==> forall s <- statuses :: s.path != path
  {
    if statuses == [] then None
    else if statuses[0].path == path then Some(statuses[0])
    else Find(statuses[1..], path)
  }

  predicate UnhealthyAt(statuses: seq<Status>, path: string) {
    Find(statuses, path).Some? && Unhealthy(Find(statuses, path).value)
  }

  // Whether the newest event of a path opened an incident.
  predicate OpenLow(log: seq<Event>, path: string) {
    log != [] && if log[|log| - 1].path == path then !log[|log| - 1].restored else OpenLow(log[..|log| - 1], path)
  }

  function Observed(path: string, space: Space): Status {
    var total := if space.Failure? then 0 else space.total;
    var available := if space.Failure? then 0 else space.available;
    var invalid := space.Failure? || total == 0 || available > total;
    Status(path, available, total, Threshold(total), Recovery(total), !invalid && available < Threshold(total), invalid)
  }

  // A path that was low or unavailable stays low until it has recovered its space.
  function Held(previous: seq<Status>, s: Status): Status {
    if s.low || s.error || s.available >= s.recovery then s else s.(low := UnhealthyAt(previous, s.path))
  }

  // Whether a path's observation is reported: its health changed, or how it is unhealthy.
  predicate Reported(previous: seq<Status>, s: Status) {
    var before := Find(previous, s.path);
    var wasUnhealthy, wasLow := UnhealthyAt(previous, s.path), before.Some? && before.value.low;
    Unhealthy(s) != wasUnhealthy || (Unhealthy(s) && s.low != wasLow)
  }

  function EventOf(s: Status): Event {
    Event(s.path, s.low, !Unhealthy(s), s.available, s.recovery)
  }

  function Reports(previous: seq<Status>, current: seq<Status>): seq<Event> {
    if current == [] then []
    else
      Reports(previous, current[..|current| - 1])
      + if Reported(previous, current[|current| - 1]) then [EventOf(current[|current| - 1])] else []
  }

  // Paths that left monitoring while they were unhealthy.
  function Left(previous: seq<Status>, current: seq<Status>): seq<Event> {
    if previous == [] then []
    else
      var last := previous[|previous| - 1];
      Left(previous[..|previous| - 1], current)
      + if Unhealthy(last) && Find(current, last.path).None? then [Event(last.path, false, true, 0, 0)] else []
  }

  function ObserveAll(previous: seq<Status>, paths: seq<string>, spaces: seq<Space>): (current: seq<Status>)
    requires |spaces| == |paths|
    ensures |current| == |paths| && forall i | 0 <= i < |paths| :: current[i] == Held(previous, Observed(paths[i], spaces[i]))
  {
    seq(|paths|, i requires 0 <= i < |paths| => Held(previous, Observed(paths[i], spaces[i])))
  }

  // A monitored path's incident ends only when a probe finds the space it needs.
  lemma HeldUntilRecovered(previous: seq<Status>, path: string, space: Space)
    requires UnhealthyAt(previous, path)
    ensures var s := Held(previous, Observed(path, space));
      !Unhealthy(s) <==> space.Space? && 0 < space.total && Recovery(space.total) <= space.available <= space.total
  {
  }

  // A path that is no longer low again falls low only below the threshold.
  lemma LowBelowThreshold(previous: seq<Status>, path: string, space: Space)
    requires !UnhealthyAt(previous, path)
    ensures var s := Held(previous, Observed(path, space));
      s.low <==> space.Space? && 0 < space.total && space.available <= space.total && space.available < Threshold(space.total)
  {
  }

  // The newest of some events for a path.
  function Newest(events: seq<Event>, path: string): Option<Event> {
    if events == [] then None
    else if events[|events| - 1].path == path then Some(events[|events| - 1])
    else Newest(events[..|events| - 1], path)
  }

  lemma {:induction false} OpenAfter(log: seq<Event>, events: seq<Event>, path: string)
    ensures OpenLow(log + events, path) ==
            if Newest(events, path).Some? then !Newest(events, path).value.restored else OpenLow(log, path)
  {
    if events == [] {
      assert log + events == log;
    } else {
      assert (log + events)[..|log + events| - 1] == log + events[..|events| - 1];
      OpenAfter(log, events[..|events| - 1], path);
    }
  }

  lemma {:induction false} NewestJoins(a: seq<Event>, b: seq<Event>, path: string)
    ensures Newest(a + b, path) == if Newest(b, path).Some? then Newest(b, path) else Newest(a, path)
  {
    if b == [] {
      assert a + b == a;
    } else {
      assert (a + b)[..|a + b| - 1] == a + b[..|b| - 1];
      NewestJoins(a, b[..|b| - 1], path);
    }
  }

  lemma {:induction false} FindIsThere(statuses: seq<Status>, i: nat)
    requires i < |statuses| && DistinctPaths(statuses)
    ensures Find(statuses, statuses[i].path) == Some(statuses[i])
  {
    if i > 0 {
      assert statuses[0].path != statuses[i].path;
      FindIsThere(statuses[1..], i - 1);
    }
  }

  lemma {:induction false} FindInFront(statuses: seq<Status>, path: string)
    requires statuses != []
    ensures var front, last := statuses[..|statuses| - 1], statuses[|statuses| - 1];
      Find(statuses, path) == if Find(front, path).Some? then Find(front, path) else if last.path == path then Some(last) else None
  {
    if |statuses| > 1 {
      assert statuses[1..][..|statuses| - 2] == statuses[..|statuses| - 1][1..];
      FindInFront(statuses[1..], path);
    }
  }

  lemma {:induction false} NewestReport(previous: seq<Status>, current: seq<Status>, path: string)
    requires DistinctPaths(current)
    ensures Newest(Reports(previous, current), path) ==
            var s := Find(current, path);
            if s.Some? && Reported(previous, s.value) then Some(EventOf(s.value)) else None
  {
    if current != [] {
      var front, last := current[..|current| - 1], current[|current| - 1];
      NewestReport(previous, front, path);
      FindInFront(current, path);
      if Find(front, path).Some? {
        assert last.path != path;
      }
      if Reported(previous, last) {
        NewestJoins(Reports(previous, front), [EventOf(last)], path);
      } else {
        assert Reports(previous, front) + [] == Reports(previous, front);
      }
    }
  }

  lemma {:induction false} NewestLeft(previous: seq<Status>, current: seq<Status>, path: string)
    requires DistinctPaths(previous)
    ensures Newest(Left(previous, current), path) ==
            if UnhealthyAt(previous, path) && Find(current, path).None? then Some(Event(path, false, true, 0, 0)) else None
  {
    if previous != [] {
      var front, last := previous[..|previous| - 1], previous[|previous| - 1];
      NewestLeft(front, current, path);
      FindInFront(previous, path);
      if Find(front, path).Some? {
        assert last.path != path;
      }
      if Unhealthy(last) && Find(current, last.path).None? {
        NewestJoins(Left(front, current), [Event(last.path, false, true, 0, 0)], path);
      } else {
        assert Left(front, current) + [] == Left(front, current);
      }
    }
  }

  // The log has an open incident for exactly the paths that are unhealthy.
  ghost predicate Matches(log: seq<Event>, statuses: seq<Status>) {
    forall path: string :: OpenLow(log, path) <==> UnhealthyAt(statuses, path)
  }

  function Scanned(log: seq<Event>, previous: seq<Status>, current: seq<Status>): seq<Event> {
    log + (Reports(previous, current) + Left(previous, current))
  }

  lemma ScanKeepsLog(log: seq<Event>, previous: seq<Status>, current: seq<Status>)
    requires DistinctPaths(previous) && DistinctPaths(current) && Matches(log, previous)
    ensures Matches(Scanned(log, previous, current), current)
  {
    forall path: string
      ensures OpenLow(Scanned(log, previous, current), path) <==> UnhealthyAt(current, path)
    {
      OpenAfter(log, Reports(previous, current) + Left(previous, current), path);
      NewestJoins(Reports(previous, current), Left(previous, current), path);
      NewestReport(previous, current, path);
      NewestLeft(previous, current, path);
    }
  }

  // A restored event closes an open incident; of a path that is still monitored it tells of a probe
  // that found the space to recover.
  lemma RestoredIsTrue(log: seq<Event>, previous: seq<Status>, paths: seq<string>, spaces: seq<Space>, path: string)
    requires |paths| == |spaces| && (forall i, j | 0 <= i < j < |paths| :: paths[i] != paths[j])
    requires DistinctPaths(previous) && Matches(log, previous)
    ensures var current := ObserveAll(previous, paths, spaces);
      var event := Newest(Reports(previous, current) + Left(previous, current), path);
      event.Some? && event.value.restored ==>
        && OpenLow(log, path)
        && forall i | 0 <= i < |paths| && paths[i] == path ::
             spaces[i].Space? && 0 < spaces[i].total && Recovery(spaces[i].total) <= spaces[i].available <= spaces[i].total
  {
    var current := ObserveAll(previous, paths, spaces);
    NewestJoins(Reports(previous, current), Left(previous, current), path);
    NewestReport(previous, current, path);
    NewestLeft(previous, current, path);
    forall i | 0 <= i < |paths| && paths[i] == path
      ensures Find(current, path) == Some(current[i])
    {
      FindIsThere(current, i);
    }
  }

  class Monitor {
    var statuses: seq<Status>
    var log: seq<Event>

    ghost predicate Valid()
      reads this
    {
      DistinctPaths(statuses) && Matches(log, statuses)
    }

    // A new process takes over the incidents the log left open; their kind is kept.
    constructor (log: seq<Event>)
      ensures Valid() && this.log == log
      ensures forall path: string :: OpenLow(log, path) ==>
                Find(statuses, path).Some? && Newest(log, path).Some? && Find(statuses, path).value.low == Newest(log, path).value.low
    {
      statuses := Restored(log, {});
      this.log := log;
      new;
      RestoredMatches(log, {});
    }

    // One scan. A scan of an earlier run that was blocked publishes nothing.
    method CheckStorage(paths: seq<string>, spaces: seq<Space>, stale: bool) returns (changed: bool)
      requires Valid() && |spaces| == |paths| && forall i, j | 0 <= i < j < |paths| :: paths[i] != paths[j]
      modifies this
      ensures Valid()
      ensures stale ==> statuses == old(statuses) && log == old(log) && !changed
      ensures !stale ==> statuses == ObserveAll(old(statuses), paths, spaces) && log == Scanned(old(log), old(statuses), statuses)
      ensures changed <==> log != old(log)
    {
      if stale {
        return false;
      }
      var current := Probe(paths, spaces);
      current := HoldLowUntilRecovered(statuses, current);
      assert current == ObserveAll(statuses, paths, spaces);
      var reports := LogChanges(statuses, current);
      ScanKeepsLog(log, statuses, current);
      statuses := current;
      log := log + reports;
      changed := reports != [];
    }

    method Probe(paths: seq<string>, spaces: seq<Space>) returns (observed: seq<Status>)
      requires |spaces| == |paths|
      ensures |observed| == |paths| && forall i | 0 <= i < |paths| :: observed[i] == Observed(paths[i], spaces[i])
    {
      observed := [];
      for i := 0 to |paths|
        invariant |observed| == i && forall j | 0 <= j < i :: observed[j] == Observed(paths[j], spaces[j])
      {
        observed := observed + [Observed(paths[i], spaces[i])];
      }
    }

    method HoldLowUntilRecovered(previous: seq<Status>, observed: seq<Status>) returns (held: seq<Status>)
      ensures |held| == |observed| && forall i | 0 <= i < |observed| :: held[i] == Held(previous, observed[i])
    {
      held := observed;
      for i := 0 to |observed|
        invariant |held| == |observed|
        invariant forall j | 0 <= j < |observed| :: held[j] == if j < i then Held(previous, observed[j]) else observed[j]
      {
        if !held[i].low && !held[i].error && held[i].available < held[i].recovery {
          held := held[i := held[i].(low := UnhealthyAt(previous, held[i].path))];
        }
      }
    }

    method LogChanges(previous: seq<Status>, current: seq<Status>) returns (events: seq<Event>)
      ensures events == Reports(previous, current) + Left(previous, current)
    {
      events := [];
      for i := 0 to |current|
        invariant events == Reports(previous, current[..i])
      {
        assert current[..i + 1][..i] == current[..i];
        if Reported(previous, current[i]) {
          events := events + [EventOf(current[i])];
        }
      }
      assert current[..|current|] == current;
      for i := 0 to |previous|
        invariant events == Reports(previous, current) + Left(previous[..i], current)
      {
        assert previous[..i + 1][..i] == previous[..i];
        if Unhealthy(previous[i]) && Find(current, previous[i].path).None? {
          events := events + [Event(previous[i].path, false, true, 0, 0)];
        }
      }
      assert previous[..|previous|] == previous;
    }
  }

  // The incidents a log leaves open, but for paths whose newest event was seen already.
  function Restored(log: seq<Event>, seen: set<string>): seq<Status> {
    if log == [] then []
    else
      var last := log[|log| - 1];
      var rest := Restored(log[..|log| - 1], seen + {last.path});
      if last.path in seen || last.restored then rest
      else [Status(last.path, 0, 0, 0, 0, last.low, !last.low)] + rest
  }

  lemma {:induction false} RestoredSkipsSeen(log: seq<Event>, seen: set<string>)
    ensures forall s <- Restored(log, seen) :: s.path !in seen && Unhealthy(s)
    ensures DistinctPaths(Restored(log, seen))
  {
    if log != [] {
      RestoredSkipsSeen(log[..|log| - 1], seen + {log[|log| - 1].path});
    }
  }

  lemma {:induction false} RestoredAt(log: seq<Event>, seen: set<string>, path: string)
    requires path !in seen
    ensures UnhealthyAt(Restored(log, seen), path) <==> OpenLow(log, path)
    ensures OpenLow(log, path) ==>
              && Find(Restored(log, seen), path).Some? && Newest(log, path).Some?
              && Find(Restored(log, seen), path).value.low == Newest(log, path).value.low
  {
    if log != [] {
      var last := log[|log| - 1];
      RestoredSkipsSeen(log[..|log| - 1], seen + {last.path});
      if last.path != path {
        RestoredAt(log[..|log| - 1], seen + {last.path}, path);
      }
    }
  }

  lemma RestoredMatches(log: seq<Event>, seen: set<string>)
    requires seen == {}
    ensures DistinctPaths(Restored(log, seen)) && Matches(log, Restored(log, seen))
    ensures forall path: string :: OpenLow(log, path) ==>
              Find(Restored(log, seen), path).Some? && Newest(log, path).Some?
              && Find(Restored(log, seen), path).value.low == Newest(log, path).value.low
  {
    RestoredSkipsSeen(log, seen);
    forall path: string
      ensures UnhealthyAt(Restored(log, seen), path) <==> OpenLow(log, path)
      ensures OpenLow(log, path) ==>
                Find(Restored(log, seen), path).Some? && Newest(log, path).Some?
                && Find(Restored(log, seen), path).value.low == Newest(log, path).value.low
    {
      RestoredAt(log, seen, path);
    }
  }
}
