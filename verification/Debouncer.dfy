/**
  The hysteresis of the silence and imbalance detectors (internal/audio/debounce.go). Times are in
  nanoseconds and do not go back, as those of the monotonic clock.
 */
module Debouncer {
  import opened Tickets

  datatype Event = Update(condition: bool, durationMs: int, recoveryMs: int, now: int) | RestartTimers | Reset

  datatype Result = Result(
    incidentId: nat,
    active: bool,
    justEntered: bool,
    justRecovered: bool,
    durationMs: int,
    totalDurationMs: int,
    recoveryDurationMs: int)

  datatype Transition = Entered(id: nat) | Recovered(id: nat) | Cleared

  // Milliseconds truncates toward zero.
  function Milliseconds(duration: int): int {
    if duration >= 0 then duration / 1_000_000 else -(-duration / 1_000_000)
  }

  // Since when every update found the condition as given.
  function Since(history: seq<Event>, condition: bool): Option<int> {
    if history == [] then None
    else
      var last := history[|history| - 1];
      if !last.Update? || last.condition != condition then None
      else
        var before := Since(history[..|history| - 1], condition);
        if before.Some? then before else Some(last.now)
  }

  // When the condition was last found true.
  function LastTrue(history: seq<Event>): Option<int> {
    if history == [] then None
    else if history[|history| - 1].Update? && history[|history| - 1].condition then Some(history[|history| - 1].now)
    else LastTrue(history[..|history| - 1])
  }

  // The meaning of Since: an update at that time began an unbroken stretch, and none began earlier.
  lemma {:induction false} SinceIsUnbroken(history: seq<Event>, condition: bool) returns (from: nat)
    requires Since(history, condition).Some?
    ensures from < |history| && history[from].Update? && history[from].now == Since(history, condition).value
    ensures forall i | from <= i < |history| :: history[i].Update? && history[i].condition == condition
    ensures from > 0 ==> !(history[from - 1].Update? && history[from - 1].condition == condition)
  {
    var before := history[..|history| - 1];
    if Since(before, condition).Some? {
      from := SinceIsUnbroken(before, condition);
    } else {
      from := |history| - 1;
      if from > 0 {
        BrokenBefore(before, condition);
      }
    }
  }

  lemma BrokenBefore(history: seq<Event>, condition: bool)
    requires history != [] && Since(history, condition).None?
    ensures !(history[|history| - 1].Update? && history[|history| - 1].condition == condition)
  {
  }

  // A recovery follows the entry of the same incident, and an entry finds none open.
  predicate Fits(log: seq<Transition>, i: nat)
    requires i < |log|
  {
    match log[i]
    case Entered(_) => i == 0 || !log[i - 1].Entered?
    case Recovered(id) => i > 0 && log[i - 1] == Entered(id)
    case Cleared => true
  }

  ghost predicate Alternate(log: seq<Transition>) {
    forall i | 0 <= i < |log| :: Fits(log, i)
  }

  predicate IsOpen(log: seq<Transition>) {
    log != [] && log[|log| - 1].Entered?
  }

  lemma AlternateGrows(log: seq<Transition>, t: Transition)
    requires Alternate(log)
    requires match t
             case Entered(_) => !IsOpen(log)
             case Recovered(id) => log != [] && log[|log| - 1] == Entered(id)
             case Cleared => true
    ensures Alternate(log + [t]) && IsOpen(log + [t]) == t.Entered?
  {
    forall i | 0 <= i < |log + [t]|
      ensures Fits(log + [t], i)
    {
      assert i < |log| ==> Fits(log, i);
    }
  }

  // The transition of an update, if any.
  function Extended(log: seq<Transition>, r: Result): seq<Transition> {
    if r.justEntered then log + [Entered(r.incidentId)]
    else if r.justRecovered then log + [Recovered(r.incidentId)]
    else log
  }

  lemma LogGrows(log: seq<Transition>, active: bool, id: nat, r: Result, id': nat)
    requires Logged(log, active, id) && !(r.justEntered && r.justRecovered)
    requires r.justEntered ==> !active && r.incidentId == id'
    requires r.justRecovered ==> active && r.incidentId == id
    requires active && !r.justRecovered ==> id == id'
    ensures Logged(Extended(log, r), (active || r.justEntered) && !r.justRecovered, id')
  {
    if r.justEntered {
      AlternateGrows(log, Entered(r.incidentId));
    } else if r.justRecovered {
      AlternateGrows(log, Recovered(r.incidentId));
    }
  }

  lemma SinceGrows(history: seq<Event>, e: Event, condition: bool)
    ensures Since(history + [e], condition) ==
            if !e.Update? || e.condition != condition then None
            else if Since(history, condition).Some? then Since(history, condition) else Some(e.now)
    ensures LastTrue(history + [e]) == if e.Update? && e.condition then Some(e.now) else LastTrue(history)
  {
    assert (history + [e])[..|history|] == history;
  }

  // IDs are 32-bit and skip 0.
  function NextId(id: nat): nat {
    var next := (id + 1) % 0x1_0000_0000;
    if next < 1 then 1 else next
  }

  // What the fields must be, given since when the condition was found true and false without a break,
  // and when it was last found true.
  predicate Follows(start: Option<int>, recoveryStart: Option<int>, active: bool, activeDurationMs: int,
                    trueSince: Option<int>, falseSince: Option<int>, lastTrue: Option<int>) {
    && (active ==> start.Some? && recoveryStart == falseSince)
    && (active ==> lastTrue.Some? && activeDurationMs == Milliseconds(lastTrue.value - start.value))
    && (!active ==> start == trueSince && recoveryStart.None?)
  }

  // The log is that of the incidents so far, the last one still open if `active`.
  ghost predicate Logged(log: seq<Transition>, active: bool, id: nat) {
    Alternate(log) && IsOpen(log) == active && (active ==> log[|log| - 1] == Entered(id))
  }

  class Debouncer {
    var start: Option<int>
    var recoveryStart: Option<int>
    var active: bool
    var activeDurationMs: int
    var incidentSeq: nat
    ghost var history: seq<Event>
    ghost var log: seq<Transition>

    ghost predicate Valid()
      reads this
    {
      && Follows(start, recoveryStart, active, activeDurationMs, Since(history, true), Since(history, false), LastTrue(history))
      && Logged(log, active, incidentSeq)
      && (start.Some? ==> 1 <= incidentSeq < 0x1_0000_0000)
    }

    constructor ()
      ensures Valid() && history == [] && log == [] && !active && incidentSeq == 0
    {
      start, recoveryStart, active, activeDurationMs, incidentSeq := None, None, false, 0, 0;
      history, log := [], [];
    }

    // An incident is entered once every update has found the condition true for as long as this call
    // asks for, and recovers once every update has found it false for long enough.
    method Update(condition: bool, durationMs: int, recoveryMs: int, now: int) returns (r: Result)
      requires Valid()
      modifies this
      ensures Valid() && history == old(history) + [Event.Update(condition, durationMs, recoveryMs, now)]
      ensures r.justEntered <==> !old(active) && condition && Milliseconds(now - Since(history, true).value) >= durationMs
      ensures r.justRecovered <==> old(active) && !condition && Milliseconds(now - Since(history, false).value) >= recoveryMs
      ensures r.active == active == ((old(active) || r.justEntered) && !r.justRecovered)
      ensures log == Extended(old(log), r)
      ensures r.justEntered ==> start == Since(history, true) && r.durationMs == Milliseconds(now - start.value)
      ensures old(active) && active ==> start == old(start)
      ensures r.justRecovered ==>
                && LastTrue(old(history)).Some? && old(start).Some?
                && r.totalDurationMs == Milliseconds(LastTrue(old(history)).value - old(start).value)
                && r.recoveryDurationMs == Milliseconds(now - Since(history, false).value)
      ensures condition || old(active) ==> r.incidentId == incidentSeq >= 1
      ensures incidentSeq == if condition && old(start).None? then NextId(old(incidentSeq)) else old(incidentSeq)
    {
      SinceGrows(history, Event.Update(condition, durationMs, recoveryMs, now), true);
      SinceGrows(history, Event.Update(condition, durationMs, recoveryMs, now), false);
      if condition {
        r := Found(durationMs, now, Since(history, true), Since(history, false), LastTrue(history));
      } else {
        r := NotFound(recoveryMs, now, Since(history, true), Since(history, false), LastTrue(history));
      }
      LogGrows(log, old(active), old(incidentSeq), r, incidentSeq);
      log := Extended(log, r);
      history := history + [Event.Update(condition, durationMs, recoveryMs, now)];
    }

    method Found(durationMs: int, now: int, ghost trueSince: Option<int>, ghost falseSince: Option<int>, ghost lastTrue: Option<int>)
      returns (r: Result)
      requires Follows(start, recoveryStart, active, activeDurationMs, trueSince, falseSince, lastTrue)
      requires start.Some? ==> 1 <= incidentSeq < 0x1_0000_0000
      modifies `start, `recoveryStart, `active, `activeDurationMs, `incidentSeq
      ensures var since := if trueSince.Some? then trueSince else Some(now);
        && Follows(start, recoveryStart, active, activeDurationMs, since, None, Some(now))
        && (r.justEntered <==> !old(active) && Milliseconds(now - since.value) >= durationMs)
        && (r.justEntered ==> start == since && r.durationMs == Milliseconds(now - since.value))
      ensures !r.justRecovered && r.active == active == (old(active) || r.justEntered)
      ensures old(active) ==> start == old(start)
      ensures start.Some? ==> 1 <= incidentSeq < 0x1_0000_0000
      ensures r.incidentId == incidentSeq >= 1
      ensures incidentSeq == if old(start).None? then NextId(old(incidentSeq)) else old(incidentSeq)
    {
      recoveryStart := None;
      if start.None? {
        start := Some(now);
        incidentSeq := NextId(incidentSeq);
      }
      var elapsed := Milliseconds(now - start.value);
      activeDurationMs := elapsed;
      if active {
        r := Result(incidentSeq, true, false, false, elapsed, 0, 0);
      } else if elapsed >= durationMs {
        active := true;
        r := Result(incidentSeq, true, true, false, elapsed, 0, 0);
      } else {
        r := Result(incidentSeq, false, false, false, 0, 0, 0);
      }
    }

    method NotFound(recoveryMs: int, now: int, ghost trueSince: Option<int>, ghost falseSince: Option<int>, ghost lastTrue: Option<int>)
      returns (r: Result)
      requires Follows(start, recoveryStart, active, activeDurationMs, trueSince, falseSince, lastTrue)
      modifies `start, `recoveryStart, `active, `activeDurationMs
      ensures var since := if falseSince.Some? then falseSince else Some(now);
        && Follows(start, recoveryStart, active, activeDurationMs, None, since, lastTrue)
        && (r.justRecovered <==> old(active) && Milliseconds(now - since.value) >= recoveryMs)
        && (r.justRecovered ==> r.recoveryDurationMs == Milliseconds(now - since.value))
      ensures r.justRecovered ==> lastTrue.Some? && old(start).Some? && r.totalDurationMs == Milliseconds(lastTrue.value - old(start).value)
      ensures !r.justEntered && r.active == active == (old(active) && !r.justRecovered)
      ensures active ==> start == old(start)
      ensures start.Some? ==> start == old(start)
      ensures old(active) ==> r.incidentId == incidentSeq
    {
      if !active {
        start := None;
        return Result(0, false, false, false, 0, 0, 0);
      }
      if recoveryStart.None? {
        recoveryStart := Some(now);
      }
      var recoveryElapsed := Milliseconds(now - recoveryStart.value);
      if recoveryElapsed >= recoveryMs {
        r := Result(incidentSeq, false, false, true, 0, activeDurationMs, recoveryElapsed);
        active := false;
        activeDurationMs := 0;
        start := None;
        recoveryStart := None;
        return;
      }
      r := Result(incidentSeq, true, false, false, 0, 0, 0);
    }

    // Time measured under an older condition does not count; a confirmed incident goes on.
    method Restart()
      requires Valid()
      modifies `start, `recoveryStart, `history
      ensures Valid() && history == old(history) + [RestartTimers]
      ensures Since(history, true).None? && Since(history, false).None?
      ensures start == if active then old(start) else None
    {
      SinceGrows(history, RestartTimers, true);
      SinceGrows(history, RestartTimers, false);
      Forget(Since(history, true), Since(history, false), LastTrue(history));
      history := history + [RestartTimers];
    }

    method Forget(ghost trueSince: Option<int>, ghost falseSince: Option<int>, ghost lastTrue: Option<int>)
      requires Follows(start, recoveryStart, active, activeDurationMs, trueSince, falseSince, lastTrue)
      modifies `start, `recoveryStart
      ensures Follows(start, recoveryStart, active, activeDurationMs, None, None, lastTrue)
      ensures start == if active then old(start) else None
    {
      if !active {
        start := None;
      }
      recoveryStart := None;
    }

    method Clear()
      requires Valid()
      modifies `start, `recoveryStart, `active, `activeDurationMs, `history, `log
      ensures Valid() && !active && history == old(history) + [Reset] && log == old(log) + [Cleared]
      ensures Since(history, true).None? && Since(history, false).None?
    {
      SinceGrows(history, Reset, true);
      SinceGrows(history, Reset, false);
      AlternateGrows(log, Cleared);
      start := None;
      recoveryStart := None;
      active := false;
      activeDurationMs := 0;
      history := history + [Reset];
      log := log + [Cleared];
    }
  }

  // An entry under non-decreasing times: the updates that led to it span the duration, and all of
  // them found the condition true.
  lemma EntryNeedsDuration(history: seq<Event>, condition: bool, spanMs: nat, now: int) returns (from: nat)
    requires history != [] && history[|history| - 1].Update? && history[|history| - 1].now == now
    requires forall i, j | 0 <= i < j < |history| && history[i].Update? && history[j].Update? :: history[i].now <= history[j].now
    requires Since(history, condition).Some? && Milliseconds(now - Since(history, condition).value) >= spanMs
    ensures from < |history| && history[from].Update? && now - history[from].now >= spanMs * 1_000_000
    ensures forall i | from <= i < |history| :: history[i].Update? && history[i].condition == condition
  {
    from := SinceIsUnbroken(history, condition);
  }
}
