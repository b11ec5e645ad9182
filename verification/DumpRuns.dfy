/**
  Runs of the incident capturer (internal/silencedump/dump.go): with one capture at a time every dump
  is the wanted one, with two that recover at once it need not be.
 */
module DumpRuns {
  import opened Tickets
  import opened Dump

  // A capture whose dump will come in time if every write brings at most `chunk` bytes: it was
  // confirmed early enough, and no write has reached it since it became due.
  predicate Punctual(c: Capture, total: nat, chunk: nat) {
    c.recovered ==>
      && c.start <= c.end <= c.recoveredAt <= total && c.recoveredAt - c.end + chunk <= CAPACITY
      && (!Due(c, total) || total == c.recoveredAt)
  }

  lemma PunctualIsInTime(c: Capture, total: nat, chunk: nat, n: nat)
    requires Punctual(c, total, chunk) && c.recovered && n <= chunk <= CAPACITY - AFTER
    ensures InTime(c, total, n)
  {
  }

  lemma RecoveredIsPunctual(c: Capture, total: nat, recovery: nat, chunk: nat)
    requires c.start <= total && !c.recovered && recovery + chunk <= CAPACITY
    ensures Punctual(Recovered(c, total, recovery), total, chunk)
  {
  }

  lemma WantedStays(history: Bytes, more: Bytes, start: nat, end: nat)
    requires start <= end && end + AFTER <= |history|
    ensures Wanted(history + more, start, end) == Wanted(history, start, end)
  {
    var all := history + more;
    assert all[Max(0, start - BEFORE)..start] == history[Max(0, start - BEFORE)..start];
    assert all[start..start + Min(end - start, MAX_INCIDENT)] == history[start..start + Min(end - start, MAX_INCIDENT)];
    assert all[end..end + AFTER] == history[end..end + AFTER];
  }

  datatype Event = Audio(pcm: Bytes) | Starts(key: Key) | Recovers(recovery: nat)

  // The dump of an incident between two positions.
  datatype Dumped = Dumped(start: nat, end: nat, pcm: Bytes)

  predicate IsWanted(history: Bytes, d: Dumped) {
    d.start <= d.end && d.end + AFTER <= |history| && d.pcm == Wanted(history, d.start, d.end)
  }

  ghost predicate AllWanted(history: Bytes, dumps: seq<Dumped>) {
    forall i | 0 <= i < |dumps| :: IsWanted(history, dumps[i])
  }

  lemma AllWantedStay(history: Bytes, more: Bytes, dumps: seq<Dumped>)
    requires AllWanted(history, dumps)
    ensures AllWanted(history + more, dumps)
  {
    forall i | 0 <= i < |dumps|
      ensures IsWanted(history + more, dumps[i])
    {
      WantedStays(history, more, dumps[i].start, dumps[i].end);
    }
  }

  predicate Bounded(event: Event, chunk: nat) {
    match event
    case Audio(pcm) => |pcm| <= chunk
    case Starts(_) => true
    case Recovers(recovery) => recovery + chunk <= CAPACITY
  }

  // The incident being captured, and where it ended.
  datatype Incident = Incident(key: Key, start: nat, end: Option<nat>)

  // Whether this event brings the audio that completes the dump.
  predicate Completes(pending: Option<Incident>, total: nat, event: Event) {
    event.Audio? && event.pcm != [] && pending.Some? && pending.value.end.Some?
    && total + |event.pcm| >= pending.value.end.value + AFTER
  }

  function Next(pending: Option<Incident>, total: nat, event: Event): Option<Incident> {
    match event
    case Audio(_) => if Completes(pending, total, event) then None else pending
    case Starts(key) => if pending.None? then Some(Incident(key, total, None)) else pending
    case Recovers(recovery) =>
      if pending.Some? && pending.value.end.None?
      then Some(pending.value.(end := Some(Max(pending.value.start, total - recovery)))) else pending
  }

  // Of a run: all audio, the incident still being captured, and the incidents whose dumps are complete.

  function History(events: seq<Event>): Bytes {
    if events == [] then []
    else History(events[..|events| - 1]) + if events[|events| - 1].Audio? then events[|events| - 1].pcm else []
  }

  function Pending(events: seq<Event>): Option<Incident> {
    if events == [] then None
    else Next(Pending(events[..|events| - 1]), |History(events[..|events| - 1])|, events[|events| - 1])
  }

  function Complete(events: seq<Event>): seq<Incident> {
    if events == [] then []
    else
      var before := events[..|events| - 1];
      if Completes(Pending(before), |History(before)|, events[|events| - 1]) then Complete(before) + [Pending(before).value]
      else Complete(before)
  }

  // Every complete incident has the dump it should have.
  ghost predicate Dumps(history: Bytes, incidents: seq<Incident>, dumps: seq<Dumped>) {
    && |dumps| == |incidents| && AllWanted(history, dumps)
    && forall i | 0 <= i < |dumps| :: dumps[i].start == incidents[i].start && incidents[i].end == Some(dumps[i].end)
  }

  lemma OneMoreEvent(events: seq<Event>, i: nat)
    requires i < |events|
    ensures var before, total := events[..i], |History(events[..i])|;
      && History(events[..i + 1]) == History(before) + (if events[i].Audio? then events[i].pcm else [])
      && Pending(events[..i + 1]) == Next(Pending(before), total, events[i])
      && Complete(events[..i + 1]) == if Completes(Pending(before), total, events[i]) then Complete(before) + [Pending(before).value] else Complete(before)
  {
    assert events[..i + 1][..i] == events[..i];
  }

  lemma OneMoreDump(history: Bytes, more: Bytes, incidents: seq<Incident>, pending: Option<Incident>, dumps: seq<Dumped>, dump: Option<Dumped>)
    requires Dumps(history, incidents, dumps)
    requires dump.Some? ==> pending.Some? && IsDump(history + more, pending.value, dump.value)
    ensures if dump.Some? then Dumps(history + more, incidents + [pending.value], dumps + [dump.value])
            else Dumps(history + more, incidents, dumps)
  {
    AllWantedStay(history, more, dumps);
  }

  // At most one capture is pending, and its dump will come in time.
  ghost predicate OnePending(captures: map<Key, Capture>, pending: Option<Incident>, total: nat, chunk: nat) {
    && captures.Keys == (if pending.Some? then {pending.value.key} else {})
    && (pending.Some? ==> Follows(captures[pending.value.key], pending.value) && Punctual(captures[pending.value.key], total, chunk))
  }

  predicate Follows(c: Capture, incident: Incident) {
    c.start == incident.start && c.recovered == incident.end.Some? && (c.recovered ==> c.end == incident.end.value)
  }

  // Over any run with one capture at a time, every dump is the wanted one, and none is missing:
  // audio comes in chunks of at most 20 s, a recovery and a chunk are at most 35 s, an incident
  // begins while no capture is pending, and an incident recovers once.
  method ReplayOneAtATime(events: seq<Event>, chunk: nat) returns (dumps: seq<Dumped>)
    requires chunk <= CAPACITY - AFTER && forall i | 0 <= i < |events| :: Bounded(events[i], chunk)
    ensures Dumps(History(events), Complete(events), dumps)
  {
    var c := new Capturer(true);
    var pending: Option<Incident> := None;
    dumps := [];
    for i := 0 to |events|
      invariant c.Valid() && c.enabled && fresh(c) && fresh(c.ring) && fresh(c.ring.buffer)
      invariant c.ring.history == History(events[..i]) && pending == Pending(events[..i])
      invariant Dumps(c.ring.history, Complete(events[..i]), dumps)
      invariant OnePending(c.captures, pending, |c.ring.history|, chunk)
    {
      OneMoreEvent(events, i);
      var dump;
      ghost var before := c.ring.history;
      dump, pending := HandleOne(c, events[i], pending, chunk);
      OneMoreDump(before, if events[i].Audio? then events[i].pcm else [], Complete(events[..i]), Pending(events[..i]), dumps, dump);
      if dump.Some? {
        dumps := dumps + [dump.value];
      }
    }
    assert events[..|events|] == events;
  }

  method HandleOne(c: Capturer, event: Event, pending: Option<Incident>, chunk: nat) returns (dump: Option<Dumped>, pending': Option<Incident>)
    requires c.Valid() && c.enabled && chunk <= CAPACITY - AFTER && Bounded(event, chunk)
    requires OnePending(c.captures, pending, |c.ring.history|, chunk)
    modifies c, c.ring, c.ring.buffer
    ensures c.Valid() && c.enabled && OnePending(c.captures, pending', |c.ring.history|, chunk)
    ensures c.ring.history == old(c.ring.history) + if event.Audio? then event.pcm else []
    ensures pending' == Next(pending, |old(c.ring.history)|, event)
    ensures dump.Some? <==> Completes(pending, |old(c.ring.history)|, event)
    ensures dump.Some? ==> IsDump(c.ring.history, pending.value, dump.value)
  {
    pending' := Next(pending, c.ring.totalWritten, event);
    dump := None;
    if event.Audio? {
      dump := TakeAudio(c, event.pcm, pending, chunk);
    } else {
      TakeNote(c, event, pending, chunk);
      assert c.ring.history + [] == c.ring.history;
    }
  }

  // The detector reports an incident, or its end.
  method TakeNote(c: Capturer, event: Event, pending: Option<Incident>, ghost chunk: nat)
    requires c.Valid() && c.enabled && Bounded(event, chunk) && !event.Audio?
    requires OnePending(c.captures, pending, |c.ring.history|, chunk)
    modifies c`captures
    ensures c.Valid() && OnePending(c.captures, Next(pending, |c.ring.history|, event), |c.ring.history|, chunk)
  {
    if event.Starts? {
      StartsAlone(c, event.key, pending, chunk);
    } else {
      RecoversInTime(c, pending, event.recovery, chunk);
    }
  }

  predicate IsDump(history: Bytes, incident: Incident, d: Dumped) {
    IsWanted(history, d) && d.start == incident.start && incident.end == Some(d.end)
  }

  method StartsAlone(c: Capturer, key: Key, pending: Option<Incident>, ghost chunk: nat)
    requires c.Valid() && c.enabled && OnePending(c.captures, pending, |c.ring.history|, chunk)
    modifies c`captures
    ensures c.Valid() && OnePending(c.captures, Next(pending, |c.ring.history|, Starts(key)), |c.ring.history|, chunk)
  {
    if pending.None? {
      c.OnIncidentStart(key);
    }
  }

  lemma RecoveredKeepsOne(captures: map<Key, Capture>, pending: Option<Incident>, total: nat, recovery: nat, chunk: nat)
    requires OnePending(captures, pending, total, chunk) && pending.Some? && pending.value.end.None? && pending.value.start <= total
    requires recovery + chunk <= CAPACITY
    ensures var key := pending.value.key;
      OnePending(captures[key := Recovered(captures[key], total, recovery)], Next(pending, total, Recovers(recovery)), total, chunk)
  {
    RecoveredIsPunctual(captures[pending.value.key], total, recovery, chunk);
  }

  method RecoversInTime(c: Capturer, pending: Option<Incident>, recovery: nat, ghost chunk: nat)
    requires c.Valid() && c.enabled && OnePending(c.captures, pending, |c.ring.history|, chunk) && recovery + chunk <= CAPACITY
    modifies c`captures
    ensures c.Valid() && OnePending(c.captures, Next(pending, |c.ring.history|, Recovers(recovery)), |c.ring.history|, chunk)
  {
    if pending.Some? && pending.value.end.None? {
      RecoveredKeepsOne(c.captures, pending, |c.ring.history|, recovery, chunk);
      c.OnIncidentRecover(pending.value.key, recovery);
    }
  }

  // One write with at most one capture pending.
  method TakeAudio(c: Capturer, pcm: Bytes, pending: Option<Incident>, chunk: nat) returns (dump: Option<Dumped>)
    requires c.Valid() && c.enabled && |pcm| <= chunk <= CAPACITY - AFTER
    requires OnePending(c.captures, pending, |c.ring.history|, chunk)
    modifies c, c.ring, c.ring.buffer
    ensures c.Valid() && c.enabled && c.ring.history == old(c.ring.history) + pcm
    ensures dump.Some? <==> Completes(pending, |old(c.ring.history)|, Audio(pcm))
    ensures dump.Some? ==> IsDump(c.ring.history, pending.value, dump.value)
    ensures OnePending(c.captures, Next(pending, |old(c.ring.history)|, Audio(pcm)), |c.ring.history|, chunk)
  {
    ghost var before, total := c.captures, |c.ring.history|;
    var made := c.WriteAudio(pcm);
    if made.Some? {
      PunctualIsInTime(before[pending.value.key], total, chunk, |pcm|);
      return Some(Dumped(pending.value.start, pending.value.end.value, made.value.pcm));
    }
    return None;
  }

  // So many bytes of one sound, quiet or loud.
  ghost predicate Sounds(audio: Bytes, n: nat, sound: byte) {
    |audio| == n && forall i | 0 <= i < n :: audio[i] == sound
  }

  method Sound(n: nat, sound: byte) returns (audio: Bytes)
    ensures Sounds(audio, n, sound)
  {
    audio := seq(n, _ => sound);
  }

  // The captures of these incidents, which all began with the audio.
  ghost predicate BothFrom(captures: map<Key, Capture>, going: set<Key>, recovered: set<Key>) {
    && captures.Keys == going + recovered
    && (forall k <- going :: captures[k].start == 0 && !captures[k].recovered)
    && (forall k <- recovered ::
         captures[k].start == 0 && captures[k].recovered && captures[k].end == 19_200 && captures[k].recoveredAt == 6_720_000)
  }

  lemma NotDueYet(captures: map<Key, Capture>, keys: set<Key>, f: Finished, after: map<Key, Capture>, pcm: Bytes, history: Bytes)
    requires BothFrom(captures, keys, {}) && |pcm| <= |history|
    ensures !IsFinished(f, after, captures, pcm, history)
    ensures NothingDue(after, captures, pcm, history) ==> BothFrom(after, keys, {})
  {
  }

  method PlayQuietly(c: Capturer, n: nat, ghost played: nat, ghost keys: set<Key>)
    requires c.Valid() && c.enabled && 0 < n <= CAPACITY
    requires Sounds(c.ring.history, played, 0) && BothFrom(c.captures, keys, {})
    modifies c, c.ring, c.ring.buffer
    ensures c.Valid() && c.enabled && Sounds(c.ring.history, played + n, 0) && BothFrom(c.captures, keys, {})
  {
    ghost var before := c.captures;
    var pcm := Sound(n, 0);
    var none := c.WriteAudio(pcm);
    NotDueYet(before, keys, if none.Some? then none.value else Finished(Key(Silence, 0), []), c.captures, pcm, c.ring.history);
  }

  // Once the audio behind the first 35.1 s is loud, the ring holds it in the place of what followed
  // the incident.
  lemma LoudTakesItsPlace(quiet: Bytes, loud: Bytes, c: Capture, pcm: Bytes)
    requires Sounds(quiet, 6_739_200, 0) && Sounds(loud, 19_200, 1)
    requires c.start == 0 && c.end == 19_200 && c.recoveredAt == 6_720_000 && pcm == Made(quiet + loud, c)
    ensures pcm != Wanted(quiet + loud, 0, 19_200)
  {
    var history := quiet + loud;
    assert Latest(19_200, |history|) == 6_739_200;
    assert Held(history, c.end, AFTER)[0] == history[6_739_200];
    assert Made(history, c)[19_200] == 1;
    assert Wanted(history, 0, 19_200)[19_200] == history[19_200];
  }

  // Two captures that recover at once spoil a dump, within the same bounds: chunks of 100 ms, and
  // recoveries confirmed after 34.9 s. Each write finishes one, and by the second the audio that
  // followed the incident has left the ring.
  method TwoAtOnceSpoilADump() returns (history: Bytes, dump: Dumped)
    ensures dump.start <= dump.end && dump.end + AFTER <= |history|
    ensures dump.pcm != Wanted(history, dump.start, dump.end)
  {
    var c := new Capturer(true);
    var silence, imbalance := Key(Silence, 1), Key(ChannelImbalance, 1);
    RunBoth(c, silence, imbalance);
    var other := FinishFirst(c, silence, imbalance);
    history, dump := FinishSecond(c, other);
  }

  // Both incidents begin with the audio, and recover after 35 s of it.
  method RunBoth(c: Capturer, silence: Key, imbalance: Key)
    requires c.Valid() && c.enabled && c.ring.history == [] && c.captures == map[]
    requires silence.trigger != imbalance.trigger
    modifies c, c.ring, c.ring.buffer
    ensures c.Valid() && c.enabled && Sounds(c.ring.history, 6_720_000, 0) && BothFrom(c.captures, {}, {silence, imbalance})
  {
    BothStart(c, silence, imbalance);
    PlayTwice(c, {silence, imbalance});
    BothRecover(c, silence, imbalance);
  }

  method PlayTwice(c: Capturer, ghost keys: set<Key>)
    requires c.Valid() && c.enabled && c.ring.history == [] && BothFrom(c.captures, keys, {})
    modifies c, c.ring, c.ring.buffer
    ensures c.Valid() && c.enabled && Sounds(c.ring.history, 6_720_000, 0) && BothFrom(c.captures, keys, {})
  {
    PlayQuietly(c, 3_360_000, 0, keys);
    PlayQuietly(c, 3_360_000, 3_360_000, keys);
  }

  method BothStart(c: Capturer, silence: Key, imbalance: Key)
    requires c.Valid() && c.enabled && c.ring.history == [] && c.captures == map[]
    requires silence.trigger != imbalance.trigger
    modifies c`captures
    ensures c.Valid() && BothFrom(c.captures, {silence, imbalance}, {})
  {
    StartOne(c, {}, silence);
    StartOne(c, {} + {silence}, imbalance);
    assert {} + {silence} + {imbalance} == {silence, imbalance};
  }

  method StartOne(c: Capturer, ghost keys: set<Key>, key: Key)
    requires c.Valid() && c.enabled && c.ring.history == [] && BothFrom(c.captures, keys, {})
    requires forall k <- keys :: k.trigger != key.trigger
    modifies c`captures
    ensures c.Valid() && BothFrom(c.captures, keys + {key}, {})
  {
    StartJoins(c.captures, keys, key, c.ring.history);
    c.OnIncidentStart(key);
  }

  lemma StartJoins(captures: map<Key, Capture>, keys: set<Key>, key: Key, history: Bytes)
    requires BothFrom(captures, keys, {}) && history == [] && forall k <- keys :: k.trigger != key.trigger
    ensures BothFrom(Others(captures, key.trigger)[key := Started(history)], keys + {key}, {})
  {
    assert Others(captures, key.trigger).Keys == keys;
  }

  method BothRecover(c: Capturer, silence: Key, imbalance: Key)
    requires c.Valid() && c.enabled && |c.ring.history| == 6_720_000
    requires BothFrom(c.captures, {silence, imbalance}, {})
    modifies c`captures
    ensures c.Valid() && BothFrom(c.captures, {}, {silence, imbalance})
  {
    var total := c.ring.totalWritten;
    BothAreRecovered(c.captures, silence, imbalance, total);
    c.OnIncidentRecover(silence, 6_700_800);
    c.OnIncidentRecover(imbalance, 6_700_800);
  }

  lemma BothAreRecovered(captures: map<Key, Capture>, silence: Key, imbalance: Key, total: nat)
    requires BothFrom(captures, {silence, imbalance}, {}) && total == 6_720_000
    ensures var one := captures[silence := Recovered(captures[silence], total, 6_700_800)];
      BothFrom(one[imbalance := Recovered(one[imbalance], total, 6_700_800)], {}, {silence, imbalance})
  {
  }

  lemma SoundsAgree(a: Bytes, b: Bytes, n: nat, sound: byte)
    requires Sounds(a, n, sound) && Sounds(b, n, sound)
    ensures a == b
  {
  }

  lemma SoundsJoin(a: Bytes, m: nat, b: Bytes, n: nat, sound: byte)
    requires Sounds(a, m, sound) && Sounds(b, n, sound)
    ensures Sounds(a + b, m + n, sound)
  {
  }

  // The first write after the recoveries finishes one of them, in time.
  method FinishFirst(c: Capturer, silence: Key, imbalance: Key) returns (other: Key)
    requires c.Valid() && c.enabled && Sounds(c.ring.history, 6_720_000, 0)
    requires silence != imbalance && BothFrom(c.captures, {}, {silence, imbalance})
    modifies c, c.ring, c.ring.buffer
    ensures c.Valid() && c.enabled && Sounds(c.ring.history, 6_739_200, 0) && BothFrom(c.captures, {}, {other})
  {
    var quiet := Sound(19_200, 0);
    var made := FinishOne(c, quiet, {silence, imbalance}, silence);
    SoundsJoin(old(c.ring.history), 6_720_000, quiet, 19_200, 0);
    OtherRemains(c.captures, silence, imbalance, made.0);
    other := if made.0 == silence then imbalance else silence;
  }

  lemma OtherRemains(captures: map<Key, Capture>, silence: Key, imbalance: Key, key: Key)
    requires silence != imbalance && key in {silence, imbalance} && BothFrom(captures, {}, {silence, imbalance} - {key})
    ensures BothFrom(captures, {}, {if key == silence then imbalance else silence})
  {
    assert {silence, imbalance} - {key} == {if key == silence then imbalance else silence};
  }

  lemma OneIsDue(captures: map<Key, Capture>, before: map<Key, Capture>, pcm: Bytes, history: Bytes, keys: set<Key>, k: Key)
    requires BothFrom(before, {}, keys) && k in keys && |history| >= 6_739_200
    ensures !NothingDue(captures, before, pcm, history)
  {
    assert Due(before[k], |history|) && Extended(before[k], pcm) == before[k];
  }

  lemma OthersStay(f: Finished, captures: map<Key, Capture>, before: map<Key, Capture>, pcm: Bytes, history: Bytes, keys: set<Key>)
    requires |pcm| <= |history| && IsFinished(f, captures, before, pcm, history) && BothFrom(before, {}, keys)
    ensures f.key in keys && BothFrom(captures, {}, keys - {f.key})
  {
    assert {} + keys - {f.key} == {} + (keys - {f.key});
    forall k <- keys - {f.key} ensures captures[k] == before[k] { }
  }

  // A write after the recoveries finishes one of them.
  method FinishOne(c: Capturer, pcm: Bytes, ghost keys: set<Key>, ghost k: Key) returns (made: (Key, Bytes, Capture))
    requires c.Valid() && c.enabled && |pcm| == 19_200 && |c.ring.history| >= 6_720_000
    requires BothFrom(c.captures, {}, keys) && k in keys
    modifies c, c.ring, c.ring.buffer
    ensures c.Valid() && c.enabled && c.ring.history == old(c.ring.history) + pcm
    ensures made.0 in keys && BothFrom(c.captures, {}, keys - {made.0})
    ensures made.2.start == 0 && made.2.end == 19_200 && made.2.recoveredAt == 6_720_000
    ensures made.1 == Made(c.ring.history, made.2)
  {
    var before := c.captures;
    var dump := c.WriteAudio(pcm);
    OneIsDue(c.captures, before, pcm, c.ring.history, keys, k);
    OthersStay(dump.value, c.captures, before, pcm, c.ring.history, keys);
    return (dump.value.key, dump.value.pcm, before[dump.value.key]);
  }

  // The next one finishes the other, too late.
  method FinishSecond(c: Capturer, other: Key) returns (history: Bytes, dump: Dumped)
    requires c.Valid() && c.enabled && Sounds(c.ring.history, 6_739_200, 0) && BothFrom(c.captures, {}, {other})
    modifies c, c.ring, c.ring.buffer
    ensures dump.start <= dump.end && dump.end + AFTER <= |history|
    ensures dump.pcm != Wanted(history, dump.start, dump.end)
  {
    var before := Sound(6_739_200, 0);
    SoundsAgree(c.ring.history, before, 6_739_200, 0);
    var loud := Sound(19_200, 1);
    var made := FinishOne(c, loud, {other}, other);
    LoudTakesItsPlace(before, loud, made.2, made.1);
    return before + loud, Dumped(0, 19_200, made.1);
  }
}
