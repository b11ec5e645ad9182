/**
  Audio dumps around incidents (internal/silencedump/dump.go): a ring buffer keeps the last 35
  seconds, and a capture keeps what the ring may lose before its dump is complete.

  `history` is everything written since the last reset; positions are counted in it.
 */
module Dump {
  import opened Tickets

  newtype byte = n: int | 0 <= n < 256
  type Bytes = seq<byte>

  const BYTES_PER_SECOND := 192000
  const BEFORE := 15 * BYTES_PER_SECOND
  const MAX_INCIDENT := 5 * BYTES_PER_SECOND
  const AFTER := 15 * BYTES_PER_SECOND
  const CAPACITY := 35 * BYTES_PER_SECOND

  datatype Trigger = Silence | ChannelImbalance
  datatype Key = Key(trigger: Trigger, incident: nat)

  // `recoveredAt` is the position at which the recovery was reported.
  datatype Capture = Capture(
    start: nat,
    end: nat,
    recovered: bool,
    recoveredAt: nat,
    before: Bytes,
    incident: Bytes)

  function Min(a: int, b: int): int {
    if a < b then a else b
  }

  function Max(a: int, b: int): int {
    if a > b then a else b
  }

  // What a dump should hold: the audio before the incident, its first seconds, and what followed.
  function Wanted(history: Bytes, start: nat, end: nat): Bytes
    requires start <= end && end + AFTER <= |history|
  {
    history[Max(0, start - BEFORE)..start] + history[start..start + Min(end - start, MAX_INCIDENT)] + history[end..end + AFTER]
  }

  // The position whose byte the ring holds in the place of `position`: every lap writes the place anew.
  function Latest(position: nat, total: nat): (latest: nat)
    requires position < total
    ensures position <= latest < total && total - latest <= CAPACITY
    decreases total - position
  {
    if total - position <= CAPACITY then position else Latest(position + CAPACITY, total)
  }

  // The ring still holds a position exactly while it is within its capacity.
  lemma {:induction false} LatestIsItselfIff(position: nat, total: nat)
    requires position < total
    ensures Latest(position, total) % CAPACITY == position % CAPACITY
    ensures Latest(position, total) == position <==> total - position <= CAPACITY
    decreases total - position
  {
    if total - position > CAPACITY {
      LatestIsItselfIff(position + CAPACITY, total);
      assert (position + CAPACITY) % CAPACITY == position % CAPACITY;
    }
  }

  // What the ring holds in the place of `n` bytes from a position on.
  function Held(history: Bytes, from: nat, n: nat): (held: Bytes)
    requires from + n <= |history|
    ensures |held| == n && forall i | 0 <= i < n :: held[i] == history[Latest(from + i, |history|)]
  {
    seq(n, i requires 0 <= i < n => history[Latest(from + i, |history|)])
  }

  // How much of the incident a capture has kept of what its dump needs.
  function IncidentLength(c: Capture): int {
    Min(c.end - c.start, Min(MAX_INCIDENT, c.recoveredAt - c.start))
  }

  // What the dump of a capture holds, whenever it is made.
  function Made(history: Bytes, c: Capture): Bytes
    requires c.start <= c.end && c.start <= c.recoveredAt <= |history| && c.end + AFTER <= |history|
  {
    history[Max(0, c.start - BEFORE)..c.start] + history[c.start..c.start + IncidentLength(c)] + Held(history, c.end, AFTER)
  }

  lemma HeldIsRecent(history: Bytes, from: nat, n: nat)
    requires from + n <= |history| && |history| - from <= CAPACITY
    ensures Held(history, from, n) == history[from..from + n]
  {
    forall i | 0 <= i < n
      ensures Held(history, from, n)[i] == history[from..from + n][i]
    {
      assert Latest(from + i, |history|) == from + i;
    }
  }

  lemma MadeInTimeIsWanted(history: Bytes, c: Capture)
    requires c.start <= c.end <= c.recoveredAt <= |history| && c.end + AFTER <= |history|
    requires Held(history, c.end, AFTER) == history[c.end..c.end + AFTER]
    ensures Made(history, c) == Wanted(history, c.start, c.end)
  {
    assert IncidentLength(c) == Min(c.end - c.start, MAX_INCIDENT);
  }

  // A dump is what it should be if its end is still in the ring, and otherwise takes later audio
  // for the audio that followed.
  lemma MadeIsWanted(history: Bytes, c: Capture)
    requires c.start <= c.end <= c.recoveredAt <= |history| && c.end + AFTER <= |history|
    ensures |history| - c.end <= CAPACITY ==> Made(history, c) == Wanted(history, c.start, c.end)
    ensures |history| - c.end > CAPACITY ==> Latest(c.end, |history|) >= c.end + CAPACITY
  {
    if |history| - c.end <= CAPACITY {
      HeldIsRecent(history, c.end, AFTER);
      MadeInTimeIsWanted(history, c);
    }
  }

  // Whether the capture's dump, made by the next write of `chunk` bytes, comes in time.
  predicate InTime(c: Capture, total: nat, chunk: nat) {
    && c.end <= c.recoveredAt
    && ((total < c.end + AFTER && chunk <= CAPACITY - AFTER)
        || (total == c.recoveredAt && c.recoveredAt - c.end + chunk <= CAPACITY))
  }

  ghost predicate CaptureOk(c: Capture, history: Bytes) {
    && c.start <= |history|
    && c.before == history[Max(0, c.start - BEFORE)..c.start]
    && (c.recovered ==> c.start <= c.end && c.start <= c.recoveredAt <= |history|)
    && c.incident == history[c.start..Min(c.start + MAX_INCIDENT, if c.recovered then c.recoveredAt else |history|)]
  }

  // A capture that is due, or that no write has reached since it recovered.
  predicate Due(c: Capture, total: nat) {
    c.recovered && total >= c.end + AFTER
  }

  lemma WrapsOnce(from: nat, i: nat)
    requires i < CAPACITY
    ensures (from + i) % CAPACITY == if from % CAPACITY + i < CAPACITY then from % CAPACITY + i else from % CAPACITY + i - CAPACITY
  {
  }

  // Whether so many bytes fill a number of laps.
  predicate Laps(n: nat) {
    n == 0 || (n >= CAPACITY && Laps(n - CAPACITY))
  }

  lemma {:induction false} LapsDivide(n: nat)
    requires Laps(n)
    ensures n % CAPACITY == 0
  {
    if n > 0 {
      LapsDivide(n - CAPACITY);
      assert (n - CAPACITY) % CAPACITY == 0 ==> n % CAPACITY == 0;
    }
  }

  // The content of a ring: before the write position lies the current lap, from it on what is left
  // of the one before.
  ghost predicate Holds(content: Bytes, at: nat, history: Bytes) {
    && |content| == CAPACITY && at < CAPACITY && at <= |history| && Laps(|history| - at)
    && (forall k | 0 <= k < at :: content[k] == history[|history| - at + k])
    && (forall k | at <= k < CAPACITY && |history| - at + k >= CAPACITY :: content[k] == history[|history| - at + k - CAPACITY])
  }

  function Overwritten(content: Bytes, at: nat, source: Bytes): Bytes
    requires at + |source| <= |content|
  {
    content[..at] + source + content[at + |source|..]
  }

  lemma OverwrittenHolds(content: Bytes, at: nat, history: Bytes, source: Bytes)
    requires Holds(content, at, history) && at + |source| <= CAPACITY
    ensures Holds(Overwritten(content, at, source), if at + |source| == CAPACITY then 0 else at + |source|, history + source)
  {
  }

  // One write, which wraps at most once.
  function Written(content: Bytes, at: nat, source: Bytes): Bytes
    requires |content| == CAPACITY && at < CAPACITY && |source| <= CAPACITY
  {
    if at + |source| <= CAPACITY then Overwritten(content, at, source)
    else Overwritten(Overwritten(content, at, source[..CAPACITY - at]), 0, source[CAPACITY - at..])
  }

  function Next(at: nat, n: nat): nat
    requires at < CAPACITY && n <= CAPACITY
  {
    if at + n < CAPACITY then at + n else at + n - CAPACITY
  }

  lemma WrittenHolds(content: Bytes, at: nat, history: Bytes, source: Bytes)
    requires Holds(content, at, history) && |source| <= CAPACITY
    ensures Holds(Written(content, at, source), Next(at, |source|), history + source)
  {
    if at + |source| <= CAPACITY {
      OverwrittenHolds(content, at, history, source);
    } else {
      var n := CAPACITY - at;
      OverwrittenHolds(content, at, history, source[..n]);
      OverwrittenHolds(Overwritten(content, at, source[..n]), 0, history + source[..n], source[n..]);
      assert history + source[..n] + source[n..] == history + source;
    }
  }

  lemma HoldsLatest(content: Bytes, at: nat, history: Bytes, position: nat)
    requires Holds(content, at, history) && position < |history|
    ensures content[position % CAPACITY] == history[Latest(position, |history|)]
  {
    LatestIsItselfIff(position, |history|);
    LapsDivide(|history| - at);
    PlaceInLap(Latest(position, |history|), |history| - at);
  }

  // Where a position lies within its lap.
  lemma PlaceInLap(position: nat, lap: nat)
    requires lap % CAPACITY == 0
    ensures lap <= position < lap + CAPACITY ==> position % CAPACITY == position - lap
    ensures lap - CAPACITY <= position < lap ==> position % CAPACITY == position - lap + CAPACITY
  {
  }

  // Reading from a position on wraps at most once.
  lemma ReadsHeld(content: Bytes, at: nat, history: Bytes, from: nat, n: nat)
    requires Holds(content, at, history) && n <= CAPACITY && from + n <= |history|
    ensures var pos := from % CAPACITY;
      Held(history, from, n) == if n <= CAPACITY - pos then content[pos..pos + n] else content[pos..] + content[..n - (CAPACITY - pos)]
  {
    var pos := from % CAPACITY;
    var read := if n <= CAPACITY - pos then content[pos..pos + n] else content[pos..] + content[..n - (CAPACITY - pos)];
    forall i | 0 <= i < n
      ensures read[i] == Held(history, from, n)[i]
    {
      HoldsLatest(content, at, history, from + i);
      WrapsOnce(from, i);
    }
  }

  class Ring {
    const buffer: array<byte>
    var writePos: nat
    var totalWritten: nat
    ghost var history: Bytes

    ghost predicate Valid()
      reads this, buffer
    {
      Holds(buffer[..], writePos, history) && totalWritten == |history|
    }

    constructor ()
      ensures Valid() && fresh(buffer) && history == []
    {
      buffer := new byte[CAPACITY];
      writePos, totalWritten, history := 0, 0, [];
    }

    method Reset()
      requires Valid()
      modifies this
      ensures Valid() && history == []
    {
      writePos, totalWritten, history := 0, 0, [];
    }

    // Copies as much of `source` as fits from `at` on.
    method CopyTo(at: nat, source: Bytes) returns (n: nat)
      requires at <= buffer.Length
      modifies buffer
      ensures n == Min(buffer.Length - at, |source|)
      ensures buffer[..] == Overwritten(old(buffer[..]), at, source[..n])
    {
      n := Min(buffer.Length - at, |source|);
      forall k | 0 <= k < n {
        buffer[at + k] := source[k];
      }
    }

    method Write(source: Bytes)
      requires Valid() && |source| <= CAPACITY
      modifies this, buffer
      ensures Valid() && history == old(history) + source
    {
      WrittenHolds(buffer[..], writePos, history, source);
      var n := CopyTo(writePos, source);
      if n < |source| {
        writePos := CopyTo(0, source[n..]);
        assert source[n..][..writePos] == source[n..];
      } else {
        assert source[..n] == source;
        writePos := if writePos + n == CAPACITY then 0 else writePos + n;
      }
      totalWritten := totalWritten + |source|;
      history := history + source;
    }

    // Copies `n` bytes from a position on.
    method Read(from: nat, n: nat) returns (copied: Bytes)
      requires Valid() && n <= CAPACITY && from + n <= |history|
      ensures copied == Held(history, from, n)
    {
      var pos := from % CAPACITY;
      ReadsHeld(buffer[..], writePos, history, from, n);
      copied := if n <= CAPACITY - pos then buffer[pos..pos + n] else buffer[pos..] + buffer[..n - (CAPACITY - pos)];
    }
  }

  // Until it recovers, a capture keeps the first seconds of its incident.
  function Extended(c: Capture, pcm: Bytes): Capture {
    var remaining := MAX_INCIDENT - |c.incident|;
    if !c.recovered && remaining > 0 then c.(incident := c.incident + pcm[..Min(|pcm|, remaining)]) else c
  }

  lemma ExtendedIsOk(c: Capture, history: Bytes, pcm: Bytes)
    requires CaptureOk(c, history)
    ensures CaptureOk(Extended(c, pcm), history + pcm)
  {
    SliceStays(history, pcm, Max(0, c.start - BEFORE), c.start);
    if c.recovered {
      SliceStays(history, pcm, c.start, Min(c.start + MAX_INCIDENT, c.recoveredAt));
    } else {
      IncidentGrows(c.start, c.incident, history, pcm);
    }
  }

  lemma SliceStays(history: Bytes, more: Bytes, from: nat, to: nat)
    requires from <= to <= |history|
    ensures (history + more)[from..to] == history[from..to]
  {
  }

  // An incident that goes on keeps what follows, up to its limit.
  lemma IncidentGrows(start: nat, incident: Bytes, history: Bytes, pcm: Bytes)
    requires start <= |history| && incident == history[start..Min(start + MAX_INCIDENT, |history|)]
    ensures var remaining := MAX_INCIDENT - |incident|;
      (if remaining > 0 then incident + pcm[..Min(|pcm|, remaining)] else incident)
      == (history + pcm)[start..Min(start + MAX_INCIDENT, |history + pcm|)]
  {
  }

  function Started(history: Bytes): Capture {
    Capture(|history|, 0, false, 0, history[Max(0, |history| - BEFORE)..], [])
  }

  function Recovered(c: Capture, total: nat, recovery: nat): Capture {
    c.(end := Max(c.start, total - recovery), recovered := true, recoveredAt := if c.recovered then c.recoveredAt else total)
  }

  datatype Finished = Finished(key: Key, pcm: Bytes)

  // The captures that can have been taken up from a history.
  ghost function Proper(history: Bytes): iset<Capture> {
    iset c | CaptureOk(c, history)
  }

  ghost predicate CapturesOk(captures: map<Key, Capture>, history: Bytes) {
    forall k <- captures :: captures[k] in Proper(history)
  }

  // No capture is due; each took up the audio.
  ghost predicate NothingDue(captures: map<Key, Capture>, before: map<Key, Capture>, pcm: Bytes, history: Bytes) {
    && captures.Keys == before.Keys
    && forall k <- captures :: captures[k] == Extended(before[k], pcm) && !Due(captures[k], |history|)
  }

  // A dump was made of a capture that was due; it is as it should be if it comes in time.
  ghost predicate IsFinished(f: Finished, captures: map<Key, Capture>, before: map<Key, Capture>, pcm: Bytes, history: Bytes)
    requires |pcm| <= |history|
  {
    && f.key in before && captures.Keys == before.Keys - {f.key}
    && (forall k <- captures :: captures[k] == Extended(before[k], pcm))
    && Due(before[f.key], |history|) && before[f.key].start <= before[f.key].end
    && before[f.key].start <= before[f.key].recoveredAt <= |history|
    && f.pcm == Made(history, before[f.key])
    && (InTime(before[f.key], |history| - |pcm|, |pcm|) ==> f.pcm == Wanted(history, before[f.key].start, before[f.key].end))
  }

  lemma ExtendedAreOk(captures: map<Key, Capture>, history: Bytes, pcm: Bytes)
    requires CapturesOk(captures, history)
    ensures CapturesOk(map k | k in captures :: Extended(captures[k], pcm), history + pcm)
  {
    forall k <- captures
      ensures CaptureOk(Extended(captures[k], pcm), history + pcm)
    {
      ExtendedIsOk(captures[k], history, pcm);
    }
  }

  lemma FinishedInTime(f: Finished, before: map<Key, Capture>, history: Bytes, pcm: Bytes)
    requires CapturesOk(before, history) && f.key in before && Due(before[f.key], |history + pcm|)
    requires f.pcm == Made(history + pcm, Extended(before[f.key], pcm))
    ensures InTime(before[f.key], |history|, |pcm|) ==> f.pcm == Wanted(history + pcm, before[f.key].start, before[f.key].end)
  {
    if InTime(before[f.key], |history|, |pcm|) {
      MadeIsWanted(history + pcm, before[f.key]);
    }
  }

  class Capturer {
    const available: bool            // There is an encoder to make dumps with.
    const ring: Ring
    var enabled: bool
    var captures: map<Key, Capture>

    ghost predicate Valid()
      reads this, ring, ring.buffer
    {
      ring.Valid() && CapturesOk(captures, ring.history)
    }

    constructor (available: bool)
      ensures Valid() && fresh(ring) && fresh(ring.buffer)
      ensures this.available == available && enabled == available && ring.history == [] && captures == map[]
    {
      this.available := available;
      ring := new Ring();
      enabled, captures := available, map[];
    }

    // Disabling forgets the audio and every capture.
    method SetEnabled(enabled: bool)
      requires Valid()
      modifies this, ring
      ensures Valid() && this.enabled == (enabled && available)
      ensures this.enabled ==> ring.history == old(ring.history) && captures == old(captures)
      ensures !this.enabled ==> ring.history == [] && captures == map[]
    {
      this.enabled := enabled && available;
      if !this.enabled {
        Reset();
      }
    }

    method Reset()
      requires Valid()
      modifies `captures, ring
      ensures Valid() && ring.history == [] && captures == map[]
    {
      ring.Reset();
      captures := map[];
    }

    // Takes up the audio, and finishes at most one dump.
    method WriteAudio(pcm: Bytes) returns (dump: Option<Finished>)
      requires Valid() && |pcm| <= CAPACITY
      modifies `captures, ring, ring.buffer
      ensures Valid()
      ensures ring.history == if enabled then old(ring.history) + pcm else old(ring.history)
      ensures !enabled || pcm == [] ==> dump.None? && captures == old(captures)
      ensures dump.None? && enabled && pcm != [] ==> NothingDue(captures, old(captures), pcm, ring.history)
      ensures dump.Some? ==> enabled && IsFinished(dump.value, captures, old(captures), pcm, ring.history)
    {
      if !enabled || pcm == [] {
        return None;
      }
      ExtendedAreOk(captures, ring.history, pcm);
      ExtendCaptures(pcm);
      ring.Write(pcm);
      dump := CheckAndFinalize();
      if dump.Some? {
        FinishedInTime(dump.value, old(captures), old(ring.history), pcm);
      }
    }

    method ExtendCaptures(pcm: Bytes)
      modifies `captures
      ensures captures == map k | k in old(captures) :: Extended(old(captures)[k], pcm)
    {
      ghost var before := captures;
      var left := captures.Keys;
      while left != {}
        invariant left <= captures.Keys == before.Keys
        invariant forall k <- captures :: captures[k] == if k in left then before[k] else Extended(before[k], pcm)
        decreases |left|
      {
        var k :| k in left;
        captures := captures[k := Extended(captures[k], pcm)];
        left := left - {k};
      }
    }

    // Finishes one capture that is due, if there is one.
    method CheckAndFinalize() returns (dump: Option<Finished>)
      requires Valid()
      modifies `captures
      ensures dump.None? ==> captures == old(captures) && forall k <- captures :: !Due(captures[k], |ring.history|)
      ensures dump.Some? ==>
                && dump.value.key in old(captures) && captures == old(captures) - {dump.value.key}
                && Due(old(captures)[dump.value.key], |ring.history|)
                && dump.value.pcm == Made(ring.history, old(captures)[dump.value.key])
    {
      var left := captures.Keys;
      while left != {}
        invariant left <= captures.Keys && captures == old(captures)
        invariant forall k <- captures :: k !in left ==> !Due(captures[k], |ring.history|)
        decreases |left|
      {
        var k :| k in left;
        if captures[k].recovered && ring.totalWritten >= captures[k].end + AFTER {
          var pcm := Extract(captures[k]);
          captures := captures - {k};
          return Some(Finished(k, pcm));
        }
        left := left - {k};
      }
      return None;
    }

    method Extract(c: Capture) returns (pcm: Bytes)
      requires Valid() && CaptureOk(c, ring.history) && Due(c, |ring.history|)
      ensures pcm == Made(ring.history, c)
    {
      var incidentBytes := Min(Max(0, c.end - c.start), |c.incident|);
      var afterBytes := Min(AFTER, ring.totalWritten - c.end);
      var after := ring.Read(c.end, afterBytes);
      pcm := c.before + c.incident[..incidentBytes] + after;
    }

    // An incident begins; an active capture of the same trigger gives way to it, any other stays.
    method OnIncidentStart(key: Key)
      requires Valid()
      modifies `captures
      ensures Valid()
      ensures !enabled ==> captures == old(captures)
      ensures enabled ==> captures == Others(old(captures), key.trigger)[key := Started(ring.history)]
      ensures forall k <- old(captures) | k != key && (k.trigger != key.trigger || old(captures)[k].recovered) ::
                k in captures && captures[k] == old(captures)[k]
      ensures enabled ==> forall k <- captures | k != key && k.trigger == key.trigger :: captures[k].recovered
    {
      if !enabled {
        return;
      }
      StartedIsOk(captures, key, ring.history);
      captures := Others(captures, key.trigger);
      var before := Snapshot();
      captures := captures[key := Capture(ring.totalWritten, 0, false, 0, before, [])];
    }

    // What was heard before now, as much as a dump takes.
    method Snapshot() returns (before: Bytes)
      requires ring.Valid()
      ensures before == ring.history[Max(0, |ring.history| - BEFORE)..]
    {
      var beforeBytes := Min(ring.totalWritten, BEFORE);
      before := [];
      if beforeBytes > 0 {
        before := ring.Read(ring.totalWritten - beforeBytes, beforeBytes);
        StillHeld(ring.history, beforeBytes);
      }
    }

    // Audio is back; `recovery` is how much of it the detector took to confirm that.
    method OnIncidentRecover(key: Key, recovery: nat)
      requires Valid()
      modifies `captures
      ensures Valid()
      ensures !enabled || key !in old(captures) ==> captures == old(captures)
      ensures enabled && key in old(captures) ==> captures == old(captures)[key := Recovered(old(captures)[key], |ring.history|, recovery)]
      ensures enabled && key in captures ==>
                && captures[key].recovered && captures[key].start == old(captures)[key].start
                && captures[key].end == Max(captures[key].start, |ring.history| - recovery)
    {
      if !enabled || key !in captures {
        return;
      }
      var total := ring.totalWritten;
      captures := captures[key := Recovered(captures[key], total, recovery)];
    }
  }

  function Others(captures: map<Key, Capture>, trigger: Trigger): map<Key, Capture> {
    map k | k in captures && (k.trigger != trigger || captures[k].recovered) :: captures[k]
  }

  lemma StartedIsOk(captures: map<Key, Capture>, key: Key, history: Bytes)
    requires CapturesOk(captures, history)
    ensures CapturesOk(Others(captures, key.trigger)[key := Started(history)], history)
  {
    assert history[Max(0, |history| - BEFORE)..] == history[Max(0, |history| - BEFORE)..|history|];
    assert CaptureOk(Started(history), history);
  }

  // The last bytes are still in the ring.
  lemma StillHeld(history: Bytes, n: nat)
    requires n <= |history| && n <= CAPACITY
    ensures Held(history, |history| - n, n) == history[|history| - n..]
  {
    HeldIsRecent(history, |history| - n, n);
  }
}
