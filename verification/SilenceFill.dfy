/**
  The writer of one segment (internal/recording/recorder_segment.go, audioWriter): it hands input to
  the encoder and fills an outage with silence, so the file keeps pace with the clock.

  Times are in nanoseconds and do not go back. Frames are counted exactly where the source multiplies
  seconds in floating point.
 */
module SilenceFill {
  const SILENCE_GAP := 1_000_000_000
  const SILENCE_STEP := 100_000_000
  const SAMPLE_RATE := 48_000

  // What the encoder accepted: input, or so many silent frames.
  datatype Block = Input(pcm: seq<bv8>) | Silence(frames: nat)

  // The frames that fit a time span at 48 kHz.
  function Frames(span: nat): nat {
    span * 6 / 125_000
  }

  lemma FramesGrow(a: nat, b: nat)
    ensures Frames(a + b) >= Frames(a) + Frames(b)
  {
  }

  lemma FramesMonotone(a: nat, b: nat)
    requires a <= b
    ensures Frames(a) <= Frames(b)
  {
  }

  // The silence since the last input.
  function TrailingSilence(written: seq<Block>): nat {
    if written == [] || written[|written| - 1].Input? then 0
    else TrailingSilence(written[..|written| - 1]) + written[|written| - 1].frames
  }

  predicate HasInput(written: seq<Block>) {
    exists i | 0 <= i < |written| :: written[i].Input? && written[i].pcm != []
  }

  lemma WrittenGrows(written: seq<Block>, block: Block)
    ensures TrailingSilence(written + [block]) == if block.Input? then 0 else TrailingSilence(written) + block.frames
    ensures HasInput(written + [block]) <==> HasInput(written) || (block.Input? && block.pcm != [])
  {
    assert (written + [block])[..|written|] == written;
    if HasInput(written) {
      var i :| 0 <= i < |written| && written[i].Input? && written[i].pcm != [];
      assert (written + [block])[i] == written[i];
    }
    assert (written + [block])[|written|] == block;
  }

  datatype Writer = Writer(
    idleSince: nat,  // When input was last written.
    filled: nat,     // Silent frames written in this outage.
    due: nat,        // When the timer fires.
    hasAudio: bool,
    done: bool,
    written: seq<Block>,
    clock: nat)      // When the writer last looked, or finished a write.

  // The outage is filled by exactly the silence since the last input, which is never more than the
  // clock asks for; a gap shorter than a second is not filled.
  predicate Invariant(w: Writer) {
    && w.idleSince <= w.clock
    && w.filled == TrailingSilence(w.written) <= Frames(w.clock - w.idleSince)
    && (w.hasAudio <==> HasInput(w.written))
    && (w.filled == 0 ==> w.due >= w.idleSince + SILENCE_GAP)
    && (w.filled > 0 ==> w.due >= w.clock + SILENCE_STEP && w.clock - w.idleSince >= SILENCE_GAP)
  }

  // How far the file lags behind the clock in this outage.
  function Behind(w: Writer, now: nat): int
    requires w.idleSince <= now
  {
    Frames(now - w.idleSince) - w.filled
  }

  class AudioWriter {
    var w: Writer

    ghost predicate Valid()
      reads this
    {
      Invariant(w)
    }

    constructor (now: nat)
      ensures Valid() && w == Writer(now, 0, now + SILENCE_GAP, false, false, [], now)
    {
      w := Writer(now, 0, now + SILENCE_GAP, false, false, [], now);
    }

    // Input arrives: it ends an outage and goes to the encoder as it is.
    method Take(pcm: seq<bv8>, now: nat, after: nat, ok: bool)
      requires Valid() && !w.done && w.clock <= now <= after
      modifies this
      ensures Valid() && w.done == !ok
      ensures w.written == if ok then old(w.written) + [Input(pcm)] else old(w.written)
      ensures ok ==> w.idleSince == w.clock == after && w.filled == 0
    {
      if !ok {
        w := w.(done := true);
        return;
      }
      WrittenGrows(w.written, Input(pcm));
      w := w.(filled := 0, hasAudio := w.hasAudio || |pcm| > 0, idleSince := after, clock := after,
              due := after + SILENCE_GAP, written := w.written + [Input(pcm)]);
    }

    // The timer fires: queued input is waited for, a missing one is made up for by silence.
    method Tick(now: nat, queued: bool, after: nat, ok: bool)
      requires Valid() && !w.done && w.clock <= now <= after && w.due <= now
      modifies this
      ensures Valid() && w.idleSince == old(w.idleSince)
      ensures w == if queued then old(w).(due := after + SILENCE_GAP, clock := after)
                   else if !ok then old(w).(done := true) else Filled(old(w), now, after)
    {
      SilenceIsDue(w, now);
      if queued {
        KeepsWaiting(w, after);
        w := w.(due := after + SILENCE_GAP, clock := after);
      } else if !ok {
        w := w.(done := true);
      } else {
        FilledKeepsInvariant(w, now, after);
        w := Filled(w, now, after);
      }
    }
  }

  // At most a second of silence at once.
  function NextSilence(w: Writer, now: nat): int
    requires w.idleSince <= now
  {
    if Behind(w, now) <= SAMPLE_RATE then Behind(w, now) else SAMPLE_RATE
  }

  function Filled(w: Writer, now: nat, after: nat): Writer
    requires w.idleSince <= now && NextSilence(w, now) >= 0
  {
    w.(filled := w.filled + NextSilence(w, now), due := after + SILENCE_STEP, clock := after,
       written := w.written + [Silence(NextSilence(w, now))])
  }

  lemma FilledKeepsInvariant(w: Writer, now: nat, after: nat)
    requires Invariant(w) && w.clock <= now <= after && now - w.idleSince >= SILENCE_GAP && Behind(w, now) > 0
    ensures Invariant(Filled(w, now, after))
  {
    WrittenGrows(w.written, Silence(NextSilence(w, now)));
    FramesMonotone(now - w.idleSince, after - w.idleSince);
  }

  // What the file lags behind shrinks by a second with each step, or is made up for.
  lemma CatchesUp(w: Writer, now: nat, after: nat)
    requires Invariant(w) && w.clock <= now <= after && w.due <= now
    ensures Behind(w, now) > 0
    ensures Filled(w, now, after).filled > w.filled
    ensures Behind(Filled(w, now, after), now) == (if Behind(w, now) <= SAMPLE_RATE then 0 else Behind(w, now) - SAMPLE_RATE)
  {
    SilenceIsDue(w, now);
  }

  lemma KeepsWaiting(w: Writer, after: nat)
    requires Invariant(w) && w.clock <= after
    ensures Invariant(w.(due := after + SILENCE_GAP, clock := after))
  {
    FramesMonotone(w.clock - w.idleSince, after - w.idleSince);
  }

  // Whenever the timer fires there is silence to write: a buffer of a negative or no length is
  // never made, and a write of silence is never taken for one of input.
  lemma SilenceIsDue(w: Writer, now: nat)
    requires Invariant(w) && w.due <= now && w.clock <= now
    ensures Behind(w, now) > 0 && now - w.idleSince >= SILENCE_GAP
  {
    if w.filled == 0 {
      FramesGrow(SILENCE_GAP, now - w.idleSince - SILENCE_GAP);
    } else {
      assert now - w.idleSince == (w.clock - w.idleSince) + (now - w.clock);
      FramesGrow(w.clock - w.idleSince, now - w.clock);
      FramesGrow(SILENCE_STEP, now - w.clock - SILENCE_STEP);
    }
  }

  // A file that was level at some time is level again after the next step, unless that comes a
  // second late.
  lemma StaysLevel(w: Writer, level: nat, now: nat)
    requires w.idleSince <= level <= now < level + SILENCE_GAP && Behind(w, level) == 0
    ensures 0 <= Behind(w, now) <= SAMPLE_RATE
  {
    FramesGrow(level - w.idleSince, now - level);
    assert now - w.idleSince == (level - w.idleSince) + (now - level);
  }
}
