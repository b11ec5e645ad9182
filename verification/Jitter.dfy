/**
  The jitter buffer of the Dante receiver (internal/dante/media.go): packets may arrive late, twice
  or out of order, and leave as one gap-free stream of 16-bit stereo frames.

  Positions count frames from the transmitter's epoch; the 48-bit positions a datagram can carry
  never overflow the 64-bit counters of the source. Times are in nanoseconds.
 */
module Jitter {
  import opened Tickets

  newtype byte = n: int | 0 <= n < 256
  type Bytes = seq<byte>

  const SAMPLE_RATE := 48000
  const HEADER_SIZE := 9
  const OUTPUT_FRAME_SIZE := 4
  const OUTPUT_BATCH_SIZE := 1920
  const GAP_WAIT := 4_000_000
  const MAXIMUM_GAP_IN_FRAMES := 48000

  datatype Packet = Packet(position: nat, payload: Bytes, arrived: int)

  // What the processor remembers, what it has written, and (for the proofs) from which packets.
  datatype Buffer = Buffer(
    initialized: bool,
    first: nat,
    expected: nat,
    pending: map<nat, Packet>,
    output: Bytes,
    played: seq<Packet>)

  datatype Outcome = Fine(buffer: Buffer) | TooWide(buffer: Buffer)

  predicate SampleSize(bps: nat) {
    2 <= bps <= 4
  }

  function FrameSize(bps: nat): nat {
    2 * bps
  }

  predicate WholeFrames(bps: nat, payload: Bytes)
    requires SampleSize(bps)
  {
    payload != [] && |payload| % FrameSize(bps) == 0
  }

  function Frames(bps: nat, payload: Bytes): (frames: nat)
    requires SampleSize(bps)
    ensures FrameSize(bps) <= |payload| ==> frames > 0
  {
    if |payload| < FrameSize(bps) then 0 else 1 + Frames(bps, payload[FrameSize(bps)..])
  }

  // One frame keeps the two most significant bytes of each big-endian sample, little-endian.
  function ConvertedFrame(bps: nat, frame: Bytes): Bytes
    requires SampleSize(bps) && |frame| == FrameSize(bps)
  {
    [frame[1], frame[0], frame[bps + 1], frame[bps]]
  }

  function Converted(bps: nat, payload: Bytes): (r: Bytes)
    requires SampleSize(bps)
    ensures |r| == OUTPUT_FRAME_SIZE * Frames(bps, payload)
  {
    if |payload| < FrameSize(bps) then []
    else ConvertedFrame(bps, payload[..FrameSize(bps)]) + Converted(bps, payload[FrameSize(bps)..])
  }

  lemma ConvertedStep(bps: nat, payload: Bytes, offset: nat, before: Bytes)
    requires SampleSize(bps) && offset + FrameSize(bps) <= |payload|
    ensures var next := offset + FrameSize(bps);
      before + Converted(bps, payload[offset..]) == before + ConvertedFrame(bps, payload[offset..next]) + Converted(bps, payload[next..])
  {
    var rest, next := payload[offset..], offset + FrameSize(bps);
    assert rest[FrameSize(bps)..] == payload[next..];
    assert rest[..FrameSize(bps)] == payload[offset..next];
    Regrouped(before, ConvertedFrame(bps, payload[offset..next]), Converted(bps, payload[next..]));
  }

  lemma Regrouped(a: Bytes, b: Bytes, c: Bytes)
    ensures a + (b + c) == a + b + c
  {
  }

  lemma WholeFramesStep(bps: nat, n: nat)
    requires SampleSize(bps) && n % FrameSize(bps) == 0 && n > 0
    ensures n >= FrameSize(bps) && (n - FrameSize(bps)) % FrameSize(bps) == 0
    ensures n / FrameSize(bps) == 1 + (n - FrameSize(bps)) / FrameSize(bps)
  {
    match bps
    case 2 => assert n % 4 == 0 && (n - 4) % 4 == 0 && n / 4 == 1 + (n - 4) / 4;
    case 3 => assert n % 6 == 0 && (n - 6) % 6 == 0 && n / 6 == 1 + (n - 6) / 6;
    case 4 => assert n % 8 == 0 && (n - 8) % 8 == 0 && n / 8 == 1 + (n - 8) / 8;
  }

  predicate InFrames(bps: nat, n: nat)
    requires SampleSize(bps)
  {
    n == 0 || (n >= FrameSize(bps) && InFrames(bps, n - FrameSize(bps)))
  }

  lemma {:induction false} FramesDivide(bps: nat, n: nat)
    requires SampleSize(bps) && n % FrameSize(bps) == 0
    ensures InFrames(bps, n)
  {
    if n > 0 {
      WholeFramesStep(bps, n);
      FramesDivide(bps, n - FrameSize(bps));
    }
  }

  lemma {:induction false} FramesIsQuotient(bps: nat, payload: Bytes)
    requires SampleSize(bps) && |payload| % FrameSize(bps) == 0
    ensures Frames(bps, payload) == |payload| / FrameSize(bps)
    decreases |payload|
  {
    if payload == [] {
      assert 0 / FrameSize(bps) == 0;
    } else {
      WholeFramesStep(bps, |payload|);
      FramesIsQuotient(bps, payload[FrameSize(bps)..]);
    }
  }

  // The number that bytes spell, the most significant first.
  function BigEndian(b: Bytes): nat {
    if b == [] then 0 else 256 * BigEndian(b[..|b| - 1]) + b[|b| - 1] as nat
  }

  // 256 to the n.
  function Weight(n: nat): (weight: nat)
    ensures weight > 0
  {
    if n == 0 then 1 else 256 * Weight(n - 1)
  }

  // The same bytes read in two's complement.
  function Signed(b: Bytes): int {
    InTwos(BigEndian(b), Weight(|b|))
  }

  function InTwos(n: nat, weight: nat): int {
    if 2 * n < weight then n else n - weight
  }

  lemma TwoBytes(b: Bytes)
    requires |b| == 2
    ensures BigEndian(b) == 256 * b[0] as nat + b[1] as nat
  {
    assert b[..1][..0] == [] && BigEndian(b[..1]) == b[0] as nat;
  }

  lemma ThreeBytes(b: Bytes)
    requires |b| == 3
    ensures BigEndian(b) == 65536 * b[0] as nat + 256 * b[1] as nat + b[2] as nat
  {
    TwoBytes(b[..2]);
  }

  lemma FourBytes(b: Bytes)
    requires |b| == 4
    ensures BigEndian(b) == 16777216 * b[0] as nat + 65536 * b[1] as nat + 256 * b[2] as nat + b[3] as nat
  {
    ThreeBytes(b[..3]);
  }

  lemma TopOfThree(a: nat, b: nat, c: nat)
    requires a < 256 && b < 256 && c < 256
    ensures InTwos(65536 * a + 256 * b + c, 16777216) / 256 == InTwos(256 * a + b, 65536)
  {
  }

  lemma TopOfFour(a: nat, b: nat, c: nat, d: nat)
    requires a < 256 && b < 256 && c < 256 && d < 256
    ensures InTwos(16777216 * a + 65536 * b + 256 * c + d, 4294967296) / 65536 == InTwos(256 * a + b, 65536)
  {
  }

  lemma Weights()
    ensures Weight(0) == 1 && Weight(1) == 256 && Weight(2) == 65536 && Weight(3) == 16777216 && Weight(4) == 4294967296
  {
    assert Weight(3) == 256 * Weight(2);
  }

  // The two most significant bytes of a sample are the sample rounded down to 16 bits.
  lemma TopBytes(s: Bytes)
    requires SampleSize(|s|)
    ensures Signed(s[..2]) == Signed(s) / Weight(|s| - 2)
  {
    Weights();
    TwoBytes(s[..2]);
    match |s|
    case 2 =>
      assert s[..2] == s;
    case 3 =>
      ThreeBytes(s);
      TopOfThree(s[0] as nat, s[1] as nat, s[2] as nat);
    case 4 =>
      FourBytes(s);
      TopOfFour(s[0] as nat, s[1] as nat, s[2] as nat, s[3] as nat);
  }

  // Two bytes, the less significant first, are a sample rounded down to 16 bits.
  predicate Scaled(sample: Bytes, low: byte, high: byte)
    requires SampleSize(|sample|)
  {
    Signed([high, low]) == Signed(sample) / Weight(|sample| - 2)
  }

  // Channel `c` of frame `k` of the payload is where it belongs in the output from byte `at` on.
  predicate IsScaled(bps: nat, payload: Bytes, output: Bytes, at: nat, k: nat, c: nat)
    requires SampleSize(bps)
  {
    ScaledTo(bps, payload, FrameSize(bps) * k + bps * c, output, at + OUTPUT_FRAME_SIZE * k + 2 * c)
  }

  predicate ScaledTo(bps: nat, payload: Bytes, i: nat, output: Bytes, o: nat)
    requires SampleSize(bps)
  {
    i + bps <= |payload| && o + 2 <= |output| && Scaled(payload[i..i + bps], output[o], output[o + 1])
  }

  lemma ScaledFurtherOn(bps: nat, payload: Bytes, i: nat, output: Bytes, o: nat, from: nat, at: nat)
    requires SampleSize(bps) && from <= |payload| && at <= |output| && ScaledTo(bps, payload[from..], i, output[at..], o)
    ensures ScaledTo(bps, payload, i + from, output, o + at)
  {
    assert payload[from..][i..i + bps] == payload[i + from..i + from + bps];
  }

  lemma FrameIsScaled(bps: nat, frame: Bytes)
    requires SampleSize(bps) && |frame| == FrameSize(bps)
    ensures var converted := ConvertedFrame(bps, frame);
      Scaled(frame[..bps], converted[0], converted[1]) && Scaled(frame[bps..], converted[2], converted[3])
  {
    TopBytes(frame[..bps]);
    assert frame[..bps][..2] == [frame[0], frame[1]];
    TopBytes(frame[bps..]);
    assert frame[bps..][..2] == [frame[bps], frame[bps + 1]];
  }

  lemma FirstIsScaled(bps: nat, payload: Bytes, c: nat)
    requires SampleSize(bps) && FrameSize(bps) <= |payload| && c < 2
    ensures IsScaled(bps, payload, Converted(bps, payload), 0, 0, c)
  {
    var frame := payload[..FrameSize(bps)];
    FrameIsScaled(bps, frame);
    assert FrameSize(bps) * 0 == 0;
    if c == 0 {
      assert frame[..bps] == payload[..bps] && bps * c == 0;
    } else {
      assert frame[bps..] == payload[bps..bps + bps] && bps * c == bps;
    }
  }

  lemma NextIsScaled(bps: nat, payload: Bytes, output: Bytes, k: nat, c: nat)
    requires SampleSize(bps) && FrameSize(bps) <= |payload| && OUTPUT_FRAME_SIZE <= |output| && k > 0
    requires IsScaled(bps, payload[FrameSize(bps)..], output[OUTPUT_FRAME_SIZE..], 0, k - 1, c)
    ensures IsScaled(bps, payload, output, 0, k, c)
  {
    var size := FrameSize(bps);
    assert size * k == size * (k - 1) + size;
    ScaledFurtherOn(bps, payload, size * (k - 1) + bps * c, output, OUTPUT_FRAME_SIZE * (k - 1) + 2 * c, size, OUTPUT_FRAME_SIZE);
  }

  lemma {:induction false} ConvertedIsScaled(bps: nat, payload: Bytes, k: nat, c: nat)
    requires SampleSize(bps) && k < Frames(bps, payload) && c < 2
    ensures IsScaled(bps, payload, Converted(bps, payload), 0, k, c)
  {
    if k == 0 {
      FirstIsScaled(bps, payload, c);
    } else {
      var rest := payload[FrameSize(bps)..];
      ConvertedIsScaled(bps, rest, k - 1, c);
      assert Converted(bps, payload)[OUTPUT_FRAME_SIZE..] == Converted(bps, rest);
      NextIsScaled(bps, payload, Converted(bps, payload), k, c);
    }
  }

  // Every sample of the payload is in the output, and nothing else is.
  ghost predicate AllScaled(bps: nat, payload: Bytes, output: Bytes)
    requires SampleSize(bps)
  {
    && |output| == OUTPUT_FRAME_SIZE * (|payload| / FrameSize(bps))
    && forall k, c | 0 <= k < |payload| / FrameSize(bps) && 0 <= c < 2 :: IsScaled(bps, payload, output, 0, k, c)
  }

  lemma ConvertedIsAllScaled(bps: nat, payload: Bytes)
    requires SampleSize(bps) && WholeFrames(bps, payload)
    ensures AllScaled(bps, payload, Converted(bps, payload))
  {
    FramesIsQuotient(bps, payload);
    forall k, c | 0 <= k < |payload| / FrameSize(bps) && 0 <= c < 2
      ensures IsScaled(bps, payload, Converted(bps, payload), 0, k, c)
    {
      ConvertedIsScaled(bps, payload, k, c);
    }
  }

  function Silence(frames: nat): Bytes {
    seq(OUTPUT_FRAME_SIZE * frames, _ => 0)
  }

  predicate PacketOk(bps: nat, position: nat, packet: Packet)
    requires SampleSize(bps)
  {
    packet.position == position && WholeFrames(bps, packet.payload)
  }

  ghost predicate BufferOk(bps: nat, b: Buffer)
    requires SampleSize(bps)
  {
    forall p <- b.pending :: PacketOk(bps, p, b.pending[p])
  }

  // Writes the packets that are next, one after the other.
  ghost function Drain(bps: nat, b: Buffer): (r: Buffer)
    requires SampleSize(bps) && BufferOk(bps, b)
    ensures BufferOk(bps, r) && r.expected !in r.pending && |r.pending| <= |b.pending|
    ensures b.expected in b.pending ==> |r.pending| < |b.pending|
    decreases |b.pending|
  {
    if b.expected !in b.pending then b else Drain(bps, Play(bps, b))
  }

  ghost function Play(bps: nat, b: Buffer): (r: Buffer)
    requires SampleSize(bps) && BufferOk(bps, b) && b.expected in b.pending
    ensures BufferOk(bps, r) && |r.pending| < |b.pending|
  {
    var packet := b.pending[b.expected];
    b.(pending := b.pending - {b.expected},
       output := b.output + Converted(bps, packet.payload),
       expected := b.expected + Frames(bps, packet.payload),
       played := b.played + [packet])
  }

  // Forgets packets the stream has passed.
  ghost function Purge(b: Buffer): Buffer {
    b.(pending := map p | p in b.pending && p >= b.expected :: b.pending[p])
  }

  // Some packet has waited for the gap before it long enough.
  ghost predicate Expired(pending: map<nat, Packet>, now: int) {
    exists p :: p in pending && now - pending[p].arrived >= GAP_WAIT
  }

  ghost predicate IsLeast(s: set<nat>, n: nat) {
    n in s && forall m <- s :: n <= m
  }

  lemma {:induction false} LeastExists(s: set<nat>)
    requires s != {}
    ensures exists n :: IsLeast(s, n)
  {
    var m :| m in s;
    if s == {m} {
      assert IsLeast(s, m);
    } else {
      LeastExists(s - {m});
      var n :| IsLeast(s - {m}, n);
      assert forall k <- s :: k == m || k in s - {m};
      assert IsLeast(s, if m < n then m else n);
    }
  }

  ghost function Least(s: set<nat>): (n: nat)
    requires s != {}
    ensures IsLeast(s, n)
  {
    LeastExists(s);
    var n :| IsLeast(s, n);
    n
  }

  // Fills the gap before the packet at `to`.
  ghost function Skip(b: Buffer, to: nat): Buffer
    requires b.expected <= to
  {
    b.(output := b.output + Silence(to - b.expected), expected := to)
  }

  ghost function Settled(bps: nat, b: Buffer): (r: Buffer)
    requires SampleSize(bps) && BufferOk(bps, b)
    ensures BufferOk(bps, r) && r.expected !in r.pending && |r.pending| <= |b.pending|
    ensures b.expected in b.pending ==> |r.pending| < |b.pending|
  {
    PurgeShrinks(Drain(bps, b));
    Purge(Drain(bps, b))
  }

  ghost function Advanced(bps: nat, b: Buffer, now: int): (o: Outcome)
    requires SampleSize(bps) && BufferOk(bps, b)
    ensures BufferOk(bps, o.buffer)
    decreases |b.pending|, b.expected !in b.pending
  {
    var d := Settled(bps, b);
    if !Expired(d.pending, now) then Fine(d)
    else
      var least := Least(d.pending.Keys);
      if least < d.expected || least - d.expected > MAXIMUM_GAP_IN_FRAMES then TooWide(d)
      else Advanced(bps, Skip(d, least), now)
  }

  lemma PurgeShrinks(b: Buffer)
    ensures |Purge(b).pending| <= |b.pending|
  {
    assert Purge(b).pending.Keys <= b.pending.Keys;
    SubsetIsSmaller(Purge(b).pending.Keys, b.pending.Keys);
    assert |Purge(b).pending| == |Purge(b).pending.Keys| && |b.pending| == |b.pending.Keys|;
  }

  lemma {:induction false} SubsetIsSmaller(a: set<nat>, b: set<nat>)
    requires a <= b
    ensures |a| <= |b|
  {
    if a != {} {
      var x :| x in a;
      SubsetIsSmaller(a - {x}, b - {x});
    }
  }

  // A packet joins the buffer unless the stream has passed it or it is there already. The first
  // packet of all says where the stream begins.
  ghost function Accepted(bps: nat, b: Buffer, packet: Packet): (r: Buffer)
    requires SampleSize(bps) && BufferOk(bps, b) && WholeFrames(bps, packet.payload)
    ensures BufferOk(bps, r)
  {
    var b' := if b.initialized then b else b.(initialized := true, first := packet.position, expected := packet.position);
    if packet.position < b'.expected || packet.position in b'.pending then b'
    else b'.(pending := b'.pending[packet.position := packet])
  }

  // The timeline: what the output must be.

  function End(bps: nat, first: nat, played: seq<Packet>): nat
    requires SampleSize(bps)
  {
    if played == [] then first else played[|played| - 1].position + Frames(bps, played[|played| - 1].payload)
  }

  predicate Ordered(bps: nat, first: nat, played: seq<Packet>)
    requires SampleSize(bps)
  {
    played == [] || (
      && Ordered(bps, first, played[..|played| - 1])
      && End(bps, first, played[..|played| - 1]) <= played[|played| - 1].position)
  }

  function Rendered(bps: nat, first: nat, played: seq<Packet>): Bytes
    requires SampleSize(bps) && Ordered(bps, first, played)
  {
    if played == [] then []
    else
      var before, last := played[..|played| - 1], played[|played| - 1];
      Rendered(bps, first, before) + Silence(last.position - End(bps, first, before)) + Converted(bps, last.payload)
  }

  ghost predicate OnTimeline(bps: nat, b: Buffer)
    requires SampleSize(bps)
  {
    && Ordered(bps, b.first, b.played) && End(bps, b.first, b.played) <= b.expected
    && b.output == Rendered(bps, b.first, b.played) + Silence(b.expected - End(bps, b.first, b.played))
  }

  lemma {:induction false} RenderedLength(bps: nat, first: nat, played: seq<Packet>)
    requires SampleSize(bps) && Ordered(bps, first, played)
    ensures first <= End(bps, first, played)
    ensures |Rendered(bps, first, played)| == OUTPUT_FRAME_SIZE * (End(bps, first, played) - first)
  {
    if played != [] {
      RenderedLength(bps, first, played[..|played| - 1]);
    }
  }

  // The byte at which the frame at `position` begins.
  function At(first: nat, position: nat): nat
    requires first <= position
  {
    OUTPUT_FRAME_SIZE * (position - first)
  }

  predicate InPacket(bps: nat, first: nat, packet: Packet, k: nat)
    requires SampleSize(bps)
  {
    first <= packet.position && At(first, packet.position) <= k < At(first, packet.position + Frames(bps, packet.payload))
  }

  // The packet's converted payload is at its place in the output.
  predicate InPlace(bps: nat, first: nat, output: Bytes, packet: Packet)
    requires SampleSize(bps)
  {
    && first <= packet.position
    && At(first, packet.position) + |Converted(bps, packet.payload)| <= |output|
    && output[At(first, packet.position)..At(first, packet.position) + |Converted(bps, packet.payload)|] == Converted(bps, packet.payload)
  }

  lemma MoreOutputKeepsPlace(bps: nat, first: nat, output: Bytes, more: Bytes, packet: Packet)
    requires SampleSize(bps) && InPlace(bps, first, output, packet)
    ensures InPlace(bps, first, output + more, packet)
  {
  }

  lemma LastIsInPlace(bps: nat, first: nat, played: seq<Packet>)
    requires SampleSize(bps) && played != [] && Ordered(bps, first, played)
    ensures InPlace(bps, first, Rendered(bps, first, played), played[|played| - 1])
  {
    var before, last := played[..|played| - 1], played[|played| - 1];
    RenderedLength(bps, first, before);
    var head := Rendered(bps, first, before) + Silence(last.position - End(bps, first, before));
    AppendedIsInPlace(bps, first, head, last);
  }

  lemma AppendedIsInPlace(bps: nat, first: nat, output: Bytes, packet: Packet)
    requires SampleSize(bps) && first <= packet.position && |output| == At(first, packet.position)
    ensures InPlace(bps, first, output + Converted(bps, packet.payload), packet)
  {
  }

  // Each payload sits at its own position.
  lemma {:induction false} PayloadIsInPlace(bps: nat, first: nat, played: seq<Packet>, i: nat)
    requires SampleSize(bps) && Ordered(bps, first, played) && i < |played|
    ensures InPlace(bps, first, Rendered(bps, first, played), played[i])
  {
    var before, last := played[..|played| - 1], played[|played| - 1];
    if i < |before| {
      PayloadIsInPlace(bps, first, before, i);
      var head, silent := Rendered(bps, first, before), Silence(last.position - End(bps, first, before));
      MoreOutputKeepsPlace(bps, first, head, silent, before[i]);
      MoreOutputKeepsPlace(bps, first, head + silent, Converted(bps, last.payload), before[i]);
      assert InPlace(bps, first, Rendered(bps, first, played), before[i]);
      assert played[i] == before[i];
    } else {
      assert i == |played| - 1;
      LastIsInPlace(bps, first, played);
    }
  }

  // The rest is silence.
  lemma {:induction false} RestIsSilence(bps: nat, first: nat, played: seq<Packet>, k: nat)
    requires SampleSize(bps) && Ordered(bps, first, played) && k < |Rendered(bps, first, played)|
    requires forall i | 0 <= i < |played| :: !InPacket(bps, first, played[i], k)
    ensures Rendered(bps, first, played)[k] == 0
  {
    var before, last := played[..|played| - 1], played[|played| - 1];
    RenderedLength(bps, first, before);
    assert !InPacket(bps, first, played[|played| - 1], k);
    if k < |Rendered(bps, first, before)| {
      RestIsSilence(bps, first, before, k);
    }
  }

  // The output reaches exactly to what is expected; each packet played is at its own position, and
  // the rest is silence.
  lemma OutputFollowsTimeline(bps: nat, b: Buffer)
    requires SampleSize(bps) && OnTimeline(bps, b)
    ensures b.first <= b.expected && |b.output| == At(b.first, b.expected)
    ensures forall i | 0 <= i < |b.played| :: InPlace(bps, b.first, b.output, b.played[i])
    ensures forall k | 0 <= k < |b.output| ::
              (forall i | 0 <= i < |b.played| :: !InPacket(bps, b.first, b.played[i], k)) ==> b.output[k] == 0
  {
    var rendered := Rendered(bps, b.first, b.played);
    RenderedLength(bps, b.first, b.played);
    forall i | 0 <= i < |b.played|
      ensures InPlace(bps, b.first, b.output, b.played[i])
    {
      PayloadIsInPlace(bps, b.first, b.played, i);
      MoreOutputKeepsPlace(bps, b.first, rendered, Silence(b.expected - End(bps, b.first, b.played)), b.played[i]);
    }
    forall k | 0 <= k < |b.output| && (forall i | 0 <= i < |b.played| :: !InPacket(bps, b.first, b.played[i], k))
      ensures b.output[k] == 0
    {
      if k < |rendered| {
        RestIsSilence(bps, b.first, b.played, k);
      }
    }
  }

  // Every sample of a packet that was played is in the output at its time.
  lemma SamplesFollowTimeline(bps: nat, b: Buffer, i: nat, k: nat, c: nat)
    requires SampleSize(bps) && OnTimeline(bps, b) && i < |b.played|
    requires k < Frames(bps, b.played[i].payload) && c < 2
    ensures b.first <= b.played[i].position
    ensures IsScaled(bps, b.played[i].payload, b.output, At(b.first, b.played[i].position), k, c)
  {
    var packet := b.played[i];
    OutputFollowsTimeline(bps, b);
    assert InPlace(bps, b.first, b.output, packet);
    ConvertedIsScaled(bps, packet.payload, k, c);
    var converted, at := Converted(bps, packet.payload), At(b.first, packet.position);
    assert b.output[at..at + |converted|] == converted;
  }

  // Whatever is received, the output stays on the timeline.

  lemma PlayKeepsTimeline(bps: nat, b: Buffer)
    requires SampleSize(bps) && BufferOk(bps, b) && b.expected in b.pending && OnTimeline(bps, b)
    ensures OnTimeline(bps, Play(bps, b))
  {
    var r := Play(bps, b);
    assert r.played[..|r.played| - 1] == b.played;
  }

  lemma {:induction false} DrainKeepsTimeline(bps: nat, b: Buffer)
    requires SampleSize(bps) && BufferOk(bps, b) && OnTimeline(bps, b)
    ensures OnTimeline(bps, Drain(bps, b)) && OnlyPending(b, Drain(bps, b))
    ensures b.expected <= Drain(bps, b).expected
    decreases |b.pending|
  {
    DrainPlaysPending(bps, b);
    if b.expected in b.pending {
      PlayKeepsTimeline(bps, b);
      DrainKeepsTimeline(bps, Play(bps, b));
    }
  }

  lemma {:induction false} DrainPlaysPending(bps: nat, b: Buffer)
    requires SampleSize(bps) && BufferOk(bps, b)
    ensures OnlyPending(b, Drain(bps, b))
    decreases |b.pending|
  {
    if b.expected in b.pending {
      DrainPlaysPending(bps, Play(bps, b));
      OnlyPendingIsTransitive(b, Play(bps, b), Drain(bps, b));
    }
  }

  // What is played was pending, and nothing else becomes pending.
  ghost predicate OnlyPending(b: Buffer, r: Buffer) {
    && r.initialized == b.initialized && r.first == b.first && b.played <= r.played
    && (forall p <- r.pending :: p in b.pending && r.pending[p] == b.pending[p])
    && forall i | |b.played| <= i < |r.played| :: r.played[i].position in b.pending && r.played[i] == b.pending[r.played[i].position]
  }

  lemma OnlyPendingIsTransitive(b1: Buffer, b2: Buffer, b3: Buffer)
    requires OnlyPending(b1, b2) && OnlyPending(b2, b3)
    ensures OnlyPending(b1, b3)
  {
    forall i | |b1.played| <= i < |b3.played|
      ensures b3.played[i].position in b1.pending && b3.played[i] == b1.pending[b3.played[i].position]
    {
      if i < |b2.played| {
        assert b3.played[i] == b2.played[i];
      } else {
        assert b3.played[i].position in b2.pending;
      }
    }
  }

  lemma SkipKeepsTimeline(bps: nat, b: Buffer, to: nat)
    requires SampleSize(bps) && OnTimeline(bps, b) && b.expected <= to
    ensures OnTimeline(bps, Skip(b, to))
  {
    var end := End(bps, b.first, b.played);
    assert Silence(b.expected - end) + Silence(to - b.expected) == Silence(to - end);
  }

  // After an advance every pending packet lies past what is expected and arrived less than the gap
  // wait ago.
  ghost predicate Caught(b: Buffer, now: int) {
    forall p <- b.pending :: p > b.expected && now - b.pending[p].arrived < GAP_WAIT
  }

  lemma SettledKeepsTimeline(bps: nat, b: Buffer)
    requires SampleSize(bps) && BufferOk(bps, b) && OnTimeline(bps, b)
    ensures var d := Settled(bps, b);
      OnTimeline(bps, d) && OnlyPending(b, d) && b.expected <= d.expected && forall p <- d.pending :: p > d.expected
  {
    DrainKeepsTimeline(bps, b);
    PurgeForgets(Drain(bps, b));
    OnlyPendingIsTransitive(b, Drain(bps, b), Purge(Drain(bps, b)));
  }

  lemma PurgeForgets(b: Buffer)
    requires b.expected !in b.pending
    ensures OnlyPending(b, Purge(b)) && forall p <- Purge(b).pending :: p > b.expected
  {
  }

  lemma {:induction false} AdvancedKeepsTimeline(bps: nat, b: Buffer, now: int)
    requires SampleSize(bps) && BufferOk(bps, b) && OnTimeline(bps, b)
    ensures var a := Advanced(bps, b, now);
      && BufferOk(bps, a.buffer) && OnTimeline(bps, a.buffer) && OnlyPending(b, a.buffer)
      && b.expected <= a.buffer.expected && (a.Fine? ==> Caught(a.buffer, now))
    decreases |b.pending|, b.expected !in b.pending
  {
    var d := Settled(bps, b);
    SettledKeepsTimeline(bps, b);
    if Expired(d.pending, now) {
      var least := Least(d.pending.Keys);
      if d.expected <= least && least - d.expected <= MAXIMUM_GAP_IN_FRAMES {
        var skipped := Skip(d, least);
        SkipKeepsTimeline(bps, d, least);
        assert OnlyPending(b, skipped);
        AdvancedKeepsTimeline(bps, skipped, now);
        OnlyPendingIsTransitive(b, skipped, Advanced(bps, skipped, now).buffer);
      }
    }
  }

  lemma SettledIsAhead(bps: nat, b: Buffer)
    requires SampleSize(bps) && BufferOk(bps, b)
    ensures forall p <- Settled(bps, b).pending :: p > Settled(bps, b).expected
  {
    PurgeForgets(Drain(bps, b));
  }

  // Only a gap of more than a second is too wide; any other that was waited for is filled.
  lemma {:induction false} OnlyWideGapsFail(bps: nat, b: Buffer, now: int)
    requires SampleSize(bps) && BufferOk(bps, b)
    ensures var a := Advanced(bps, b, now);
      if a.TooWide? then
        Expired(a.buffer.pending, now) && forall p <- a.buffer.pending :: p > a.buffer.expected + MAXIMUM_GAP_IN_FRAMES
      else
        !Expired(a.buffer.pending, now)
    decreases |b.pending|, b.expected !in b.pending
  {
    var d := Settled(bps, b);
    SettledIsAhead(bps, b);
    if Expired(d.pending, now) {
      var least := Least(d.pending.Keys);
      if least - d.expected <= MAXIMUM_GAP_IN_FRAMES {
        OnlyWideGapsFail(bps, Skip(d, least), now);
      }
    }
  }

  // Streams: a run of adjacent packets, and what the network makes of it.

  // Where packet `i` of a run that begins at `start` belongs.
  function Position(bps: nat, start: nat, run: seq<Bytes>, i: nat): nat
    requires SampleSize(bps) && i <= |run|
  {
    if i == 0 then start else Position(bps, start, run, i - 1) + Frames(bps, run[i - 1])
  }

  // The converted payloads of the first `m` packets, in order.
  function InOrder(bps: nat, run: seq<Bytes>, m: nat): Bytes
    requires SampleSize(bps) && m <= |run|
  {
    if m == 0 then [] else InOrder(bps, run, m - 1) + Converted(bps, run[m - 1])
  }

  // A packet of the run, a packet from before it, or time passing.
  datatype Event = Arrives(i: nat, at: int) | Stray(packet: Packet) | Tick(at: int)

  ghost predicate RunOk(bps: nat, run: seq<Bytes>)
    requires SampleSize(bps)
  {
    forall i | 0 <= i < |run| :: WholeFrames(bps, run[i])
  }

  predicate EventOk(bps: nat, start: nat, run: seq<Bytes>, e: Event)
    requires SampleSize(bps)
  {
    && (e.Arrives? ==> e.i < |run|)
    && (e.Stray? ==> e.packet.position < start && WholeFrames(bps, e.packet.payload))
  }

  function TimeOf(e: Event): int {
    if e.Stray? then e.packet.arrived else e.at
  }

  // When each packet of the run first arrived.
  function Arrivals(events: seq<Event>): map<nat, int> {
    if events == [] then map[]
    else
      var before, last := Arrivals(events[..|events| - 1]), events[|events| - 1];
      if last.Arrives? && last.i !in before then before[last.i := last.at] else before
  }

  // No packet waits long for an earlier one: whenever something happens, those still missing an
  // earlier packet arrived less than the gap wait ago.
  ghost predicate OnTime(events: seq<Event>) {
    events != [] ==>
      && OnTime(events[..|events| - 1])
      && Punctual(Arrivals(events), TimeOf(events[|events| - 1]))
  }

  ghost predicate Punctual(at: map<nat, int>, now: int) {
    forall i: nat, j: nat | i < j && j in at && i !in at :: now - at[j] < GAP_WAIT
  }

  ghost function Happened(bps: nat, start: nat, run: seq<Bytes>, b: Buffer, e: Event): (o: Outcome)
    requires SampleSize(bps) && RunOk(bps, run) && EventOk(bps, start, run, e) && BufferOk(bps, b)
    ensures BufferOk(bps, o.buffer)
  {
    match e
    case Arrives(i, at) => Advanced(bps, Accepted(bps, b, Packet(Position(bps, start, run, i), run[i], at)), at)
    case Stray(packet) => Advanced(bps, Accepted(bps, b, packet), packet.arrived)
    case Tick(at) => Advanced(bps, b, at)
  }

  const NEW_BUFFER := Buffer(false, 0, 0, map[], [], [])

  ghost function Played(bps: nat, start: nat, run: seq<Bytes>, events: seq<Event>): (o: Outcome)
    requires SampleSize(bps) && RunOk(bps, run) && forall i | 0 <= i < |events| :: EventOk(bps, start, run, events[i])
    ensures BufferOk(bps, o.buffer)
  {
    if events == [] then Fine(NEW_BUFFER)
    else
      var before := Played(bps, start, run, events[..|events| - 1]);
      if before.TooWide? then before else Happened(bps, start, run, before.buffer, events[|events| - 1])
  }

  // The first packet that has not arrived, from `m` on.
  function FirstMissing(at: map<nat, int>, m: nat, n: nat): (r: nat)
    requires m <= n
    ensures m <= r <= n && (r < n ==> r !in at) && forall j | m <= j < r :: j in at
    decreases n - m
  {
    if m < n && m in at then FirstMissing(at, m + 1, n) else m
  }

  // The packets that arrived out of order, from packet `m` on.
  function Waiting(bps: nat, start: nat, run: seq<Bytes>, at: map<nat, int>, m: nat): map<nat, Packet>
    requires SampleSize(bps) && m <= |run|
    decreases |run| - m
  {
    if m == |run| then map[]
    else
      var rest := Waiting(bps, start, run, at, m + 1);
      if m in at then rest[Position(bps, start, run, m) := Packet(Position(bps, start, run, m), run[m], at[m])] else rest
  }

  // The buffer has played the first `m` packets and holds what else has arrived.
  ghost predicate Holds(bps: nat, start: nat, run: seq<Bytes>, at: map<nat, int>, m: nat, b: Buffer)
    requires SampleSize(bps) && m <= |run|
  {
    && b.initialized && b.expected == Position(bps, start, run, m) && b.output == InOrder(bps, run, m)
    && (forall j | 0 <= j < m :: j in at)
    && b.pending == Waiting(bps, start, run, at, m)
  }

  lemma {:induction false} PositionsGrow(bps: nat, start: nat, run: seq<Bytes>, i: nat, j: nat)
    requires SampleSize(bps) && RunOk(bps, run) && i < j <= |run|
    ensures start <= Position(bps, start, run, i) < Position(bps, start, run, j)
  {
    WholeFramesStep(bps, |run[j - 1]|);
    if i < j - 1 {
      PositionsGrow(bps, start, run, i, j - 1);
    } else if i > 0 {
      PositionsGrow(bps, start, run, 0, i);
    }
  }

  lemma {:induction false} WaitingLiesAhead(bps: nat, start: nat, run: seq<Bytes>, at: map<nat, int>, m: nat)
    requires SampleSize(bps) && RunOk(bps, run) && m <= |run|
    ensures forall p <- Waiting(bps, start, run, at, m) :: p >= Position(bps, start, run, m)
    decreases |run| - m
  {
    if m < |run| {
      WaitingLiesAhead(bps, start, run, at, m + 1);
      PositionsGrow(bps, start, run, m, m + 1);
    }
  }

  // A packet waits exactly if it has arrived.
  lemma {:induction false} WaitingIsArrived(bps: nat, start: nat, run: seq<Bytes>, at: map<nat, int>, m: nat, i: nat)
    requires SampleSize(bps) && RunOk(bps, run) && m <= i < |run|
    ensures Position(bps, start, run, i) in Waiting(bps, start, run, at, m) <==> i in at
    ensures i in at ==> (Waiting(bps, start, run, at, m)[Position(bps, start, run, i)]
                         == Packet(Position(bps, start, run, i), run[i], at[i]))
    decreases |run| - m
  {
    WaitingLiesAhead(bps, start, run, at, m + 1);
    PositionsGrow(bps, start, run, m, m + 1);
    if m < i {
      PositionsGrow(bps, start, run, m, i);
      WaitingIsArrived(bps, start, run, at, m + 1, i);
    }
  }

  lemma {:induction false} WaitingGainsArrival(bps: nat, start: nat, run: seq<Bytes>, at: map<nat, int>, m: nat, i: nat, t: int)
    requires SampleSize(bps) && RunOk(bps, run) && m <= |run| && i < |run| && i !in at
    ensures Waiting(bps, start, run, at[i := t], m)
         == if m <= i then Waiting(bps, start, run, at, m)[Position(bps, start, run, i) := Packet(Position(bps, start, run, i), run[i], t)]
            else Waiting(bps, start, run, at, m)
    decreases |run| - m
  {
    if m < |run| {
      WaitingGainsArrival(bps, start, run, at, m + 1, i, t);
      if m < i {
        PositionsGrow(bps, start, run, m, i);
      }
    }
  }

  lemma {:induction false} WaitingIsPunctual(bps: nat, start: nat, run: seq<Bytes>, at: map<nat, int>, m: nat, now: int)
    requires SampleSize(bps) && m <= |run|
    requires forall j: nat | m <= j < |run| && j in at :: now - at[j] < GAP_WAIT
    ensures !Expired(Waiting(bps, start, run, at, m), now)
    decreases |run| - m
  {
    if m < |run| {
      WaitingIsPunctual(bps, start, run, at, m + 1, now);
    }
  }

  lemma PlayHolds(bps: nat, start: nat, run: seq<Bytes>, at: map<nat, int>, m: nat, b: Buffer)
    requires SampleSize(bps) && RunOk(bps, run) && BufferOk(bps, b)
    requires m < |run| && m in at && Holds(bps, start, run, at, m, b)
    ensures b.expected in b.pending && Holds(bps, start, run, at, m + 1, Play(bps, b))
  {
    WaitingIsArrived(bps, start, run, at, m, m);
    WaitingLiesAhead(bps, start, run, at, m + 1);
    PositionsGrow(bps, start, run, m, m + 1);
    assert Play(bps, b).pending == Waiting(bps, start, run, at, m + 1);
  }

  lemma {:induction false} DrainHolds(bps: nat, start: nat, run: seq<Bytes>, at: map<nat, int>, m: nat, b: Buffer)
    requires SampleSize(bps) && RunOk(bps, run) && BufferOk(bps, b) && m <= |run| && Holds(bps, start, run, at, m, b)
    ensures Holds(bps, start, run, at, FirstMissing(at, m, |run|), Drain(bps, b))
    decreases |run| - m
  {
    if m < |run| && m in at {
      PlayHolds(bps, start, run, at, m, b);
      DrainHolds(bps, start, run, at, m + 1, Play(bps, b));
    } else if m < |run| {
      WaitingIsArrived(bps, start, run, at, m, m);
    }
  }

  // With every packet punctual, an advance plays all that is next and then waits.
  lemma AdvanceHolds(bps: nat, start: nat, run: seq<Bytes>, at: map<nat, int>, m: nat, b: Buffer, now: int)
    requires SampleSize(bps) && RunOk(bps, run) && BufferOk(bps, b) && m <= |run| && Holds(bps, start, run, at, m, b)
    requires Punctual(at, now)
    ensures Advanced(bps, b, now).Fine?
    ensures Holds(bps, start, run, at, FirstMissing(at, m, |run|), Advanced(bps, b, now).buffer)
  {
    SettledHolds(bps, start, run, at, m, b);
    NothingExpires(bps, start, run, at, m, now);
    assert Advanced(bps, b, now) == Fine(Settled(bps, b));
  }

  lemma PurgeIsIdle(b: Buffer)
    requires forall p <- b.pending :: p >= b.expected
    ensures Purge(b) == b
  {
    assert Purge(b).pending == b.pending;
  }

  lemma SettledHolds(bps: nat, start: nat, run: seq<Bytes>, at: map<nat, int>, m: nat, b: Buffer)
    requires SampleSize(bps) && RunOk(bps, run) && BufferOk(bps, b) && m <= |run| && Holds(bps, start, run, at, m, b)
    ensures Holds(bps, start, run, at, FirstMissing(at, m, |run|), Settled(bps, b))
  {
    DrainHolds(bps, start, run, at, m, b);
    WaitingLiesAhead(bps, start, run, at, FirstMissing(at, m, |run|));
    PurgeIsIdle(Drain(bps, b));
  }

  lemma NothingExpires(bps: nat, start: nat, run: seq<Bytes>, at: map<nat, int>, m: nat, now: int)
    requires SampleSize(bps) && m <= |run| && Punctual(at, now)
    ensures !Expired(Waiting(bps, start, run, at, FirstMissing(at, m, |run|)), now)
  {
    WaitingIsPunctual(bps, start, run, at, FirstMissing(at, m, |run|), now);
  }

  // Duplicates, late and stray packets change nothing; a packet that is ahead of time waits.
  lemma AcceptedHolds(bps: nat, start: nat, run: seq<Bytes>, at: map<nat, int>, m: nat, b: Buffer, i: nat, t: int)
    requires SampleSize(bps) && RunOk(bps, run) && BufferOk(bps, b) && m <= |run| && Holds(bps, start, run, at, m, b)
    requires i < |run|
    ensures var packet := Packet(Position(bps, start, run, i), run[i], t);
      Holds(bps, start, run, if i in at then at else at[i := t], m, Accepted(bps, b, packet))
  {
    if i < m {
      PositionsGrow(bps, start, run, i, m);
    } else {
      if m < i {
        PositionsGrow(bps, start, run, m, i);
      }
      WaitingIsArrived(bps, start, run, at, m, i);
      if i !in at {
        WaitingGainsArrival(bps, start, run, at, m, i, t);
      }
    }
  }

  lemma EventHolds(bps: nat, start: nat, run: seq<Bytes>, at: map<nat, int>, m: nat, b: Buffer, e: Event)
    requires SampleSize(bps) && RunOk(bps, run) && BufferOk(bps, b) && m <= |run| && Holds(bps, start, run, at, m, b)
    requires EventOk(bps, start, run, e)
    requires Punctual(Arrived(at, e), TimeOf(e))
    ensures var at' := Arrived(at, e);
      var o := Happened(bps, start, run, b, e);
      o.Fine? && Holds(bps, start, run, at', FirstMissing(at', m, |run|), o.buffer)
  {
    match e
    case Arrives(i, t) =>
      AcceptedHolds(bps, start, run, at, m, b, i, t);
      AdvanceHolds(bps, start, run, if i in at then at else at[i := t], m,
                   Accepted(bps, b, Packet(Position(bps, start, run, i), run[i], t)), t);
    case Stray(packet) =>
      if m > 0 {
        PositionsGrow(bps, start, run, 0, m);
      }
      AdvanceHolds(bps, start, run, at, m, b, packet.arrived);
    case Tick(t) =>
      AdvanceHolds(bps, start, run, at, m, b, t);
  }

  // The buffer refines sorting: whatever the order in which the packets of a run arrive, with
  // whatever duplicates, late and stray packets in between, the output is the run in order, up to
  // the first packet that is still missing; provided the first packet comes first and every packet
  // is on time.
  lemma {:induction false} DeliversInOrder(bps: nat, start: nat, run: seq<Bytes>, events: seq<Event>)
    requires SampleSize(bps) && RunOk(bps, run) && events != [] && events[0].Arrives? && events[0].i == 0
    requires forall i | 0 <= i < |events| :: EventOk(bps, start, run, events[i])
    requires OnTime(events)
    ensures Played(bps, start, run, events).Fine?
    ensures Holds(bps, start, run, Arrivals(events), FirstMissing(Arrivals(events), 0, |run|), Played(bps, start, run, events).buffer)
  {
    var before, last := events[..|events| - 1], events[|events| - 1];
    if before == [] {
      FirstHolds(bps, start, run, last.at);
      assert Arrivals(before) == map[] && Arrivals(events) == map[0 := last.at];
    } else {
      DeliversInOrder(bps, start, run, before);
      StepHolds(bps, start, run, Arrivals(before), Played(bps, start, run, before).buffer, last);
      assert Arrivals(events) == Arrived(Arrivals(before), last);
    }
  }

  function Arrived(at: map<nat, int>, e: Event): map<nat, int> {
    if e.Arrives? && e.i !in at then at[e.i := e.at] else at
  }

  lemma StepHolds(bps: nat, start: nat, run: seq<Bytes>, at: map<nat, int>, b: Buffer, e: Event)
    requires SampleSize(bps) && RunOk(bps, run) && BufferOk(bps, b) && EventOk(bps, start, run, e)
    requires Holds(bps, start, run, at, FirstMissing(at, 0, |run|), b) && Punctual(Arrived(at, e), TimeOf(e))
    ensures var o := Happened(bps, start, run, b, e);
      o.Fine? && Holds(bps, start, run, Arrived(at, e), FirstMissing(Arrived(at, e), 0, |run|), o.buffer)
  {
    EventHolds(bps, start, run, at, FirstMissing(at, 0, |run|), b, e);
    MissingFromThere(at, Arrived(at, e), 0, |run|);
  }

  // Once every packet has arrived, the output is the whole run in order, and nothing waits.
  lemma DeliversAll(bps: nat, start: nat, run: seq<Bytes>, events: seq<Event>)
    requires SampleSize(bps) && RunOk(bps, run) && events != [] && events[0].Arrives? && events[0].i == 0
    requires forall i | 0 <= i < |events| :: EventOk(bps, start, run, events[i])
    requires OnTime(events) && forall i | 0 <= i < |run| :: i in Arrivals(events)
    ensures var o := Played(bps, start, run, events);
      o.Fine? && o.buffer.output == InOrder(bps, run, |run|) && o.buffer.pending == map[]
  {
    DeliversInOrder(bps, start, run, events);
    assert FirstMissing(Arrivals(events), 0, |run|) == |run|;
  }

  lemma FirstHolds(bps: nat, start: nat, run: seq<Bytes>, t: int)
    requires SampleSize(bps) && RunOk(bps, run) && run != [] && Punctual(map[0 := t], t)
    ensures var o := Happened(bps, start, run, NEW_BUFFER, Arrives(0, t));
      o.Fine? && Holds(bps, start, run, map[0 := t], FirstMissing(map[0 := t], 0, |run|), o.buffer)
  {
    var at: map<nat, int> := map[0 := t];
    var b := Accepted(bps, NEW_BUFFER, Packet(start, run[0], t));
    WaitingGainsArrival(bps, start, run, map[], 0, 0, t);
    NothingWaits(bps, start, run, 0);
    assert map[][0 := t] == at;
    assert Holds(bps, start, run, at, 0, b);
    AdvanceHolds(bps, start, run, at, 0, b, t);
  }

  lemma {:induction false} NothingWaits(bps: nat, start: nat, run: seq<Bytes>, m: nat)
    requires SampleSize(bps) && m <= |run|
    ensures Waiting(bps, start, run, map[], m) == map[]
    decreases |run| - m
  {
    if m < |run| {
      NothingWaits(bps, start, run, m + 1);
    }
  }

  lemma {:induction false} MissingFromThere(at: map<nat, int>, at': map<nat, int>, m: nat, n: nat)
    requires m <= n && at.Keys <= at'.Keys
    ensures FirstMissing(at', FirstMissing(at, m, n), n) == FirstMissing(at', m, n)
    decreases n - m
  {
    if m < n && m in at {
      MissingFromThere(at, at', m + 1, n);
    }
  }

  // Datagrams: one byte, then seconds and the sample offset, big-endian, then whole frames.

  function ToBigEndian(n: nat): (b: Bytes)
    requires n < 0x1_0000_0000
    ensures |b| == 4
  {
    [(n / 0x100_0000) as byte, (n / 0x1_0000 % 256) as byte, (n / 256 % 256) as byte, (n % 256) as byte]
  }

  function Datagram(kind: byte, seconds: nat, offset: nat, payload: Bytes): Bytes
    requires seconds < 0x1_0000_0000 && offset < 0x1_0000_0000
  {
    [kind] + ToBigEndian(seconds) + ToBigEndian(offset) + payload
  }

  function Parse(bps: nat, datagram: Bytes, now: int): (packet: Option<Packet>)
    requires SampleSize(bps)
    ensures packet.Some? ==> WholeFrames(bps, packet.value.payload) && packet.value.arrived == now
  {
    if |datagram| <= HEADER_SIZE || (|datagram| - HEADER_SIZE) % FrameSize(bps) != 0 then None
    else
      var seconds, offset := BigEndian(datagram[1..5]), BigEndian(datagram[5..9]);
      if offset >= SAMPLE_RATE then None
      else Some(Packet(seconds * SAMPLE_RATE + offset, datagram[HEADER_SIZE..], now))
  }

  lemma BigEndianReadsBack(n: nat)
    requires n < 0x1_0000_0000
    ensures BigEndian(ToBigEndian(n)) == n
  {
    FourBytes(ToBigEndian(n));
    assert n == n / 256 * 256 + n % 256;
    assert n / 256 == n / 0x1_0000 * 256 + n / 256 % 256;
    assert n / 0x1_0000 == n / 0x100_0000 * 256 + n / 0x1_0000 % 256;
  }

  // Parsing reads back exactly the datagrams with whole frames and an offset within the second.
  lemma ParseReadsBack(bps: nat, kind: byte, seconds: nat, offset: nat, payload: Bytes, now: int)
    requires SampleSize(bps) && seconds < 0x1_0000_0000 && offset < 0x1_0000_0000
    ensures Parse(bps, Datagram(kind, seconds, offset, payload), now)
         == if WholeFrames(bps, payload) && offset < SAMPLE_RATE then Some(Packet(seconds * SAMPLE_RATE + offset, payload, now)) else None
  {
    var d := Datagram(kind, seconds, offset, payload);
    assert d[1..5] == ToBigEndian(seconds) && d[5..9] == ToBigEndian(offset) && d[9..] == payload;
    BigEndianReadsBack(seconds);
    BigEndianReadsBack(offset);
  }

  datatype Status = Done | GapTooWide | WriteFailed

  class MediaProcessor {
    const bps: nat
    var initialized: bool
    var expected: nat
    var pending: map<nat, Packet>
    var gapStarted: Option<int>
    var output: Bytes         // What the writer took.
    ghost var first: nat
    ghost var played: seq<Packet>

    ghost function View(): Buffer
      reads this
    {
      Buffer(initialized, first, expected, pending, output, played)
    }

    ghost predicate Valid()
      reads this
    {
      SampleSize(bps) && BufferOk(bps, View()) && OnTimeline(bps, View()) && (!initialized ==> View() == NEW_BUFFER)
    }

    constructor (bits: nat)
      requires bits in {16, 24, 32}
      ensures Valid() && bps == bits / 8 && View() == NEW_BUFFER
    {
      bps := bits / 8;
      initialized, expected, pending, gapStarted, output, first, played := false, 0, map[], None, [], 0, [];
    }

    // A write that fails may have taken a part.
    method Write(data: Bytes) returns (ok: bool)
      modifies `output
      ensures ok ==> output == old(output) + data
      ensures old(output) <= output
    {
      ok := *;
      if ok {
        output := output + data;
      } else {
        var n :| 0 <= n <= |data|;
        output := output + data[..n];
      }
    }

    method AppendPacket(payload: Bytes) returns (ok: bool)
      requires SampleSize(bps) && WholeFrames(bps, payload)
      modifies `output
      ensures ok ==> output == old(output) + Converted(bps, payload)
      ensures old(output) <= output
    {
      var converted := Convert(payload);
      ok := Write(converted);
    }

    // Converts the most significant sample bits to 16-bit little-endian.
    method Convert(payload: Bytes) returns (converted: Bytes)
      requires SampleSize(bps) && WholeFrames(bps, payload)
      ensures converted == Converted(bps, payload) && AllScaled(bps, payload, converted)
    {
      converted := ConvertFrames(payload);
      ConvertedIsAllScaled(bps, payload);
    }

    method ConvertFrames(payload: Bytes) returns (converted: Bytes)
      requires SampleSize(bps) && WholeFrames(bps, payload)
      ensures converted == Converted(bps, payload)
    {
      var offset := 0;
      converted := [];
      FramesDivide(bps, |payload|);
      ghost var rest := Converted(bps, payload[0..]);
      assert payload[0..] == payload;
      while offset < |payload|
        invariant 0 <= offset <= |payload| && InFrames(bps, |payload| - offset)
        invariant rest == Converted(bps, payload[offset..]) && converted + rest == Converted(bps, payload)
      {
        ConvertedStep(bps, payload, offset, converted);
        var frame := ConvertFrame(payload, offset);
        var next := offset + FrameSize(bps);
        rest := Converted(bps, payload[next..]);
        converted, offset := converted + frame, next;
      }
      assert rest == [];
    }

    method ConvertFrame(payload: Bytes, offset: nat) returns (frame: Bytes)
      requires SampleSize(bps) && offset + FrameSize(bps) <= |payload|
      ensures frame == ConvertedFrame(bps, payload[offset..offset + FrameSize(bps)])
    {
      frame := [];
      var channel := 0;
      while channel < 2
        invariant 0 <= channel <= 2
        invariant frame == ConvertedFrame(bps, payload[offset..offset + FrameSize(bps)])[..2 * channel]
      {
        var sample := offset + if channel == 0 then 0 else bps;
        frame := frame + [payload[sample + 1], payload[sample]];
        channel := channel + 1;
      }
    }

    // Writes silence in batches.
    method AppendSilence(frames: nat) returns (ok: bool)
      modifies `output
      ensures ok ==> output == old(output) + Silence(frames)
      ensures old(output) <= output
    {
      var left := frames;
      while left > 0
        invariant 0 <= left <= frames && output == old(output) + Silence(frames - left)
      {
        var batch := if left < OUTPUT_BATCH_SIZE / OUTPUT_FRAME_SIZE then left else OUTPUT_BATCH_SIZE / OUTPUT_FRAME_SIZE;
        var written := Write(Silence(batch));
        if !written {
          return false;
        }
        assert Silence(frames - left) + Silence(batch) == Silence(frames - (left - batch));
        left := left - batch;
      }
      return true;
    }

    method EarliestPending() returns (least: Option<nat>)
      ensures least.None? <==> pending.Keys == {}
      ensures least.Some? ==> IsLeast(pending.Keys, least.value)
    {
      least := None;
      var left := pending.Keys;
      while left != {}
        invariant left <= pending.Keys && (least.None? ==> left == pending.Keys)
        invariant least.Some? ==> least.value in pending && forall p <- pending :: p !in left ==> least.value <= p
        decreases |left|
      {
        var position :| position in left;
        if least.None? || position < least.value {
          least := Some(position);
        }
        left := left - {position};
      }
    }

    // The gap deadline counts from the oldest pending arrival.
    method OldestArrival(now: int) returns (oldest: int)
      ensures oldest <= now && forall p <- pending :: oldest <= pending[p].arrived
      ensures oldest == now || exists p :: p in pending && pending[p].arrived == oldest
    {
      oldest := now;
      var left := pending.Keys;
      while left != {}
        invariant left <= pending.Keys && oldest <= now
        invariant forall p <- pending :: p !in left ==> oldest <= pending[p].arrived
        invariant oldest == now || exists p :: p in pending && pending[p].arrived == oldest
        decreases |left|
      {
        var position :| position in left;
        if pending[position].arrived < oldest {
          oldest := pending[position].arrived;
        }
        left := left - {position};
      }
    }

    // Plays what is next, then waits for the gap before the earliest pending packet, or fills it.
    method Advance(now: int) returns (status: Status)
      requires Valid()
      modifies this
      ensures status.Done? ==> Valid() && Advanced(bps, old(View()), now) == Fine(View()) && Caught(View(), now) && GapFollowed(now)
      ensures status.GapTooWide? ==> Advanced(bps, old(View()), now) == TooWide(View())
      ensures old(output) <= output
    {
      AdvancedKeepsTimeline(bps, View(), now);
      status := Resume(now);
    }

    method Resume(now: int) returns (status: Status)
      requires SampleSize(bps) && BufferOk(bps, View())
      modifies `expected, `pending, `gapStarted, `output, `played
      ensures status.Done? ==> Advanced(bps, old(View()), now) == Fine(View()) && GapFollowed(now)
      ensures status.GapTooWide? ==> Advanced(bps, old(View()), now) == TooWide(View())
      ensures old(output) <= output
      decreases |pending|, expected !in pending
    {
      ghost var before := View();
      var drained := Drained();
      if !drained {
        return WriteFailed;
      }
      ghost var settled := View();
      var least := Wait(now);
      if least.None? {
        return Done;
      }
      var missing := least.value - expected;
      if missing > MAXIMUM_GAP_IN_FRAMES {
        return GapTooWide;
      }
      var filled := AppendSilence(missing);
      if !filled {
        return WriteFailed;
      }
      expected := least.value;
      assert View() == Skip(settled, least.value);
      status := Resume(now);
    }

    // The earliest pending packet, once one has waited long enough for the gap before it.
    method Wait(now: int) returns (least: Option<nat>)
      modifies `gapStarted
      ensures least.Some? <==> Expired(pending, now)
      ensures least.Some? ==> pending.Keys != {} && least.value == Least(pending.Keys)
      ensures least.None? ==> GapFollowed(now)
    {
      least := EarliestPending();
      if least.None? {
        gapStarted := None;
        return;
      }
      var oldest := OldestArrival(now);
      gapStarted := Some(oldest);
      if now - oldest < GAP_WAIT {
        return None;
      }
    }

    // The deadline the receiver waits for.
    ghost predicate GapFollowed(now: int)
      reads `gapStarted, `pending
    {
      && (gapStarted.None? <==> pending.Keys == {})
      && (gapStarted.Some? ==> now - GAP_WAIT < gapStarted.value <= now)
      && (gapStarted.Some? ==> forall p <- pending :: gapStarted.value <= pending[p].arrived)
      && (gapStarted.Some? ==> gapStarted.value == now || exists p :: p in pending && pending[p].arrived == gapStarted.value)
    }

    // Plays the packets that are next and forgets those the stream has passed.
    method Drained() returns (ok: bool)
      requires SampleSize(bps) && BufferOk(bps, View())
      modifies `expected, `pending, `output, `played
      ensures ok ==> View() == Settled(bps, old(View()))
      ensures old(output) <= output
    {
      while expected in pending
        invariant BufferOk(bps, View()) && Drain(bps, View()) == Drain(bps, old(View())) && old(output) <= output
        decreases |pending|
      {
        var written := PlayNext();
        if !written {
          return false;
        }
      }
      pending := map p | p in pending && p >= expected :: pending[p];
      return true;
    }

    method PlayNext() returns (ok: bool)
      requires SampleSize(bps) && BufferOk(bps, View()) && expected in pending
      modifies `expected, `pending, `output, `played
      ensures ok ==> View() == Play(bps, old(View()))
      ensures old(output) <= output
    {
      var packet := pending[expected];
      pending := pending - {expected};
      ok := AppendPacket(packet.payload);
      if ok {
        FramesIsQuotient(bps, packet.payload);
        expected := expected + |packet.payload| / FrameSize(bps);
        played := played + [packet];
      }
    }

    // Takes a datagram; true means it carried a packet the buffer did not have.
    method Receive(datagram: Bytes, now: int) returns (valid: bool, status: Status)
      requires Valid()
      modifies this
      ensures status.Done? ==> Valid()
      ensures var packet := Parse(bps, datagram, now);
        && (packet.None? ==> status.Done? && !valid && View() == old(View()))
        && (packet.Some? && status.Done? ==> Advanced(bps, Accepted(bps, old(View()), packet.value), now) == Fine(View()) && Caught(View(), now))
        && (packet.Some? && status.GapTooWide? ==> Advanced(bps, Accepted(bps, old(View()), packet.value), now) == TooWide(View()))
        && (valid <==> packet.Some? && (!old(initialized) || (packet.value.position >= old(expected) && packet.value.position !in old(pending))))
      ensures old(output) <= output
    {
      var parsed := Parse(bps, datagram, now);
      if parsed.None? {
        return false, Done;
      }
      var packet := parsed.value;
      if !initialized {
        initialized := true;
        expected := packet.position;
        first := packet.position;
      }
      valid := packet.position >= expected && packet.position !in pending;
      if valid {
        pending := pending[packet.position := packet];
      }
      assert View() == Accepted(bps, old(View()), packet);
      status := Advance(now);
    }
  }
}
