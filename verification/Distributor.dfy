/** Cutting captured audio into whole frames (internal/encoder/encoder.go, runDistributor). */
module Distributor {
  const BUFFER_SIZE := 19_200
  const FRAME_BYTES := 4

  type Bytes = seq<bv8>

  function Concat(chunks: seq<Bytes>): Bytes {
    if chunks == [] then [] else Concat(chunks[..|chunks| - 1]) + chunks[|chunks| - 1]
  }

  function WholeFrames(audio: Bytes): Bytes {
    audio[..|audio| - |audio| % FRAME_BYTES]
  }

  // What is left of a frame that is not complete.
  function Rest(audio: Bytes): Bytes {
    audio[|audio| - |audio| % FRAME_BYTES..]
  }

  function Smallest(a: nat, b: nat, c: nat): nat {
    if a <= b && a <= c then a else if b <= c then b else c
  }

  predicate IsFrames(chunk: Bytes) {
    chunk != [] && |chunk| % FRAME_BYTES == 0
  }

  ghost predicate Framed(chunks: seq<Bytes>) {
    forall i | 0 <= i < |chunks| :: IsFrames(chunks[i])
  }

  lemma FramedGrows(chunks: seq<Bytes>, audio: Bytes)
    requires Framed(chunks)
    ensures Framed(Extended(chunks, WholeFrames(audio)))
  {
    assert (|audio| - |audio| % FRAME_BYTES) % FRAME_BYTES == 0;
  }

  // A read joins the frame that was held back: together they give the next chunk and the next rest.
  lemma ReadJoins(audio: Bytes, part: Bytes)
    ensures WholeFrames(audio + part) == WholeFrames(audio) + WholeFrames(Rest(audio) + part)
    ensures Rest(audio + part) == Rest(Rest(audio) + part)
  {
    var whole := WholeFrames(audio);
    assert audio == whole + Rest(audio);
    assert |audio + part| % FRAME_BYTES == |Rest(audio) + part| % FRAME_BYTES;
    assert audio + part == whole + (Rest(audio) + part);
  }

  lemma ConcatGrows(chunks: seq<Bytes>, chunk: Bytes)
    ensures Concat(chunks + [chunk]) == Concat(chunks) + chunk
  {
    assert (chunks + [chunk])[..|chunks|] == chunks;
  }

  lemma LessThanAFrame(audio: Bytes)
    requires |audio| < FRAME_BYTES
    ensures WholeFrames(audio) == [] && Rest(audio) == audio
  {
  }

  // What was handed on of the audio read so far, and what is held back of it.
  ghost predicate Handed(chunks: seq<Bytes>, held: Bytes, audio: Bytes) {
    Concat(chunks) == WholeFrames(audio) && Framed(chunks) && held == Rest(audio)
  }

  function Extended(chunks: seq<Bytes>, chunk: Bytes): seq<Bytes> {
    if chunk == [] then chunks else chunks + [chunk]
  }

  lemma HandedOn(chunks: seq<Bytes>, held: Bytes, audio: Bytes, part: Bytes)
    requires Handed(chunks, held, audio)
    ensures Handed(Extended(chunks, WholeFrames(held + part)), Rest(held + part), audio + part)
  {
    ReadJoins(audio, part);
    ConcatGrows(chunks, WholeFrames(held + part));
    FramedGrows(chunks, held + part);
    assert WholeFrames(held + part) == [] ==> WholeFrames(audio) + [] == WholeFrames(audio);
  }

  lemma NothingHanded(held: Bytes, audio: Bytes)
    requires held == [] && audio == []
    ensures Handed([], held, audio)
  {
    LessThanAFrame([]);
  }

  // The next read takes up the input to `end`.
  lemma NextPart(chunks: seq<Bytes>, held: Bytes, input: Bytes, consumed: nat, end: nat)
    requires consumed <= end <= |input| && Handed(chunks, held, input[..consumed])
    ensures var part := input[consumed..end];
      Handed(Extended(chunks, WholeFrames(held + part)), Rest(held + part), input[..end])
  {
    HandedOn(chunks, held, input[..consumed], input[consumed..end]);
    assert input[..consumed] + input[consumed..end] == input[..end];
  }

  // One read into the buffer, behind the bytes held back; the incomplete frame at its end moves to
  // the start.
  method Read(buf: array<bv8>, held: nat, part: Bytes) returns (chunk: Bytes, held': nat)
    requires held + |part| <= buf.Length
    modifies buf
    ensures chunk == WholeFrames(old(buf[..held]) + part)
    ensures held' <= buf.Length && held' < FRAME_BYTES && buf[..held'] == Rest(old(buf[..held]) + part)
  {
    ghost var all := buf[..held] + part;
    var n := held + |part|;
    forall i | 0 <= i < |part| {
      buf[held + i] := part[i];
    }
    assert buf[..n] == all;
    held' := n % FRAME_BYTES;
    if n == held' {
      LessThanAFrame(all);
      return [], held';
    }
    chunk := buf[..n - held'];
    assert chunk == all[..n - held'];
    forall i | 0 <= i < held' {
      buf[i] := buf[n - held' + i];
    }
    assert buf[..held'] == all[n - held'..];
  }

  method TakePart(buf: array<bv8>, held: nat, input: Bytes, consumed: nat, end: nat, chunks: seq<Bytes>)
    returns (chunks': seq<Bytes>, held': nat)
    requires consumed <= end <= |input| && held + (end - consumed) <= buf.Length && Handed(chunks, buf[..held], input[..consumed])
    modifies buf
    ensures held' <= buf.Length && held' < FRAME_BYTES && Handed(chunks', buf[..held'], input[..end])
  {
    NextPart(chunks, buf[..held], input, consumed, end);
    var chunk;
    chunk, held' := Read(buf, held, input[consumed..end]);
    chunks' := Extended(chunks, chunk);
  }

  predicate Eager(sizes: seq<nat>) {
    forall i | 0 <= i < |sizes| :: sizes[i] > 0
  }

  // However the pipe cuts the audio into reads and whenever the run ends, what was handed on is
  // every whole frame read so far, in whole frames. `sizes` is what the reads ask of the pipe.
  method Distribute(input: Bytes, sizes: seq<nat>) returns (chunks: seq<Bytes>, consumed: nat)
    ensures consumed <= |input| && Concat(chunks) == WholeFrames(input[..consumed]) && Framed(chunks)
    ensures Eager(sizes) && |sizes| >= |input| ==> consumed == |input|
  {
    var buf := new bv8[BUFFER_SIZE];
    var held: nat := 0;
    chunks, consumed := [], 0;
    NothingHanded(buf[..0], input[..0]);
    for k := 0 to |sizes|
      invariant consumed <= |input| && held <= buf.Length && held < FRAME_BYTES
      invariant Handed(chunks, buf[..held], input[..consumed])
      invariant Eager(sizes) ==> consumed >= k || consumed == |input|
    {
      var n := Smallest(sizes[k], buf.Length - held, |input| - consumed);
      if n > 0 {
        var end := consumed + n;
        chunks, held := TakePart(buf, held, input, consumed, end, chunks);
        consumed := end;
      }
    }
  }
}
