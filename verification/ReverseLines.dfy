/**
  Reading the event log backwards (internal/eventlog/logger.go): the lines of a file are handed out
  newest first while the file is read in chunks from its end, and pages of events are collected over
  the active and the rotated file.
 */
module ReverseLines {
  import opened Tickets

  type Bytes = seq<char>

  const MAX_READ_LIMIT := 500

  function Split(content: Bytes): (lines: seq<Bytes>)
    ensures lines != []
  {
    if content == [] then [[]]
    else
      var rest := Split(content[1..]);
      if content[0] == '\n' then [[]] + rest else [[content[0]] + rest[0]] + rest[1..]
  }

  function Reverse<T>(s: seq<T>): (r: seq<T>)
    ensures |r| == |s| && forall i | 0 <= i < |s| :: r[i] == s[|s| - 1 - i]
  {
    if s == [] then [] else [s[|s| - 1]] + Reverse(s[..|s| - 1])
  }

  // The lines of a file, newest first; an empty first line is not one.
  function Handed(content: Bytes): seq<Bytes> {
    WithoutEmptyFirst(Reverse(Split(content)))
  }

  function WithoutEmptyFirst(reversed: seq<Bytes>): seq<Bytes> {
    if reversed != [] && reversed[|reversed| - 1] == [] then reversed[..|reversed| - 1] else reversed
  }

  // What a handler makes of lines, until it has seen enough.
  function Fed<S>(step: (S, Bytes) -> (S, bool), s: S, lines: seq<Bytes>): (S, bool) {
    if lines == [] then (s, true)
    else
      var (next, goOn) := step(s, lines[0]);
      if goOn then Fed(step, next, lines[1..]) else (next, false)
  }

  // Chunks are kept newest first.
  function Joined(tail: seq<Bytes>): Bytes {
    if tail == [] then [] else tail[|tail| - 1] + Joined(tail[..|tail| - 1])
  }

  // The lines of a concatenation: the last line of the one part goes on as the first of the other.
  function Glued(a: seq<Bytes>, b: seq<Bytes>): seq<Bytes>
    requires a != [] && b != []
  {
    a[..|a| - 1] + [a[|a| - 1] + b[0]] + b[1..]
  }

  lemma {:induction false} SplitJoins(a: Bytes, b: Bytes)
    ensures Split(a + b) == Glued(Split(a), Split(b))
  {
    if a == [] {
      assert a + b == b && [] + Split(b)[0] == Split(b)[0];
      assert Glued([[]], Split(b)) == Split(b);
    } else {
      assert (a + b)[1..] == a[1..] + b;
      SplitJoins(a[1..], b);
      GluedStep(a[0], Split(a[1..]), Split(b));
    }
  }

  lemma GluedStep(c: char, a: seq<Bytes>, b: seq<Bytes>)
    requires a != [] && b != []
    ensures Glued([[]] + a, b) == [[]] + Glued(a, b)
    ensures Glued([[c] + a[0]] + a[1..], b) == [[c] + Glued(a, b)[0]] + Glued(a, b)[1..]
  {
    if |a| == 1 {
      assert [c] + (a[0] + b[0]) == [c] + a[0] + b[0];
    }
  }

  lemma {:induction false} LineIsWhole(line: Bytes)
    requires '\n' !in line
    ensures Split(line) == [line]
  {
    if line != [] {
      LineIsWhole(line[1..]);
      assert [line[0]] + line[1..] == line;
    }
  }

  lemma {:induction false} FirstHasNoBreak(content: Bytes)
    ensures '\n' !in Split(content)[0]
  {
    if content != [] && content[0] != '\n' {
      FirstHasNoBreak(content[1..]);
    }
  }

  lemma ReverseJoins<T>(a: seq<T>, b: seq<T>)
    ensures Reverse(a + b) == Reverse(b) + Reverse(a)
  {
    var r, both := Reverse(b) + Reverse(a), a + b;
    forall i | 0 <= i < |both|
      ensures Reverse(both)[i] == r[i]
    {
      assert Reverse(both)[i] == both[|both| - 1 - i];
    }
  }

  lemma SplitAfter(before: Bytes, part: Bytes)
    ensures Split(before + part) == Split(before + Split(part)[0]) + Split(part)[1..]
  {
    var first, rest := Split(part)[0], Split(part)[1..];
    FirstHasNoBreak(part);
    LineIsWhole(first);
    SplitJoins(before, part);
    SplitJoins(before, first);
    GluedFirst(Split(before), Split(part));
  }

  lemma GluedFirst(a: seq<Bytes>, b: seq<Bytes>)
    requires a != [] && b != []
    ensures Glued(a, b) == Glued(a, [b[0]]) + b[1..]
  {
  }

  // Of a part read from the end, every line but the first is complete.
  lemma HandedJoins(before: Bytes, part: Bytes)
    ensures Handed(before + part) == Reverse(Split(part)[1..]) + Handed(before + Split(part)[0])
  {
    SplitAfter(before, part);
    HandedOf(Split(before + Split(part)[0]), Split(part)[1..]);
  }

  lemma HandedOf(lines: seq<Bytes>, rest: seq<Bytes>)
    requires lines != []
    ensures WithoutEmptyFirst(Reverse(lines + rest)) == Reverse(rest) + WithoutEmptyFirst(Reverse(lines))
  {
    ReverseJoins(lines, rest);
  }

  lemma {:induction false} FedJoins<S>(step: (S, Bytes) -> (S, bool), s: S, a: seq<Bytes>, b: seq<Bytes>)
    ensures Fed(step, s, a + b) == if Fed(step, s, a).1 then Fed(step, Fed(step, s, a).0, b) else Fed(step, s, a)
  {
    if a == [] {
      assert a + b == b;
    } else {
      assert (a + b)[1..] == a[1..] + b;
      FedJoins(step, step(s, a[0]).0, a[1..], b);
    }
  }

  // One more chunk is kept.
  lemma ChunkJoins(content: Bytes, tail: seq<Bytes>, from: nat, offset: nat, end: nat)
    requires from <= offset <= end <= |content| && Joined(tail) == content[offset..end] && '\n' !in content[offset..end]
    ensures Joined(tail + [content[from..offset]]) == content[from..end]
    ensures '\n' in content[from..end] ==> '\n' in content[from..offset]
  {
    assert (tail + [content[from..offset]])[..|tail|] == tail;
    assert content[from..offset] + content[offset..end] == content[from..end];
  }

  lemma {:induction false} FirstIsPrefix(content: Bytes)
    ensures Split(content)[0] <= content
  {
    if content != [] && content[0] != '\n' {
      FirstIsPrefix(content[1..]);
    }
  }

  lemma PartHandled<S>(content: Bytes, offset: nat, end: nat, step: (S, Bytes) -> (S, bool), s: S)
    requires offset <= end <= |content|
    ensures var parts := Split(content[offset..end]);
      && offset + |parts[0]| <= end && parts[0] == content[offset..offset + |parts[0]|] && '\n' !in parts[0]
      && Fed(step, s, Handed(content[..end])) ==
         var fed := Fed(step, s, Reverse(parts[1..]));
         if fed.1 then Fed(step, fed.0, Handed(content[..offset + |parts[0]|])) else fed
  {
    var part := content[offset..end];
    var first := Split(part)[0];
    FirstIsPrefix(part);
    FirstHasNoBreak(part);
    HandedJoins(content[..offset], part);
    assert content[..offset] + part == content[..end];
    assert content[..offset] + first == content[..offset + |first|];
    FedJoins(step, s, Reverse(Split(part)[1..]), Handed(content[..offset] + first));
  }

  lemma LastLineHanded<S>(line: Bytes, step: (S, Bytes) -> (S, bool), s: S)
    requires '\n' !in line
    ensures Fed(step, s, Handed(line)) == if line == [] then (s, true) else step(s, line)
  {
    LineIsWhole(line);
    assert Handed(line) == if line == [] then [] else [line];
  }

  lemma JoinedOne(chunk: Bytes)
    ensures Joined([chunk]) == chunk
  {
    assert [chunk][..0] == [];
  }

  // Hands out the lines of a file newest first, reading it in chunks from its end. False in `ok`
  // means a chunk could not be read.
  method ReadLinesReverse<S>(content: Bytes, chunkSize: nat, step: (S, Bytes) -> (S, bool), start: S)
    returns (s: S, goOn: bool, ok: bool)
    requires chunkSize >= 1
    ensures ok ==> (s, goOn) == Fed(step, start, Handed(content))
  {
    var offset, tail := |content|, [];
    s, goOn := start, true;
    ghost var end := |content|;
    assert content[..end] == content;
    while offset > 0
      invariant 0 <= offset <= end <= |content| && Joined(tail) == content[offset..end] && '\n' !in content[offset..end]
      invariant goOn && Fed(step, s, Handed(content[..end])) == Fed(step, start, Handed(content))
      decreases offset
    {
      var size := if chunkSize < offset then chunkSize else offset;
      var readable: bool := *;
      if !readable {
        return s, true, false;
      }
      ChunkJoins(content, tail, offset - size, offset, end);
      var chunk := content[offset - size..offset];
      offset, tail := offset - size, tail + [chunk];
      if '\n' in chunk {
        var first;
        s, goOn, first := HandOutPart(content, offset, end, Joined(tail), step, s);
        if !goOn {
          return s, false, true;
        }
        JoinedOne(first);
        tail, end := [first], offset + |first|;
      }
    }
    assert Joined(tail) == content[..end];
    s, goOn := HandLast(Joined(tail), step, s);
    return s, goOn, true;
  }

  // Hands out the first line of the file, unless it is empty.
  method HandLast<S>(line: Bytes, step: (S, Bytes) -> (S, bool), start: S) returns (s: S, goOn: bool)
    requires '\n' !in line
    ensures (s, goOn) == Fed(step, start, Handed(line))
  {
    LastLineHanded(line, step, start);
    s, goOn := start, true;
    if line != [] {
      var r := step(start, line);
      s, goOn := r.0, r.1;
    }
  }

  // Hands out the complete lines of a part of the file; its first line may begin before it.
  method HandOutPart<S>(ghost content: Bytes, offset: nat, ghost end: nat, part: Bytes,
                        step: (S, Bytes) -> (S, bool), start: S)
    returns (s: S, goOn: bool, first: Bytes)
    requires offset <= end <= |content| && part == content[offset..end]
    ensures offset + |first| <= end && first == content[offset..offset + |first|] && '\n' !in first
    ensures Fed(step, start, Handed(content[..end])) ==
            if goOn then Fed(step, s, Handed(content[..offset + |first|])) else (s, false)
  {
    var parts := Split(part);
    PartHandled(content, offset, end, step, start);
    s, goOn := HandOut(parts, step, start);
    first := parts[0];
  }

  // Hands out all parts but the first, the last one first.
  method HandOut<S>(parts: seq<Bytes>, step: (S, Bytes) -> (S, bool), start: S) returns (s: S, goOn: bool)
    requires parts != []
    ensures (s, goOn) == Fed(step, start, Reverse(parts[1..]))
  {
    var i := |parts| - 1;
    s, goOn := start, true;
    assert parts[1..i + 1] == parts[1..];
    while i >= 1
      invariant 0 <= i < |parts|
      invariant Fed(step, s, Reverse(parts[1..i + 1])) == Fed(step, start, Reverse(parts[1..]))
    {
      assert parts[1..i + 1] == parts[1..i] + [parts[i]];
      var r := step(s, parts[i]);
      s, goOn := r.0, r.1;
      if !goOn {
        return;
      }
      i := i - 1;
    }
  }

  // Pages of events.

  datatype Page<E> = Page(events: seq<E>, skipped: nat)

  // The events of lines: a line counts if it is not empty, can be decoded and is wanted.
  function Relevant<E>(decode: Bytes -> Option<E>, wanted: E -> bool, lines: seq<Bytes>): seq<E> {
    if lines == [] then []
    else (if Counts(decode, wanted, lines[0]) then [decode(lines[0]).value] else []) + Relevant(decode, wanted, lines[1..])
  }

  predicate Counts<E>(decode: Bytes -> Option<E>, wanted: E -> bool, line: Bytes) {
    line != [] && decode(line).Some? && wanted(decode(line).value)
  }

  // The handler of readLast: one event more than asked for tells that there is more.
  function Collected<E>(decode: Bytes -> Option<E>, wanted: E -> bool, n: nat, offset: nat, p: Page<E>, line: Bytes): (Page<E>, bool) {
    if |p.events| > n then (p, false)
    else if line == [] then (p, true)
    else
      var event := decode(line);
      if event.None? || !wanted(event.value) then (p, true)
      else if p.skipped < offset then (p.(skipped := p.skipped + 1), true)
      else
        var p' := p.(events := p.events + [event.value]);
        (p', |p'.events| <= n)
  }

  function Collector<E>(decode: Bytes -> Option<E>, wanted: E -> bool, n: nat, offset: nat): (Page<E>, Bytes) -> (Page<E>, bool) {
    (p, line) => Collected(decode, wanted, n, offset, p, line)
  }

  // The page a history has at an offset.
  function PageAt<E>(history: seq<E>, n: nat, offset: nat): seq<E> {
    if offset >= |history| then [] else if offset + n <= |history| then history[offset..offset + n] else history[offset..]
  }

  // What has been collected of the part of a history read so far.
  ghost predicate Holds<E>(p: Page<E>, read: seq<E>, n: nat, offset: nat) {
    p.events == PageAt(read, n + 1, offset) && p.skipped == if |read| < offset then |read| else offset
  }

  lemma {:induction false} CollectorHolds<E>(
      decode: Bytes -> Option<E>, wanted: E -> bool, n: nat, offset: nat, p: Page<E>, read: seq<E>, lines: seq<Bytes>)
    requires Holds(p, read, n, offset) && |p.events| <= n
    ensures var (p', goOn) := Fed(Collector(decode, wanted, n, offset), p, lines);
      && p'.events == PageAt(read + Relevant(decode, wanted, lines), n + 1, offset)
      && (goOn <==> |p'.events| <= n)
      && (goOn ==> Holds(p', read + Relevant(decode, wanted, lines), n, offset))
    decreases |lines|
  {
    if lines == [] {
      assert read + [] == read;
    } else {
      var (p1, goOn) := Collected(decode, wanted, n, offset, p, lines[0]);
      var rest := Relevant(decode, wanted, lines[1..]);
      if Counts(decode, wanted, lines[0]) {
        var read1 := read + [decode(lines[0]).value];
        assert read + Relevant(decode, wanted, lines) == read1 + rest;
        if goOn {
          CollectorHolds(decode, wanted, n, offset, p1, read1, lines[1..]);
        }
      } else {
        assert read + Relevant(decode, wanted, lines) == read + rest;
        CollectorHolds(decode, wanted, n, offset, p, read, lines[1..]);
      }
    }
  }

  datatype File = Missing | Content(bytes: Bytes)

  // All events, newest first; the rotated file holds the older ones.
  function History<E>(decode: Bytes -> Option<E>, wanted: E -> bool, active: File, rotated: File): seq<E> {
    EventsOf(decode, wanted, active) + EventsOf(decode, wanted, rotated)
  }

  function EventsOf<E>(decode: Bytes -> Option<E>, wanted: E -> bool, file: File): seq<E> {
    if file.Missing? then [] else Relevant(decode, wanted, Handed(file.bytes))
  }

  // Up to `n` events from an offset on, newest first, and whether there are more.
  method ReadLast<E>(active: File, rotated: File, chunkSize: nat, n: int, offset: int, decode: Bytes -> Option<E>, wanted: E -> bool)
    returns (events: seq<E>, hasMore: bool, ok: bool)
    requires chunkSize >= 1
    ensures n <= 0 ==> events == [] && !hasMore
    ensures n > 0 && ok ==>
              var size, from := if n > MAX_READ_LIMIT then MAX_READ_LIMIT else n, if offset < 0 then 0 else offset;
              && events == PageAt(History(decode, wanted, active, rotated), size, from)
              && (hasMore <==> |History(decode, wanted, active, rotated)| > from + size)
  {
    var size := if n > MAX_READ_LIMIT then MAX_READ_LIMIT else n;
    if size <= 0 {
      return [], false, true;
    }
    events, hasMore, ok := ReadPage(active, rotated, chunkSize, size, if offset < 0 then 0 else offset, decode, wanted);
  }

  method ReadPage<E>(active: File, rotated: File, chunkSize: nat, size: nat, from: nat, decode: Bytes -> Option<E>, wanted: E -> bool)
    returns (events: seq<E>, hasMore: bool, ok: bool)
    requires chunkSize >= 1
    ensures ok ==> events == PageAt(History(decode, wanted, active, rotated), size, from)
    ensures ok ==> (hasMore <==> |History(decode, wanted, active, rotated)| > from + size)
  {
    ghost var first, second := EventsOf(decode, wanted, active), EventsOf(decode, wanted, rotated);
    var page := Page([], 0);
    page, ok := ReadFile(active, chunkSize, size, from, decode, wanted, page, []);
    if !ok {
      return [], false, false;
    }
    assert [] + first == first;
    if |page.events| <= size {
      page, ok := ReadFile(rotated, chunkSize, size, from, decode, wanted, page, first);
      if !ok {
        return [], false, false;
      }
    } else {
      FullPageIsFinal(first, second, size + 1, from);
    }
    PageTellsOfMore(first + second, size, from);
    hasMore := |page.events| > size;
    events := if hasMore then page.events[..size] else page.events;
  }

  // Collects what one of the files adds to the page; a missing file adds nothing.
  method ReadFile<E>(file: File, chunkSize: nat, n: nat, offset: nat, decode: Bytes -> Option<E>, wanted: E -> bool,
                     page: Page<E>, ghost read: seq<E>)
    returns (page': Page<E>, ok: bool)
    requires chunkSize >= 1 && Holds(page, read, n, offset) && |page.events| <= n
    ensures ok ==> page'.events == PageAt(read + EventsOf(decode, wanted, file), n + 1, offset)
    ensures ok && |page'.events| <= n ==> Holds(page', read + EventsOf(decode, wanted, file), n, offset)
  {
    if file.Missing? {
      assert read + [] == read;
      return page, true;
    }
    CollectorHolds(decode, wanted, n, offset, page, read, Handed(file.bytes));
    var goOn;
    page', goOn, ok := ReadLinesReverse(file.bytes, chunkSize, Collector(decode, wanted, n, offset), page);
  }

  lemma FullPageIsFinal<E>(read: seq<E>, more: seq<E>, n: nat, offset: nat)
    requires |PageAt(read, n, offset)| == n
    ensures PageAt(read + more, n, offset) == PageAt(read, n, offset)
  {
  }

  lemma PageTellsOfMore<E>(history: seq<E>, n: nat, offset: nat)
    ensures var page := PageAt(history, n + 1, offset);
      && (|page| > n <==> |history| > offset + n)
      && PageAt(history, n, offset) == if |page| > n then page[..n] else page
  {
  }

  // Adjacent pages make up one larger page.
  lemma PagesConcatenate<E>(history: seq<E>, n: nat, m: nat, offset: nat)
    ensures PageAt(history, n, offset) + PageAt(history, m, offset + n) == PageAt(history, n + m, offset)
  {
  }
}
