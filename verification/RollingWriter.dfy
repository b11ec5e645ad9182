/**
  The size-capped log writer (internal/util/rolling_writer.go): records go to an active file, which
  is renamed to the rotated one before it grows past the cap. Every call on a file may fail.
 */
module RollingWriter {
  import opened Tickets

  type Bytes = seq<char>

  function Concat(records: seq<Bytes>): Bytes {
    if records == [] then [] else Concat(records[..|records| - 1]) + records[|records| - 1]
  }

  function Content(file: Option<Bytes>): Bytes {
    if file.None? then [] else file.value
  }

  predicate IsSuffix(a: seq<Bytes>, b: seq<Bytes>) {
    |a| <= |b| && b[|b| - |a|..] == a
  }

  lemma ConcatGrows(records: seq<Bytes>, record: Bytes)
    ensures Concat(records + [record]) == Concat(records) + record
  {
    assert (records + [record])[..|records|] == records;
  }

  lemma SuffixGrows(a: seq<Bytes>, b: seq<Bytes>, c: seq<Bytes>, record: Bytes)
    requires IsSuffix(a + b, c)
    ensures IsSuffix(a + (b + [record]), c + [record])
  {
    var n := |c| - |a + b|;
    assert a + (b + [record]) == (a + b) + [record];
    assert (c + [record])[n..] == c[n..] + [record];
  }

  // A record lands behind the whole ones.
  lemma WholeGrows(active: Option<Bytes>, rotated: Option<Bytes>, current: seq<Bytes>, past: seq<Bytes>, p: Bytes)
    requires Whole(active, rotated, current, past, [])
    ensures Whole(Some(Content(active) + p), rotated, current + [p], past, [])
  {
    ConcatGrows(current, p);
    assert Concat(current) + [] == Concat(current);
    assert Concat(current + [p]) + [] == Concat(current + [p]);
  }

  lemma SuffixShrinks(a: seq<Bytes>, b: seq<Bytes>, c: seq<Bytes>)
    requires IsSuffix(a + b, c)
    ensures IsSuffix(b, c) && IsSuffix([] + b, c) && IsSuffix(b + [], c)
  {
    assert c[|c| - |b|..] == (a + b)[|a|..];
    assert [] + b == b && b + [] == b;
  }

  lemma AdoptedIsWhole(active: Option<Bytes>, rotated: Option<Bytes>)
    ensures Whole(active, rotated, [Content(active)], [Content(rotated)], [])
    ensures IsSuffix([Content(rotated)] + [Content(active)], [Content(rotated), Content(active)])
  {
    ConcatGrows([], Content(rotated));
    ConcatGrows([], Content(active));
    assert [] + [Content(rotated)] == [Content(rotated)] && [] + [Content(active)] == [Content(active)];
    assert Concat([Content(active)]) + [] == Content(active);
  }

  // The files hold whole records, but for what a torn write left at the end of the active one.
  ghost predicate Whole(active: Option<Bytes>, rotated: Option<Bytes>, current: seq<Bytes>, past: seq<Bytes>, torn: Bytes) {
    Content(active) == Concat(current) + torn && Content(rotated) == Concat(past)
  }

  // What a call leaves of the whole records the files held. Without a rotation that is all of them; a
  // rotation that closes the file moves the active ones to the rotated file, or leaves them where
  // they are if the rename fails, and only the older ones go.
  ghost predicate Keeps(past: seq<Bytes>, current: seq<Bytes>, past': seq<Bytes>, current': seq<Bytes>, rotates: bool, f: Answers) {
    if !rotates || !f.closes then past' == past && current' == current
    else if f.renames then past' == current && current' == []
    else past' == (if f.removes then [] else past) && current' == current
  }

  // The records of the active file are never lost, and stay the newest but for what is written now.
  lemma ActiveRecordsStay(past: seq<Bytes>, current: seq<Bytes>, past': seq<Bytes>, current': seq<Bytes>, rotates: bool, f: Answers)
    requires Keeps(past, current, past', current', rotates, f)
    ensures IsSuffix(current, past' + current')
  {
  }

  datatype Outcome = Wrote | WriteClosed | WriteFailed(n: nat)

  // What the file system answers during one write: whether the file opens and tells its size, a torn
  // end is cut off, the file closes, the rotated one goes, the rename works and the file opens again;
  // whether the record is written, how much of it otherwise, and whether that can be undone.
  datatype Answers = Answers(
    opens: bool,
    sizesOpened: bool,
    cutsOff: bool,
    closes: bool,
    removes: bool,
    renames: bool,
    reopens: bool,
    sizesReopened: bool,
    writes: bool,
    part: nat,
    sizesTorn: bool,
    undoes: bool)

  const ALL_WELL := Answers(true, true, true, true, true, true, true, true, true, 0, true, true)

  // No step fails that a write cannot do without.
  predicate Serves(f: Answers) {
    f.opens && f.sizesOpened && f.cutsOff && f.closes && f.reopens && f.sizesReopened && f.writes
  }

  function Least(a: nat, b: nat): nat {
    if a <= b then a else b
  }

  class Writer {
    const maxSize: nat
    // The files.
    var active: Option<Bytes>
    var rotated: Option<Bytes>
    // The writer.
    var closed: bool
    var open: bool                // It has a handle on the active file.
    var written: nat              // Bytes since the last rotation attempt.
    var pendingTrunc: Option<nat> // Where a torn write is to be undone.
    // The records of the two files, what a torn write left, and every record ever written.
    ghost var current: seq<Bytes>
    ghost var past: seq<Bytes>
    ghost var torn: Bytes
    ghost var logged: seq<Bytes>
    ghost var blocked: bool       // The last rename failed, and the count began anew.

    // Rotated and active file are the newest records, each whole; a torn end is remembered, and the
    // handle that would append to it is gone.
    ghost predicate Valid()
      reads this
    {
      && Sane()
      && Whole(active, rotated, current, past, torn)
      && IsSuffix(past + current, logged)
      && (torn != [] ==> pendingTrunc == Some(|Concat(current)|))
      && (pendingTrunc.Some? ==> pendingTrunc.value == |Concat(current)|)
    }

    // What holds of the fields whatever the files hold.
    ghost predicate Sane()
      reads this
    {
      && (pendingTrunc.Some? ==> !open)
      && (open ==> active.Some?)
      && Counts(active, open, written, blocked)
    }

    // There is a handle, or it will be opened, behind nothing that is to be undone.
    ghost predicate Handy(f: Answers)
      reads this
    {
      pendingTrunc.None? && if open then !blocked else f.opens && f.sizesOpened
    }

    // Nothing is to be undone, and no rename has failed since the count began.
    ghost predicate Ready()
      reads this
    {
      pendingTrunc.None? && !blocked
    }

    // It writes, behind nothing that is to be undone.
    ghost predicate Fit()
      reads this
    {
      Sane() && Ready() && !closed
    }

    // What earlier processes left counts as one record a file.
    constructor (maxSize: nat, active: Option<Bytes>, rotated: Option<Bytes>)
      requires maxSize > 0
      ensures Valid() && !open && !closed && Ready() && this.maxSize == maxSize
      ensures this.active == active && this.rotated == rotated && torn == []
      ensures past == [Content(rotated)] && current == [Content(active)] && logged == past + current
    {
      this.maxSize := maxSize;
      this.active, this.rotated := active, rotated;
      closed, open, written, pendingTrunc, blocked := false, false, 0, None, false;
      past, current, torn, logged := [Content(rotated)], [Content(active)], [], [Content(rotated), Content(active)];
      new;
      AdoptedIsWhole(active, rotated);
    }

    // openLocked: creates the file if it is missing; the count resumes from its size.
    method Open(opens: bool, sizes: bool) returns (ok: bool)
      requires !open
      modifies `active, `open, `written, `blocked
      ensures ok == open == (opens && sizes)
      ensures active == if opens then Some(old(Content(active))) else old(active)
      ensures ok ==> written == |active.value| && !blocked
      ensures old(Valid()) && (pendingTrunc.None? || !open) ==> Valid()
    {
      if !opens {
        return false;
      }
      active := Some(Content(active));
      if !sizes {
        return false;
      }
      open, written, blocked := true, |active.value|, false;
      return true;
    }

    // A torn write is to be undone at the end of the whole records.
    ghost predicate Undoable()
      reads this
    {
      && Whole(active, rotated, current, past, torn) && IsSuffix(past + current, logged)
      && pendingTrunc == Some(|Concat(current)|)
    }

    // Undoes a torn write before anything is appended.
    method RollBack(cutsOff: bool) returns (ok: bool)
      requires open && pendingTrunc.Some? && active.Some? && written == |active.value|
      modifies `active, `open, `written, `pendingTrunc, `torn
      ensures Sane() && ok == open && Content(active) <= old(Content(active)) && (cutsOff ==> ok)
      ensures ok ==> pendingTrunc.None? && written == |Content(active)|
      ensures old(Undoable()) ==> Valid() && (ok ==> torn == [])
    {
      if written > pendingTrunc.value {
        if !cutsOff {
          open := false;
          return false;
        }
        active := Some(active.value[..pendingTrunc.value]);
        torn := [];
        assert old(Undoable()) ==> active.value == Concat(current);
        written := pendingTrunc.value;
      }
      pendingTrunc := None;
      return true;
    }

    // rotateLocked: a rename that fails is tolerated, a close that fails is not.
    method Rotate(f: Answers) returns (ok: bool)
      requires Sane() && open
      modifies `active, `rotated, `open, `written, `current, `past, `blocked
      ensures Sane() && ok == open
      ensures old(Valid()) && torn == [] ==> Valid()
      ensures Keeps(old(past), old(current), past, current, true, f)
      ensures Content(active) == if f.closes && f.renames then [] else old(Content(active))
      ensures f.closes ==> rotated == if f.renames then Some(old(Content(active))) else if f.removes then None else old(rotated)
      ensures !f.closes ==> rotated == old(rotated)
      ensures ok <==> f.closes && f.reopens && f.sizesReopened
      ensures ok ==> (blocked <==> !f.renames) && (blocked ==> written == 0)
      ensures ok && !blocked ==> Content(active) == []
    {
      open := false;
      if !f.closes {
        return false;
      }
      if f.removes {
        Remove();
      }
      if f.renames {
        Rename();
      }
      ok := Open(f.reopens, f.sizesReopened);
      if ok && !f.renames {
        written, blocked := 0, true;
      }
    }

    // The rotated file goes.
    method Remove()
      requires Sane()
      modifies `rotated, `past
      ensures Sane() && rotated.None? && past == [] && (old(Valid()) ==> Valid())
    {
      if IsSuffix(past + current, logged) {
        SuffixShrinks(past, current, logged);
      }
      rotated, past := None, [];
    }

    // The active file becomes the rotated one.
    method Rename()
      requires Sane() && !open && pendingTrunc.None?
      modifies `active, `rotated, `past, `current
      ensures Sane() && active.None? && rotated == Some(old(Content(active))) && past == old(current) && current == []
      ensures old(Valid()) && torn == [] ==> Valid()
    {
      if IsSuffix(past + current, logged) {
        SuffixShrinks(past, current, logged);
      }
      rotated, past := Some(Content(active)), current;
      active, current := None, [];
    }

    method Append(p: Bytes, f: Answers) returns (outcome: Outcome, ghost blind: bool)
      requires Sane() && open && pendingTrunc.None?
      modifies `active, `open, `written, `pendingTrunc, `torn, `current, `logged
      ensures Sane() && (old(Valid()) ==> (Valid() <==> !blind))
      ensures outcome == if f.writes then Wrote else WriteFailed(Least(f.part, |p|))
      ensures blind <==> !f.writes && Least(f.part, |p|) > 0 && !f.sizesTorn
      ensures f.writes ==> logged == old(logged) + [p] && current == old(current) + [p] && torn == old(torn)
      ensures f.writes ==> Content(active) == old(Content(active)) + p && open && pendingTrunc.None?
      ensures !f.writes ==> logged == old(logged) && current == old(current) && !open
      ensures blind ==> Content(active) == old(Content(active)) + p[..Least(f.part, |p|)] && pendingTrunc.None?
      ensures old(Valid()) ==> Whole(active, rotated, current, past, torn) && IsSuffix(past + current, logged)
    {
      blind := false;
      if f.writes {
        Land(p);
        return Wrote, false;
      }
      var n := Least(f.part, |p|);
      blind := Tear(p[..n], f.sizesTorn, f.undoes);
      outcome := WriteFailed(n);
    }

    // The whole record is written.
    method Land(p: Bytes)
      requires Sane() && open
      modifies `active, `written, `current, `logged
      ensures Sane() && (old(Valid()) ==> Valid())
      ensures logged == old(logged) + [p] && current == old(current) + [p]
      ensures Content(active) == old(Content(active)) + p
    {
      if Valid() {
        WholeGrows(active, rotated, current, past, p);
        SuffixGrows(past, current, logged, p);
      }
      active := Some(active.value + p);
      current, logged := current + [p], logged + [p];
      written := written + |p|;
    }

    // A write that failed may have written a part, which is undone now or remembered.
    method Tear(part: Bytes, sizes: bool, undoes: bool) returns (ghost blind: bool)
      requires Sane() && open && pendingTrunc.None?
      modifies `active, `open, `pendingTrunc, `torn
      ensures Sane() && !open && (old(Valid()) ==> (Valid() <==> !blind))
      ensures blind <==> part != [] && !sizes
      ensures blind ==> torn == part && pendingTrunc.None? && Content(active) == old(Content(active)) + part
      ensures old(Valid()) ==> Whole(active, rotated, current, past, torn)
    {
      open, blind := false, false;
      if part == [] {
        return;
      }
      active, torn := Some(active.value + part), part;
      if !sizes {
        blind := true;
        return;
      }
      var boundary := |active.value| - |part|;
      if undoes {
        active, torn := Some(active.value[..boundary]), [];
        assert old(Valid()) ==> Content(active) == Concat(current) + [];
      } else {
        pendingTrunc := Some(boundary);
      }
    }

    // Appends a record, or fails. As long as the size of a file torn by a failed write can be read,
    // records stay whole and none is ever appended to a fragment.
    method Write(p: Bytes, f: Answers)
      returns (outcome: Outcome, ghost blind: bool, ghost rotates: bool, ghost kept: seq<Bytes>)
      requires Sane()
      modifies `active, `rotated, `open, `written, `pendingTrunc, `torn, `current, `past, `logged, `blocked
      ensures Sane() && (old(Valid()) ==> (Valid() <==> !blind))
      ensures blind <==> outcome.WriteFailed? && outcome.n > 0 && !f.sizesTorn
      ensures outcome.WriteClosed? <==> closed
      ensures closed ==> active == old(active) && rotated == old(rotated)
      ensures logged == if outcome.Wrote? then old(logged) + [p] else old(logged)
      ensures current == if outcome.Wrote? then kept + [p] else kept
      ensures Keeps(old(past), old(current), past, kept, rotates, f)
      ensures outcome.Wrote? && old(Valid()) ==> torn == []
      ensures !closed && Serves(f) ==> outcome.Wrote?
      ensures rotates ==> |old(Content(active))| + |p| > maxSize
      ensures rotates && f.closes && f.renames && old(Valid()) ==> rotated == Some(Concat(old(current)))
      ensures !rotates ==> rotated == old(rotated)
      ensures outcome.Wrote? && !blocked ==> Content(active) == p || |Content(active)| <= maxSize
      ensures old(Valid()) ==> Whole(active, rotated, current, past, torn) && IsSuffix(past + current, logged)
      ensures !closed && old(Handy(f)) && |old(Content(active))| + |p| <= maxSize ==>
                && rotated == old(rotated) && past == old(past)
                && (f.writes ==> outcome.Wrote? && open && Ready() && Content(active) == old(Content(active)) + p && current == old(current) + [p])
                && (!f.writes && 0 < f.part <= |p| && !f.sizesTorn ==>
                     && blind && !open && Ready() && current == old(current)
                     && Content(active) == old(Content(active)) + p[..f.part])
    {
      blind, rotates, kept := false, false, current;
      if closed {
        return WriteClosed, false, false, current;
      }
      var ready;
      ready, rotates := Prepare(|p|, f);
      kept := current;
      if !ready {
        return WriteFailed(0), false, rotates, kept;
      }
      outcome, blind := Append(p, f);
    }

    // A handle to append with: reopened again if need be, behind whole records, within the cap.
    method Prepare(n: nat, f: Answers) returns (ok: bool, ghost rotates: bool)
      requires Sane() && !closed
      modifies `active, `rotated, `open, `written, `pendingTrunc, `torn, `current, `past, `blocked
      ensures Sane() && (old(Valid()) ==> Valid() && (ok ==> torn == []))
      ensures ok ==> open && pendingTrunc.None?
      ensures Serves(f) ==> ok
      ensures Keeps(old(past), old(current), past, current, rotates, f)
      ensures rotates ==> |old(Content(active))| + n > maxSize
      ensures rotates && f.closes && f.renames ==>
                rotated.Some? && rotated.value <= old(Content(active)) && (old(Valid()) ==> rotated.value == Concat(old(current)))
      ensures !rotates ==> rotated == old(rotated)
      ensures ok && !blocked ==> Content(active) == [] || |Content(active)| + n <= maxSize
      ensures old(Handy(f)) && |old(Content(active))| + n <= maxSize ==>
                ok && !blocked && Content(active) == old(Content(active)) && rotated == old(rotated) && past == old(past) && current == old(current)
    {
      rotates := false;
      if !open {
        var reopened := Open(f.opens, f.sizesOpened);
        if !reopened {
          return false, false;
        }
      }
      if pendingTrunc.Some? {
        var undone := RollBack(f.cutsOff);
        if !undone {
          return false, false;
        }
      }
      if written > 0 && written + n > maxSize {
        ok := Rotate(f);
        return ok, true;
      }
      return true, false;
    }

    method Close()
      requires Sane()
      modifies `closed, `open
      ensures Sane() && closed && !open && (old(Valid()) ==> Valid())
    {
      closed, open := true, false;
    }
  }

  predicate Counts(active: Option<Bytes>, open: bool, written: nat, blocked: bool) {
    open && active.Some? ==> written <= |active.value| && (blocked || written == |active.value|)
  }

  method NewWriter(maxSize: nat) returns (w: Writer)
    requires maxSize > 0
    ensures fresh(w) && w.Fit() && w.maxSize == maxSize && Content(w.active) == []
  {
    w := new Writer(maxSize, None, None);
  }

  // A write that nothing hinders.
  method AppendWhole(w: Writer, p: Bytes) returns (outcome: Outcome)
    requires w.Fit() && |Content(w.active)| + |p| <= w.maxSize
    modifies w
    ensures w.Fit() && outcome.Wrote?
    ensures Content(w.active) == old(Content(w.active)) + p
  {
    ghost var blind, rotates, kept;
    outcome, blind, rotates, kept := w.Write(p, ALL_WELL);
  }

  // Only the first byte is written, and the file does not tell its size.
  method AppendFirst(w: Writer, p: Bytes)
    requires w.Fit() && p != [] && |Content(w.active)| + |p| <= w.maxSize
    modifies w
    ensures w.Fit()
    ensures Content(w.active) == old(Content(w.active)) + p[..1]
  {
    ghost var blind, rotates, kept;
    var outcome;
    outcome, blind, rotates, kept := w.Write(p, ALL_WELL.(writes := false, part := 1, sizesTorn := false));
  }

  // A torn end whose size cannot be read is not remembered, and the next record is glued to it: that
  // write reports success, but no run of the records written makes up the file.
  method UnreadableSizeGluesRecords(a: Bytes, b: Bytes, c: Bytes, maxSize: nat) returns (outcome: Outcome, file: Bytes)
    requires b != [] && |a| + |b| + |c| <= maxSize
    ensures outcome.Wrote? && file == a + b[..1] + c
    ensures !IsRun([a, c], file)
  {
    var w := NewWriter(maxSize);
    var _ := AppendWhole(w, a);
    AppendFirst(w, b);
    outcome := AppendWhole(w, c);
    file := Content(w.active);
    TooLongForARun(a, c, file);
  }

  // Every run of the records, ending with the last one.
  ghost predicate IsRun(records: seq<Bytes>, file: Bytes) {
    exists i | 0 <= i <= |records| :: Concat(records[i..]) == file
  }

  lemma TooLongForARun(a: Bytes, c: Bytes, file: Bytes)
    requires |file| > |a| + |c|
    ensures !IsRun([a, c], file)
  {
    forall i | 0 <= i <= 2
      ensures |Concat([a, c][i..])| <= |a| + |c|
    {
      var records := [a, c];
      assert records[2..] == [] && records[1..] == [] + [c] && records[0..] == [a] + [c] && [a] == [] + [a];
      ConcatGrows([], a);
      ConcatGrows([], c);
      ConcatGrows([a], c);
    }
  }
}
