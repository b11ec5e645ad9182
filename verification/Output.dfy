/**
  The file of a segment and its ticket (internal/recording/recorder_segment.go): from the
  reservation through the syncs of a running segment to its commit, removal or quarantine.

  What the encoder wrote is counted in bytes; a power cut may drop whatever was not synced. As for
  delivery, `loadable` is what a start may load, after what Outbox promises about writes and
  removals that fail.
 */
module Output {
  import opened Tickets
  import Uploader

  // What stands at the path of the reservation.
  datatype Place = Own | Gone | Replaced

  datatype Output = Output(
    place: Place,
    size: nat,             // Of the file reserved, whatever its path names now.
    durable: nat,          // What of it survives a power cut for certain.
    t: Ticket,             // The copy of the recorder.
    kept: bool,            // The outbox still has the ticket.
    loadable: set<Ticket>,
    stale: set<Ticket>,    // Superseded generations that may still be on disk.
    certain: bool,         // The newest file is the durable generation.
    gone: bool)            // Removal of the ticket has begun: a start may find nothing.

  // No ticket claims more synced audio than is durable.
  ghost predicate Honest(o: Output) {
    && o.t.syncedBytes <= o.durable <= o.size
    && (forall l <- o.loadable + o.stale :: l.syncedBytes <= o.durable && SameRecording(l, o.t))
    && (o.kept && !o.gone ==> o.loadable != {})
  }

  predicate SameRecording(a: Ticket, b: Ticket) {
    a.id == b.id && a.path == b.path && a.dest == b.dest && a.key == b.key
  }

  // What a removal that fails may leave for a start: also generations it was to erase, unless the
  // newest file is certain.
  function WithStale(o: Output): set<Ticket> {
    if o.certain then o.loadable else o.loadable + o.stale
  }

  // How a segment ends.
  datatype End = Committed | Removed | Quarantined | NotHandedOn

  // How it has to end: a replaced file and one a broken encoder wrote into are quarantined, silence
  // alone is no recording, anything else is handed on.
  function Verdict(place: Place, size: nat, broken: bool, hasAudio: bool): End {
    if place.Own? && (if broken then size == 0 else !hasAudio) then Removed
    else if place.Own? && !broken then Committed
    else Quarantined
  }

  // What a start makes of a recording that was cut off: synced audio is never dropped, never
  // reported as lost, and the file is only removed when nothing is in it.
  lemma SyncedAudioSurvives(o: Output, l: Ticket, left: nat)
    requires Honest(o) && l in o.loadable && l.state == Recording && o.durable <= left <= o.size
    ensures var at := Uploader.Size(left);
      && (l.syncedBytes > 0 ==> Uploader.AfterRecovery(l, at) != Lost)
      && (l.syncedBytes > 0 && l.dest != "" ==> Uploader.AfterRecovery(l, at) == Ready && !Uploader.Dropped(l, at))
      && (Uploader.Dropped(l, at) ==> l.dest == "" || left == o.durable == 0)
  {
  }

  class RecordingOutput {
    var o: Output
    ghost var faults: nat

    ghost predicate Valid()
      reads `o
    {
      Honest(o)
    }

    twostate predicate Faultless()
      reads `faults
    {
      faults == old(faults)
    }

    // Reserved: an empty file and its first ticket, both durable.
    constructor (t: Ticket)
      requires t.state == Recording && t.syncedBytes == 0
      ensures Valid() && o == Output(Own, 0, 0, t, true, {t}, {}, true, false)
    {
      o, faults := Output(Own, 0, 0, t, true, {t}, {}, true, false), 0;
    }

    method Works() returns (ok: bool)
      modifies `faults
      ensures faults == if ok then old(faults) else old(faults) + 1
    {
      ok := *;
      if !ok {
        faults := faults + 1;
      }
    }

    // The encoder writes to the file.
    method Encode(n: nat)
      requires Valid()
      modifies `o
      ensures Valid() && o == old(o).(size := old(o).size + n)
    {
      o := o.(size := o.size + n);
    }

    // Someone takes the path away.
    method Displace(place: Place)
      requires Valid() && !place.Own?
      modifies `o
      ensures Valid() && o == old(o).(place := place)
    {
      o := o.(place := place);
    }

    // outbox.update: the next generation is durable, or it may or may not survive.
    method Persist(next: Ticket) returns (ok: bool)
      requires Valid() && SameRecording(next, o.t) && next.syncedBytes <= o.durable
      modifies `o, `faults
      ensures Valid() && old(faults) <= faults && (ok <==> Faultless())
      ensures o == old(o).(t := o.t, loadable := o.loadable, stale := o.stale, certain := o.certain, gone := o.gone)
      ensures SameTicket(next, o.t)
      ensures if ok then o.loadable == {o.t} && !o.gone else old(o).loadable <= o.loadable && o.gone == old(o).gone
      ensures forall l <- o.loadable + o.stale :: l in old(o).loadable + old(o).stale || SameTicket(next, l)
    {
      var gen: nat :| gen > o.t.gen;
      var attempt := next.(gen := gen);
      ok := Works();
      if ok {
        var left: set<Ticket>, newest: bool := *, *;
        o := o.(t := attempt, loadable := {attempt}, stale := left * (o.loadable + o.stale), certain := newest, gone := false);
      } else {
        var written: bool, advanced: bool, intact: bool := *, *, *;
        o := o.(t := if advanced then attempt else next, loadable := if written then o.loadable + {attempt} else o.loadable,
                certain := o.certain && intact);
      }
    }

    // sync of a running segment: the ticket learns how much is durable, never more than that.
    method Sync() returns (ok: bool)
      requires Valid() && o.t.state == Recording
      modifies `o, `faults
      ensures Valid() && old(faults) <= faults && (ok <==> Faultless())
      ensures o.place == old(o).place && o.size == old(o).size && o.kept == old(o).kept && old(o).durable <= o.durable
      ensures SameTicket(old(o).t.(syncedBytes := o.t.syncedBytes), o.t) && old(o).t.syncedBytes <= o.t.syncedBytes
      ensures ok ==> o.durable == o.size == o.t.syncedBytes || old(o).t.syncedBytes >= o.size
      ensures ok && old(o).t.syncedBytes < o.size ==> o.loadable == {o.t}
    {
      ok := Works();
      if !ok {
        return;
      }
      var size := o.size;
      ok := Works();
      if !ok {
        return;
      }
      o := o.(durable := size);
      if size <= o.t.syncedBytes {
        return;
      }
      ok := Persist(o.t.(syncedBytes := size));
    }

    // release: whether the path still names the file reserved.
    method Release() returns (owned: bool, disappeared: bool)
      modifies `faults
      ensures old(faults) <= faults
      ensures owned ==> o.place.Own?
      ensures disappeared ==> o.place.Gone?
      ensures !(owned && disappeared)
      ensures Faultless() ==> owned == o.place.Own? && disappeared == o.place.Gone?
    {
      var stats := Works();
      owned, disappeared := stats && o.place.Own?, stats && o.place.Gone?;
    }

    // outbox.remove: nothing is left of the ticket, or any generation may still be loaded.
    method RemoveTicket() returns (ok: bool)
      requires Valid()
      modifies `o, `faults
      ensures Valid() && old(faults) <= faults && (ok <==> Faultless())
      ensures o == if ok then old(o).(kept := false, loadable := {}, stale := {}, gone := true)
                   else old(o).(loadable := WithStale(old(o)), gone := true)
    {
      ok := Works();
      if ok {
        o := o.(kept := false, loadable := {}, stale := {}, gone := true);
      } else {
        o := o.(loadable := WithStale(o), gone := true);
      }
    }

    // Deletes a released output, then its ticket; the file goes first.
    method Remove() returns (ok: bool)
      requires Valid() && !o.place.Replaced?
      modifies `o, `faults
      ensures Valid() && old(faults) <= faults && (ok <==> Faultless())
      ensures o == old(o).(place := o.place, kept := o.kept, loadable := o.loadable, stale := o.stale, gone := o.gone)
      ensures ok ==> o.place.Gone? && !o.kept && o.loadable == {}
      ensures !ok ==> o.kept == old(o).kept && o.stale == old(o).stale && o.loadable in {old(o).loadable, WithStale(old(o))}
      ensures o.place == old(o).place || o.place.Gone?
    {
      ok := Works();
      if ok {
        o := o.(place := Gone);
        ok := RemoveTicket();
      }
    }

    // commit: in local-only mode the file is the recording and its ticket goes; otherwise the
    // ticket becomes ready.
    method Commit() returns (ok: bool)
      requires Valid() && o.place.Own?
      modifies `o, `faults
      ensures Valid() && old(faults) <= faults && (ok <==> Faultless())
      ensures o == old(o).(t := o.t, kept := o.kept, loadable := o.loadable, stale := o.stale, certain := o.certain, gone := o.gone)
      ensures o.t.dest == old(o).t.dest
      ensures ok && o.t.dest == "" ==> !o.kept && o.loadable == {}
      ensures ok && o.t.dest != "" ==> o.t.state == Ready && o.loadable == {o.t} && o.kept == old(o).kept
      ensures !ok ==> o.kept == old(o).kept && o.t.state == if o.t.dest == "" then old(o).t.state else Ready
    {
      if o.t.dest == "" {
        ok := RemoveTicket();
      } else {
        ok := Persist(o.t.(state := Ready));
      }
    }

    // outbox.fail; the marker that stands in for a state that cannot be persisted is part of Uploader.
    method Fail()
      requires Valid() && o.kept
      modifies `o, `faults
      ensures Valid() && old(faults) <= faults
      ensures o == old(o).(t := o.t, loadable := o.loadable, stale := o.stale, certain := o.certain, gone := o.gone)
      ensures SameTicket(old(o).t.(state := TicketState.Failed), o.t)
      ensures Faultless() ==> o.loadable == {o.t}
    {
      var ok := Persist(o.t.(state := TicketState.Failed));
    }

    // discard, for a reservation nothing was recorded into: the file goes with its ticket, unless
    // another file took its place.
    method Discard() returns (end: End)
      requires Valid() && o.kept
      modifies `o, `faults
      ensures Valid() && end in {Removed, Quarantined}
      ensures old(o).place.Replaced? ==> end.Quarantined? && o.place.Replaced?
      ensures end.Quarantined? ==> o.t.state == TicketState.Failed && o.kept
      ensures end.Removed? ==> o.place.Gone?
      ensures Faultless() ==> end == (if old(o).place.Replaced? then Quarantined else Removed)
      ensures Faultless() && end.Removed? ==> !o.kept && o.loadable == {}
    {
      var owned, disappeared := Release();
      if disappeared {
        var _ := RemoveTicket();
        return Removed;
      }
      if owned {
        var removed := Remove();
        if removed {
          return Removed;
        }
      }
      Fail();
      return Quarantined;
    }

    // finishOutput, after the writer has ended: `hasAudio` tells whether the encoder accepted input.
    // Audio is never removed; what is handed on is durable as a whole.
    method FinishOutput(broken: bool, hasAudio: bool) returns (end: End)
      requires Valid() && o.kept && o.t.state == Recording && (broken || o.durable == o.size)
      modifies `o, `faults
      ensures Valid() && old(faults) <= faults
      ensures o.size == old(o).size && o.durable == old(o).durable && o.t.dest == old(o).t.dest
      ensures end.Removed? || (o.place.Gone? && !old(o).place.Gone?) ==> if broken then old(o).size == 0 else !hasAudio
      ensures end.Removed? ==> o.place.Gone? && !o.kept && o.loadable == {}
      ensures end.Committed? || end.NotHandedOn? ==> old(o).place.Own? && o.place.Own? && !broken && hasAudio && o.durable == o.size
      ensures end.Committed? ==> if o.t.dest == "" then !o.kept && o.loadable == {} else o.kept && o.t.state == Ready && o.loadable == {o.t}
      ensures end.Quarantined? ==> o.kept && o.t.state == TicketState.Failed
      ensures end.NotHandedOn? ==> o.kept && o.t.state == (if o.t.dest == "" then Recording else Ready) && !Faultless()
      ensures old(o).place.Replaced? ==> end.Quarantined? && o.place.Replaced?
      ensures Faultless() ==> end == Verdict(old(o).place, old(o).size, broken, hasAudio)
    {
      var owned, _ := Release();
      var failed := broken || !owned;
      if owned && (if broken then o.size == 0 else !hasAudio) {
        var removed := Remove();
        if removed {
          return Removed;
        }
        failed := true;
      }
      if failed {
        Fail();
        return Quarantined;
      }
      var handed := Commit();
      return if handed then Committed else NotHandedOn;
    }

    // finishEncoder: nothing is handed on before its bytes are durable.
    method FinishEncoder(writeFailed: bool, hasAudio: bool) returns (end: End)
      requires Valid() && o.kept && o.t.state == Recording
      modifies `o, `faults
      ensures Valid() && o.size == old(o).size
      ensures end.Removed? ==> o.size == 0 || !hasAudio
      ensures end.Committed? || end.NotHandedOn? ==> !writeFailed && hasAudio && o.durable == o.size && o.place.Own?
      ensures writeFailed && old(o).size > 0 ==> end.Quarantined?
      ensures end.Quarantined? ==> o.kept && o.t.state == TicketState.Failed
      ensures Faultless() ==> end == Verdict(old(o).place, old(o).size, writeFailed, hasAudio)
    {
      var broken := writeFailed;
      if !writeFailed {
        var drained := Works();
        broken := !drained;
      }
      if !broken {
        var synced := Works();
        if synced {
          o := o.(durable := o.size);
        }
        broken := !synced;
      }
      end := FinishOutput(broken, hasAudio);
    }

    // A power cut leaves at least what is durable.
    method CutPower()
      requires Valid()
      modifies `o
      ensures Valid() && old(o).durable == o.durable <= o.size <= old(o).size && o == old(o).(size := o.size)
    {
      var left: nat :| o.durable <= left <= o.size;
      o := o.(size := left);
    }
  }

  // The same but for the generation.
  predicate SameTicket(a: Ticket, b: Ticket) {
    a.(gen := b.gen) == b
  }
}
