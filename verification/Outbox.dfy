/**
  The delivery queue on disk (internal/recording/outbox.go): one file per generation of a ticket.

  Every directory state a call passes through is recorded in `trace` together with what is
  promised at that moment, so a fact about every moment is a fact about a crash at any point.
 */
module Outbox {
  import opened Tickets
  import opened Directory

  datatype WriteResult = Done | Exists | Refused

  // A directory state and what is promised about each ticket in it.
  datatype Moment = Moment(dir: Dir, promises: map<string, Promise>)

  function PromiseOf(promises: map<string, Promise>, id: string): Promise {
    if id in promises then promises[id] else Promise({}, true)
  }

  ghost predicate Kept(m: Moment) {
    WellFormed(m.dir) && forall id :: Guarded(m.dir, id, PromiseOf(m.promises, id))
  }

  // At every kept moment a power cut leaves every ticket as promised.
  lemma KeptIsCrashSafe(m: Moment)
    ensures Kept(m) <==> WellFormed(m.dir) && forall id :: CrashSafe(m.dir, id, PromiseOf(m.promises, id))
  {
    if WellFormed(m.dir) {
      forall id ensures Guarded(m.dir, id, PromiseOf(m.promises, id)) <==> CrashSafe(m.dir, id, PromiseOf(m.promises, id)) {
        GuardedIsCrashSafe(m.dir, id, PromiseOf(m.promises, id));
      }
    }
  }

  lemma PowerCutKeepsMoment(m: Moment, image: map<Name, Image>)
    requires Kept(m) && Crash(m.dir, image)
    ensures Kept(Moment(AfterPowerCut(image), m.promises))
  {
    PowerCutIsWellFormed(m.dir, image);
    forall id ensures Guarded(AfterPowerCut(image), id, PromiseOf(m.promises, id)) {
      PowerCutKeepsGuarded(m.dir, image, id, PromiseOf(m.promises, id));
    }
  }

  lemma ChangeKeepsMoment(m: Moment, d: Dir, n: Name)
    requires Kept(m) && WellFormed(d)
    requires forall k | k != n :: May(d, k) == May(m.dir, k)
    requires !Sure(m.dir, n)
    requires forall i | i in May(d, n) && i !in May(m.dir, n) && Readable(n, i) :: i.t in PromiseOf(m.promises, n.id).loadable
    ensures Kept(Moment(d, m.promises))
  {
    forall id ensures Guarded(d, id, PromiseOf(m.promises, id)) {
      ChangeKeepsGuarded(m.dir, d, n, id, PromiseOf(m.promises, id));
    }
  }

  // Unlinking touches one ticket only; that one must stay guarded.
  lemma UnlinkKeepsMoment(m: Moment, n: Name)
    requires Kept(m)
    requires Guarded(Unlink(m.dir, n), n.id, PromiseOf(m.promises, n.id))
    ensures Kept(Moment(Unlink(m.dir, n), m.promises))
  {
    OperationsKeepWellFormed(m.dir, n, Ticket(n.id, n.gen, Failed, "", "", "", "", false, 0, 0), true);
    forall id | id != n.id ensures Guarded(Unlink(m.dir, n), id, PromiseOf(m.promises, id)) {
      ChangeKeepsGuarded(m.dir, Unlink(m.dir, n), n, id, PromiseOf(m.promises, id));
    }
  }

  lemma SyncKeepsMoment(m: Moment)
    requires Kept(m)
    ensures Kept(Moment(SyncEntries(m.dir), m.promises))
  {
    forall id ensures Guarded(SyncEntries(m.dir), id, PromiseOf(m.promises, id)) {
      SyncKeepsGuarded(m.dir, id, PromiseOf(m.promises, id));
    }
  }

  lemma WiderPromise(d: Dir, promises: map<string, Promise>, id: string, t: Ticket)
    requires Kept(Moment(d, promises))
    ensures Kept(Moment(d, promises[id := Promise(PromiseOf(promises, id).loadable + {t}, PromiseOf(promises, id).gone)]))
  {
    var wider := promises[id := Promise(PromiseOf(promises, id).loadable + {t}, PromiseOf(promises, id).gone)];
    forall other ensures Guarded(d, other, PromiseOf(wider, other)) {
      assert Guarded(d, other, PromiseOf(promises, other));
    }
  }

  // A generation that is durable under a durable name is all a power cut can leave.
  lemma NewPromise(d: Dir, promises: map<string, Promise>, t: Ticket)
    requires Kept(Moment(d, promises)) && Durable(d, t)
    ensures Kept(Moment(d, promises[t.id := Promise({t}, false)]))
    ensures Removable(d, Name(t.id, t.gen), {t})
  {
    var newer := promises[t.id := Promise({t}, false)];
    assert Sure(d, Name(t.id, t.gen));
    forall other ensures Guarded(d, other, PromiseOf(newer, other)) {
      assert Guarded(d, other, PromiseOf(promises, other));
    }
  }

  ghost predicate Durable(d: Dir, t: Ticket) {
    && t.path != ""
    && May(d, Name(t.id, t.gen)) == {Holds(t)}
    && forall n: Name, i | Surviving(d, t.id, n, i) :: n.gen <= t.gen
  }

  lemma SyncMakesDurable(d: Dir, t: Ticket)
    requires InPlace(d, t) && NoneNewer(d, t) && t.path != "" && d == SyncEntries(d)
    ensures Durable(d, t)
  {
    assert d.survivors == SyncEntries(d).survivors;
  }

  lemma NewestStaysGuarded(d: Dir, t: Ticket, n: Name)
    requires WellFormed(d) && Durable(d, t) && n.id == t.id && n.gen < t.gen
    ensures Durable(Unlink(d, n), t)
    ensures Guarded(Unlink(d, n), t.id, Promise({t}, false))
    ensures Removable(Unlink(d, n), Name(t.id, t.gen), {t})
  {
    var d' := Unlink(d, n);
    assert Sure(d', Name(t.id, t.gen));
    forall m: Name, i | Surviving(d', t.id, m, i) ensures Surviving(d, t.id, m, i) { }
  }

  // What removal may bring back: what was promised, or when the newest generation is not durable,
  // whatever is not yet erased.
  ghost function AfterRemoval(d: Dir, id: string, loadable: set<Ticket>): set<Ticket> {
    if forall n <- d.live | n.id == id && IsNewest(d, n) :: Removable(d, n, loadable)
    then loadable else loadable + Survivors(d, id)
  }

  lemma RemovalMayBegin(d: Dir, promises: map<string, Promise>, id: string)
    requires Kept(Moment(d, promises))
    ensures Kept(Moment(d, promises[id := Promise(AfterRemoval(d, id, PromiseOf(promises, id).loadable), true)]))
    ensures forall n <- d.live | n.id == id && IsNewest(d, n) ::
              Removable(d, n, AfterRemoval(d, id, PromiseOf(promises, id).loadable))
  {
    var loadable := AfterRemoval(d, id, PromiseOf(promises, id).loadable);
    var weaker := promises[id := Promise(loadable, true)];
    forall other ensures Guarded(d, other, PromiseOf(weaker, other)) {
      assert Guarded(d, other, PromiseOf(promises, other));
    }
    if loadable != PromiseOf(promises, id).loadable {
      forall n: Name, i | Surviving(d, id, n, i) ensures i.t in loadable {
        SurvivorsAreAll(d, id, n, i);
      }
    }
  }

  // While a start prunes a ticket, either one durable generation is certain or any survivor is
  // allowed for.
  ghost predicate Prunable(d: Dir, id: string, keep: Option<Ticket>, p: Promise) {
    match keep
    case Some(t) => t.id == id && Durable(d, t) && p == Promise({t}, false)
    case None => p.gone && forall n, i | Surviving(d, id, n, i) :: i.t in p.loadable
  }

  lemma PruneStep(d: Dir, id: string, keep: Option<Ticket>, p: Promise, n: Name)
    requires WellFormed(d) && Prunable(d, id, keep, p) && (keep.Some? ==> n != Name(id, keep.value.gen))
    ensures Prunable(Unlink(d, n), id, keep, p)
    ensures Guarded(Unlink(d, n), id, p)
  {
    var d' := Unlink(d, n);
    forall m: Name, i | Surviving(d', id, m, i) ensures Surviving(d, id, m, i) { }
    if keep.Some? {
      assert Sure(d', Name(id, keep.value.gen));
    }
  }

  // A start on a settled directory may begin to prune.
  lemma PruningMayBegin(d: Dir, promises: map<string, Promise>, id: string, best: Option<Ticket>)
    requires Kept(Moment(d, promises)) && SettledTicket(d, id)
    requires match best
      case Some(t) => NewestReadable(d, id, t)
      case None => forall n <- d.live | n.id == id :: !Readable(n, d.live[n].image)
    ensures best.Some? ==> best.value in PromiseOf(promises, id).loadable
    ensures Prunable(d, id, CertainOf(d, id, best), PruneFrom(d, id, best, PromiseOf(promises, id)))
    ensures Kept(Moment(d, promises[id := PruneFrom(d, id, best, PromiseOf(promises, id))]))
  {
    var p := PromiseOf(promises, id);
    assert Guarded(d, id, p);
    var p' := PruneFrom(d, id, best, p);
    forall n: Name, i | Surviving(d, id, n, i)
      ensures n in d.live && Readable(n, d.live[n].image) && i == d.live[n].image
    {
      assert n in d.survivors;
    }
    if best.Some? {
      LoadedIsPromised(d, id, best.value, p);
      if ContentSynced(d, best.value) {
        NewPromise(d, promises, best.value);
      }
    } else {
      NothingReadable(d, id, p);
    }
    forall n: Name, i | Surviving(d, id, n, i) ensures i.t in Survivors(d, id) {
      SurvivorsAreAll(d, id, n, i);
    }
    var newer := promises[id := p'];
    forall other ensures Guarded(d, other, PromiseOf(newer, other)) {
      assert Guarded(d, other, PromiseOf(promises, other));
    }
  }

  // The generation a start keeps for certain: the newest, when its content is durable.
  function CertainOf(d: Dir, id: string, best: Option<Ticket>): Option<Ticket> {
    if best.Some? && ContentSynced(d, best.value) then best else None
  }

  function PruneFrom(d: Dir, id: string, best: Option<Ticket>, p: Promise): Promise {
    if CertainOf(d, id, best).Some? then Promise({best.value}, false)
    else Promise(Survivors(d, id), best.Some? || p.gone)
  }

  lemma RemoveLast(d: Dir, newest: Name, loadable: set<Ticket>)
    requires WellFormed(d) && d == SyncEntries(d) && Removable(d, newest, loadable)
    requires forall n <- d.live | n.id == newest.id :: n == newest
    ensures Guarded(Unlink(d, newest), newest.id, Promise(loadable, true))
  {
    assert d.survivors == SyncEntries(d).survivors;
    var d' := Unlink(d, newest);
    forall m: Name, i | Surviving(d', newest.id, m, i) ensures i.t in loadable {
      assert Surviving(d, newest.id, m, i);
      assert m in d.live;
    }
  }

  lemma NothingLeft(d: Dir, promises: map<string, Promise>, id: string)
    requires Kept(Moment(d, promises)) && d == SyncEntries(d)
    requires forall n <- d.live :: n.id != id
    ensures Kept(Moment(d, promises[id := Promise({}, true)]))
  {
    assert d.survivors == SyncEntries(d).survivors;
    var none := promises[id := Promise({}, true)];
    forall other ensures Guarded(d, other, PromiseOf(none, other)) {
      assert Guarded(d, other, PromiseOf(promises, other));
    }
  }

  // Only files of ticket `id` were removed.
  ghost predicate OnlyLess(before: Dir, after: Dir, id: string) {
    && (forall n <- after.live :: n in before.live && after.live[n] == before.live[n])
    && (forall n <- before.live | n.id != id :: n in after.live)
    && (forall n <- after.survivors | n.id != id :: n in before.survivors && after.survivors[n] == before.survivors[n])
    && (forall n <- before.survivors | n.id != id :: n in after.survivors)
  }

  // Files outside of `names` stay as they are, also for a power cut.
  ghost predicate Spared(before: Dir, after: Dir, names: set<Name>) {
    && (forall n <- before.live | n !in names :: n in after.live && after.live[n] == before.live[n])
    && forall n | n !in names :: May(after, n) == May(before, n)
  }

  // Nothing happened to ticket `id`: neither to its files, nor to what is promised about it.
  ghost predicate LeftAlone(before: Moment, after: Moment, id: string) {
    && (forall n <- before.dir.live | n.id == id :: n in after.dir.live && after.dir.live[n] == before.dir.live[n])
    && (forall n <- after.dir.live | n.id == id :: n in before.dir.live)
    && (forall n: Name | n.id == id :: May(after.dir, n) == May(before.dir, n))
    && PromiseOf(after.promises, id) == PromiseOf(before.promises, id)
  }

  ghost predicate NoneReadable(d: Dir, id: string) {
    forall n <- d.live | n.id == id :: !Readable(n, d.live[n].image)
  }

  lemma LessOneMore(files: map<Name, File>, names: set<Name>, rest: set<Name>, n: Name)
    requires n in names && n !in rest
    ensures files - (names - (rest + {n})) - {n} == files - (names - rest)
  {
  }

  lemma PrunedOneMore(d1: Dir, d2: Dir, d3: Dir, id: string, names: set<Name>, n: Name)
    requires OnlyLess(d1, d2, id) && OnlyLess(d2, d3, id) && Spared(d1, d2, names) && Spared(d2, d3, {n}) && n in names
    ensures OnlyLess(d1, d3, id) && Spared(d1, d3, names)
  {
  }

  // A start without faults loads every ticket that has a readable generation, and leaves that
  // generation only.
  ghost predicate Loaded(before: Dir, after: Dir, id: string, loaded: Option<Ticket>) {
    && (loaded.None? ==> NoneReadable(before, id))
    && forall n <- after.live | n.id == id :: loaded.Some? && n.gen == loaded.value.gen
  }

  // A start that settled directory `start` has loaded `loaded`; the tickets `rest` are untouched.
  ghost predicate Loading(start: Moment, now: Moment, loaded: map<string, Ticket>, rest: set<string>) {
    && (forall n <- now.dir.live :: n in start.dir.live && now.dir.live[n] == start.dir.live[n])
    && (forall n <- start.dir.live | n.id in rest :: n in now.dir.live)
    && (forall id <- rest :: SettledTicket(now.dir, id) && PromiseOf(now.promises, id) == PromiseOf(start.promises, id))
    && (forall id <- loaded ::
         && id !in rest
         && NewestReadable(start.dir, id, loaded[id]) && loaded[id] in PromiseOf(start.promises, id).loadable
         && Name(id, loaded[id].gen) in now.dir.live
         && (ContentSynced(start.dir, loaded[id]) ==> PromiseOf(now.promises, id) == Promise({loaded[id]}, false)))
    && Unloaded(start, now, loaded, rest)
  }

  // A ticket that is not loaded was left alone, unless none of its generations is readable.
  ghost predicate Unloaded(start: Moment, now: Moment, loaded: map<string, Ticket>, rest: set<string>) {
    forall id | id !in loaded :: LeftAlone(start, now, id) || (id !in rest && NoneReadable(start.dir, id))
  }

  predicate ContentSynced(d: Dir, t: Ticket) {
    Name(t.id, t.gen) in d.live && d.live[Name(t.id, t.gen)].synced
  }

  // Every ticket but `rest` that has a readable generation is loaded, and has that file only.
  ghost predicate Complete(start: Dir, now: Dir, loaded: map<string, Ticket>, rest: set<string>) {
    && (forall n <- start.live | n.id !in rest && Readable(n, start.live[n].image) :: n.id in loaded)
    && (forall n <- now.live | n.id !in rest :: n.id in loaded && n.gen == loaded[n.id].gen)
  }

  lemma CompleteStep(start: Moment, now: Moment, next: Dir, loaded: map<string, Ticket>, rest: set<string>, id: string,
                     t: Option<Ticket>)
    requires Loading(start, now, loaded, rest) && id in rest && id !in loaded
    requires OnlyLess(now.dir, next, id)
    requires Complete(start.dir, now.dir, loaded, rest) && Loaded(now.dir, next, id, t)
    ensures Complete(start.dir, next, if t.Some? then loaded[id := t.value] else loaded, rest - {id})
  {
  }

  lemma LoadingBegins(start: Moment, rest: set<string>)
    requires forall id :: SettledTicket(start.dir, id)
    ensures Loading(start, start, map[], rest)
  {
  }

  lemma SyncSettles(d: Dir)
    ensures forall id :: SettledTicket(SyncEntries(d), id)
  {
  }

  lemma LoadingStep(start: Moment, now: Moment, next: Moment, loaded: map<string, Ticket>, rest: set<string>, id: string,
                    t: Option<Ticket>)
    requires Loading(start, now, loaded, rest) && id in rest
    requires OnlyLess(now.dir, next.dir, id)
    requires forall other | other != id :: PromiseOf(next.promises, other) == PromiseOf(now.promises, other)
    requires t.Some? ==> NewestReadable(now.dir, id, t.value) && t.value in PromiseOf(now.promises, id).loadable
    requires t.Some? ==> PromiseOf(next.promises, id) == PruneFrom(now.dir, id, t, PromiseOf(now.promises, id))
    requires t.Some? ==> Name(id, t.value.gen) in next.dir.live
    requires t.None? ==> LeftAlone(now, next, id) || NoneReadable(now.dir, id)
    ensures Loading(start, next, if t.Some? then loaded[id := t.value] else loaded, rest - {id})
  {
    forall other <- rest - {id} ensures SettledTicket(next.dir, other) {
      assert SettledTicket(now.dir, other);
    }
    if t.Some? {
      assert NewestReadable(start.dir, id, t.value);
    }
    UnloadedStep(start, now, next, loaded, rest, id, t);
  }

  lemma UnloadedStep(start: Moment, now: Moment, next: Moment, loaded: map<string, Ticket>, rest: set<string>, id: string,
                     t: Option<Ticket>)
    requires Unloaded(start, now, loaded, rest) && OnlyLess(now.dir, next.dir, id)
    requires forall other | other != id :: PromiseOf(next.promises, other) == PromiseOf(now.promises, other)
    requires t.None? ==> LeftAlone(now, next, id) || NoneReadable(now.dir, id)
    ensures Unloaded(start, next, if t.Some? then loaded[id := t.value] else loaded, rest - {id})
  {
    forall other | other !in loaded && (other != id || t.None?)
      ensures LeftAlone(start, next, other) || (other !in rest - {id} && NoneReadable(start.dir, other))
    {
      if LeftAlone(start, now, other) {
        LeftAloneStays(start, now, next, id, other);
      }
    }
  }

  lemma LeftAloneStays(start: Moment, now: Moment, next: Moment, id: string, other: string)
    requires LeftAlone(start, now, other) && OnlyLess(now.dir, next.dir, id)
    requires other != id ==> PromiseOf(next.promises, other) == PromiseOf(now.promises, other)
    requires other == id ==> LeftAlone(now, next, id) || NoneReadable(now.dir, id)
    ensures LeftAlone(start, next, other) || (other == id && NoneReadable(start.dir, id))
  {
  }

  // Syncing the directory once more changes nothing for what was settled.
  lemma LoadingIsSynced(start: Moment, now: Moment, loaded: map<string, Ticket>)
    requires Loading(start, now, loaded, {}) && forall id :: SettledTicket(start.dir, id)
    ensures Loading(start, Moment(SyncEntries(now.dir), now.promises), loaded, {})
  {
    var next := Moment(SyncEntries(now.dir), now.promises);
    forall id | id !in loaded
      ensures LeftAlone(start, next, id) || NoneReadable(start.dir, id)
    {
      if LeftAlone(start, now, id) {
        assert SettledTicket(start.dir, id);
        forall n: Name | n.id == id ensures May(next.dir, n) == May(start.dir, n) {
        }
      }
    }
  }

  predicate InPlace(d: Dir, t: Ticket) {
    Name(t.id, t.gen) in d.live && d.live[Name(t.id, t.gen)] == File(Holds(t), true)
  }

  // No other readable generation of the ticket can come back than before, but for `t`.
  ghost predicate AddsAtMost(before: Dir, after: Dir, t: Ticket) {
    Survivors(after, t.id) <= Survivors(before, t.id) + {t}
  }

  lemma OperationAddsAtMost(d: Dir, d': Dir, t: Ticket)
    requires forall n, i | Surviving(d', t.id, n, i) :: Surviving(d, t.id, n, i) || i.t == t
    ensures AddsAtMost(d, d', t)
  {
    forall x <- Survivors(d', t.id) ensures x in Survivors(d, t.id) + {t} {
      var n, i :| n in d'.survivors && i in d'.survivors[n] && n.id == t.id && Readable(n, i) && i.t == x;
      assert Surviving(d', t.id, n, i);
      if Surviving(d, t.id, n, i) {
        SurvivorsAreAll(d, t.id, n, i);
      }
    }
  }

  lemma WriteSurvivors(d: Dir, n: Name, t: Ticket)
    requires n == Name(t.id, t.gen)
    ensures forall complete :: var a := Append(Create(d, n), n, t, complete);
              AddsAtMost(d, a, t) && AddsAtMost(d, SyncContent(a, n), t)
              && AddsAtMost(d, Unlink(a, n), t) && AddsAtMost(d, Unlink(SyncContent(a, n), n), t)
    ensures AddsAtMost(d, Create(d, n), t)
  {
    OperationAddsAtMost(d, Create(d, n), t);
    forall complete
      ensures var a := Append(Create(d, n), n, t, complete);
        AddsAtMost(d, a, t) && AddsAtMost(d, SyncContent(a, n), t)
        && AddsAtMost(d, Unlink(a, n), t) && AddsAtMost(d, Unlink(SyncContent(a, n), n), t)
    {
      var a := Append(Create(d, n), n, t, complete);
      OperationAddsAtMost(d, a, t);
      OperationAddsAtMost(d, SyncContent(a, n), t);
      OperationAddsAtMost(d, Unlink(a, n), t);
      OperationAddsAtMost(d, Unlink(SyncContent(a, n), n), t);
    }
  }

  lemma SyncSurvivors(d: Dir, t: Ticket)
    requires WellFormed(d)
    ensures AddsAtMost(d, SyncEntries(d), t)
  {
    OperationAddsAtMost(d, SyncEntries(d), t);
  }

  lemma UnlinkSurvivors(d: Dir, n: Name, t: Ticket)
    ensures AddsAtMost(d, Unlink(d, n), t)
  {
    OperationAddsAtMost(d, Unlink(d, n), t);
  }

  // Nothing changed but that an incomplete file `n` may have stayed.
  ghost predicate LeftAtMost(before: Dir, after: Dir, n: Name) {
    n !in before.live && after.live - {n} == before.live
  }

  // `t` is as new as any generation on disk, but for those right above it that a failed write left.
  ghost predicate AtHead(d: Dir, t: Ticket) {
    forall n, g | n in d.live && n.id == t.id && Readable(n, d.live[n].image) && t.gen < g <= n.gen :: Name(t.id, g) in d.live
  }

  ghost predicate NoneNewer(d: Dir, t: Ticket) {
    forall n <- d.live | n.id == t.id && Readable(n, d.live[n].image) :: n.gen <= t.gen
  }

  predicate Taken(d: Dir, id: string, after: nat, to: nat) {
    forall g | after < g < to :: Name(id, g) in d.live
  }

  function Above(d: Dir, id: string, gen: nat): set<Name> {
    set n | n in d.live && n.id == id && n.gen >= gen
  }

  lemma OneMoreTaken(d: Dir, id: string, after: nat, gen: nat)
    requires Taken(d, id, after, gen) && Name(id, gen) in d.live
    ensures Taken(d, id, after, gen + 1) && Above(d, id, gen + 1) < Above(d, id, gen)
  {
    assert Name(id, gen) in Above(d, id, gen);
  }

  // The first generation above the head that does not exist is newer than any on disk.
  lemma FirstFree(before: Dir, after: Dir, t: Ticket, next: Ticket)
    requires AtHead(before, t) && next.id == t.id && t.gen < next.gen && LeftAtMost(before, after, Name(t.id, next.gen))
    requires Taken(before, t.id, t.gen, next.gen)
    ensures NoneNewer(after, next) && AtHead(after, t)
  {
    forall n <- after.live ensures (n in before.live && after.live[n] == before.live[n]) || n == Name(t.id, next.gen) {
      assert n != Name(t.id, next.gen) ==> n in after.live - {Name(t.id, next.gen)};
    }
    forall n <- before.live ensures n in after.live {
      assert n in after.live - {Name(t.id, next.gen)};
    }
    forall n <- after.live | n.id == t.id && Readable(n, after.live[n].image) ensures n.gen <= next.gen {
      assert n.gen > next.gen ==> Name(t.id, next.gen) in before.live;
    }
  }

  function Previous(t: Ticket): Name {
    Name(t.id, if t.gen == 0 then 0 else t.gen - 1)
  }

  class Outbox {
    var dir: Dir
    var tickets: map<string, Ticket>
    ghost var promises: map<string, Promise>
    ghost var trace: seq<Moment>
    ghost var faults: nat // How many file operations failed so far.

    ghost predicate Valid()
      reads `dir, `promises, `trace
    {
      Kept(Moment(dir, promises)) && forall m <- trace :: Kept(m)
    }

    ghost function PromiseFor(id: string): Promise
      reads `promises
    {
      PromiseOf(promises, id)
    }

    // The in-memory ticket of an owner is at the head of its generations.
    ghost predicate Owner(t: Ticket)
      reads `dir
    {
      t.path != "" && AtHead(dir, t)
    }

    twostate predicate Extends()
      reads `trace
    {
      old(trace) <= trace
    }

    twostate predicate OthersKept(id: string)
      reads `promises
    {
      forall other | other != id :: PromiseFor(other) == old(PromiseFor(other))
    }

    // A new process on the directory a power cut left at some moment.
    constructor AfterPowerCut(m: Moment, image: map<Name, Image>)
      requires Kept(m) && Crash(m.dir, image)
      ensures Valid() && dir == Directory.AfterPowerCut(image) && promises == m.promises && tickets == map[] && trace == [] && faults == 0
    {
      dir, tickets, promises, trace, faults := Directory.AfterPowerCut(image), map[], m.promises, [], 0;
      PowerCutKeepsMoment(m, image);
    }

    // A new process on the directory a killed one left at some moment.
    constructor AfterKill(m: Moment)
      requires Kept(m)
      ensures Valid() && dir == m.dir && promises == m.promises && tickets == map[] && trace == [] && faults == 0
    {
      dir, tickets, promises, trace, faults := m.dir, map[], m.promises, [], 0;
    }

    method Become(d: Dir)
      requires Valid() && Kept(Moment(d, promises))
      modifies this`dir, this`trace
      ensures Valid() && dir == d && trace == old(trace) + [Moment(d, promises)]
    {
      dir := d;
      trace := trace + [Moment(d, promises)];
    }

    // Whether a file operation works; one that does not counts as a fault.
    method Works() returns (ok: bool)
      modifies this`faults
      ensures faults == if ok then old(faults) else old(faults) + 1
    {
      ok := *;
      if !ok {
        faults := faults + 1;
      }
    }

    twostate predicate Faultless()
      reads `faults
    {
      faults == old(faults)
    }

    method Remove(n: Name) returns (ok: bool)
      requires Valid()
      requires Guarded(Unlink(dir, n), n.id, PromiseFor(n.id))
      modifies this`dir, this`trace, this`faults
      ensures Valid() && Extends() && old(faults) <= faults
      ensures dir == if ok then Unlink(old(dir), n) else old(dir)
      ensures ok <==> Faultless()
    {
      ok := Works();
      if ok {
        UnlinkKeepsMoment(Moment(dir, promises), n);
        Become(Unlink(dir, n));
      }
    }

    method SyncDir() returns (ok: bool)
      requires Valid()
      modifies this`dir, this`trace, this`faults
      ensures Valid() && Extends() && old(faults) <= faults
      ensures dir == if ok then SyncEntries(old(dir)) else old(dir)
      ensures ok <==> Faultless()
    {
      ok := Works();
      if ok {
        SyncKeepsMoment(Moment(dir, promises));
        Become(SyncEntries(dir));
      }
    }

    // A change to one name that is not certain to survive.
    method Edit(d: Dir, n: Name)
      requires Valid() && WellFormed(d)
      requires forall k | k != n :: May(d, k) == May(dir, k)
      requires Absent in May(dir, n)
      requires forall i | i in May(d, n) && i !in May(dir, n) && Readable(n, i) :: i.t in PromiseFor(n.id).loadable
      modifies this`dir, this`trace
      ensures Valid() && dir == d && Extends()
    {
      assert !Readable(n, Absent);
      ChangeKeepsMoment(Moment(dir, promises), d, n);
      Become(d);
    }

    // The file `n` a writer is creating: it may still be lost with its directory entry.
    ghost predicate Unsettled(n: Name)
      reads `dir
    {
      n in dir.live && Absent in May(dir, n)
    }

    method CreateFile(n: Name) returns (ok: bool)
      requires Valid() && n !in dir.live
      modifies this`dir, this`trace, this`faults
      ensures Valid() && Extends() && old(faults) <= faults
      ensures if ok then dir == Create(old(dir), n) && Unsettled(n) else dir == old(dir)
      ensures ok <==> Faultless()
    {
      ok := Works();
      if ok {
        Edit(Create(dir, n), n);
      }
    }

    method AppendFile(n: Name, t: Ticket) returns (complete: bool)
      requires Valid() && Unsettled(n) && t in PromiseFor(n.id).loadable
      modifies this`dir, this`trace, this`faults
      ensures Valid() && Extends() && old(faults) <= faults && dir == Append(old(dir), n, t, complete) && Unsettled(n)
      ensures complete <==> Faultless()
    {
      complete := Works();
      Edit(Append(dir, n, t, complete), n);
    }

    method SyncFile(n: Name) returns (ok: bool)
      requires Valid() && Unsettled(n)
      modifies this`dir, this`trace, this`faults
      ensures Valid() && Extends() && old(faults) <= faults && Unsettled(n)
      ensures dir == if ok then SyncContent(old(dir), n) else old(dir)
      ensures ok <==> Faultless()
    {
      ok := Works();
      if ok {
        Edit(SyncContent(dir, n), n);
      }
    }

    // Removes an incomplete file, if that works.
    method Discard(n: Name, ghost before: Dir)
      requires Valid() && Unsettled(n) && n !in before.live && Unlink(dir, n).live == before.live
      modifies this`dir, this`trace, this`faults
      ensures Valid() && Extends() && old(faults) <= faults && LeftAtMost(before, dir, n)
      ensures dir == old(dir) || dir == Unlink(old(dir), n)
    {
      var ok := Works();
      if ok {
        Edit(Unlink(dir, n), n);
      }
    }

    // Fills the file just created; a file that is not completely durable is removed again, if it can be.
    method FinishFile(n: Name, t: Ticket, ghost before: Dir) returns (ok: bool)
      requires Valid() && n == Name(t.id, t.gen) && t in PromiseFor(t.id).loadable
      requires n !in before.live && dir == Create(before, n) && Unsettled(n)
      modifies this`dir, this`trace, this`faults
      ensures Valid() && Extends() && old(faults) <= faults && (ok <==> Faultless())
      ensures ok ==> dir.live == before.live[n := File(Holds(t), true)]
      ensures !ok ==> LeftAtMost(before, dir, n)
      ensures AddsAtMost(before, dir, t)
    {
      WriteSurvivors(before, n, t);
      var complete := AppendFile(n, t);
      var synced := SyncFile(n);
      var closed := Works();
      WriteLive(before, n, t, complete);
      ok := complete && synced && closed;
      if !ok {
        Discard(n, before);
      }
    }

    // Creates `n` exclusively and makes its content durable.
    method WriteSynced(n: Name, t: Ticket) returns (r: WriteResult)
      requires Valid() && n == Name(t.id, t.gen) && t in PromiseFor(t.id).loadable
      modifies this`dir, this`trace, this`faults
      ensures Valid() && Extends() && old(faults) <= faults
      ensures r.Exists? <==> n in old(dir).live
      ensures r.Exists? ==> dir == old(dir)
      ensures !r.Exists? ==> LeftAtMost(old(dir), dir, n)
      ensures AddsAtMost(old(dir), dir, t)
      ensures r.Refused? ==> !Faultless()
      ensures r.Done? ==> dir.live == old(dir).live[n := File(Holds(t), true)]
    {
      if n in dir.live {
        return Exists;
      }
      var ok := CreateFile(n);
      if ok {
        ok := FinishFile(n, t, old(dir));
      }
      r := if ok then Done else Refused;
    }

    // Writes generation `next`, from then on one of those a power cut may leave.
    method TryGeneration(next: Ticket) returns (r: WriteResult)
      requires Valid()
      modifies this`dir, this`promises, this`trace, this`faults
      ensures Valid() && Extends() && old(faults) <= faults
      ensures r.Exists? <==> Name(next.id, next.gen) in old(dir).live
      ensures r.Exists? ==> dir == old(dir) && promises == old(promises)
      ensures !r.Exists? ==> promises == old(promises)[next.id :=
                Promise(old(PromiseFor(next.id)).loadable + {next}, old(PromiseFor(next.id)).gone)]
      ensures !r.Exists? ==> LeftAtMost(old(dir), dir, Name(next.id, next.gen))
      ensures AddsAtMost(old(dir), dir, next)
      ensures r.Refused? ==> !Faultless()
      ensures r.Done? ==> InPlace(dir, next)
    {
      WiderPromise(dir, promises, next.id, next);
      promises := promises[next.id := Promise(PromiseFor(next.id).loadable + {next}, PromiseFor(next.id).gone)];
      r := WriteSynced(Name(next.id, next.gen), next);
      if r.Exists? {
        promises := old(promises);
      }
    }

    // Tries the generations after `t` until one does not exist yet.
    method AddGeneration(t: Ticket) returns (r: WriteResult, next: Ticket)
      requires Valid() && Owner(t)
      modifies this`dir, this`promises, this`trace, this`faults
      ensures Valid() && Extends() && old(faults) <= faults && OthersKept(t.id)
      ensures next == t.(gen := next.gen) && next.gen > t.gen && r != Exists
      ensures PromiseFor(t.id) == Promise(old(PromiseFor(t.id)).loadable + {next}, old(PromiseFor(t.id)).gone)
      ensures r.Done? ==> InPlace(dir, next)
      ensures LeftAtMost(old(dir), dir, Name(t.id, next.gen)) && Owner(t) && NoneNewer(dir, next)
      ensures AddsAtMost(old(dir), dir, next)
      ensures r.Refused? ==> !Faultless()
    {
      next := t.(gen := t.gen + 1);
      r := TryGeneration(next);
      while r.Exists?
        invariant Valid() && Extends()
        invariant next == t.(gen := next.gen) && next.gen > t.gen
        invariant old(faults) <= faults && (r.Refused? ==> !Faultless())
        invariant r.Exists? ==> dir == old(dir) && promises == old(promises) && Name(t.id, next.gen) in dir.live
        invariant !r.Exists? ==> promises == old(promises)[t.id :=
                    Promise(old(PromiseFor(t.id)).loadable + {next}, old(PromiseFor(t.id)).gone)]
        invariant r.Done? ==> InPlace(dir, next)
        invariant !r.Exists? ==> LeftAtMost(old(dir), dir, Name(t.id, next.gen)) && AddsAtMost(old(dir), dir, next)
        invariant Taken(old(dir), t.id, t.gen, next.gen)
        decreases r.Exists?, Above(old(dir), t.id, next.gen)
      {
        OneMoreTaken(old(dir), t.id, t.gen, next.gen);
        next := next.(gen := next.gen + 1);
        r := TryGeneration(next);
      }
      FirstFree(old(dir), dir, t, next);
    }

    // Replaces what is promised about a ticket by its durable newest generation, and removes the
    // generation before it.
    method Supersede(t: Ticket)
      requires Valid() && Durable(dir, t)
      modifies this`dir, this`promises, this`trace, this`faults
      ensures Valid() && Extends() && old(faults) <= faults && OthersKept(t.id)
      ensures PromiseFor(t.id) == Promise({t}, false)
      ensures Removable(dir, Name(t.id, t.gen), {t})
      ensures dir.live == old(dir).live || (t.gen > 1 && dir.live == old(dir).live - {Previous(t)})
      ensures AddsAtMost(old(dir), dir, t)
      ensures Faultless() && t.gen > 1 ==> Previous(t) !in dir.live
    {
      NewPromise(dir, promises, t);
      promises := promises[t.id := Promise({t}, false)];
      if t.gen > 1 {
        UnlinkSurvivors(dir, Previous(t), t);
        NewestStaysGuarded(dir, t, Previous(t));
        var removed := Remove(Previous(t));
      }
    }

    // Persists `t` as its next generation and removes the previous one.
    method Write(t: Ticket) returns (ok: bool, t': Ticket, ghost attempt: Ticket)
      requires Valid() && Owner(t)
      modifies this`dir, this`promises, this`trace, this`faults
      ensures Valid() && Extends() && old(faults) <= faults && OthersKept(t.id) && Owner(t')
      ensures t' == t || t' == attempt
      ensures attempt == t.(gen := attempt.gen) && attempt.gen > t.gen
      ensures ok ==> t' == attempt && PromiseFor(t.id) == Promise({t'}, false)
      ensures ok ==> Name(t.id, t'.gen) in dir.live && Removable(dir, Name(t.id, t'.gen), {t'})
      ensures ok && (forall n <- old(dir).live | n.id == t.id :: n.gen <= t.gen) ==> IsNewest(dir, Name(t.id, t'.gen))
      ensures !ok ==> PromiseFor(t.id) == Promise(old(PromiseFor(t.id)).loadable + {attempt}, old(PromiseFor(t.id)).gone)
      ensures Faultless() ==> ok && (t'.gen > 1 ==> Previous(t') !in dir.live)
      ensures AddsAtMost(old(dir), dir, attempt)
    {
      var r, next := AddGeneration(t);
      attempt := next;
      if r == Refused {
        return false, t, attempt;
      }
      t' := next;
      ok := Confirm(next);
    }

    // Syncs the directory: the generation in place becomes durable and supersedes the others.
    method Confirm(t: Ticket) returns (ok: bool)
      requires Valid() && InPlace(dir, t) && NoneNewer(dir, t) && t.path != ""
      modifies this`dir, this`promises, this`trace, this`faults
      ensures Valid() && Extends() && old(faults) <= faults && OthersKept(t.id)
      ensures ok ==> PromiseFor(t.id) == Promise({t}, false) && Removable(dir, Name(t.id, t.gen), {t})
      ensures !ok ==> promises == old(promises)
      ensures dir.live == old(dir).live || (t.gen > 1 && dir.live == old(dir).live - {Previous(t)})
      ensures AddsAtMost(old(dir), dir, t)
      ensures Faultless() ==> ok && (t.gen > 1 ==> Previous(t) !in dir.live)
    {
      SyncSurvivors(dir, t);
      ok := SyncDir();
      if ok {
        SyncMakesDurable(dir, t);
        Supersede(t);
      }
    }

    // The generations of `id`, the newest apart.
    method ListGenerations(id: string) returns (newest: Option<Name>, older: set<Name>)
      ensures newest.None? <==> forall n <- dir.live :: n.id != id
      ensures newest.None? ==> older == {}
      ensures newest.Some? ==> newest.value.id == id && IsNewest(dir, newest.value) && older == Older(dir, newest.value)
    {
      var rest := set n | n in dir.live && n.id == id;
      ghost var all := rest;
      newest, older := None, {};
      while rest != {}
        invariant rest <= all
        invariant newest.None? ==> older == {} && rest == all
        invariant newest.Some? ==> newest.value in all && newest.value !in rest && newest.value !in older
        invariant newest.Some? ==> older + {newest.value} + rest == all
        invariant newest.Some? ==> forall n <- older :: n.gen < newest.value.gen
        decreases rest
      {
        var n :| n in rest;
        rest := rest - {n};
        if newest.None? {
          newest := Some(n);
        } else if n.gen > newest.value.gen {
          older := older + {newest.value};
          newest := Some(n);
        } else {
          assert n == Name(id, n.gen) && newest.value == Name(id, newest.value.gen);
          older := older + {n};
        }
      }
      if newest.Some? {
        assert forall n :: n in all <==> n in older || n == newest.value;
        assert older == Older(dir, newest.value);
      } else {
        assert all == {};
        assert forall n <- dir.live | n.id == id :: n in all;
      }
    }

    method RemoveOne(n: Name, newest: Name, ghost loadable: set<Ticket>) returns (ok: bool)
      requires Valid() && PromiseFor(newest.id) == Promise(loadable, true)
      requires Removable(dir, newest, loadable) && n.id == newest.id && n != newest
      modifies this`dir, this`trace, this`faults
      ensures Valid() && Extends() && old(faults) <= faults && Removable(dir, newest, loadable)
      ensures dir.live == if ok then old(dir).live - {n} else old(dir).live
      ensures ok <==> Faultless()
    {
      RemovableSteps(dir, newest, loadable, n);
      OperationsKeepWellFormed(dir, n, Ticket(n.id, n.gen, Failed, "", "", "", "", false, 0, 0), true);
      RemovableSteps(Unlink(dir, n), newest, loadable, n);
      ok := Remove(n);
    }

    // Removes the older generations; any order will do.
    method RemoveOlder(newest: Name, older: set<Name>, ghost loadable: set<Ticket>) returns (ok: bool)
      requires Valid() && PromiseFor(newest.id) == Promise(loadable, true)
      requires Removable(dir, newest, loadable)
      requires newest !in older && forall n <- older :: n.id == newest.id
      modifies this`dir, this`trace, this`faults
      ensures Valid() && Extends() && old(faults) <= faults && Removable(dir, newest, loadable)
      ensures ok ==> dir.live == old(dir).live - older
      ensures ok <==> Faultless()
    {
      ok := true;
      var rest := older;
      while ok && rest != {}
        invariant Valid() && Extends() && old(faults) <= faults && (ok <==> Faultless())
        invariant rest <= older && Removable(dir, newest, loadable)
        invariant ok ==> dir.live == old(dir).live - (older - rest)
        decreases ok, rest
      {
        var n :| n in rest;
        rest := rest - {n};
        ok := RemoveOne(n, newest, loadable);
      }
    }

    // Removes the last generation; the older ones are gone from the directory, but maybe not yet
    // from the disk.
    method RemoveNewest(newest: Name, ghost loadable: set<Ticket>) returns (ok: bool)
      requires Valid() && PromiseFor(newest.id) == Promise(loadable, true)
      requires Removable(dir, newest, loadable) && forall n <- dir.live | n.id == newest.id :: n == newest
      modifies this`dir, this`trace, this`faults
      ensures Valid() && Extends() && old(faults) <= faults
      ensures ok ==> dir == SyncEntries(dir) && dir.live == old(dir).live - {newest}
      ensures ok <==> Faultless()
    {
      ok := SyncDir();
      if !ok {
        return;
      }
      RemovableSteps(old(dir), newest, loadable, newest);
      RemoveLast(dir, newest, loadable);
      ok := Remove(newest);
      if !ok {
        return;
      }
      ok := SyncDir();
    }

    // Deletes every generation of `id`, the newest last. Once it began, a crash leaves one of the
    // promised generations or nothing, provided the newest generation was durable (Removable);
    // otherwise any generation not yet erased from the disk can come back.
    method RemoveFiles(id: string) returns (ok: bool)
      requires Valid()
      modifies this`dir, this`promises, this`trace, this`faults
      ensures Valid() && Extends() && old(faults) <= faults && OthersKept(id)
      ensures ok ==> PromiseFor(id) == Promise({}, true) && forall n <- dir.live :: n.id != id
      ensures !ok ==> PromiseFor(id) in {old(PromiseFor(id)), Promise(AfterRemoval(old(dir), id, old(PromiseFor(id)).loadable), true)}
      ensures ok <==> Faultless()
    {
      ok := Works(); // ReadDir
      if !ok {
        return;
      }
      ghost var loadable := AfterRemoval(dir, id, PromiseFor(id).loadable);
      var newest, older := ListGenerations(id);
      RemovalMayBegin(dir, promises, id);
      promises := promises[id := Promise(loadable, true)];
      if newest.Some? {
        ok := RemoveOlder(newest.value, older, loadable);
        if ok {
          ok := RemoveNewest(newest.value, loadable);
        }
      } else {
        ok := SyncDir();
      }
      if !ok {
        return;
      }
      NothingLeft(dir, promises, id);
      promises := promises[id := Promise({}, true)];
    }

    // The newest readable generation among `names`; one that cannot be read may be the newest.
    method NewestGeneration(id: string, names: set<Name>) returns (best: Option<Ticket>, readFailed: bool)
      requires names == set n | n in dir.live && n.id == id
      modifies this`faults
      ensures old(faults) <= faults && (readFailed <==> !Faultless())
      ensures !readFailed && best.Some? ==> NewestReadable(dir, id, best.value)
      ensures !readFailed && best.None? ==> forall n <- dir.live | n.id == id :: !Readable(n, dir.live[n].image)
    {
      best, readFailed := None, false;
      var rest := names;
      while rest != {}
        invariant rest <= names
        invariant old(faults) <= faults && (readFailed <==> !Faultless())
        invariant !readFailed && best.None? ==> forall n <- names - rest :: !Readable(n, dir.live[n].image)
        invariant !readFailed && best.Some? ==>
            && Name(id, best.value.gen) in dir.live && dir.live[Name(id, best.value.gen)].image == Holds(best.value)
            && Readable(Name(id, best.value.gen), Holds(best.value))
            && forall n <- names - rest | Readable(n, dir.live[n].image) :: n.gen <= best.value.gen
        decreases rest
      {
        var n :| n in rest;
        rest := rest - {n};
        var read := Works();
        if !read {
          readFailed := true;
        } else {
          assert n == Name(id, n.gen);
          var image := dir.live[n].image;
          if Readable(n, image) && (best.None? || image.t.gen > best.value.gen) {
            best := Some(image.t);
          }
        }
      }
      assert names - rest == names;
      assert forall n <- dir.live | n.id == id :: n in names;
    }

    method PruneOne(n: Name, ghost keep: Option<Ticket>)
      requires Valid() && Prunable(dir, n.id, keep, PromiseFor(n.id)) && (keep.Some? ==> n.gen != keep.value.gen)
      modifies this`dir, this`trace, this`faults
      ensures Valid() && Extends() && old(faults) <= faults
      ensures Prunable(dir, n.id, keep, PromiseFor(n.id)) && OnlyLess(old(dir), dir, n.id) && Spared(old(dir), dir, {n})
      ensures Faultless() ==> dir.live == old(dir).live - {n}
    {
      PruneStep(dir, n.id, keep, PromiseFor(n.id), n);
      var removed := Remove(n);
    }

    // Unlinks what a start does not keep; a file that cannot be removed stays.
    method Prune(id: string, names: set<Name>, ghost keep: Option<Ticket>)
      requires Valid() && forall n <- names :: n.id == id && (keep.Some? ==> n.gen != keep.value.gen)
      requires Prunable(dir, id, keep, PromiseFor(id))
      modifies this`dir, this`trace, this`faults
      ensures Valid() && Extends() && old(faults) <= faults
      ensures OnlyLess(old(dir), dir, id) && Spared(old(dir), dir, names)
      ensures Faultless() ==> dir.live == old(dir).live - names
    {
      var rest := names;
      while rest != {}
        invariant Valid() && Extends() && old(faults) <= faults && rest <= names
        invariant Faultless() ==> dir.live == old(dir).live - (names - rest)
        invariant Prunable(dir, id, keep, PromiseFor(id))
        invariant OnlyLess(old(dir), dir, id) && Spared(old(dir), dir, names)
        decreases rest
      {
        ghost var before, more := dir, rest;
        var n :| n in rest;
        rest := rest - {n};
        assert more == rest + {n};
        PruneOne(n, keep);
        LessOneMore(old(dir).live, names, rest, n);
        PrunedOneMore(old(dir), before, dir, id, names, n);
      }
    }

    // Loads one ticket: its newest readable generation, which stays; the others are removed. One that
    // may have a generation which could not be read is left alone.
    method LoadTicket(id: string) returns (loaded: Option<Ticket>)
      requires Valid() && SettledTicket(dir, id)
      modifies this`dir, this`promises, this`trace, this`faults
      ensures Valid() && Extends() && old(faults) <= faults && OthersKept(id) && OnlyLess(old(dir), dir, id)
      ensures loaded.Some? ==> NewestReadable(old(dir), id, loaded.value) && loaded.value in old(PromiseFor(id)).loadable
      ensures PromiseFor(id) == PruneFrom(old(dir), id, loaded, old(PromiseFor(id)))
              || (loaded.None? && dir == old(dir) && PromiseFor(id) == old(PromiseFor(id)))
      ensures loaded.Some? ==> Name(id, loaded.value.gen) in dir.live
      ensures loaded.None? ==> (dir == old(dir) && PromiseFor(id) == old(PromiseFor(id))) || NoneReadable(old(dir), id)
      ensures Faultless() ==> Loaded(old(dir), dir, id, loaded)
    {
      var names := set n | n in dir.live && n.id == id;
      var best, readFailed := NewestGeneration(id, names);
      if readFailed {
        return None; // Every generation stays for the next start.
      }
      KeepOnly(id, names, best);
      loaded := best;
    }

    // Keeps the newest readable generation of a ticket, if any, and removes the others.
    method KeepOnly(id: string, names: set<Name>, best: Option<Ticket>)
      requires Valid() && SettledTicket(dir, id) && names == set n | n in dir.live && n.id == id
      requires if best.Some? then NewestReadable(dir, id, best.value) else NoneReadable(dir, id)
      modifies this`dir, this`promises, this`trace, this`faults
      ensures Valid() && Extends() && old(faults) <= faults && OthersKept(id) && OnlyLess(old(dir), dir, id)
      ensures PromiseFor(id) == PruneFrom(old(dir), id, best, old(PromiseFor(id)))
      ensures best.Some? ==> best.value in old(PromiseFor(id)).loadable && Name(id, best.value.gen) in dir.live
      ensures Faultless() ==> forall n <- dir.live | n.id == id :: best.Some? && n.gen == best.value.gen
    {
      ghost var keep := CertainOf(dir, id, best);
      PruningMayBegin(dir, promises, id, best);
      promises := promises[id := PruneFrom(dir, id, best, PromiseFor(id))];
      var stale := set n | n in names && (best.None? || n.gen != best.value.gen);
      Prune(id, stale, keep);
    }

    method LoadNext(id: string, loaded: map<string, Ticket>, ghost start: Moment, ghost rest: set<string>)
      returns (loaded': map<string, Ticket>)
      requires Valid() && Loading(start, Moment(dir, promises), loaded, rest) && id in rest
      modifies this`dir, this`promises, this`trace, this`faults
      ensures Valid() && Extends() && old(faults) <= faults
      ensures Loading(start, Moment(dir, promises), loaded', rest - {id})
      ensures Faultless() && Complete(start.dir, old(dir), loaded, rest) ==> Complete(start.dir, dir, loaded', rest - {id})
    {
      assert SettledTicket(dir, id);
      ghost var now := Moment(dir, promises);
      var t := LoadTicket(id);
      forall other | other != id ensures PromiseOf(promises, other) == PromiseOf(now.promises, other) {
        assert PromiseFor(other) == old(PromiseFor(other));
      }
      LoadingStep(start, now, Moment(dir, promises), loaded, rest, id, t);
      loaded' := if t.Some? then loaded[id := t.value] else loaded;
      if Faultless() && Complete(start.dir, now.dir, loaded, rest) {
        CompleteStep(start, now, dir, loaded, rest, id, t);
      }
    }

    method LoadAll() returns (loaded: map<string, Ticket>)
      requires Valid() && forall id :: SettledTicket(dir, id)
      modifies this`dir, this`promises, this`trace, this`faults
      ensures Valid() && Extends() && old(faults) <= faults
      ensures Loading(Moment(old(dir), old(promises)), Moment(dir, promises), loaded, {})
      ensures Faultless() ==> Complete(old(dir), dir, loaded, {})
    {
      loaded := map[];
      ghost var start := Moment(dir, promises);
      var rest := set n | n in dir.live :: n.id;
      LoadingBegins(start, rest);
      while rest != {}
        invariant Valid() && Extends() && old(faults) <= faults
        invariant Loading(start, Moment(dir, promises), loaded, rest)
        invariant Faultless() ==> Complete(start.dir, dir, loaded, rest)
        decreases rest
      {
        var id :| id in rest;
        loaded := LoadNext(id, loaded, start, rest);
        rest := rest - {id};
      }
    }

    // Starts on whatever a crash left: settles the directory, then loads every ticket. What it
    // loads was promised, and is certain from then on when its content is durable; a ticket it could
    // not read stays as it is, also when the directory cannot be synced.
    method Open() returns (ok: bool, loaded: map<string, Ticket>)
      requires Valid()
      modifies this`dir, this`promises, this`trace, this`faults
      ensures Valid() && Extends()
      ensures (!ok && dir == old(dir) && promises == old(promises) && loaded == map[])
              || Loading(Moment(SyncEntries(old(dir)), old(promises)), Moment(dir, promises), loaded, {})
      ensures forall id <- loaded :: NewestReadable(old(dir), id, loaded[id]) && loaded[id] in old(PromiseFor(id)).loadable
      ensures forall id <- loaded :: Owner(loaded[id])
      ensures forall id <- loaded :: ContentSynced(old(dir), loaded[id]) ==> PromiseFor(id) == Promise({loaded[id]}, false)
      ensures Faultless() ==> ok && Complete(old(dir), dir, loaded, {})
    {
      loaded := map[];
      ok := SyncDir();
      if !ok {
        return;
      }
      SyncSettles(old(dir));
      ghost var start := Moment(dir, promises);
      loaded := LoadAll();
      LoadingIsSynced(start, Moment(dir, promises), loaded);
      ok := SyncDir();
    }

    // The in-memory index: a change is persisted before it is published.

    method Publish(t: Ticket)
      modifies this`tickets
      ensures tickets == old(tickets)[t.id := t]
    {
      tickets := tickets[t.id := t];
    }

    method Update(t: Ticket) returns (ok: bool, t': Ticket, ghost attempt: Ticket)
      requires Valid() && Owner(t)
      modifies this`dir, this`promises, this`trace, this`faults, this`tickets
      ensures Valid() && Extends() && OthersKept(t.id) && Owner(t')
      ensures attempt == t.(gen := attempt.gen) && attempt.gen > t.gen && (t' == t || t' == attempt)
      ensures ok ==> t' == attempt && PromiseFor(t.id) == Promise({t'}, false) && tickets == old(tickets)[t.id := t']
      ensures !ok ==> PromiseFor(t.id) == Promise(old(PromiseFor(t.id)).loadable + {attempt}, old(PromiseFor(t.id)).gone)
      ensures !ok ==> tickets == old(tickets)
      ensures Faultless() ==> ok
    {
      ok, t', attempt := Write(t);
      if ok {
        Publish(t');
      }
    }

    method Delete(t: Ticket) returns (ok: bool)
      requires Valid()
      modifies this`dir, this`promises, this`trace, this`faults, this`tickets
      ensures Valid() && Extends() && OthersKept(t.id)
      ensures ok ==> PromiseFor(t.id) == Promise({}, true) && tickets == old(tickets) - {t.id}
      ensures !ok ==> PromiseFor(t.id) in {old(PromiseFor(t.id)), Promise(AfterRemoval(old(dir), t.id, old(PromiseFor(t.id)).loadable), true)}
      ensures !ok ==> tickets == old(tickets)
      ensures Faultless() ==> ok
    {
      ok := RemoveFiles(t.id);
      if ok {
        tickets := tickets - {t.id};
      }
    }
  }

  // Two ways to lose a promise that the exact conditions shut out.

  function Written(d: Dir, t: Ticket): Dir {
    var n := Name(t.id, t.gen);
    SyncContent(Append(Create(d, n), n, t, true), n)
  }

  lemma WrittenIsWellFormed(d: Dir, t: Ticket)
    requires WellFormed(d) && Name(t.id, t.gen) !in d.live
    ensures WellFormed(Written(d, t))
  {
    var n := Name(t.id, t.gen);
    var created := Create(d, n);
    OperationsKeepWellFormed(d, n, t, true);
    var appended := Append(created, n, t, true);
    OperationsKeepWellFormed(created, n, t, true);
    OperationsKeepWellFormed(appended, n, t, true);
  }

  lemma WrittenAddsOne(d: Dir, t: Ticket)
    requires Absent in May(d, Name(t.id, t.gen)) && Name(t.id, t.gen) !in d.live
    ensures forall n | n != Name(t.id, t.gen) :: May(Written(d, t), n) == May(d, n)
    ensures Absent in May(Written(d, t), Name(t.id, t.gen))
    ensures forall n <- Written(d, t).live :: n in d.live || n == Name(t.id, t.gen)
  {
    var n := Name(t.id, t.gen);
    WriteLive(d, n, t, true);
    var created := Create(d, n);
    assert forall k | k != n :: May(created, k) == May(d, k);
    var appended := Append(created, n, t, true);
    assert forall k | k != n :: May(appended, k) == May(created, k);
  }

  // Write(t3) put its file in place but its directory sync failed, while the unlink of t1 by the
  // write before is not on disk yet. Removing the generation in between then lets a power cut
  // bring back t1, which is older than the last generation a write reported durable.
  lemma RemovalCanBringBackAnOlderGeneration(d: Dir, t1: Ticket, n2: Name, t3: Ticket)
    requires WellFormed(d) && t1.id == n2.id == t3.id && t1.gen < n2.gen < t3.gen
    requires Surviving(d, t1.id, Name(t1.id, t1.gen), Holds(t1))
    requires forall n <- d.live | n.id == t1.id :: n == n2
    ensures exists image :: Crash(UnlinkAll(Written(d, t3), {n2}), image) && Loads(image, t1.id, Some(t1))
  {
    WrittenIsWellFormed(d, t3);
    assert Absent in May(d, Name(t3.id, t3.gen));
    WrittenAddsOne(d, t3);
    UnlinkAllMay(Written(d, t3), {n2});
    var removing := UnlinkAll(Written(d, t3), {n2});
    forall m: Name | m.id == t1.id && t1.gen < m.gen ensures !Sure(removing, m) {
      if m in removing.live {
        assert m == Name(t3.id, t3.gen) && !Readable(m, Absent);
      } else if Sure(removing, m) {
        SureIsLive(removing, m);
      }
    }
    NothingCertainAbove(removing, t1.id, Name(t1.id, t1.gen), Holds(t1));
  }

  // What a process killed after writing t2 but before syncing its content leaves to the next start,
  // which settles the directory first.
  ghost function Killed(d: Dir, t2: Ticket): Dir {
    var n2 := Name(t2.id, t2.gen);
    SyncEntries(Append(Create(d, n2), n2, t2, true))
  }

  lemma KilledIsPreferred(d: Dir, t2: Ticket)
    requires WellFormed(d) && t2.path != "" && Name(t2.id, t2.gen) !in d.live
    requires forall n <- d.live | n.id == t2.id :: n.gen < t2.gen
    ensures WellFormed(Killed(d, t2)) && NewestReadable(Killed(d, t2), t2.id, t2)
    ensures Killed(d, t2).live[Name(t2.id, t2.gen)] == File(Holds(t2), false)
  {
    var n2 := Name(t2.id, t2.gen);
    var c := Create(d, n2);
    OperationsKeepWellFormed(d, n2, t2, true);
    var a := Append(c, n2, t2, true);
    OperationsKeepWellFormed(c, n2, t2, true);
    OperationsKeepWellFormed(a, n2, t2, true);
  }

  // The next start prefers that file over the durable t1: once t1 is unlinked, a power cut can lose
  // the ticket.
  lemma LoadingUnsyncedContentCanLoseATicket(d: Dir, t2: Ticket)
    requires WellFormed(d) && t2.path != "" && Name(t2.id, t2.gen) !in d.live
    requires forall n <- d.live | n.id == t2.id :: n.gen < t2.gen
    ensures NewestReadable(Killed(d, t2), t2.id, t2)
    ensures !CrashSafe(UnlinkAll(Killed(d, t2), Older(Killed(d, t2), Name(t2.id, t2.gen))), t2.id, Promise({t2}, false))
  {
    KilledIsPreferred(d, t2);
    SyncSettles(Append(Create(d, Name(t2.id, t2.gen)), Name(t2.id, t2.gen), t2, true));
    PruningIsSafeIff(Killed(d, t2), t2.id, t2);
  }
}
