/**
  A directory of ticket generations that can lose power.

  `live` is what the running process sees. `survivors` lists, for each name, everything a power
  cut may leave there: every create and unlink since the last directory sync is kept or lost on
  its own, and a file whose content was not synced may come back torn.
 */
module Directory {
  import opened Tickets

  datatype Name = Name(id: string, gen: nat)
  datatype Image = Absent | Torn | Holds(t: Ticket)
  datatype File = File(image: Image, synced: bool)
  datatype Dir = Dir(live: map<Name, File>, survivors: map<Name, set<Image>>)

  function May(d: Dir, n: Name): set<Image> {
    if n in d.survivors then d.survivors[n] else {Absent}
  }

  // What a file can be after a power cut once its directory entry is durable.
  function Outcomes(f: File): set<Image> {
    if f.synced then {f.image} else {Torn, f.image}
  }

  // The generations a start accepts: a parsable ticket under its own name, with a path.
  predicate Readable(n: Name, i: Image) {
    i.Holds? && i.t.id == n.id && i.t.gen == n.gen && i.t.path != ""
  }

  ghost predicate WellFormed(d: Dir) {
    && (forall n <- d.live :: d.live[n].image != Absent && Outcomes(d.live[n]) <= May(d, n))
    && (forall n <- d.survivors :: n in d.live || Absent in d.survivors[n])
  }

  // The operations of the file system.

  function Create(d: Dir, n: Name): Dir {
    Dir(d.live[n := File(Torn, false)], d.survivors[n := May(d, n) + {Torn}])
  }

  function Append(d: Dir, n: Name, t: Ticket, complete: bool): Dir
    requires n in d.live
  {
    if complete
    then Dir(d.live[n := File(Holds(t), false)], d.survivors[n := May(d, n) + {Torn, Holds(t)}])
    else Dir(d.live[n := File(Torn, false)], d.survivors[n := May(d, n) + {Torn}])
  }

  function SyncContent(d: Dir, n: Name): Dir
    requires n in d.live
  {
    d.(live := d.live[n := d.live[n].(synced := true)])
  }

  function Unlink(d: Dir, n: Name): Dir {
    Dir(d.live - {n}, d.survivors[n := May(d, n) + {Absent}])
  }

  function UnlinkAll(d: Dir, names: set<Name>): Dir {
    Dir(d.live - names,
        map n | n in d.survivors.Keys + names :: if n in names then May(d, n) + {Absent} else May(d, n))
  }

  function SyncEntries(d: Dir): Dir {
    d.(survivors := map n | n in d.live :: Outcomes(d.live[n]))
  }

  lemma Overwrite<K, V>(m: map<K, V>, k: K, v: V, w: V)
    ensures m[k := v][k := w] == m[k := w]
    ensures k !in m ==> m[k := v] - {k} == m
  {
  }

  // Writing a new file changes one entry; removing it again changes none.
  lemma WriteLive(d: Dir, n: Name, t: Ticket, complete: bool)
    requires n !in d.live
    ensures SyncContent(Append(Create(d, n), n, t, true), n).live == d.live[n := File(Holds(t), true)]
    ensures Unlink(Append(Create(d, n), n, t, complete), n).live == d.live
    ensures Unlink(SyncContent(Append(Create(d, n), n, t, complete), n), n).live == d.live
  {
    var f := File(if complete then Holds(t) else Torn, false);
    Overwrite(d.live, n, File(Torn, false), f);
    Overwrite(d.live, n, File(Torn, false), File(Holds(t), false));
    Overwrite(d.live, n, File(Holds(t), false), File(Holds(t), true));
    Overwrite(d.live, n, f, f.(synced := true));
  }

  // A power cut leaves `image`.

  function At(image: map<Name, Image>, n: Name): Image {
    if n in image then image[n] else Absent
  }

  ghost predicate Crash(d: Dir, image: map<Name, Image>) {
    forall n :: At(image, n) in May(d, n)
  }

  function AfterPowerCut(image: map<Name, Image>): Dir {
    Dir(map n | n in image && image[n] != Absent :: File(image[n], true),
        map n | n in image && image[n] != Absent :: {image[n]})
  }

  // `o` is what a start finds for ticket `id`: its newest readable generation.
  ghost predicate Loads(image: map<Name, Image>, id: string, o: Option<Ticket>) {
    match o
    case None => forall n: Name | n.id == id :: !Readable(n, At(image, n))
    case Some(t) =>
      && At(image, Name(id, t.gen)) == Holds(t)
      && Readable(Name(id, t.gen), Holds(t))
      && forall n: Name | n.id == id && Readable(n, At(image, n)) :: n.gen <= t.gen
  }

  // What is promised about ticket `id` after a power cut: the generations that may be loaded,
  // and whether there may be none.
  datatype Promise = Promise(loadable: set<Ticket>, gone: bool)

  ghost predicate CrashSafe(d: Dir, id: string, p: Promise) {
    forall image, o | Crash(d, image) && Loads(image, id, o) ::
      if o.None? then p.gone else o.value in p.loadable
  }

  // A name that certainly comes back as a readable generation.
  ghost predicate Sure(d: Dir, n: Name) {
    forall i <- May(d, n) :: Readable(n, i)
  }

  ghost predicate Surviving(d: Dir, id: string, n: Name, i: Image) {
    n.id == id && i in May(d, n) && Readable(n, i)
  }

  // The structural form of CrashSafe: something is certain to survive unless the ticket may be
  // gone, and every survivor that is not promised lies below one that is certain.
  ghost predicate Guarded(d: Dir, id: string, p: Promise) {
    && (p.gone || exists m: Name :: m.id == id && Sure(d, m))
    && forall n: Name, i | Surviving(d, id, n, i) && i.t !in p.loadable ::
         exists m: Name :: m.id == id && n.gen < m.gen && Sure(d, m)
  }

  lemma SureIsLive(d: Dir, m: Name)
    requires WellFormed(d) && Sure(d, m)
    ensures m in d.live
  {
    assert m !in d.live ==> Absent in May(d, m);
  }

  lemma SureComesBack(d: Dir, image: map<Name, Image>, m: Name)
    requires Crash(d, image) && Sure(d, m)
    ensures Readable(m, At(image, m))
  {
    assert At(image, m) in May(d, m);
  }

  lemma GuardedIsCrashSafe(d: Dir, id: string, p: Promise)
    requires WellFormed(d)
    ensures Guarded(d, id, p) <==> CrashSafe(d, id, p)
  {
    if Guarded(d, id, p) {
      forall image, o | Crash(d, image) && Loads(image, id, o)
        ensures if o.None? then p.gone else o.value in p.loadable
      {
        forall m | Sure(d, m) ensures Readable(m, At(image, m)) {
          SureComesBack(d, image, m);
        }
        if o.Some? {
          assert At(image, Name(id, o.value.gen)) in May(d, Name(id, o.value.gen));
          assert o.value !in p.loadable ==> Surviving(d, id, Name(id, o.value.gen), Holds(o.value));
        }
      }
    } else if !p.gone && !exists m: Name :: m.id == id && Sure(d, m) {
      NothingIsCertain(d, id);
    } else {
      var n, i :| Surviving(d, id, n, i) && i.t !in p.loadable
        && !exists m: Name :: m.id == id && n.gen < m.gen && Sure(d, m);
      NothingCertainAbove(d, id, n, i);
    }
  }

  // One image a power cut can leave: unreadable wherever that is possible.
  ghost function Unlucky(d: Dir, n: Name): (i: Image)
    requires WellFormed(d)
    ensures i in May(d, n)
    ensures Readable(n, i) ==> Sure(d, n)
  {
    assert May(d, n) != {} by {
      if n in d.live { assert d.live[n].image in Outcomes(d.live[n]); } else { assert Absent in May(d, n); }
    }
    if Sure(d, n) then var i :| i in May(d, n); i
    else var i :| i in May(d, n) && !Readable(n, i); i
  }

  ghost function UnluckyImage(d: Dir): (image: map<Name, Image>)
    requires WellFormed(d)
    ensures forall n :: At(image, n) in May(d, n) && (Readable(n, At(image, n)) ==> Sure(d, n))
  {
    map n | n in d.survivors :: Unlucky(d, n)
  }

  lemma NothingIsCertain(d: Dir, id: string)
    requires WellFormed(d)
    requires forall m: Name | m.id == id :: !Sure(d, m)
    ensures exists image :: Crash(d, image) && Loads(image, id, None)
  {
    var image := UnluckyImage(d);
    assert Crash(d, image) && Loads(image, id, None);
  }

  lemma NothingCertainAbove(d: Dir, id: string, n: Name, i: Image)
    requires WellFormed(d) && Surviving(d, id, n, i)
    requires forall m: Name | m.id == id && n.gen < m.gen :: !Sure(d, m)
    ensures exists image :: Crash(d, image) && Loads(image, id, Some(i.t))
  {
    var image := UnluckyImage(d);
    var image' := image[n := i];
    forall m: Name ensures At(image', m) == if m == n then i else At(image, m) { }
    assert Crash(d, image');
    assert n == Name(id, i.t.gen);
    assert Loads(image', id, Some(i.t));
  }

  // What each operation keeps.

  lemma OperationsKeepWellFormed(d: Dir, n: Name, t: Ticket, complete: bool)
    requires WellFormed(d)
    ensures n !in d.live ==> WellFormed(Create(d, n))
    ensures n in d.live ==> WellFormed(Append(d, n, t, complete)) && WellFormed(SyncContent(d, n))
    ensures WellFormed(Unlink(d, n))
    ensures WellFormed(SyncEntries(d))
  {
  }

  lemma PowerCutIsWellFormed(d: Dir, image: map<Name, Image>)
    requires WellFormed(d) && Crash(d, image)
    ensures WellFormed(AfterPowerCut(image))
  {
  }

  // A power cut cannot weaken what was promised, also when more power cuts follow.
  lemma PowerCutKeepsGuarded(d: Dir, image: map<Name, Image>, id: string, p: Promise)
    requires Crash(d, image) && Guarded(d, id, p)
    ensures Guarded(AfterPowerCut(image), id, p)
  {
    var d' := AfterPowerCut(image);
    forall n ensures May(d', n) == {At(image, n)} && May(d', n) <= May(d, n) {
      assert At(image, n) in May(d, n);
    }
    forall m | Sure(d, m) ensures Sure(d', m) { }
    forall n: Name, i | Surviving(d', id, n, i) ensures Surviving(d, id, n, i) { }
  }

  // Names that cannot be sure now can become anything without breaking a promise that allows
  // what they may become.
  lemma ChangeKeepsGuarded(d: Dir, d': Dir, n: Name, id: string, p: Promise)
    requires Guarded(d, id, p)
    requires forall m | m != n :: May(d', m) == May(d, m)
    requires n.id != id || !Sure(d, n)
    requires n.id == id ==> forall i | i in May(d', n) && i !in May(d, n) && Readable(n, i) :: i.t in p.loadable
    ensures Guarded(d', id, p)
  {
    forall m | m != n && Sure(d, m) ensures Sure(d', m) { }
    forall m, i | Surviving(d', id, m, i) && i.t !in p.loadable ensures Surviving(d, id, m, i) { }
  }

  lemma SyncKeepsGuarded(d: Dir, id: string, p: Promise)
    requires WellFormed(d) && Guarded(d, id, p)
    ensures Guarded(SyncEntries(d), id, p)
  {
    var d' := SyncEntries(d);
    forall m | Sure(d, m) ensures Sure(d', m) {
      SureIsLive(d, m);
    }
    forall n: Name, i | Surviving(d', id, n, i) ensures Surviving(d, id, n, i) { }
  }

  // Removal and pruning: which directories allow them.

  ghost predicate IsNewest(d: Dir, n: Name) {
    n in d.live && forall m <- d.live | m.id == n.id :: m.gen <= n.gen
  }

  function Older(d: Dir, n: Name): set<Name> {
    set m | m in d.live && m.id == n.id && m != n
  }

  // Every survivor that is not in `loadable` lies below the newest generation, which is certain.
  ghost predicate Removable(d: Dir, newest: Name, loadable: set<Ticket>) {
    forall n: Name, i | Surviving(d, newest.id, n, i) && i.t !in loadable :: Sure(d, newest) && n.gen < newest.gen
  }

  // Removing every generation but the newest is safe at every crash point exactly when the
  // directory was Removable before.
  lemma UnlinkAllMay(d: Dir, names: set<Name>)
    requires WellFormed(d)
    ensures WellFormed(UnlinkAll(d, names))
    ensures forall n :: May(UnlinkAll(d, names), n) == if n in names then May(d, n) + {Absent} else May(d, n)
    ensures forall n <- names :: !Sure(UnlinkAll(d, names), n)
    ensures forall id, n, i :: Surviving(UnlinkAll(d, names), id, n, i) <==> Surviving(d, id, n, i)
  {
    var d' := UnlinkAll(d, names);
    forall n ensures May(d', n) == if n in names then May(d, n) + {Absent} else May(d, n) { }
    forall n <- names ensures !Sure(d', n) {
      assert Absent in May(d', n) && !Readable(n, Absent);
    }
  }

  lemma RemovalIsSafeIff(d: Dir, newest: Name, loadable: set<Ticket>)
    requires WellFormed(d) && IsNewest(d, newest)
    ensures WellFormed(UnlinkAll(d, Older(d, newest)))
    ensures CrashSafe(UnlinkAll(d, Older(d, newest)), newest.id, Promise(loadable, true))
       <==> Removable(d, newest, loadable)
  {
    var d' := UnlinkAll(d, Older(d, newest));
    UnlinkAllMay(d, Older(d, newest));
    GuardedIsCrashSafe(d', newest.id, Promise(loadable, true));
    OnlyNewestCanBeSure(d, newest);
    assert Sure(d', newest) <==> Sure(d, newest);
  }

  // Unlinking one file at a time reaches the same directory.
  lemma UnlinkOneMore(d: Dir, n: Name, names: set<Name>)
    ensures UnlinkAll(Unlink(d, n), names) == UnlinkAll(d, names + {n})
  {
    var d1, d2 := UnlinkAll(Unlink(d, n), names), UnlinkAll(d, names + {n});
    assert d1.survivors.Keys == d2.survivors.Keys;
    assert d1.survivors == d2.survivors;
    assert d1.live == d2.live;
  }

  lemma OnlyNewestCanBeSure(d: Dir, newest: Name)
    requires WellFormed(d) && newest in d.live
    ensures forall m: Name | m.id == newest.id && Sure(UnlinkAll(d, Older(d, newest)), m) :: m == newest
  {
    var d' := UnlinkAll(d, Older(d, newest));
    UnlinkAllMay(d, Older(d, newest));
    forall m: Name | m.id == newest.id && Sure(d', m) ensures m == newest {
      SureIsLive(d', m);
    }
  }

  function Survivors(d: Dir, id: string): set<Ticket> {
    set n, i | n in d.survivors && i in d.survivors[n] && n.id == id && Readable(n, i) :: i.t
  }

  lemma SurvivorsAreAll(d: Dir, id: string, n: Name, i: Image)
    requires Surviving(d, id, n, i)
    ensures i.t in Survivors(d, id)
  {
    assert n in d.survivors && i in d.survivors[n];
  }

  // Removal during a run: `Removable` survives each unlink of an older generation and each sync.
  lemma RemovableSteps(d: Dir, newest: Name, loadable: set<Ticket>, n: Name)
    requires WellFormed(d) && Removable(d, newest, loadable)
    ensures Guarded(d, newest.id, Promise(loadable, true))
    ensures n != newest ==> Removable(Unlink(d, n), newest, loadable)
    ensures Removable(SyncEntries(d), newest, loadable)
  {
    var p := Promise(loadable, true);
    var d1, d2 := Unlink(d, n), SyncEntries(d);
    forall m, i | Surviving(d2, newest.id, m, i) ensures Surviving(d, newest.id, m, i) { }
    if n != newest {
      assert May(d1, newest) == May(d, newest);
      forall m, i | Surviving(d1, newest.id, m, i) ensures Surviving(d, newest.id, m, i) { }
    }
  }

  ghost predicate SettledTicket(d: Dir, id: string) {
    && (forall n <- d.survivors | n.id == id :: n in d.live)
    && (forall n <- d.live | n.id == id :: May(d, n) == Outcomes(d.live[n]))
  }

  ghost predicate NewestReadable(d: Dir, id: string, t: Ticket) {
    && Name(id, t.gen) in d.live
    && d.live[Name(id, t.gen)].image == Holds(t)
    && Readable(Name(id, t.gen), Holds(t))
    && forall n <- d.live | n.id == id && Readable(n, d.live[n].image) :: n.gen <= t.gen
  }

  // What a start loads from a directory without a power cut was promised as well.
  lemma LoadedIsPromised(d: Dir, id: string, t: Ticket, p: Promise)
    requires WellFormed(d) && Guarded(d, id, p) && NewestReadable(d, id, t)
    ensures t in p.loadable
  {
    var n := Name(id, t.gen);
    assert Surviving(d, id, n, Holds(t));
    forall m: Name | m.id == id && Sure(d, m) ensures m.gen <= t.gen {
      SureIsLive(d, m);
      assert d.live[m].image in Outcomes(d.live[m]);
    }
  }

  // A generation that is promised alone has synced content, also as a killed process left it.
  lemma CertainIsSynced(d: Dir, id: string, t: Ticket)
    requires WellFormed(d) && Guarded(d, id, Promise({t}, false))
    ensures forall l | NewestReadable(d, id, l) :: l == t && d.live[Name(id, t.gen)].synced
  {
    forall l | NewestReadable(d, id, l)
      ensures l == t && d.live[Name(id, t.gen)].synced
    {
      LoadedIsPromised(d, id, l, Promise({t}, false));
      SureIsPromised(d, id, t);
    }
  }

  lemma SureIsPromised(d: Dir, id: string, t: Ticket)
    requires WellFormed(d) && Guarded(d, id, Promise({t}, false)) && NewestReadable(d, id, t)
    ensures Sure(d, Name(id, t.gen)) && d.live[Name(id, t.gen)].synced
  {
    var n := Name(id, t.gen);
    var m: Name :| m.id == id && Sure(d, m);
    SureIsLive(d, m);
    assert d.live[m].image in Outcomes(d.live[m]) && d.live[n].image in Outcomes(d.live[n]);
    if m != n {
      assert m == Name(id, m.gen) && m.gen <= t.gen;
      assert Surviving(d, id, m, d.live[m].image) && d.live[m].image.t != t;
      NoneSureBelow(d, id, t, m);
    }
    assert Torn in Outcomes(d.live[n]) ==> !Readable(n, Torn);
  }

  // What is certain below the promised generation needs something certain above it.
  lemma NoneSureBelow(d: Dir, id: string, t: Ticket, m: Name)
    requires WellFormed(d) && Guarded(d, id, Promise({t}, false)) && NewestReadable(d, id, t)
    requires m.id == id && Sure(d, m) && m.gen < t.gen
    ensures Sure(d, Name(id, t.gen))
    decreases t.gen - m.gen
  {
    SureIsLive(d, m);
    assert d.live[m].image in Outcomes(d.live[m]);
    assert Surviving(d, id, m, d.live[m].image);
    var above: Name :| above.id == id && m.gen < above.gen && Sure(d, above);
    SureIsLive(d, above);
    assert d.live[above].image in Outcomes(d.live[above]);
    if above.gen < t.gen {
      NoneSureBelow(d, id, t, above);
    } else {
      assert above == Name(id, t.gen);
    }
  }

  lemma NothingReadable(d: Dir, id: string, p: Promise)
    requires WellFormed(d) && Guarded(d, id, p)
    requires forall n <- d.live | n.id == id :: !Readable(n, d.live[n].image)
    ensures p.gone
  {
    forall m: Name | Sure(d, m) ensures m in d.live {
      SureIsLive(d, m);
    }
    forall m <- d.live ensures d.live[m].image in May(d, m) {
      assert d.live[m].image in Outcomes(d.live[m]);
    }
  }

  lemma PruningIsGuardedIff(d: Dir, id: string, t: Ticket)
    requires WellFormed(d) && SettledTicket(d, id) && NewestReadable(d, id, t)
    ensures Guarded(UnlinkAll(d, Older(d, Name(id, t.gen))), id, Promise({t}, false))
       <==> d.live[Name(id, t.gen)].synced
  {
    var newest := Name(id, t.gen);
    var d' := UnlinkAll(d, Older(d, newest));
    UnlinkAllMay(d, Older(d, newest));
    OnlyNewestCanBeSure(d, newest);
    assert May(d', newest) == Outcomes(d.live[newest]);
    if d.live[newest].synced {
      assert Sure(d', newest);
      forall n, i | Surviving(d', id, n, i) && i.t !in {t} ensures n.gen < newest.gen {
        assert Surviving(d, id, n, i);
        assert n in d.live && i in Outcomes(d.live[n]);
        assert n == Name(id, n.gen);
      }
    } else {
      assert Torn in May(d', newest) && !Readable(newest, Torn);
      assert !Sure(d', newest);
    }
  }

  // Pruning to the newest readable generation keeps a certain ticket certain exactly when the
  // content of that generation is durable.
  lemma PruningIsSafeIff(d: Dir, id: string, t: Ticket)
    requires WellFormed(d) && SettledTicket(d, id) && NewestReadable(d, id, t)
    ensures WellFormed(UnlinkAll(d, Older(d, Name(id, t.gen))))
    ensures CrashSafe(UnlinkAll(d, Older(d, Name(id, t.gen))), id, Promise({t}, false))
       <==> d.live[Name(id, t.gen)].synced
  {
    UnlinkAllMay(d, Older(d, Name(id, t.gen)));
    PruningIsGuardedIff(d, id, t);
    GuardedIsCrashSafe(UnlinkAll(d, Older(d, Name(id, t.gen))), id, Promise({t}, false));
  }
}
