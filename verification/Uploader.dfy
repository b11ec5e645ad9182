/**
  Delivery of one recording to S3 (internal/recording/uploader.go) together with the two places
  that decide whether it may be delivered at all: fail and recover (internal/recording/outbox.go).

  A State is everything that outlives a call: the bucket, the local file and its marker, what the
  outbox may load after a crash, and the ticket of the process that owns it. Every remote call and
  every persisted change is one action that keeps Safe, so Safe holds wherever the process dies;
  every method of Delivery is a run of actions. Other writers act between any two calls: they take
  free keys and never delete an object.

  The outbox is seen through what Outbox promises: Settle and Doubt are what its Write leaves
  behind, RemovalBegun its RemoveFiles, Load its Open. Generations that were superseded but may
  still be on disk are `stale`; a removal brings them back unless the newest file is certain, and a
  start that loads unsynced content may be followed by one that loads anything left, or nothing.
 */
module Uploader {
  import opened Tickets
  import opened Keys

  type Bytes = seq<bv8>
  datatype Object = Object(uploadId: string, content: Bytes)

  datatype FileState = Absent | Blank | Whole
  // The marker next to a failed recording; one that is not settled may vanish in a power cut.
  datatype Marker = NoMarker | Unsettled | Settled
  datatype Check = Missing | Found | Unreadable

  datatype PutResult = PutOk | Conflict | OtherError
  datatype Attempt = Sent | KeyTaken | GaveUp
  datatype UploadResult = Uploaded | AudioGone | Retry

  // What a start finds at the path of an interrupted recording.
  datatype Interrupted = Gone | Unknown | NotRegular | Size(bytes: nat)

  const MAX_KEYS_PER_PASS := 10

  // What never changes about a recording.
  datatype Recorded = Recorded(id: string, baseKey: string, content: Bytes, path: string, dest: string, s3Only: bool)

  datatype State = State(
    bucket: map<string, Object>,
    file: FileState,
    marker: Marker,
    t: Ticket,             // The copy of the owner.
    kept: bool,            // The owner still has the ticket.
    loadable: set<Ticket>, // What a start may load.
    stale: set<Ticket>,    // Superseded generations that may still be on disk.
    certain: bool,         // The newest file is the durable generation.
    gone: bool,            // A start may find nothing.
    condemned: bool,       // A failed generation or the marker became durable.
    deleted: bool,         // This program removed the local file after delivery.
    number: nat,           // The number of the current key, 1 for the base key.
    highest: nat,          // The greatest key number a PUT was sent under.
    puts: nat,             // How often the recording was sent.
    lastPuts: nat)         // How often it had been sent when it was condemned.

  predicate Has(r: Recorded, bucket: map<string, Object>, key: string) {
    key in bucket && bucket[key] == Object(r.id, r.content)
  }

  predicate Taken(r: Recorded, bucket: map<string, Object>, key: string) {
    key in bucket && bucket[key].uploadId != r.id
  }

  // The recording is in S3, under the key of the ticket.
  predicate InS3(r: Recorded, s: State) {
    Has(r, s.bucket, s.t.key)
  }

  // The recording is in S3.
  predicate Stored(r: Recorded, bucket: map<string, Object>) {
    exists k <- bucket :: bucket[k] == Object(r.id, r.content)
  }

  predicate TakenByAnother(r: Recorded, s: State) {
    Taken(r, s.bucket, s.t.key)
  }

  predicate Of(r: Recorded, t: Ticket) {
    t.id == r.id && t.baseKey == r.baseKey && t.path == r.path && t.dest == r.dest && t.deleteAfterUpload == r.s3Only
  }

  // Delivery gets to a numbered key only past keys that other writers took.
  ghost predicate Reached(r: Recorded, bucket: map<string, Object>, n: nat) {
    forall m | 1 <= m < n :: Taken(r, bucket, Numbered(r.baseKey, m))
  }

  ghost predicate KeyReached(r: Recorded, bucket: map<string, Object>, key: string) {
    exists n: nat :: 1 <= n && Reached(r, bucket, n) && key == Numbered(r.baseKey, n)
  }

  // A generation that was ever written: of this recording, under a key that was reached, and
  // delivered only if its object is there.
  ghost predicate Genuine(r: Recorded, bucket: map<string, Object>, g: Ticket) {
    Of(r, g) && KeyReached(r, bucket, g.key) && (g.state == Delivered ==> Has(r, bucket, g.key))
  }

  ghost predicate AllGenuine(r: Recorded, bucket: map<string, Object>, tickets: set<Ticket>) {
    forall g <- tickets :: Genuine(r, bucket, g)
  }

  // Every object with the upload id holds the recording, under a key that was reached.
  ghost predicate Objects(r: Recorded, bucket: map<string, Object>) {
    forall k <- bucket | bucket[k].uploadId == r.id :: bucket[k].content == r.content && KeyReached(r, bucket, k)
  }

  // The failed generation is the only one a start may load.
  ghost predicate FailedForGood(s: State) {
    s.t.state == TicketState.Failed && s.loadable == {s.t} && !s.gone
  }

  ghost predicate Owns(r: Recorded, s: State) {
    && Genuine(r, s.bucket, s.t)
    && s.number >= 1 && s.t.key == Numbered(r.baseKey, s.number) && Reached(r, s.bucket, s.number)
  }

  ghost predicate Safe(r: Recorded, s: State) {
    && Owns(r, s)
    && AllGenuine(r, s.bucket, s.loadable) && AllGenuine(r, s.bucket, s.stale)
    && Objects(r, s.bucket)
    && (s.deleted ==> s.file.Absent? && r.s3Only && Stored(r, s.bucket))
    && (s.loadable != {} || s.gone)
    && (s.condemned ==> s.puts == s.lastPuts && (s.marker.Settled? || FailedForGood(s)))
  }

  // What delivery never takes back: no object is replaced or removed.
  ghost predicate Progress(s: State, s': State) {
    && Grows(s.bucket, s'.bucket)
    && s.highest <= s'.highest && s.puts <= s'.puts
    && (s.condemned ==> s'.condemned && s'.lastPuts == s.lastPuts) && (s.deleted ==> s'.deleted)
  }

  predicate Grows(bucket: map<string, Object>, bucket': map<string, Object>) {
    forall k <- bucket :: k in bucket' && bucket'[k] == bucket[k]
  }

  ghost predicate KeysTaken(r: Recorded, bucket: map<string, Object>, from: nat, to: nat)
  {
    forall n | 1 <= n && from <= n < to :: Numbered(r.baseKey, n) in bucket
  }

  lemma MoreKeysTaken(r: Recorded, bucket: map<string, Object>, bucket': map<string, Object>, from: nat, n: nat)
    requires KeysTaken(r, bucket, from, n) && Grows(bucket, bucket') && 1 <= n && Numbered(r.baseKey, n) in bucket'
    ensures KeysTaken(r, bucket', from, n + 1)
  {
  }

  // At most one object ever carries the upload id, and it holds the recording.
  lemma AtMostOneObject(r: Recorded, s: State, k1: string, k2: string)
    requires Safe(r, s) && k1 in s.bucket && k2 in s.bucket
    requires s.bucket[k1].uploadId == r.id == s.bucket[k2].uploadId
    ensures k1 == k2 && s.bucket[k1] == Object(r.id, r.content)
  {
    var n1: nat :| 1 <= n1 && Reached(r, s.bucket, n1) && k1 == Numbered(r.baseKey, n1);
    var n2: nat :| 1 <= n2 && Reached(r, s.bucket, n2) && k2 == Numbered(r.baseKey, n2);
    assert !Taken(r, s.bucket, Numbered(r.baseKey, n1)) && !Taken(r, s.bucket, Numbered(r.baseKey, n2));
  }

  // A recording is sent only while it is ready and unmarked, which a condemned one never is.
  lemma UnmarkedIsNotCondemned(r: Recorded, s: State)
    requires Safe(r, s) && s.t.state == Ready && s.marker.NoMarker?
    ensures !s.condemned
  {
  }

  lemma GrowthKeepsReached(r: Recorded, bucket: map<string, Object>, bucket': map<string, Object>)
    requires Grows(bucket, bucket')
    ensures forall n: nat | Reached(r, bucket, n) :: Reached(r, bucket', n)
    ensures forall key | KeyReached(r, bucket, key) :: KeyReached(r, bucket', key)
    ensures forall g | Genuine(r, bucket, g) :: Genuine(r, bucket', g)
  {
    forall n: nat | Reached(r, bucket, n)
      ensures Reached(r, bucket', n)
    {
      forall m | 1 <= m < n ensures Taken(r, bucket', Numbered(r.baseKey, m)) {
        assert Taken(r, bucket, Numbered(r.baseKey, m));
      }
    }
    forall key | KeyReached(r, bucket, key)
      ensures KeyReached(r, bucket', key)
    {
      var n: nat :| 1 <= n && Reached(r, bucket, n) && key == Numbered(r.baseKey, n);
      assert Reached(r, bucket', n);
    }
  }

  // What recovery makes of an unmarked ticket.
  function AfterRecovery(t: Ticket, at: Interrupted): TicketState {
    if t.state !in {TicketState.Recording, Lost} then t.state
    else match at
      case Gone => if t.dest != "" then Ready else t.state
      case Unknown => t.state
      case NotRegular => TicketState.Failed
      case Size(n) =>
        if n > 0 then (if t.dest == "" then t.state else Ready)
        else if t.syncedBytes == 0 then t.state else Lost
  }

  predicate Dropped(t: Ticket, at: Interrupted) {
    t.state in {TicketState.Recording, Lost} && at.Size? && (if at.bytes == 0 then t.syncedBytes == 0 else t.dest == "")
  }

  // An interrupted recording goes to S3, to be sent or looked for, exactly if it has a destination and
  // its file holds audio or is not there; it fails exactly if something else stands at its path, is
  // found lost exactly if audio that was synced is gone, and is dropped exactly if there is nothing
  // to send or nowhere to send it. Nothing is concluded from a path that cannot be checked.
  lemma RecoveryIsExact(t: Ticket, at: Interrupted)
    requires t.state in {TicketState.Recording, Lost}
    ensures AfterRecovery(t, at) == Ready <==> t.dest != "" && (at.Gone? || (at.Size? && at.bytes > 0))
    ensures AfterRecovery(t, at) == TicketState.Failed <==> at.NotRegular?
    ensures t.state == TicketState.Recording ==> (AfterRecovery(t, at) == Lost <==> at == Size(0) && t.syncedBytes > 0)
    ensures Dropped(t, at) <==> at.Size? && if at.bytes > 0 then t.dest == "" else t.syncedBytes == 0
    ensures at.Unknown? || (at.Gone? && t.dest == "") || Dropped(t, at) ==> AfterRecovery(t, at) == t.state
  {
  }

  // Actions.

  function Foreign(r: Recorded, s: State, more: map<string, Object>): State {
    s.(bucket := (map k | k in more && more[k].uploadId != r.id :: more[k]) + s.bucket)
  }

  function Counted(s: State): State {
    s.(highest := if s.number > s.highest then s.number else s.highest, puts := s.puts + 1)
  }

  function Store(r: Recorded, s: State): State {
    s.(bucket := s.bucket[s.t.key := Object(r.id, r.content)])
  }

  // `next` is durable; `left` is what may still be on disk beside it.
  function Settle(s: State, next: Ticket, left: set<Ticket>, newest: bool): State {
    s.(t := next, loadable := {next}, stale := left, certain := newest, gone := false,
       number := if next.key == s.t.key then s.number else s.number + 1)
  }

  // A write that failed: `next` may be what a start loads, its generation may be used up, and
  // unless nothing of it was left its file is the newest one.
  function Doubt(s: State, next: Ticket, written: bool, advanced: bool, intact: bool): State {
    s.(loadable := if written then s.loadable + {next} else s.loadable,
       t := if advanced then s.t.(gen := next.gen) else s.t,
       certain := s.certain && intact)
  }

  // A state that applies in memory only.
  function Applied(s: State, state: TicketState, attempts: nat): State {
    s.(t := s.t.(state := state, attempts := attempts))
  }

  // The older generations are being removed, and the newest may be.
  function RemovalBegun(s: State): State {
    s.(loadable := if s.certain then s.loadable else s.loadable + s.stale, gone := true)
  }

  function Removed(s: State): State {
    s.(kept := false, loadable := {}, stale := {}, gone := true)
  }

  // A start loads `l`, whose content is synced or not, and leaves `left` beside it.
  function Load(s: State, l: Ticket, number: nat, synced: bool, left: set<Ticket>, newest: bool): State {
    s.(kept := true, t := l, number := number,
       loadable := if synced then {l} else {l} + left,
       stale := if synced then left else {},
       certain := synced && newest, gone := !synced)
  }

  function Condemn(s: State): State {
    s.(condemned := true, lastPuts := if s.condemned then s.lastPuts else s.puts)
  }

  function DeleteFile(s: State): State {
    s.(file := Absent, deleted := true)
  }

  // Whether the owner may write `next` as the following generation.
  ghost predicate MayFollow(r: Recorded, s: State, next: Ticket) {
    && s.kept && Of(r, next)
    && (next.key == s.t.key || (next.key == Numbered(r.baseKey, s.number + 1) && TakenByAnother(r, s)))
    && (next.state == Delivered ==> next.key == s.t.key && InS3(r, s))
    && (s.condemned ==> s.marker.Settled?)
  }

  // One atomic step of a process, of other writers or of a crash.
  datatype Action =
    | OthersWrite(more: map<string, Object>)
    | SendFails
    | SendStores
    | PersistSettles(next: Ticket, left: set<Ticket>, newest: bool)
    | PersistFails(next: Ticket, written: bool, advanced: bool, intact: bool)
    | MemoryApplies(state: TicketState, attempts: nat)
    | MarkerBecomes(marker: Marker)
    | Condemns
    | FileDeleted
    | EmptyFileRemoved
    | RemovalFails
    | RemovalDone
    | Restarts(l: Ticket, number: nat, synced: bool, left: set<Ticket>, newest: bool)
    | StartsWithout

  // A start that can load only one generation, and not nothing, loads synced content: that of
  // Directory.CertainIsSynced.
  ghost predicate MayLoad(r: Recorded, s: State, l: Ticket, number: nat, synced: bool, left: set<Ticket>) {
    && l in s.loadable && left <= s.loadable + s.stale
    && 1 <= number && l.key == Numbered(r.baseKey, number)
    && (s.loadable == {l} && !s.gone ==> synced)
  }

  ghost predicate Enabled(r: Recorded, s: State, a: Action) {
    match a
    case OthersWrite(_) => true
    case SendFails => s.kept && s.t.state == Ready && s.marker.NoMarker?
    case SendStores => s.kept && s.t.state == Ready && s.marker.NoMarker? && s.t.key !in s.bucket
    case PersistSettles(next, left, _) => MayFollow(r, s, next) && left <= s.loadable + s.stale
    case PersistFails(next, _, _, _) => MayFollow(r, s, next)
    case MemoryApplies(state, _) => s.kept && (state == Delivered ==> InS3(r, s)) && (s.condemned ==> s.marker.Settled?)
    case MarkerBecomes(_) => !s.marker.Settled?
    case Condemns => s.marker.Settled? || FailedForGood(s)
    case FileDeleted => s.kept && s.t.state == Delivered && r.s3Only
    case EmptyFileRemoved => s.kept && s.t.state in {TicketState.Recording, Lost}
    case RemovalFails => s.kept && s.t.state != TicketState.Failed
    case RemovalDone => s.kept && s.t.state != TicketState.Failed
    case Restarts(l, number, synced, left, _) => MayLoad(r, s, l, number, synced, left)
    case StartsWithout => s.gone
  }

  function After(r: Recorded, s: State, a: Action): State {
    match a
    case OthersWrite(more) => Foreign(r, s, more)
    case SendFails => Counted(s)
    case SendStores => Store(r, Counted(s))
    case PersistSettles(next, left, newest) => Settle(s, next, left, newest)
    case PersistFails(next, written, advanced, intact) => Doubt(s, next, written, advanced, intact)
    case MemoryApplies(state, attempts) => Applied(s, state, attempts)
    case MarkerBecomes(marker) => s.(marker := marker)
    case Condemns => Condemn(s)
    case FileDeleted => DeleteFile(s)
    case EmptyFileRemoved => s.(file := Absent)
    case RemovalFails => RemovalBegun(s)
    case RemovalDone => Removed(s)
    case Restarts(l, number, synced, left, newest) => Load(s, l, number, synced, left, newest)
    case StartsWithout => Removed(s)
  }

  // What each action keeps.

  lemma ForeignKeepsSafe(r: Recorded, s: State, more: map<string, Object>)
    requires Safe(r, s)
    ensures Safe(r, Foreign(r, s, more)) && Progress(s, Foreign(r, s, more))
    ensures InS3(r, s) ==> InS3(r, Foreign(r, s, more))
    ensures TakenByAnother(r, s) ==> TakenByAnother(r, Foreign(r, s, more))
  {
    GrowthKeepsReached(r, s.bucket, Foreign(r, s, more).bucket);
  }

  lemma ForeignKeepsObjects(r: Recorded, s: State, more: map<string, Object>)
    ensures Grows(s.bucket, Foreign(r, s, more).bucket)
    ensures InS3(r, s) ==> InS3(r, Foreign(r, s, more))
    ensures TakenByAnother(r, s) ==> TakenByAnother(r, Foreign(r, s, more))
  {
  }

  lemma CountedKeepsSafe(r: Recorded, s: State)
    requires Safe(r, s) && s.t.state == Ready && s.marker.NoMarker?
    ensures Safe(r, Counted(s)) && Progress(s, Counted(s))
  {
    UnmarkedIsNotCondemned(r, s);
  }

  // A PUT that finds its key free makes the object.
  lemma StoreKeepsSafe(r: Recorded, s: State)
    requires Safe(r, s) && s.t.key !in s.bucket
    ensures Safe(r, Store(r, s)) && Progress(s, Store(r, s)) && InS3(r, Store(r, s))
  {
    GrowthKeepsReached(r, s.bucket, Store(r, s).bucket);
  }

  lemma FollowerIsGenuine(r: Recorded, s: State, next: Ticket)
    requires Owns(r, s) && MayFollow(r, s, next)
    ensures Genuine(r, s.bucket, next)
    ensures next.key != s.t.key ==> Reached(r, s.bucket, s.number + 1)
  {
    if next.key != s.t.key {
      assert Reached(r, s.bucket, s.number + 1);
    }
  }

  lemma SettleKeepsSafe(r: Recorded, s: State, next: Ticket, left: set<Ticket>, newest: bool)
    requires Safe(r, s) && MayFollow(r, s, next) && left <= s.loadable + s.stale
    ensures Safe(r, Settle(s, next, left, newest)) && Progress(s, Settle(s, next, left, newest))
  {
    FollowerIsGenuine(r, s, next);
  }

  lemma DoubtKeepsSafe(r: Recorded, s: State, next: Ticket, written: bool, advanced: bool, intact: bool)
    requires Safe(r, s) && MayFollow(r, s, next)
    ensures Safe(r, Doubt(s, next, written, advanced, intact)) && Progress(s, Doubt(s, next, written, advanced, intact))
  {
    FollowerIsGenuine(r, s, next);
  }

  lemma AppliedKeepsSafe(r: Recorded, s: State, state: TicketState, attempts: nat)
    requires Safe(r, s) && Enabled(r, s, MemoryApplies(state, attempts))
    ensures Safe(r, Applied(s, state, attempts)) && Progress(s, Applied(s, state, attempts))
  {
  }

  lemma RemovalKeepsSafe(r: Recorded, s: State)
    requires Safe(r, s) && s.t.state != TicketState.Failed
    ensures Safe(r, RemovalBegun(s)) && Progress(s, RemovalBegun(s))
  {
  }

  lemma RemovedKeepsSafe(r: Recorded, s: State)
    requires Safe(r, s) && (s.t.state != TicketState.Failed || s.gone)
    ensures Safe(r, Removed(s)) && Progress(s, Removed(s))
  {
  }

  lemma CondemnKeepsSafe(r: Recorded, s: State)
    requires Safe(r, s) && (s.marker.Settled? || FailedForGood(s))
    ensures Safe(r, Condemn(s)) && Progress(s, Condemn(s))
  {
  }

  // A marker that is not settled yet can go either way; a settled one stays.
  lemma MarkerKeepsSafe(r: Recorded, s: State, marker: Marker)
    requires Safe(r, s) && !s.marker.Settled?
    ensures Safe(r, s.(marker := marker)) && Progress(s, s.(marker := marker))
  {
  }

  lemma DeleteFileKeepsSafe(r: Recorded, s: State)
    requires Safe(r, s) && s.t.state == Delivered && r.s3Only
    ensures Safe(r, DeleteFile(s)) && Progress(s, DeleteFile(s))
  {
  }

  lemma LoadKeepsSafe(r: Recorded, s: State, l: Ticket, number: nat, synced: bool, left: set<Ticket>, newest: bool)
    requires Safe(r, s) && MayLoad(r, s, l, number, synced, left)
    ensures Safe(r, Load(s, l, number, synced, left, newest)) && Progress(s, Load(s, l, number, synced, left, newest))
  {
    assert Genuine(r, s.bucket, l);
    var n: nat :| 1 <= n && Reached(r, s.bucket, n) && l.key == Numbered(r.baseKey, n);
    NumberedIsInjective(r.baseKey, n, number);
  }

  lemma SendKeepsSafe(r: Recorded, s: State)
    requires Safe(r, s) && s.t.state == Ready && s.marker.NoMarker? && s.t.key !in s.bucket
    ensures Safe(r, Store(r, Counted(s))) && Progress(s, Store(r, Counted(s)))
  {
    CountedKeepsSafe(r, s);
    StoreKeepsSafe(r, Counted(s));
  }

  lemma FileGoneKeepsSafe(r: Recorded, s: State)
    requires Safe(r, s)
    ensures Safe(r, s.(file := Absent)) && Progress(s, s.(file := Absent))
  {
  }

  // The actions of the recording's owner on its file, its marker and S3.
  lemma OwnerKeepsSafe(r: Recorded, s: State, a: Action)
    requires Safe(r, s) && Enabled(r, s, a)
    requires a.SendFails? || a.SendStores? || a.MarkerBecomes? || a.Condemns? || a.FileDeleted? || a.EmptyFileRemoved?
    ensures Safe(r, After(r, s, a)) && Progress(s, After(r, s, a))
  {
    match a
    case SendFails => CountedKeepsSafe(r, s);
    case SendStores => SendKeepsSafe(r, s);
    case MarkerBecomes(marker) => MarkerKeepsSafe(r, s, marker);
    case Condemns => CondemnKeepsSafe(r, s);
    case FileDeleted => DeleteFileKeepsSafe(r, s);
    case EmptyFileRemoved => FileGoneKeepsSafe(r, s);
  }

  predicate OfOutbox(a: Action) {
    a.PersistSettles? || a.PersistFails? || a.MemoryApplies? || a.RemovalFails? || a.RemovalDone?
  }

  // Changes of the ticket.
  lemma OutboxKeepsSafe(r: Recorded, s: State, a: Action)
    requires Safe(r, s) && Enabled(r, s, a) && OfOutbox(a)
    ensures Safe(r, After(r, s, a)) && Progress(s, After(r, s, a))
  {
    match a
    case PersistSettles(next, left, newest) => SettleKeepsSafe(r, s, next, left, newest);
    case PersistFails(next, written, advanced, intact) => DoubtKeepsSafe(r, s, next, written, advanced, intact);
    case MemoryApplies(state, attempts) => AppliedKeepsSafe(r, s, state, attempts);
    case RemovalFails => RemovalKeepsSafe(r, s);
    case RemovalDone => RemovedKeepsSafe(r, s);
  }

  lemma StartKeepsSafe(r: Recorded, s: State, a: Action)
    requires Safe(r, s) && Enabled(r, s, a) && (a.Restarts? || a.StartsWithout?)
    ensures Safe(r, After(r, s, a)) && Progress(s, After(r, s, a))
  {
    match a
    case Restarts(l, number, synced, left, newest) => LoadKeepsSafe(r, s, l, number, synced, left, newest);
    case StartsWithout => RemovedKeepsSafe(r, s);
  }

  lemma StepKeepsSafe(r: Recorded, s: State, a: Action)
    requires Safe(r, s) && Enabled(r, s, a)
    ensures Safe(r, After(r, s, a)) && Progress(s, After(r, s, a))
  {
    if a.OthersWrite? {
      ForeignKeepsSafe(r, s, a.more);
    } else if OfOutbox(a) {
      OutboxKeepsSafe(r, s, a);
    } else if a.Restarts? || a.StartsWithout? {
      StartKeepsSafe(r, s, a);
    } else {
      OwnerKeepsSafe(r, s, a);
    }
  }

  function Run(r: Recorded, s: State, actions: seq<Action>): State {
    if actions == [] then s else After(r, Run(r, s, actions[..|actions| - 1]), actions[|actions| - 1])
  }

  // The actions can happen one after the other, from a safe state on.
  ghost predicate Runs(r: Recorded, s: State, actions: seq<Action>) {
    if actions == [] then Safe(r, s)
    else
      && Runs(r, s, actions[..|actions| - 1])
      && Enabled(r, Run(r, s, actions[..|actions| - 1]), actions[|actions| - 1])
  }

  lemma RunsGrow(r: Recorded, s: State, actions: seq<Action>, a: Action)
    requires Runs(r, s, actions) && Enabled(r, Run(r, s, actions), a)
    ensures Runs(r, s, actions + [a]) && Run(r, s, actions + [a]) == After(r, Run(r, s, actions), a)
  {
    assert (actions + [a])[..|actions|] == actions;
  }

  lemma {:induction false} LaterIsProgress(r: Recorded, s: State, actions: seq<Action>, more: seq<Action>)
    requires Runs(r, s, more) && actions <= more
    ensures Progress(Run(r, s, actions), Run(r, s, more))
    decreases |more|
  {
    if |actions| < |more| {
      var before := more[..|more| - 1];
      LaterIsProgress(r, s, actions, before);
      RunsAreSafe(r, s, before);
      StepKeepsSafe(r, Run(r, s, before), more[|more| - 1]);
      ProgressIsTransitive(Run(r, s, actions), Run(r, s, before), Run(r, s, more));
    } else {
      assert actions == more;
    }
  }

  // After any run: the state is safe, nothing was taken back, and a condemned recording was not
  // sent again.
  lemma {:induction false} RunsAreSafe(r: Recorded, s: State, actions: seq<Action>)
    requires Runs(r, s, actions)
    ensures Safe(r, Run(r, s, actions))
    ensures Progress(s, Run(r, s, actions))
    ensures s.condemned ==> Run(r, s, actions).puts == s.puts
  {
    if actions != [] {
      var before := actions[..|actions| - 1];
      RunsAreSafe(r, s, before);
      StepKeepsSafe(r, Run(r, s, before), actions[|actions| - 1]);
      ProgressIsTransitive(s, Run(r, s, before), Run(r, s, actions));
    }
  }

  lemma ProgressIsTransitive(s1: State, s2: State, s3: State)
    requires Progress(s1, s2) && Progress(s2, s3)
    ensures Progress(s1, s3)
  {
  }

  // Where a start finds the object.

  // A start goes on under the current key, or under the next one if the current is another writer's.
  ghost predicate MayStart(r: Recorded, s: State, key: string) {
    key == s.t.key || (TakenByAnother(r, s) && key == Numbered(r.baseKey, s.number + 1))
  }

  // What a start may load agrees with where the object is or goes; no key was tried beyond it.
  ghost predicate Aligned(r: Recorded, s: State) {
    && (forall l <- s.loadable :: MayStart(r, s, l.key))
    && (forall k <- s.bucket | s.bucket[k].uploadId == r.id :: k == s.t.key)
    && s.highest <= s.number
  }

  // The object is under the key of everything a start may load.
  ghost predicate UnderEveryKey(r: Recorded, s: State) {
    forall k, l | k in s.bucket && s.bucket[k].uploadId == r.id && l in s.loadable :: l.key == k
  }

  // A removal begins with the newest file certain, or with no generation left that would go on
  // elsewhere; a start loads synced content, or leaves none such.
  ghost predicate Careful(r: Recorded, s: State, a: Action) {
    match a
    case RemovalFails => s.certain || forall x <- s.stale :: MayStart(r, s, x.key)
    case Restarts(l, number, synced, left, _) =>
      synced || forall x <- left :: x.key == l.key || (Taken(r, s.bucket, l.key) && x.key == Numbered(r.baseKey, number + 1))
    case _ => true
  }

  lemma AlignedIsUnderEveryKey(r: Recorded, s: State)
    requires Aligned(r, s)
    ensures UnderEveryKey(r, s)
  {
  }

  lemma LoadGoesOn(r: Recorded, s: State, l: Ticket, number: nat)
    requires Owns(r, s) && MayStart(r, s, l.key) && 1 <= number && l.key == Numbered(r.baseKey, number)
    ensures number == if l.key == s.t.key then s.number else s.number + 1
  {
    NumberedIsInjective(r.baseKey, number, if l.key == s.t.key then s.number else s.number + 1);
  }

  lemma CarefulLoadIsAligned(r: Recorded, s: State, l: Ticket, number: nat, synced: bool, left: set<Ticket>, newest: bool)
    requires Owns(r, s) && Aligned(r, s) && MayLoad(r, s, l, number, synced, left)
    requires Careful(r, s, Restarts(l, number, synced, left, newest))
    ensures Aligned(r, Load(s, l, number, synced, left, newest))
  {
    LoadGoesOn(r, s, l, number);
    assert forall k <- s.bucket | s.bucket[k].uploadId == r.id :: k == l.key;
  }

  lemma AlignedLoadIsCareful(r: Recorded, s: State, l: Ticket, number: nat, synced: bool, left: set<Ticket>, newest: bool)
    requires Aligned(r, Load(s, l, number, synced, left, newest))
    ensures Careful(r, s, Restarts(l, number, synced, left, newest))
  {
    var s' := Load(s, l, number, synced, left, newest);
    if !synced {
      forall x <- left ensures MayStart(r, s', x.key) {
        assert x in s'.loadable;
      }
    }
  }

  lemma LoadIsAlignedIff(r: Recorded, s: State, l: Ticket, number: nat, synced: bool, left: set<Ticket>, newest: bool)
    requires Owns(r, s) && Aligned(r, s) && MayLoad(r, s, l, number, synced, left)
    ensures s.number <= number
    ensures Aligned(r, Load(s, l, number, synced, left, newest)) <==> Careful(r, s, Restarts(l, number, synced, left, newest))
  {
    LoadGoesOn(r, s, l, number);
    if Careful(r, s, Restarts(l, number, synced, left, newest)) {
      CarefulLoadIsAligned(r, s, l, number, synced, left, newest);
    } else if Aligned(r, Load(s, l, number, synced, left, newest)) {
      AlignedLoadIsCareful(r, s, l, number, synced, left, newest);
    }
  }

  lemma RemovalIsAlignedIff(r: Recorded, s: State)
    requires Aligned(r, s)
    ensures Aligned(r, RemovalBegun(s)) <==> s.certain || forall x <- s.stale :: MayStart(r, s, x.key)
  {
    var s' := RemovalBegun(s);
    if !s.certain && Aligned(r, s') {
      forall x <- s.stale ensures MayStart(r, s, x.key) {
        assert x in s'.loadable && MayStart(r, s', x.key);
      }
    }
  }

  lemma ForeignIsAligned(r: Recorded, s: State, more: map<string, Object>)
    requires Aligned(r, s)
    ensures Aligned(r, Foreign(r, s, more))
  {
    var s' := Foreign(r, s, more);
    forall l <- s'.loadable ensures MayStart(r, s', l.key) {
      assert MayStart(r, s, l.key);
    }
  }

  lemma SettleIsAligned(r: Recorded, s: State, next: Ticket, left: set<Ticket>, newest: bool)
    requires Aligned(r, s) && MayFollow(r, s, next)
    ensures Aligned(r, Settle(s, next, left, newest)) && s.number <= Settle(s, next, left, newest).number
  {
  }

  lemma DoubtIsAligned(r: Recorded, s: State, next: Ticket, written: bool, advanced: bool, intact: bool)
    requires Aligned(r, s) && MayFollow(r, s, next)
    ensures Aligned(r, Doubt(s, next, written, advanced, intact))
  {
  }

  // What a send changes: neither what a start may load nor the ticket's key.
  lemma SentIsAligned(r: Recorded, s: State)
    requires Aligned(r, s)
    ensures Aligned(r, Counted(s))
    ensures s.t.key !in s.bucket ==> Aligned(r, Store(r, Counted(s)))
  {
  }

  predicate LeavesKeysAlone(a: Action) {
    a.MemoryApplies? || a.MarkerBecomes? || a.Condemns? || a.FileDeleted? || a.EmptyFileRemoved? || a.RemovalDone? || a.StartsWithout?
  }

  lemma RestIsAligned(r: Recorded, s: State, a: Action)
    requires Aligned(r, s) && LeavesKeysAlone(a)
    ensures Aligned(r, After(r, s, a)) && s.number == After(r, s, a).number
  {
  }

  // Over a step the object stays under the key a start goes on with exactly if the step is careful.
  lemma StepIsAlignedIff(r: Recorded, s: State, a: Action)
    requires Safe(r, s) && Aligned(r, s) && Enabled(r, s, a)
    ensures s.number <= After(r, s, a).number
    ensures Aligned(r, After(r, s, a)) <==> Careful(r, s, a)
  {
    match a
    case OthersWrite(more) => ForeignIsAligned(r, s, more);
    case SendFails => SentIsAligned(r, s);
    case SendStores => SentIsAligned(r, s);
    case PersistSettles(next, left, newest) => SettleIsAligned(r, s, next, left, newest);
    case PersistFails(next, written, advanced, intact) => DoubtIsAligned(r, s, next, written, advanced, intact);
    case RemovalFails => RemovalIsAlignedIff(r, s);
    case Restarts(l, number, synced, left, newest) => LoadIsAlignedIff(r, s, l, number, synced, left, newest);
    case _ => RestIsAligned(r, s, a);
  }

  ghost predicate CarefulRun(r: Recorded, s: State, actions: seq<Action>) {
    actions != [] ==>
      && CarefulRun(r, s, actions[..|actions| - 1])
      && Careful(r, Run(r, s, actions[..|actions| - 1]), actions[|actions| - 1])
  }

  // After any careful run the object, if there is one, sits under the key of every generation a
  // start may load, key numbers never went back, and none beyond the current one was tried.
  lemma {:induction false} CarefulRunsAreAligned(r: Recorded, s: State, actions: seq<Action>)
    requires Aligned(r, s) && Runs(r, s, actions) && CarefulRun(r, s, actions)
    ensures Aligned(r, Run(r, s, actions)) && UnderEveryKey(r, Run(r, s, actions))
    ensures s.number <= Run(r, s, actions).number
  {
    if actions == [] {
      AlignedIsUnderEveryKey(r, s);
    } else {
      var before := actions[..|actions| - 1];
      CarefulRunsAreAligned(r, s, before);
      RunsAreSafe(r, s, before);
      StepIsAlignedIff(r, Run(r, s, before), actions[|actions| - 1]);
      AlignedIsUnderEveryKey(r, Run(r, s, actions));
    }
  }

  // A removal that fails after the delivery leaves the object under every key a start may load
  // exactly if the newest file was certain (the write before the removal was durable), or no
  // generation that is not erased yet carries another key.
  lemma RemovalKeepsKeyIff(r: Recorded, s: State)
    requires Safe(r, s) && Aligned(r, s) && InS3(r, s)
    ensures UnderEveryKey(r, RemovalBegun(s)) <==> s.certain || forall x <- s.stale :: x.key == s.t.key
  {
    var s' := RemovalBegun(s);
    if UnderEveryKey(r, s') && !s.certain {
      forall x <- s.stale ensures x.key == s.t.key {
        assert x in s'.loadable && s.t.key in s'.bucket;
      }
    }
  }

  // The same for a start on a delivered recording that loads content which was never synced.
  lemma StartKeepsKeyIff(r: Recorded, s: State, l: Ticket, number: nat, synced: bool, left: set<Ticket>, newest: bool)
    requires Safe(r, s) && Aligned(r, s) && InS3(r, s) && MayLoad(r, s, l, number, synced, left)
    ensures UnderEveryKey(r, Load(s, l, number, synced, left, newest)) <==> synced || forall x <- left :: x.key == s.t.key
  {
    var s' := Load(s, l, number, synced, left, newest);
    assert l.key == s.t.key;
    if UnderEveryKey(r, s') && !synced {
      forall x <- left ensures x.key == s.t.key {
        assert x in s'.loadable && s.t.key in s'.bucket;
      }
    }
  }

  // A ready recording without a file, under a key that is another writer's: every check of the key
  // finds an object that is not its own.
  ghost predicate Stranded(r: Recorded, s: State) {
    s.kept && s.t.state == Ready && s.file.Absent? && TakenByAnother(r, s)
  }

  // What a reserved output begins with.
  function Reserved(t: Ticket, bucket: map<string, Object>): State {
    State(bucket, Whole, NoMarker, t, true, {t}, {}, true, false, false, false, 1, 0, 0, 0)
  }

  ghost predicate IsReservation(r: Recorded, t: Ticket, bucket: map<string, Object>) {
    Of(r, t) && t.state == TicketState.Recording && t.key == r.baseKey && forall k <- bucket :: bucket[k].uploadId != r.id
  }

  lemma ReservedIsSafe(r: Recorded, t: Ticket, bucket: map<string, Object>)
    requires IsReservation(r, t, bucket)
    ensures Safe(r, Reserved(t, bucket)) && Aligned(r, Reserved(t, bucket))
  {
    assert Reached(r, bucket, 1) && t.key == Numbered(r.baseKey, 1);
  }

  ghost predicate Reaches(r: Recorded, s: State, s': State) {
    exists actions :: Runs(r, s, actions) && Run(r, s, actions) == s'
  }

  lemma StartReaches(r: Recorded, s: State)
    requires Safe(r, s)
    ensures Reaches(r, s, s)
  {
    assert Runs(r, s, []) && Run(r, s, []) == s;
  }

  lemma OneMoreStep(r: Recorded, s: State, s': State, a: Action, s'': State)
    requires Reaches(r, s, s') && Enabled(r, s', a) && After(r, s', a) == s''
    ensures Reaches(r, s, s'')
  {
    var actions :| Runs(r, s, actions) && Run(r, s, actions) == s';
    RunsGrow(r, s, actions, a);
  }

  // A recording that is in S3 can end stranded. Its key is taken before it is sent.
  ghost function KeyTakenState(r: Recorded, ready: Ticket, other: Object): State {
    State(map[r.baseKey := other], Whole, NoMarker, ready, true, {ready}, {}, true, false, false, false, 1, 1, 1, 0)
  }

  // It is sent under the next key, while the generation with the first key is not erased yet.
  ghost function SentState(r: Recorded, ready: Ticket, moved: Ticket, other: Object): State {
    State(map[r.baseKey := other, moved.key := Object(r.id, r.content)], Whole, NoMarker, moved, true,
          {moved}, {ready}, true, false, false, false, 2, 2, 2, 0)
  }

  // The write of the delivered state fails to sync the directory, and the local file is removed.
  ghost function DeliveredState(r: Recorded, ready: Ticket, moved: Ticket, delivered: Ticket, other: Object): State {
    SentState(r, ready, moved, other).(loadable := {moved, delivered}, t := delivered, certain := false,
                                       file := Absent, deleted := true)
  }

  // The removal of the ticket fails half-way, and a power cut brings back the first generation.
  ghost function StrandedState(r: Recorded, ready: Ticket, moved: Ticket, other: Object): State {
    State(map[r.baseKey := other, moved.key := Object(r.id, r.content)], Absent, NoMarker, ready, true,
          {ready}, {}, true, false, false, true, 1, 2, 2, 0)
  }

  // The generations of such a run.
  ghost predicate Lineage(r: Recorded, t: Ticket, ready: Ticket, moved: Ticket, delivered: Ticket) {
    && IsReservation(r, t, map[])
    && ready == t.(state := Ready, gen := t.gen + 1)
    && moved == ready.(key := Numbered(r.baseKey, 2), gen := t.gen + 2) && moved.key != r.baseKey
    && delivered == moved.(state := Delivered, gen := t.gen + 3)
  }

  lemma KeyIsTaken(r: Recorded, t: Ticket, ready: Ticket, moved: Ticket, delivered: Ticket, other: Object)
    requires Lineage(r, t, ready, moved, delivered) && other.uploadId != r.id
    ensures Reaches(r, Reserved(t, map[]), KeyTakenState(r, ready, other))
  {
    var s0 := Reserved(t, map[]);
    ReservedIsSafe(r, t, map[]);
    StartReaches(r, s0);
    var s1 := s0.(t := ready, loadable := {ready});
    OneMoreStep(r, s0, s0, PersistSettles(ready, {}, true), s1);
    var s2 := s1.(bucket := map[r.baseKey := other]);
    assert Foreign(r, s1, map[r.baseKey := other]).bucket == s2.bucket;
    OneMoreStep(r, s0, s1, OthersWrite(map[r.baseKey := other]), s2);
    OneMoreStep(r, s0, s2, SendFails, KeyTakenState(r, ready, other));
  }

  lemma NextKeyIsSent(r: Recorded, s0: State, t: Ticket, ready: Ticket, moved: Ticket, delivered: Ticket, other: Object)
    requires Lineage(r, t, ready, moved, delivered) && other.uploadId != r.id
    requires Reaches(r, s0, KeyTakenState(r, ready, other))
    ensures Reaches(r, s0, SentState(r, ready, moved, other))
  {
    var s1 := KeyTakenState(r, ready, other);
    var s2 := s1.(t := moved, loadable := {moved}, stale := {ready}, number := 2);
    OneMoreStep(r, s0, s1, PersistSettles(moved, {ready}, true), s2);
    assert s2.bucket[moved.key := Object(r.id, r.content)] == SentState(r, ready, moved, other).bucket;
    OneMoreStep(r, s0, s2, SendStores, SentState(r, ready, moved, other));
  }

  lemma SaveFails(r: Recorded, s0: State, t: Ticket, ready: Ticket, moved: Ticket, delivered: Ticket, other: Object)
    requires Lineage(r, t, ready, moved, delivered) && r.s3Only
    requires Reaches(r, s0, SentState(r, ready, moved, other))
    ensures Reaches(r, s0, DeliveredState(r, ready, moved, delivered, other))
  {
    var s1 := SentState(r, ready, moved, other);
    var s2 := s1.(loadable := {moved, delivered}, t := moved.(gen := delivered.gen), certain := false);
    OneMoreStep(r, s0, s1, PersistFails(delivered, true, true, false), s2);
    var s3 := s2.(t := delivered);
    OneMoreStep(r, s0, s2, MemoryApplies(Delivered, t.attempts), s3);
    OneMoreStep(r, s0, s3, FileDeleted, DeliveredState(r, ready, moved, delivered, other));
  }

  lemma RemovalFailsHalfWay(r: Recorded, s0: State, t: Ticket, ready: Ticket, moved: Ticket, delivered: Ticket, other: Object)
    requires Lineage(r, t, ready, moved, delivered)
    requires Reaches(r, s0, DeliveredState(r, ready, moved, delivered, other))
    ensures Reaches(r, s0, StrandedState(r, ready, moved, other))
  {
    var s1 := DeliveredState(r, ready, moved, delivered, other);
    var s2 := s1.(loadable := {moved, delivered, ready}, gone := true);
    OneMoreStep(r, s0, s1, RemovalFails, s2);
    OneMoreStep(r, s0, s2, Restarts(ready, 1, true, {}, true), StrandedState(r, ready, moved, other));
  }

  lemma FailedSaveStrandsARecording(r: Recorded, t: Ticket, other: Object) returns (s: State)
    requires IsReservation(r, t, map[]) && r.s3Only && other.uploadId != r.id
    ensures Reaches(r, Reserved(t, map[]), s) && Stranded(r, s) && Has(r, s.bucket, Numbered(r.baseKey, 2))
  {
    var ready := t.(state := Ready, gen := t.gen + 1);
    var moved := ready.(key := Numbered(r.baseKey, 2), gen := t.gen + 2);
    var delivered := moved.(state := Delivered, gen := t.gen + 3);
    var s0 := Reserved(t, map[]);
    NumberedIsInjective(r.baseKey, 1, 2);
    KeyIsTaken(r, t, ready, moved, delivered, other);
    NextKeyIsSent(r, s0, t, ready, moved, delivered, other);
    SaveFails(r, s0, t, ready, moved, delivered, other);
    RemovalFailsHalfWay(r, s0, t, ready, moved, delivered, other);
    s := StrandedState(r, ready, moved, other);
  }

  lemma NumberOfLoadable(r: Recorded, s: State, l: Ticket)
    requires Safe(r, s) && l in s.loadable
    ensures 1 <= KeyNumber(r.baseKey, l.key) && l.key == Numbered(r.baseKey, KeyNumber(r.baseKey, l.key))
  {
    assert Genuine(r, s.bucket, l);
    var n: nat :| 1 <= n && Reached(r, s.bucket, n) && l.key == Numbered(r.baseKey, n);
    KeyNumberReadsBack(r.baseKey, n);
  }

  // What an upload leaves as it is.
  ghost predicate Sending(s: State, s': State) {
    && s'.file == s.file && s'.marker == s.marker && s'.kept == s.kept && s'.condemned == s.condemned
    && s'.deleted == s.deleted && s'.lastPuts == s.lastPuts
    && s'.t == s.t.(gen := s'.t.gen, key := s'.t.key)
    && Grows(s.bucket, s'.bucket)
  }

  // What a write of the ticket leaves as it is.
  ghost predicate Writing(s: State, s': State) {
    && s'.bucket == s.bucket && s'.file == s.file && s'.marker == s.marker && s'.kept == s.kept
    && s'.condemned == s.condemned && s'.deleted == s.deleted
    && s'.number == s.number && s'.highest == s.highest && s'.puts == s.puts && s'.lastPuts == s.lastPuts
  }

  lemma PersistIsWriting(s: State, s': State, next: Ticket, ok: bool)
    requires next.key == s.t.key
    requires ok ==> s' == Settle(s, next, s'.stale, s'.certain)
    requires !ok ==> s' == Doubt(s, next, s'.loadable != s.loadable, s'.t.gen != s.t.gen, s'.certain)
    ensures Writing(s, s') && (!ok ==> s'.t == s.t.(gen := s'.t.gen))
  {
  }

  class Delivery {
    const r: Recorded
    var s: State
    ghost const start: State
    ghost var log: seq<Action>
    ghost var faults: nat

    // Whatever the methods did was a run of actions, from a safe state on.
    ghost predicate Valid()
      reads `s, `log
    {
      Runs(r, start, log) && s == Run(r, start, log)
    }

    lemma IsSafe()
      requires Valid()
      ensures Safe(r, s)
    {
      RunsAreSafe(r, start, log);
    }

    lemma IsOwner()
      requires Valid()
      ensures Of(r, s.t) && s.number >= 1 && s.t.key == Numbered(r.baseKey, s.number)
      ensures s.t.state == Delivered ==> InS3(r, s)
      ensures s.condemned && s.t.state != TicketState.Failed ==> s.marker.Settled?
      ensures s.loadable != {} || s.gone
      ensures forall k <- s.bucket | s.bucket[k].uploadId == r.id :: s.bucket[k].content == r.content
    {
      IsSafe();
    }

    twostate predicate Faultless()
      reads `faults
    {
      faults == old(faults)
    }

    // Only actions happened.
    twostate predicate Acted()
      reads `log
    {
      old(log) <= log
    }

    // Nothing they did is taken back.
    twostate lemma TookNothingBack()
      requires old(Valid()) && Valid() && Acted()
      ensures Progress(old(s), s)
    {
      LaterIsProgress(r, start, old(log), log);
    }

    // A reserved output: its ticket is the first generation.
    constructor (t: Ticket, content: Bytes, bucket: map<string, Object>)
      requires t.state == TicketState.Recording && t.key == t.baseKey
      requires forall k <- bucket :: bucket[k].uploadId != t.id
      ensures Valid() && s == Reserved(t, bucket) == start && log == [] && Aligned(r, s)
      ensures r == Recorded(t.id, t.baseKey, content, t.path, t.dest, t.deleteAfterUpload)
    {
      r := Recorded(t.id, t.baseKey, content, t.path, t.dest, t.deleteAfterUpload);
      s, start := Reserved(t, bucket), Reserved(t, bucket);
      log, faults := [], 0;
      new;
      ReservedIsSafe(r, t, bucket);
    }

    method Do(a: Action)
      requires Valid() && Enabled(r, s, a)
      modifies `s, `log
      ensures Valid() && s == After(r, old(s), a) && log == old(log) + [a]
    {
      RunsGrow(r, start, log, a);
      s := After(r, s, a);
      log := log + [a];
    }

    method Works() returns (ok: bool)
      modifies `faults
      ensures faults == if ok then old(faults) else old(faults) + 1
    {
      ok := *;
      if !ok {
        faults := faults + 1;
      }
    }

    method Others()
      requires Valid()
      modifies `s, `log
      ensures Valid() && Acted() && s == old(s).(bucket := s.bucket) && Grows(old(s).bucket, s.bucket)
      ensures InS3(r, old(s)) ==> InS3(r, s)
      ensures TakenByAnother(r, old(s)) ==> TakenByAnother(r, s)
    {
      var more: map<string, Object> := *;
      ForeignKeepsObjects(r, s, more);
      Do(OthersWrite(more));
    }

    // The body is sent, and the object may be made.
    method Transmit(stores: bool)
      requires Valid() && s.kept && s.t.state == Ready && s.marker.NoMarker? && (stores ==> s.t.key !in s.bucket)
      modifies `s, `log
      ensures Valid() && Acted() && Grows(old(s).bucket, s.bucket)
      ensures s == old(s).(bucket := s.bucket, highest := s.highest, puts := old(s).puts + 1) && s.highest >= s.number
      ensures if stores then InS3(r, s) else s.bucket == old(s).bucket
    {
      if stores {
        Do(SendStores);
      } else {
        Do(SendFails);
      }
    }

    // A conditional PUT (If-None-Match: *, section 13.1.2 of RFC 9110) of the whole recording. It
    // takes effect at once or not at all; its answer may be lost, and an SDK retry can turn a lost
    // answer into a conflict.
    method Put() returns (answer: PutResult)
      requires Valid() && s.kept && s.t.state == Ready && s.marker.NoMarker?
      modifies `s, `log, `faults
      ensures Valid() && Acted() && old(faults) <= faults
      ensures s == old(s).(bucket := s.bucket, highest := s.highest, puts := old(s).puts + 1) && s.highest >= s.number
      ensures Grows(old(s).bucket, s.bucket)
      ensures answer.PutOk? ==> InS3(r, s)
      ensures Faultless() ==> answer.PutOk? || (answer.Conflict? && s.t.key in s.bucket)
    {
      Others();
      var arrives := Works();
      var free := s.t.key !in s.bucket;
      Transmit(arrives && free);
      var answered := Works();
      var conflict: bool := *;
      answer := if arrives && answered then (if free then PutOk else Conflict)
                else if conflict then Conflict else OtherError;
    }

    // HEAD: an answer tells whose object the key names; there is none when it names no object.
    method Head() returns (ours: Option<bool>)
      requires Valid()
      modifies `s, `log, `faults
      ensures Valid() && Acted() && old(faults) <= faults && s == old(s).(bucket := s.bucket)
      ensures Grows(old(s).bucket, s.bucket)
      ensures ours == Some(true) ==> InS3(r, s)
      ensures ours == Some(false) ==> TakenByAnother(r, s)
      ensures ours.None? <==> ours != Some(true) && ours != Some(false)
      ensures InS3(r, old(s)) ==> InS3(r, s)
      ensures Faultless() ==> (ours.Some? <==> s.t.key in s.bucket)
    {
      Others();
      IsOwner();
      var ok := Works();
      ours := if ok && s.t.key in s.bucket then Some(s.bucket[s.t.key].uploadId == r.id) else None;
    }

    // outbox.update: the next generation is durable, or it may or may not survive.
    method Persist(next: Ticket) returns (ok: bool, ghost attempt: Ticket)
      requires Valid() && MayFollow(r, s, next)
      modifies `s, `log, `faults
      ensures Valid() && Acted() && old(faults) <= faults && (ok <==> Faultless())
      ensures attempt == next.(gen := attempt.gen) && attempt.gen > old(s).t.gen
      ensures ok ==> s == Settle(old(s), attempt, s.stale, s.certain) && s.stale <= old(s).loadable + old(s).stale
      ensures !ok ==> s.t.gen in {old(s).t.gen, attempt.gen}
      ensures !ok ==> s == Doubt(old(s), attempt, s.loadable != old(s).loadable, s.t.gen != old(s).t.gen, s.certain)
    {
      IsOwner();
      var gen: nat :| gen > s.t.gen;
      attempt := next.(gen := gen);
      ok := Works();
      if ok {
        WriteSettles(next.(gen := gen));
      } else {
        WriteFails(next.(gen := gen));
      }
    }

    method WriteSettles(next: Ticket)
      requires Valid() && MayFollow(r, s, next)
      modifies `s, `log
      ensures Valid() && Acted()
      ensures s == Settle(old(s), next, s.stale, s.certain) && s.stale <= old(s).loadable + old(s).stale
    {
      var left: set<Ticket>, newest: bool := *, *;
      Do(PersistSettles(next, left * (s.loadable + s.stale), newest));
    }

    method WriteFails(next: Ticket)
      requires Valid() && MayFollow(r, s, next)
      modifies `s, `log
      ensures Valid() && Acted()
      ensures s.t.gen in {old(s).t.gen, next.gen}
      ensures s == Doubt(old(s), next, s.loadable != old(s).loadable, s.t.gen != old(s).t.gen, s.certain)
    {
      var written: bool, advanced: bool, intact: bool := *, *, *;
      Do(PersistFails(next, written, advanced, intact));
    }

    method Apply(state: TicketState, attempts: nat)
      requires Valid() && s.kept && (state == Delivered ==> InS3(r, s)) && (s.condemned ==> s.marker.Settled?)
      modifies `s, `log
      ensures Valid() && Acted() && s == Applied(old(s), state, attempts)
    {
      Do(MemoryApplies(state, attempts));
    }

    method SetMarker(marker: Marker)
      requires Valid() && !s.marker.Settled?
      modifies `s, `log
      ensures Valid() && Acted() && s == old(s).(marker := marker)
    {
      Do(MarkerBecomes(marker));
    }

    lemma SuffixFollows()
      requires Valid() && s.number < MAX_INT
      ensures NextKeySuffix(r.baseKey, s.t.key) == s.number + 1
    {
      IsOwner();
      NextFollowsNumbered(r.baseKey, s.number);
    }

    lemma MaySave(state: TicketState, attempts: nat)
      requires Valid() && s.kept && s.t.state != TicketState.Failed && (state == Delivered ==> InS3(r, s))
      ensures MayFollow(r, s, s.t.(state := state, attempts := attempts)) && (s.condemned ==> s.marker.Settled?)
    {
      IsOwner();
    }

    // A state that could not be persisted still applies in memory.
    method Save(state: TicketState, attempts: nat)
      requires Valid() && s.kept && s.t.state != TicketState.Failed && (state == Delivered ==> InS3(r, s))
      modifies `s, `log, `faults
      ensures Valid() && Acted() && old(faults) <= faults && Writing(old(s), s)
      ensures s.t == old(s).t.(gen := s.t.gen, state := state, attempts := attempts)
      ensures Faultless() ==> s.loadable == {s.t} && !s.gone
    {
      MaySave(state, attempts);
      var ok, attempt := Persist(s.t.(state := state, attempts := attempts));
      PersistIsWriting(old(s), s, attempt, ok);
      if !ok {
        Apply(state, attempts);
      }
    }

    method CheckMarker() returns (c: Check)
      modifies `faults
      ensures old(faults) <= faults
      ensures c.Missing? ==> s.marker.NoMarker?
      ensures Faultless() ==> c == if s.marker.NoMarker? then Missing else Found
    {
      var ok := Works();
      c := if !ok then Unreadable else if s.marker.NoMarker? then Missing else Found;
    }

    // Moves on from a key that names another writer's object; the new key is persisted first.
    method NextKey(suffix: nat) returns (ok: bool)
      requires Valid() && s.kept && TakenByAnother(r, s) && s.t.state == Ready && s.marker.NoMarker?
      requires suffix == s.number + 1
      modifies `s, `log, `faults
      ensures Valid() && Acted() && old(faults) <= faults && (ok <==> Faultless())
      ensures Sending(old(s), s) && s.bucket == old(s).bucket && s.puts == old(s).puts && s.highest == old(s).highest
      ensures s.number == if ok then suffix else suffix - 1
      ensures ok ==> s.loadable == {s.t}
    {
      IsOwner();
      NumberedIsInjective(r.baseKey, s.number, suffix);
      ghost var attempt;
      ok, attempt := Persist(s.t.(key := WithNumericSuffix(r.baseKey, suffix)));
    }

    // One PUT and the check of its outcome; a key is taken only when it names another's object. A
    // ticket whose key is taken moves to key number `suffix`, unless this attempt is the last.
    method SendOnce(suffix: nat, last: bool) returns (sent: Attempt)
      requires Valid() && s.kept && s.t.state == Ready && s.marker.NoMarker? && 2 <= suffix == s.number + 1
      modifies `s, `log, `faults
      ensures Valid() && Acted() && old(faults) <= faults
      ensures Sending(old(s), s)
      ensures sent.Sent? ==> InS3(r, s)
      ensures sent.KeyTaken? ==> Numbered(r.baseKey, suffix - 1) in s.bucket && s.number == if last then suffix - 1 else suffix
      ensures Faultless() ==> !sent.GaveUp?
    {
      IsOwner();
      var answer := Put();
      if answer.PutOk? {
        return Sent;
      }
      var ours := Head();
      if ours == Some(true) {
        return Sent;
      }
      if !answer.Conflict? || ours.None? {
        return GaveUp;
      }
      assert ours == Some(false);
      if !last {
        var persisted := NextKey(suffix);
        if !persisted {
          return GaveUp;
        }
      }
      return KeyTaken;
    }

    // Sends the recording under the current key, or under the next key that is free.
    method Send() returns (result: UploadResult)
      requires Valid() && s.kept && s.t.state == Ready && s.marker.NoMarker? && s.number + MAX_KEYS_PER_PASS <= MAX_INT
      modifies `s, `log, `faults
      ensures Valid() && Acted() && old(faults) <= faults
      ensures Sending(old(s), s)
      ensures result != AudioGone && (result.Uploaded? ==> InS3(r, s))
      ensures result.Retry? && Faultless() ==> KeysTaken(r, s.bucket, old(s).number, old(s).number + MAX_KEYS_PER_PASS)
    {
      SuffixFollows();
      var attempt, suffix := 1, NextKeySuffix(r.baseKey, s.t.key);
      ghost var first := s.number;
      while true
        invariant Valid() && Acted() && old(faults) <= faults && Sending(old(s), s)
        invariant 1 <= attempt <= MAX_KEYS_PER_PASS && suffix == s.number + 1 == first + attempt
        invariant KeysTaken(r, s.bucket, first, s.number)
        decreases MAX_KEYS_PER_PASS - attempt
      {
        ghost var before := s.bucket;
        var sent := SendOnce(suffix, attempt >= MAX_KEYS_PER_PASS);
        if sent.Sent? {
          return Uploaded;
        }
        if sent.GaveUp? {
          return Retry;
        }
        MoreKeysTaken(r, before, s.bucket, first, suffix - 1);
        if attempt >= MAX_KEYS_PER_PASS {
          return Retry;
        }
        attempt, suffix := attempt + 1, suffix + 1;
      }
    }

    // Whether the recording can be opened: it exists, carries no marker, and is readable.
    method OpenRecording() returns (ok: bool)
      modifies `faults
      ensures old(faults) <= faults
      ensures ok ==> s.marker.NoMarker?
      ensures Faultless() ==> (ok <==> s.marker.NoMarker?)
    {
      var check := CheckMarker();
      if !check.Missing? {
        return false;
      }
      ok := Works();
    }

    // One upload of a ready ticket. A marked recording is never sent; a missing one counts as
    // uploaded only when its object is there.
    method Upload() returns (result: UploadResult)
      requires Valid() && s.kept && s.t.state == Ready && s.number + MAX_KEYS_PER_PASS <= MAX_INT
      modifies `s, `log, `faults
      ensures Valid() && Acted() && old(faults) <= faults
      ensures Sending(old(s), s)
      ensures result.Uploaded? ==> InS3(r, s)
      ensures result.AudioGone? ==> s.file.Blank?
      ensures s.marker != NoMarker || !s.file.Whole? ==> s == old(s).(bucket := s.bucket)
      ensures Faultless() && s.file.Whole? && s.marker.NoMarker? && result.Retry? ==>
                KeysTaken(r, s.bucket, old(s).number, old(s).number + MAX_KEYS_PER_PASS)
      ensures Faultless() && s.file.Absent? && InS3(r, old(s)) ==> result.Uploaded?
      ensures Faultless() && s.file.Blank? && s.marker.NoMarker? ==> result.AudioGone?
    {
      var destination := Works();
      if !destination {
        return Retry;
      }
      if s.file.Absent? {
        var ours := Head();
        return if ours == Some(true) then Uploaded else Retry;
      }
      result := UploadFile();
    }

    method UploadFile() returns (result: UploadResult)
      requires Valid() && s.kept && s.t.state == Ready && s.number + MAX_KEYS_PER_PASS <= MAX_INT && !s.file.Absent?
      modifies `s, `log, `faults
      ensures Valid() && Acted() && old(faults) <= faults
      ensures Sending(old(s), s)
      ensures result.Uploaded? ==> InS3(r, s)
      ensures result.AudioGone? ==> s.file.Blank?
      ensures s.marker != NoMarker || !s.file.Whole? ==> s == old(s)
      ensures Faultless() && s.file.Whole? && s.marker.NoMarker? && result.Retry? ==>
                KeysTaken(r, s.bucket, old(s).number, old(s).number + MAX_KEYS_PER_PASS)
      ensures Faultless() && s.file.Blank? && s.marker.NoMarker? ==> result.AudioGone?
    {
      var readable := OpenRecording();
      if !readable {
        return Retry;
      }
      if s.file.Blank? {
        return AudioGone;
      }
      result := Send();
    }

    // outbox.remove: nothing is left of the ticket, or any generation may still be loaded.
    method Remove() returns (ok: bool)
      requires Valid() && s.kept && s.t.state != TicketState.Failed
      modifies `s, `log, `faults
      ensures Valid() && Acted() && old(faults) <= faults && (ok <==> Faultless())
      ensures s == if ok then Removed(old(s)) else RemovalBegun(old(s))
    {
      ok := Works();
      if ok {
        Do(RemovalDone);
      } else {
        Do(RemovalFails);
      }
    }

    method DropFile()
      requires Valid() && s.kept && s.t.state == Delivered && s.t.deleteAfterUpload
      modifies `s, `log
      ensures Valid() && Acted() && r.s3Only && s == old(s).(file := Absent, deleted := true)
    {
      IsOwner();
      Do(FileDeleted);
    }

    // The local copy goes, and the directory it was in is synced.
    method RemoveLocal() returns (ok: bool)
      requires Valid() && s.t.state == Delivered && s.kept && s.t.deleteAfterUpload
      modifies `s, `log, `faults
      ensures Valid() && Acted() && old(faults) <= faults && (ok <==> Faultless())
      ensures r.s3Only && s == old(s).(file := s.file, deleted := s.deleted)
      ensures ok ==> s.file.Absent?
    {
      IsOwner();
      ok := Works();
      if ok {
        DropFile();
        ok := Works();
      }
    }

    // Removes the local copy when only S3 keeps the recording, then the ticket.
    method Cleanup()
      requires Valid() && s.t.state == Delivered && s.kept
      modifies `s, `log, `faults
      ensures Valid() && Acted() && old(faults) <= faults
      ensures s.bucket == old(s).bucket && s.t == old(s).t.(gen := s.t.gen)
      ensures s.puts == old(s).puts && s.marker == old(s).marker && s.condemned == old(s).condemned
      ensures !r.s3Only ==> s.file == old(s).file
      ensures !s.kept && r.s3Only ==> s.file.Absent?
      ensures Faultless() ==> !s.kept && s.loadable == {}
    {
      IsOwner();
      var ok := true;
      if s.t.deleteAfterUpload {
        ok := RemoveLocal();
      }
      if ok {
        ok := Remove();
      }
      if !ok {
        IsOwner();
        Save(s.t.state, s.t.attempts);
      }
    }

    // Applies the outcome of an upload; a stopped one changes nothing.
    method Finish(result: UploadResult, stopped: bool)
      requires Valid() && s.kept && s.t.state == Ready && (result.Uploaded? ==> InS3(r, s))
      modifies `s, `log, `faults
      ensures Valid() && Acted() && old(faults) <= faults
      ensures s.bucket == old(s).bucket && s.puts == old(s).puts && s.marker == old(s).marker && s.t.key == old(s).t.key
      ensures s.t.state == if result.Uploaded? then Delivered else if result.AudioGone? then Lost else Ready
      ensures s.t.attempts == if result.Retry? && !stopped then old(s).t.attempts + 1 else old(s).t.attempts
      ensures !result.Uploaded? ==> s.kept && s.file == old(s).file
      ensures !s.kept && r.s3Only ==> s.file.Absent?
      ensures Faultless() && result.Uploaded? ==> !s.kept
      ensures Faultless() && (result.AudioGone? || (result.Retry? && !stopped)) ==> s.loadable == {s.t} && !s.gone
      ensures result.Retry? && stopped ==> s == old(s)
    {
      match result
      case Uploaded =>
        Save(Delivered, s.t.attempts);
        Cleanup();
      case AudioGone =>
        Save(Lost, s.t.attempts);
      case Retry =>
        if !stopped {
          Save(Ready, s.t.attempts + 1);
        }
    }

    // One turn of the worker on a ticket that is due. A ticket goes only once its recording is in
    // S3, and a recording that is marked or not whole is not sent. A failed attempt counts, and the
    // new count is what a start loads, unless the worker was stopped.
    method Process(stopped: bool)
      requires Valid() && s.kept && s.t.state in {Ready, Delivered} && s.number + MAX_KEYS_PER_PASS <= MAX_INT
      modifies `s, `log, `faults
      ensures Valid() && Acted()
      ensures s.t.state in {Ready, Delivered, Lost} && (old(s).t.state == Delivered ==> s.t.state == Delivered)
      ensures s.t.state == Lost ==> old(s).file.Blank?
      ensures old(s).marker != NoMarker || !old(s).file.Whole? ==> s.puts == old(s).puts
      ensures !s.kept || s.file != old(s).file ==> InS3(r, s)
      ensures s.t.attempts == if s.t.state == Ready && !stopped then old(s).t.attempts + 1 else old(s).t.attempts
      ensures !s.kept && r.s3Only ==> s.file.Absent?
      ensures Faultless() && s.t.state == Delivered ==> !s.kept
      ensures Faultless() && (s.t.state == Lost || (s.t.state == Ready && !stopped)) ==> s.loadable == {s.t} && !s.gone
      ensures Faultless() && old(s).t.state == Ready && old(s).file.Absent? && InS3(r, old(s)) ==> s.t.state == Delivered
      ensures Faultless() && old(s).t.state == Ready && old(s).file.Blank? && old(s).marker.NoMarker? ==> s.t.state == Lost
      ensures Stranded(r, old(s)) ==> Stranded(r, s)
      ensures Faultless() && old(s).file.Whole? && old(s).marker.NoMarker? && s.t.state == Ready ==>
                KeysTaken(r, s.bucket, old(s).number, old(s).number + MAX_KEYS_PER_PASS)
    {
      if s.t.state == Delivered {
        IsOwner();
        Cleanup();
      } else {
        Deliver(stopped);
      }
    }

    // A ready recording is sent, and its ticket follows the outcome.
    method Deliver(stopped: bool)
      requires Valid() && s.kept && s.t.state == Ready && s.number + MAX_KEYS_PER_PASS <= MAX_INT
      modifies `s, `log, `faults
      ensures Valid() && Acted()
      ensures s.t.state in {Ready, Delivered, Lost} && (s.t.state == Lost ==> old(s).file.Blank?)
      ensures old(s).marker != NoMarker || !old(s).file.Whole? ==> s.puts == old(s).puts
      ensures if s.t.state == Delivered then InS3(r, s) else s.kept && s.file == old(s).file
      ensures s.t.attempts == if s.t.state == Ready && !stopped then old(s).t.attempts + 1 else old(s).t.attempts
      ensures !s.kept && r.s3Only ==> s.file.Absent?
      ensures Faultless() && s.t.state == Delivered ==> !s.kept
      ensures Faultless() && (s.t.state == Lost || (s.t.state == Ready && !stopped)) ==> s.loadable == {s.t} && !s.gone
      ensures Faultless() && old(s).file.Absent? && InS3(r, old(s)) ==> s.t.state == Delivered
      ensures Faultless() && old(s).file.Blank? && old(s).marker.NoMarker? ==> s.t.state == Lost
      ensures TakenByAnother(r, old(s)) && old(s).file.Absent? ==> s.t.state == Ready && TakenByAnother(r, s)
      ensures Faultless() && old(s).file.Whole? && old(s).marker.NoMarker? && s.t.state == Ready ==>
                KeysTaken(r, s.bucket, old(s).number, old(s).number + MAX_KEYS_PER_PASS)
    {
      var result := Upload();
      Finish(result, stopped);
      IsOwner();
    }

    // outbox.fail: the ticket becomes failed; when that cannot be persisted, a marker next to the
    // recording stands in for it. Either one being durable condemns the recording.
    method Fail()
      requires Valid() && s.kept && s.t.state == TicketState.Recording && !s.condemned
      modifies `s, `log, `faults
      ensures Valid() && Acted()
      ensures s.t.state == TicketState.Failed && s.bucket == old(s).bucket && s.puts == old(s).puts
      ensures s.marker.Settled? && old(s).marker.NoMarker? ==> s.condemned
      ensures s.condemned ==> s.marker.Settled? || s.loadable == {s.t}
      ensures Faultless() ==> s.condemned
    {
      IsOwner();
      var ok, attempt := Persist(s.t.(state := TicketState.Failed));
      if ok {
        Do(Condemns);
      } else {
        Apply(TicketState.Failed, s.t.attempts);
        Mark();
      }
    }

    // Creates the marker exclusively, then syncs the directory of the recording.
    method Mark()
      requires Valid() && !s.condemned
      modifies `s, `log, `faults
      ensures Valid() && Acted() && old(faults) <= faults
      ensures s == old(s).(marker := s.marker, condemned := s.condemned, lastPuts := s.lastPuts)
      ensures s.condemned <==> s.marker.Settled? && old(s).marker.NoMarker?
      ensures !old(s).marker.NoMarker? ==> s.marker == old(s).marker
    {
      if !s.marker.NoMarker? {
        return;
      }
      var marked := Works();
      var left: bool := *; // A marker that is not complete is removed again, if it can be.
      if marked || left {
        SetMarker(Unsettled);
      }
      if !marked {
        return;
      }
      marked := Works();
      if marked {
        SetMarker(Settled);
        Do(Condemns);
      }
    }

    // A power cut settles whether the marker is there.
    method CutPower()
      requires Valid()
      modifies `s, `log
      ensures Valid() && Acted() && s == old(s).(marker := s.marker)
      ensures if old(s).marker.Unsettled? then !s.marker.Unsettled? else s.marker == old(s).marker
    {
      if s.marker.Unsettled? {
        var survived: bool := *;
        SetMarker(if survived then Settled else NoMarker);
      }
    }

    // A new process loads the outbox: some generation a start may load, for certain unless its
    // content was never synced, or nothing if that is allowed.
    method Restart()
      requires Valid()
      modifies `s, `log
      ensures Valid() && Acted()
      ensures !old(s).gone ==> s.kept
      ensures s.kept ==>
                && s.t in old(s).loadable
                && s == Load(old(s), s.t, s.number, !s.gone, if s.gone then s.loadable - {s.t} else s.stale, s.certain)
                && (old(s).loadable == {s.t} && !old(s).gone ==> s.loadable == {s.t} && !s.gone)
      ensures !s.kept ==> s == Removed(old(s))
    {
      var lost: bool := *;
      if s.loadable == {} || (s.gone && lost) {
        IsOwner();
        Do(StartsWithout);
        return;
      }
      var l :| l in s.loadable;
      LoadOne(l);
    }

    method LoadOne(l: Ticket)
      requires Valid() && l in s.loadable
      modifies `s, `log
      ensures Valid() && Acted() && s.kept && s.t == l
      ensures s == Load(old(s), l, s.number, !s.gone, if s.gone then s.loadable - {l} else s.stale, s.certain)
      ensures old(s).loadable == {l} && !old(s).gone ==> s.loadable == {l} && !s.gone
    {
      var number := KeyNumber(r.baseKey, l.key);
      IsSafe();
      NumberOfLoadable(r, s, l);
      var left: set<Ticket>, synced: bool, newest: bool := *, *, *;
      synced := synced || (s.loadable == {l} && !s.gone);
      left := left * (s.loadable + s.stale);
      Do(Restarts(l, number, synced, left, newest));
      assert !synced ==> {l} + (s.loadable - {l}) == s.loadable;
    }

    // outbox.recover: crash recovery of a loaded ticket, given what stands at its path.
    method Recover(at: Interrupted)
      requires Valid() && s.kept
      modifies `s, `log, `faults
      ensures Valid() && Acted()
      ensures s.bucket == old(s).bucket && s.puts == old(s).puts && s.marker == old(s).marker
      ensures s.t == old(s).t.(gen := s.t.gen, state := s.t.state)
      ensures s.t.state == old(s).t.state || s.t.state in {AfterRecovery(old(s).t, at), TicketState.Failed}
      ensures old(s).t.state in {Ready, Delivered, TicketState.Failed} ==> s.kept
      ensures old(s).t.state in {Delivered, TicketState.Failed} ==> s == old(s)
      ensures !s.kept ==> Dropped(old(s).t, at)
      ensures Faultless() && s.marker != NoMarker && old(s).t.state != Delivered ==> s.t.state == TicketState.Failed
      ensures Faultless() && s.marker == NoMarker ==>
                s.t.state == AfterRecovery(old(s).t, at) && (s.kept <==> !Dropped(old(s).t, at))
    {
      if s.t.state in {Delivered, TicketState.Failed} {
        return;
      }
      var check := CheckMarker();
      if check.Found? {
        Save(TicketState.Failed, s.t.attempts);
      } else if s.t.state != Ready {
        RecoverInterrupted(at);
      }
    }

    method RecoverInterrupted(at: Interrupted)
      requires Valid() && s.kept && s.t.state in {TicketState.Recording, Lost}
      modifies `s, `log, `faults
      ensures Valid() && Acted() && old(faults) <= faults
      ensures s.bucket == old(s).bucket && s.puts == old(s).puts && s.marker == old(s).marker
      ensures s.t == old(s).t.(gen := s.t.gen, state := s.t.state)
      ensures s.t.state in {old(s).t.state, AfterRecovery(old(s).t, at)}
      ensures !s.kept ==> Dropped(old(s).t, at)
      ensures Faultless() ==> s.t.state == AfterRecovery(old(s).t, at) && (s.kept <==> !Dropped(old(s).t, at))
    {
      match at
      case Gone =>
        if s.t.dest != "" {
          Save(Ready, s.t.attempts);
        }
      case Unknown =>
      case NotRegular =>
        Save(TicketState.Failed, s.t.attempts);
      case Size(bytes) =>
        if bytes > 0 {
          RecoverAudio();
        } else if s.t.syncedBytes == 0 {
          DropEmpty();
        } else {
          Save(Lost, s.t.attempts);
        }
    }

    // An interrupted recording without audio: the empty file goes first, then its ticket.
    method DropEmpty()
      requires Valid() && s.kept && s.t.state in {TicketState.Recording, Lost}
      modifies `s, `log, `faults
      ensures Valid() && Acted() && old(faults) <= faults
      ensures s.bucket == old(s).bucket && s.puts == old(s).puts && s.marker == old(s).marker && s.t == old(s).t
      ensures Faultless() ==> !s.kept
    {
      var removed := Works();
      if removed {
        Do(EmptyFileRemoved);
        removed := Remove();
      }
    }

    // An interrupted recording with audio: in local-only mode the file is all that is kept.
    method RecoverAudio()
      requires Valid() && s.kept && s.t.state in {TicketState.Recording, Lost}
      modifies `s, `log, `faults
      ensures Valid() && Acted() && old(faults) <= faults
      ensures s.bucket == old(s).bucket && s.puts == old(s).puts && s.marker == old(s).marker
      ensures s.t == old(s).t.(gen := s.t.gen, state := s.t.state)
      ensures s.t.state == old(s).t.state || (s.t.state == Ready && s.t.dest != "")
      ensures !s.kept ==> s.t.dest == ""
      ensures Faultless() ==> if s.t.dest == "" then !s.kept && s.t.state == old(s).t.state else s.kept && s.t.state == Ready
    {
      var synced := Works();
      if synced && s.t.dest == "" {
        synced := Remove();
      } else if synced {
        Save(Ready, s.t.attempts);
      }
    }
  }
}
