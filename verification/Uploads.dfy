/** Idempotent upload as a protocol: any number of upload transactions, sweeps and status moves interleave,
    every database call may fail, and only a commit publishes what a transaction wrote. */
module Uploads {
  import opened Wrappers
  import opened VideoAgg
  import opened VideoTable
  import Canonical

  type Key = string
  type EventId = nat
  type TxId = nat
  type Fingerprint = Canonical.Fingerprint

  datatype Command = Command(sourceKey: string, document: Canonical.Json, key: Option<Key>)

  function FingerprintOf(c: Command): Fingerprint {
    Canonical.FingerprintOf(c.sourceKey, c.document)
  }

  datatype OutboxRow = OutboxRow(videoId: VideoId, createdAt: Instant)

  /** A claimed key: what it was claimed for and the response to replay. */
  datatype KeyRow = KeyRow(fingerprint: Fingerprint, response: Snapshot, expiresAt: Instant)

  /** When an inserted key expires, which its call computed beforehand, and when it was inserted. */
  datatype Lease = Lease(expiresAt: Instant, insertedAt: Instant)

  /** The next thing that an upload call does. In Waiting its INSERT is sent; in Saving, Adding and Committing the key
      (if any) is inserted but not committed; LostClaim and Finding are the two awaits of a call that lost its claim. */
  datatype Phase =
    | Claiming
    | Waiting(expiresAt: Instant)
    | Saving(lease: Lease)
    | Adding(lease: Lease)
    | Committing(lease: Lease, eventId: EventId, createdAt: Instant)
    | LostClaim
    | Finding

  datatype Tx = Tx(command: Command, video: Snapshot, phase: Phase) {
    predicate Holds(k: Key) {
      command.key == Some(k) && (phase.Saving? || phase.Adding? || phase.Committing?)
    }
  }

  /** The history of a key: what was committed under it, when it was purged, what callers were told. */
  datatype KeyEvent =
    | Created(key: Key, row: KeyRow, insertedAt: Instant)
    | Swept(keys: set<Key>, at: Instant)
    | Replayed(key: Key, fingerprint: Fingerprint, video: Snapshot)
    | Rejected(key: Key, fingerprint: Fingerprint)
    | Vanished(key: Key)

  datatype Db = Db(
    now: Instant,
    videos: Rows,
    outbox: map<EventId, OutboxRow>,
    keys: map<Key, KeyRow>,
    txs: map<TxId, Tx>,
    usedIds: set<nat>,
    eventOf: map<VideoId, EventId>,
    log: seq<KeyEvent>)

  const EMPTY := Db(0, map[], map[], map[], map[], {}, map[], [])

  datatype Step =
    | Tick(d: nat)
    | Begin(tx: TxId, command: Command, videoId: VideoId)
    | ReadClock(tx: TxId, expiresAt: Instant)
    | Claim(tx: TxId, reply: Reply)
    | SaveVideo(tx: TxId, reply: Reply)
    | AddOutbox(tx: TxId, eventId: EventId, reply: Reply)
    | Commit(tx: TxId, reply: Reply)
    | Find(tx: TxId, reply: Reply)
    | Crash(tx: TxId)
    | Sweep(reply: Reply)
    | MoveVideo(id: VideoId, request: Request)
    | DeleteVideo(id: VideoId)

  /** Retention of a key, in the clock's unit (at least 60 s in the configuration). */
  type Retention = Positive

  function Advance(db: Db, tx: TxId, phase: Phase): Db
    requires tx in db.txs
  {
    db.(txs := db.txs[tx := db.txs[tx].(phase := phase)])
  }

  /** The call raises: its transaction rolls back, and nothing of it was visible. */
  function Rollback(db: Db, tx: TxId): Db {
    db.(txs := db.txs - {tx})
  }

  predicate KeyIsLocked(db: Db, k: Key) {
    exists t :: t in db.txs && db.txs[t].Holds(k)
  }

  /** What a commit makes visible, all at once. */
  function Publish(db: Db, t: Tx): Db
    requires t.phase.Committing?
  {
    var db' := db.(videos := Apply(db.videos, RepoOp.Save(t.video)),
                   outbox := db.outbox[t.phase.eventId := OutboxRow(t.video.id, t.phase.createdAt)],
                   eventOf := db.eventOf[t.video.id := t.phase.eventId]);
    match t.command.key
    case None => db'
    case Some(k) =>
      var row := KeyRow(FingerprintOf(t.command), t.video, t.phase.lease.expiresAt);
      db'.(keys := db.keys[k := row], log := db.log + [Created(k, row, t.phase.lease.insertedAt)])
  }

  function SaveTx(db: Db, tx: TxId, reply: Reply): Db {
    if tx !in db.txs || !db.txs[tx].phase.Saving? then db
    else if reply.Raised() then Rollback(db, tx)
    else Advance(db, tx, Adding(db.txs[tx].phase.lease))
  }

  function AddTx(db: Db, tx: TxId, eventId: EventId, reply: Reply): Db {
    if tx !in db.txs || !db.txs[tx].phase.Adding? || eventId in db.usedIds then db
    else if reply.Raised() then Rollback(db, tx)
    else Added(db, tx, eventId)
  }

  /** The outbox row is staged under an id that no one else has. */
  function Added(db: Db, tx: TxId, eventId: EventId): Db
    requires tx in db.txs && db.txs[tx].phase.Adding?
  {
    Advance(db, tx, Committing(db.txs[tx].phase.lease, eventId, db.now)).(usedIds := db.usedIds + {eventId})
  }

  function FindTx(db: Db, tx: TxId, reply: Reply): Db {
    if tx !in db.txs || !db.txs[tx].phase.Finding? || db.txs[tx].command.key.None? then db
    else if reply.Raised() then Rollback(db, tx)
    else Rollback(db.(log := db.log + [Outcome(db, db.txs[tx], db.txs[tx].command.key.value)]), tx)
  }

  function CommitTx(db: Db, tx: TxId, reply: Reply): Db
    requires tx in db.txs
  {
    var t := db.txs[tx];
    if t.phase.LostClaim? then
      if reply == Reply.Done then Advance(db, tx, Finding) else Rollback(db, tx)
    else if t.phase.Committing? then
      if reply.TookEffect() then Rollback(Publish(db, t), tx) else Rollback(db, tx)
    else db
  }

  /** What the loser of a claim tells its caller. */
  function Outcome(db: Db, t: Tx, k: Key): KeyEvent {
    var f := FingerprintOf(t.command);
    if k !in db.keys then Vanished(k)
    else if db.keys[k].fingerprint != f then Rejected(k, f)
    else Replayed(k, f, db.keys[k].response)
  }

  function ExpiredKeys(db: Db): set<Key> {
    set k | k in db.keys && db.keys[k].expiresAt < db.now
  }

  /** A step that is not enabled (unknown call, wrong phase, locked key, id already used) is no step. */
  function Next(ttl: Retention, db: Db, s: Step): Db {
    match s
    case Tick(d) => db.(now := db.now + d)
    case Begin(tx, c, id) =>
      if tx in db.txs || id in db.usedIds || c.sourceKey == "" then db else Begun(db, tx, c, id)
    case ReadClock(tx, expiresAt) => if expiresAt == db.now + ttl then SendClaim(db, tx, expiresAt) else db
    case Claim(tx, reply) => ClaimKey(db, tx, reply)
    case SaveVideo(tx, reply) => SaveTx(db, tx, reply)
    case AddOutbox(tx, eventId, reply) => AddTx(db, tx, eventId, reply)
    case Commit(tx, reply) => if tx !in db.txs then db else CommitTx(db, tx, reply)
    case Find(tx, reply) => FindTx(db, tx, reply)
    case Crash(tx) => Rollback(db, tx)
    case Sweep(reply) => if reply.TookEffect() then SweepKeys(db) else db
    case MoveVideo(id, request) => db.(videos := Marked(db.videos, id, request))
    case DeleteVideo(id) => db.(videos := Apply(db.videos, RepoOp.SoftDelete(id)))
  }

  /** The call is waiting on a claim that no other transaction holds up. */
  predicate CanClaim(db: Db, tx: TxId) {
    && tx in db.txs && db.txs[tx].phase.Waiting? && db.txs[tx].command.key.Some?
    && !KeyIsLocked(db, db.txs[tx].command.key.value)
  }

  /** The expiry goes into the statement: the clock is read before the INSERT is sent. */
  function SendClaim(db: Db, tx: TxId, expiresAt: Instant): Db {
    if tx !in db.txs || !db.txs[tx].phase.Claiming? then db else Advance(db, tx, Waiting(expiresAt))
  }

  /** INSERT ... ON CONFLICT DO NOTHING: waits while another transaction holds the key, then wins it or loses it. */
  function ClaimKey(db: Db, tx: TxId, reply: Reply): Db {
    if !CanClaim(db, tx) then db else Claimed(db, tx, reply)
  }

  function Claimed(db: Db, tx: TxId, reply: Reply): Db
    requires tx in db.txs && db.txs[tx].phase.Waiting? && db.txs[tx].command.key.Some?
  {
    if reply.Raised() then Rollback(db, tx)
    else if db.txs[tx].command.key.value in db.keys then Advance(db, tx, LostClaim)
    else Advance(db, tx, Saving(Lease(db.txs[tx].phase.expiresAt, db.now)))
  }

  /** DELETE ... WHERE expires_at < now() */
  function SweepKeys(db: Db): Db {
    db.(keys := db.keys - ExpiredKeys(db), log := db.log + [Swept(ExpiredKeys(db), db.now)])
  }

  // ---- what a history says about a key ----

  /** The upload that a key stands for after a history: the last one created under it and not swept since. */
  function LiveKey(log: seq<KeyEvent>, k: Key): Option<KeyRow>
    decreases |log|
  {
    if log == [] then None
    else
      var e := log[|log| - 1];
      if e.Created? && e.key == k then Some(e.row)
      else if e.Swept? && k in e.keys then None
      else LiveKey(log[..|log| - 1], k)
  }

  /** The keys under which something was ever created. */
  function CreatedKeys(log: seq<KeyEvent>): set<Key> {
    set i | 0 <= i < |log| && log[i].Created? :: log[i].key
  }

  /** An event that is right after a history. */
  predicate Justified(before: seq<KeyEvent>, e: KeyEvent) {
    && (e.Created? ==> LiveKey(before, e.key) == None && e.row.response.status == PENDING)
    && (e.Swept? ==> forall k | k in e.keys :: LiveKey(before, k).Some? && LiveKey(before, k).value.expiresAt < e.at)
    && (e.Replayed? ==> LiveKey(before, e.key).Some? &&
                        LiveKey(before, e.key).value.fingerprint == e.fingerprint
                            && LiveKey(before, e.key).value.response == e.video)
    && (e.Rejected? ==> LiveKey(before, e.key).Some? && LiveKey(before, e.key).value.fingerprint != e.fingerprint)
    && (e.Vanished? ==> LiveKey(before, e.key) == None && e.key in CreatedKeys(before))
  }

  predicate Consistent(log: seq<KeyEvent>) {
    forall i | 0 <= i < |log| :: Justified(log[..i], log[i])
  }

  predicate SweptAt(log: seq<KeyEvent>, i: nat, k: Key)
    requires i < |log|
  {
    log[i].Swept? && k in log[i].keys
  }

  lemma LiveKeyAppend(log: seq<KeyEvent>, e: KeyEvent, k: Key)
    ensures LiveKey(log + [e], k) == if e.Created? && e.key == k then Some(e.row)
                                     else if e.Swept? && k in e.keys then None
                                     else LiveKey(log, k)
  {
    assert (log + [e])[..|log|] == log;
  }

  lemma ConsistentAppend(log: seq<KeyEvent>, e: KeyEvent)
    requires Consistent(log) && Justified(log, e)
    ensures Consistent(log + [e])
  {
    var log' := log + [e];
    forall i | 0 <= i < |log'|
      ensures Justified(log'[..i], log'[i])
    {
      assert log'[..i] == if i < |log| then log[..i] else log;
    }
  }

  /** A live key was created at some point and not swept or created again since. */
  lemma {:induction false} LiveKeyOrigin(log: seq<KeyEvent>, k: Key) returns (i: nat)
    requires LiveKey(log, k).Some?
    ensures i < |log| && log[i].Created? && log[i].key == k && log[i].row == LiveKey(log, k).value
    ensures forall m | i < m < |log| :: !SweptAt(log, m, k) && !(log[m].Created? && log[m].key == k)
    decreases |log|
  {
    var last := log[|log| - 1];
    if last.Created? && last.key == k {
      i := |log| - 1;
    } else {
      i := LiveKeyOrigin(log[..|log| - 1], k);
    }
  }

  lemma LiveIsNotCreated(before: seq<KeyEvent>, e: KeyEvent, k: Key)
    requires Justified(before, e) && LiveKey(before, k).Some?
    ensures !(e.Created? && e.key == k)
  {
  }

  /** While no sweep removes it, a created key stays the same upload. */
  lemma {:induction false} StaysLive(log: seq<KeyEvent>, k: Key, i: nat, j: nat)
    requires Consistent(log) && i < j <= |log| && log[i].Created? && log[i].key == k
    requires forall m | i < m < j :: !SweptAt(log, m, k)
    ensures LiveKey(log[..j], k) == Some(log[i].row)
    decreases j
  {
    assert log[..j] == log[..j - 1] + [log[j - 1]];
    LiveKeyAppend(log[..j - 1], log[j - 1], k);
    if i < j - 1 {
      StaysLive(log, k, i, j - 1);
      assert !SweptAt(log, j - 1, k);
      LiveIsNotCreated(log[..j - 1], log[j - 1], k);
    }
  }

  // ---- invariant ----

  /** Every video was committed together with exactly one outbox row that names it. */
  predicate CommittedTogether(db: Db) {
    && db.videos.Keys == db.eventOf.Keys
    && (forall v | v in db.eventOf :: db.eventOf[v] in db.outbox && db.outbox[db.eventOf[v]].videoId == v)
    && (forall e | e in db.outbox :: db.outbox[e].videoId in db.eventOf && db.eventOf[db.outbox[e].videoId] == e)
  }

  /** The key table agrees with the history, and a key row names a committed upload. */
  ghost predicate KeysNameUploads(db: Db) {
    && (forall k :: k in db.keys <==> LiveKey(db.log, k).Some?)
    && (forall k | k in db.keys :: LiveKey(db.log, k) == Some(db.keys[k]) && db.keys[k].response.id in db.videos)
  }

  /** A key inserted by an open transaction is neither committed nor inserted by another. */
  ghost predicate KeyLocks(db: Db) {
    && (forall t, k | t in db.txs && db.txs[t].Holds(k) :: k !in db.keys)
    && (forall t, u, k | t in db.txs && u in db.txs && db.txs[t].Holds(k) && db.txs[u].Holds(k) :: t == u)
    && (forall t | t in db.txs && !db.txs[t].phase.Claiming? && !db.txs[t].phase.Waiting?
                   && !db.txs[t].phase.LostClaim? && !db.txs[t].phase.Finding?
                   && db.txs[t].command.key.Some? :: db.txs[t].Holds(db.txs[t].command.key.value))
  }

  /** Ids are never reused: those of open transactions are not in the tables, and differ from each other. */
  predicate FreshTxIds(db: Db) {
    && db.videos.Keys <= db.usedIds && db.outbox.Keys <= db.usedIds
    && (forall t | t in db.txs ::
          db.txs[t].video.id in db.usedIds && db.txs[t].video.id !in db.videos && db.txs[t].video.status == PENDING)
    && (forall t, u | t in db.txs && u in db.txs && t != u :: db.txs[t].video.id != db.txs[u].video.id)
    && (forall t | t in db.txs && db.txs[t].phase.Committing? ::
          db.txs[t].phase.eventId in db.usedIds && db.txs[t].phase.eventId !in db.outbox)
    && (forall t, u | t in db.txs && u in db.txs && t != u && db.txs[t].phase.Committing?
       && db.txs[u].phase.Committing? ::
          db.txs[t].phase.eventId != db.txs[u].phase.eventId)
  }

  /** A call that lost its claim lost it to an upload. */
  predicate LosersSaw(db: Db) {
    forall t | t in db.txs && (db.txs[t].phase.LostClaim? || db.txs[t].phase.Finding?) ::
      db.txs[t].command.key.Some? && db.txs[t].command.key.value in CreatedKeys(db.log)
  }

  ghost predicate Inv(db: Db) {
    && Consistent(db.log)
    && LosersSaw(db)
    && CommittedTogether(db)
    && KeysNameUploads(db)
    && KeyLocks(db)
    && FreshTxIds(db)
  }

  /** The tables that an upload writes. */
  predicate SameTables(db: Db, db': Db) {
    db'.videos == db.videos && db'.outbox == db.outbox && db'.keys == db.keys
    && db'.eventOf == db.eventOf && db'.log == db.log
  }

  /** Changing only open transactions. */
  lemma TxStepKeepsInv(db: Db, db': Db)
    requires Inv(db) && SameTables(db, db')
    requires KeyLocks(db') && FreshTxIds(db') && LosersSaw(db')
    ensures Inv(db')
  {
  }

  lemma RollbackKeepsInv(db: Db, tx: TxId)
    requires Inv(db)
    ensures Inv(Rollback(db, tx))
  {
  }

  lemma AdvanceIsFresh(db: Db, tx: TxId, phase: Phase)
    requires FreshTxIds(db) && tx in db.txs && !phase.Committing?
    ensures FreshTxIds(Advance(db, tx, phase))
  {
  }

  /** The phase holds a key only if no other transaction does. */
  predicate MayHold(db: Db, tx: TxId, phase: Phase)
    requires tx in db.txs
  {
    (phase.Saving? || phase.Adding?) && db.txs[tx].command.key.Some? ==>
      var k := db.txs[tx].command.key.value;
      k !in db.keys && forall t | t in db.txs && t != tx :: !db.txs[t].Holds(k)
  }

  lemma AdvanceKeepsLocks(db: Db, tx: TxId, phase: Phase)
    requires KeyLocks(db) && tx in db.txs && !phase.Committing? && MayHold(db, tx, phase)
    ensures KeyLocks(Advance(db, tx, phase))
  {
  }

  lemma AdvanceKeepsInv(db: Db, tx: TxId, phase: Phase)
    requires Inv(db) && tx in db.txs && !phase.Committing?
    requires phase.LostClaim? || phase.Finding? ==>
               db.txs[tx].command.key.Some? && db.txs[tx].command.key.value in CreatedKeys(db.log)
    requires MayHold(db, tx, phase)
    ensures Inv(Advance(db, tx, phase))
  {
    AdvanceIsFresh(db, tx, phase);
    AdvanceKeepsLocks(db, tx, phase);
    TxStepKeepsInv(db, Advance(db, tx, phase));
  }

  lemma AddLocksNothing(db: Db, tx: TxId, eventId: EventId)
    requires KeyLocks(db) && tx in db.txs && db.txs[tx].phase.Adding?
    ensures KeyLocks(Added(db, tx, eventId))
  {
  }

  lemma AddIsFresh(db: Db, tx: TxId, eventId: EventId)
    requires FreshTxIds(db) && tx in db.txs && db.txs[tx].phase.Adding? && eventId !in db.usedIds
    ensures FreshTxIds(Added(db, tx, eventId))
  {
  }

  lemma AddOutboxKeepsInv(db: Db, tx: TxId, eventId: EventId)
    requires Inv(db) && tx in db.txs && db.txs[tx].phase.Adding? && eventId !in db.usedIds
    ensures Inv(Added(db, tx, eventId))
  {
    AddLocksNothing(db, tx, eventId);
    AddIsFresh(db, tx, eventId);
    TxStepKeepsInv(db, Added(db, tx, eventId));
  }

  function Begun(db: Db, tx: TxId, c: Command, id: VideoId): Db {
    var video := Snapshot(id, c.sourceKey, PENDING, db.now, c.document);
    db.(usedIds := db.usedIds + {id},
        txs := db.txs[tx := Tx(c, video, if c.key.Some? then Claiming else Saving(Lease(db.now, db.now)))])
  }

  lemma BeginIsFresh(db: Db, tx: TxId, c: Command, id: VideoId)
    requires Inv(db) && tx !in db.txs && id !in db.usedIds
    ensures FreshTxIds(Begun(db, tx, c, id))
  {
  }

  lemma BeginLocksNothing(db: Db, tx: TxId, c: Command, id: VideoId)
    requires Inv(db) && tx !in db.txs
    ensures KeyLocks(Begun(db, tx, c, id))
  {
  }

  lemma BeginKeepsInv(db: Db, tx: TxId, c: Command, id: VideoId)
    requires Inv(db) && tx !in db.txs && id !in db.usedIds
    ensures Inv(Begun(db, tx, c, id))
  {
    BeginIsFresh(db, tx, c, id);
    BeginLocksNothing(db, tx, c, id);
    TxStepKeepsInv(db, Begun(db, tx, c, id));
  }

  lemma CreatedAppend(log: seq<KeyEvent>, e: KeyEvent)
    ensures CreatedKeys(log + [e]) == CreatedKeys(log) + if e.Created? then {e.key} else {}
  {
    var log' := log + [e];
    forall i | 0 <= i < |log| && log[i].Created?
      ensures log[i].key in CreatedKeys(log')
    {
      assert log'[i] == log[i];
    }
    if e.Created? {
      assert log'[|log|] == e;
    }
  }

  lemma LiveWasCreated(log: seq<KeyEvent>, k: Key)
    requires LiveKey(log, k).Some?
    ensures k in CreatedKeys(log)
  {
    var i := LiveKeyOrigin(log, k);
  }

  lemma LogKeepsInv(db: Db, e: KeyEvent)
    requires Inv(db) && Justified(db.log, e) && !e.Created? && !e.Swept?
    ensures Inv(db.(log := db.log + [e]))
  {
    ConsistentAppend(db.log, e);
    CreatedAppend(db.log, e);
    forall k
      ensures LiveKey(db.log + [e], k) == LiveKey(db.log, k)
    {
      LiveKeyAppend(db.log, e, k);
    }
  }

  lemma SweepKeepsInv(db: Db)
    requires Inv(db)
    ensures Inv(SweepKeys(db))
  {
    var e := Swept(ExpiredKeys(db), db.now);
    ConsistentAppend(db.log, e);
    CreatedAppend(db.log, e);
    forall k
      ensures LiveKey(db.log + [e], k) == if k in ExpiredKeys(db) then None else LiveKey(db.log, k)
    {
      LiveKeyAppend(db.log, e, k);
    }
  }

  lemma PublishIsOnePair(db: Db, tx: TxId)
    requires CommittedTogether(db) && FreshTxIds(db) && tx in db.txs && db.txs[tx].phase.Committing?
    ensures CommittedTogether(Rollback(Publish(db, db.txs[tx]), tx))
  {
  }

  /** The event of a commit under a key. */
  function CreatedBy(t: Tx, k: Key): KeyEvent
    requires t.phase.Committing?
  {
    Created(k, KeyRow(FingerprintOf(t.command), t.video, t.phase.lease.expiresAt), t.phase.lease.insertedAt)
  }

  lemma CreationIsJustified(db: Db, tx: TxId, k: Key)
    requires KeysNameUploads(db) && KeyLocks(db) && FreshTxIds(db)
    requires tx in db.txs && db.txs[tx].phase.Committing? && db.txs[tx].command.key == Some(k)
    ensures Justified(db.log, CreatedBy(db.txs[tx], k))
  {
    assert db.txs[tx].Holds(k);
  }

  lemma CreationIsNamed(db: Db, tx: TxId, k: Key)
    requires KeysNameUploads(db) && tx in db.txs && db.txs[tx].phase.Committing? && db.txs[tx].command.key == Some(k)
    ensures KeysNameUploads(Rollback(Publish(db, db.txs[tx]), tx))
  {
    var e := CreatedBy(db.txs[tx], k);
    forall key
      ensures LiveKey(db.log + [e], key) == if key == k then Some(e.row) else LiveKey(db.log, key)
    {
      LiveKeyAppend(db.log, e, key);
    }
  }

  lemma PublishKeepsKeys(db: Db, tx: TxId)
    requires Consistent(db.log) && KeysNameUploads(db) && KeyLocks(db) && FreshTxIds(db)
    requires tx in db.txs && db.txs[tx].phase.Committing?
    ensures var db' := Rollback(Publish(db, db.txs[tx]), tx);
            Consistent(db'.log) && KeysNameUploads(db') && CreatedKeys(db.log) <= CreatedKeys(db'.log)
  {
    var t := db.txs[tx];
    if t.command.key.Some? {
      var k := t.command.key.value;
      CreationIsJustified(db, tx, k);
      CreationIsNamed(db, tx, k);
      ConsistentAppend(db.log, CreatedBy(t, k));
      CreatedAppend(db.log, CreatedBy(t, k));
    }
  }

  lemma PublishKeepsLocks(db: Db, tx: TxId)
    requires KeyLocks(db) && tx in db.txs && db.txs[tx].phase.Committing?
    ensures KeyLocks(Rollback(Publish(db, db.txs[tx]), tx))
  {
  }

  lemma PublishIsFresh(db: Db, tx: TxId)
    requires FreshTxIds(db) && tx in db.txs && db.txs[tx].phase.Committing?
    ensures FreshTxIds(Rollback(Publish(db, db.txs[tx]), tx))
  {
  }

  lemma PublishKeepsInv(db: Db, tx: TxId)
    requires Inv(db) && tx in db.txs && db.txs[tx].phase.Committing?
    ensures Inv(Rollback(Publish(db, db.txs[tx]), tx))
  {
    PublishIsOnePair(db, tx);
    PublishKeepsKeys(db, tx);
    PublishKeepsLocks(db, tx);
    PublishIsFresh(db, tx);
  }

  lemma VideosKeepInv(db: Db, videos: Rows)
    requires Inv(db) && videos.Keys == db.videos.Keys
    ensures Inv(db.(videos := videos))
  {
  }

  lemma ClaimedKeepsLocks(db: Db, tx: TxId, reply: Reply)
    requires KeyLocks(db) && tx in db.txs && db.txs[tx].phase.Waiting? && db.txs[tx].command.key.Some?
    requires !KeyIsLocked(db, db.txs[tx].command.key.value)
    ensures KeyLocks(Claimed(db, tx, reply))
  {
    if !reply.Raised() {
      var phase := if db.txs[tx].command.key.value in db.keys then LostClaim
                   else Saving(Lease(db.txs[tx].phase.expiresAt, db.now));
      AdvanceKeepsLocks(db, tx, phase);
    }
  }

  lemma ClaimedIsFresh(db: Db, tx: TxId, reply: Reply)
    requires FreshTxIds(db) && tx in db.txs && db.txs[tx].phase.Waiting? && db.txs[tx].command.key.Some?
    ensures FreshTxIds(Claimed(db, tx, reply))
  {
    if !reply.Raised() {
      var phase := if db.txs[tx].command.key.value in db.keys then LostClaim
                   else Saving(Lease(db.txs[tx].phase.expiresAt, db.now));
      AdvanceIsFresh(db, tx, phase);
    }
  }

  lemma ClaimedKeepsInv(db: Db, tx: TxId, reply: Reply)
    requires Inv(db) && tx in db.txs && db.txs[tx].phase.Waiting? && db.txs[tx].command.key.Some?
    requires !KeyIsLocked(db, db.txs[tx].command.key.value)
    ensures Inv(Claimed(db, tx, reply))
  {
    var k := db.txs[tx].command.key.value;
    if k in db.keys {
      LiveWasCreated(db.log, k);
    }
    ClaimedKeepsLocks(db, tx, reply);
    ClaimedIsFresh(db, tx, reply);
    TxStepKeepsInv(db, Claimed(db, tx, reply));
  }

  lemma ClaimKeepsInv(db: Db, tx: TxId, reply: Reply)
    requires Inv(db)
    ensures Inv(ClaimKey(db, tx, reply))
  {
    if CanClaim(db, tx) {
      ClaimedKeepsInv(db, tx, reply);
    }
  }

  lemma CommitKeepsInv(db: Db, tx: TxId, reply: Reply)
    requires Inv(db) && tx in db.txs
    ensures Inv(CommitTx(db, tx, reply))
  {
    var t := db.txs[tx];
    RollbackKeepsInv(db, tx);
    if t.phase.LostClaim? {
      AdvanceKeepsInv(db, tx, Finding);
    } else if t.phase.Committing? {
      PublishKeepsInv(db, tx);
    }
  }

  lemma SaveKeepsInv(db: Db, tx: TxId, reply: Reply)
    requires Inv(db)
    ensures Inv(SaveTx(db, tx, reply))
  {
    RollbackKeepsInv(db, tx);
    if tx in db.txs && db.txs[tx].phase.Saving? { AdvanceKeepsInv(db, tx, Adding(db.txs[tx].phase.lease)); }
  }

  lemma AddKeepsInv(db: Db, tx: TxId, eventId: EventId, reply: Reply)
    requires Inv(db)
    ensures Inv(AddTx(db, tx, eventId, reply))
  {
    RollbackKeepsInv(db, tx);
    if tx in db.txs && db.txs[tx].phase.Adding? && eventId !in db.usedIds { AddOutboxKeepsInv(db, tx, eventId); }
  }

  lemma OutcomeIsJustified(db: Db, tx: TxId)
    requires LosersSaw(db) && KeysNameUploads(db) && tx in db.txs && db.txs[tx].phase.Finding?
    ensures var e := Outcome(db, db.txs[tx], db.txs[tx].command.key.value);
            Justified(db.log, e) && !e.Created? && !e.Swept?
  {
  }

  lemma FoundKeepsInv(db: Db, tx: TxId)
    requires Inv(db) && tx in db.txs && db.txs[tx].phase.Finding?
    ensures var e := Outcome(db, db.txs[tx], db.txs[tx].command.key.value);
            Inv(Rollback(db.(log := db.log + [e]), tx))
  {
    var e := Outcome(db, db.txs[tx], db.txs[tx].command.key.value);
    OutcomeIsJustified(db, tx);
    LogKeepsInv(db, e);
    RollbackKeepsInv(db.(log := db.log + [e]), tx);
  }

  lemma FindKeepsInv(db: Db, tx: TxId, reply: Reply)
    requires Inv(db)
    ensures Inv(FindTx(db, tx, reply))
  {
    RollbackKeepsInv(db, tx);
    if tx in db.txs && db.txs[tx].phase.Finding? {
      FoundKeepsInv(db, tx);
    }
  }

  lemma SendKeepsInv(db: Db, tx: TxId, expiresAt: Instant)
    requires Inv(db)
    ensures Inv(SendClaim(db, tx, expiresAt))
  {
    if tx in db.txs && db.txs[tx].phase.Claiming? {
      AdvanceKeepsInv(db, tx, Waiting(expiresAt));
    }
  }

  lemma ClaimStepKeepsInv(ttl: Retention, db: Db, s: Step)
    requires Inv(db) && s.Claim?
    ensures Inv(Next(ttl, db, s))
  {
    ClaimKeepsInv(db, s.tx, s.reply);
    assert Next(ttl, db, s) == ClaimKey(db, s.tx, s.reply);
  }

  lemma CallStepKeepsInv(ttl: Retention, db: Db, s: Step)
    requires Inv(db) && (s.Begin? || s.SaveVideo? || s.AddOutbox? || s.Commit? || s.Find? || s.Crash?)
    ensures Inv(Next(ttl, db, s))
  {
    var db' := Next(ttl, db, s);
    match s {
      case Begin(tx, c, id) =>
        if db' != db {
          BeginKeepsInv(db, tx, c, id);
          assert db' == Begun(db, tx, c, id);
        }
      case SaveVideo(tx, reply) =>
        SaveKeepsInv(db, tx, reply);
        assert db' == SaveTx(db, tx, reply);
      case AddOutbox(tx, eventId, reply) =>
        AddKeepsInv(db, tx, eventId, reply);
        assert db' == AddTx(db, tx, eventId, reply);
      case Commit(tx, reply) =>
        if db' != db {
          CommitKeepsInv(db, tx, reply);
          assert db' == CommitTx(db, tx, reply);
        }
      case Find(tx, reply) =>
        FindKeepsInv(db, tx, reply);
        assert db' == FindTx(db, tx, reply);
      case Crash(tx) =>
        RollbackKeepsInv(db, tx);
        assert db' == Rollback(db, tx);
    }
  }

  lemma TableStepKeepsInv(ttl: Retention, db: Db, s: Step)
    requires Inv(db) && (s.Tick? || s.Sweep? || s.MoveVideo? || s.DeleteVideo?)
    ensures Inv(Next(ttl, db, s))
  {
    var db' := Next(ttl, db, s);
    if s.Tick? {
      TxStepKeepsInv(db, db.(now := db.now + s.d));
      assert db' == db.(now := db.now + s.d);
    } else if s.Sweep? {
      SweepKeepsInv(db);
    } else {
      VideosKeepInv(db, db'.videos);
      assert db' == db.(videos := db'.videos);
    }
  }

  lemma StepKeepsInv(ttl: Retention, db: Db, s: Step)
    requires Inv(db)
    ensures Inv(Next(ttl, db, s))
  {
    if s.Tick? || s.Sweep? || s.MoveVideo? || s.DeleteVideo? {
      TableStepKeepsInv(ttl, db, s);
    } else if s.ReadClock? {
      SendKeepsInv(db, s.tx, s.expiresAt);
    } else if s.Claim? {
      ClaimStepKeepsInv(ttl, db, s);
    } else {
      CallStepKeepsInv(ttl, db, s);
    }
  }

  function Run(ttl: Retention, db: Db, steps: seq<Step>): Db {
    if steps == [] then db else Next(ttl, Run(ttl, db, steps[..|steps| - 1]), steps[|steps| - 1])
  }

  lemma {:induction false} RunKeepsInv(ttl: Retention, db: Db, steps: seq<Step>)
    requires Inv(db)
    ensures Inv(Run(ttl, db, steps))
  {
    if steps != [] {
      RunKeepsInv(ttl, db, steps[..|steps| - 1]);
      StepKeepsInv(ttl, Run(ttl, db, steps[..|steps| - 1]), steps[|steps| - 1]);
    }
  }

  // ---- retention: a key is inserted only after the upload before it under that key has expired ----

  predicate Before(e: KeyEvent, at: Instant) {
    e.Created? ==> e.row.expiresAt < at
  }

  predicate Spaced(db: Db) {
    && (forall i | 0 <= i < |db.log| && db.log[i].Swept? :: db.log[i].at <= db.now)
    && (forall i, j | 0 <= i < j < |db.log| && db.log[i].Created? && db.log[j].Created?
                      && db.log[i].key == db.log[j].key :: Before(db.log[i], db.log[j].insertedAt))
    && (forall t, i | t in db.txs && 0 <= i < |db.log| && db.log[i].Created? && db.txs[t].Holds(db.log[i].key) ::
          Before(db.log[i], db.txs[t].phase.lease.insertedAt))
  }

  /** A key that stands for nothing was swept after each upload under it. */
  lemma GoneWasSwept(log: seq<KeyEvent>, k: Key, i: nat) returns (m: nat)
    requires Consistent(log) && LiveKey(log, k) == None && i < |log| && log[i].Created? && log[i].key == k
    ensures i < m < |log| && SweptAt(log, m, k) && forall n | i < n < m :: !SweptAt(log, n, k)
  {
    m := i + 1;
    while m < |log| && !SweptAt(log, m, k)
      invariant i < m <= |log|
      invariant forall n | i < n < m :: !SweptAt(log, n, k)
    {
      m := m + 1;
    }
    if m == |log| {
      assert log[..|log|] == log;
      StaysLive(log, k, i, m);
    }
  }

  /** And had expired then. */
  lemma GoneWasExpired(log: seq<KeyEvent>, k: Key, i: nat) returns (m: nat)
    requires Consistent(log) && LiveKey(log, k) == None && i < |log| && log[i].Created? && log[i].key == k
    ensures i < m < |log| && SweptAt(log, m, k) && log[i].row.expiresAt < log[m].at
  {
    m := GoneWasSwept(log, k, i);
    StaysLive(log, k, i, m);
    assert Justified(log[..m], log[m]);
  }

  predicate AllBefore(db: Db, k: Key, at: Instant) {
    forall i | 0 <= i < |db.log| && db.log[i].Created? && db.log[i].key == k :: Before(db.log[i], at)
  }

  /** A claim is won only after every upload under the key has expired. */
  lemma FreeKeyIsOld(db: Db, k: Key)
    requires Consistent(db.log) && KeysNameUploads(db) && Spaced(db) && k !in db.keys
    ensures AllBefore(db, k, db.now)
  {
    forall i | 0 <= i < |db.log| && db.log[i].Created? && db.log[i].key == k
      ensures Before(db.log[i], db.now)
    {
      var m := GoneWasExpired(db.log, k, i);
    }
  }

  lemma PublishIsSpaced(db: Db, tx: TxId)
    requires Spaced(db) && tx in db.txs && db.txs[tx].phase.Committing? && KeyLocks(db)
    ensures Spaced(Rollback(Publish(db, db.txs[tx]), tx))
  {
    var t := db.txs[tx];
    var db' := Rollback(Publish(db, t), tx);
    if t.command.key.Some? {
      assert t.Holds(t.command.key.value);
      assert db'.log[..|db.log|] == db.log;
    }
  }

  lemma SweepIsSpaced(db: Db)
    requires Spaced(db)
    ensures Spaced(SweepKeys(db))
  {
  }

  /** A change that creates and sweeps nothing, and gives no call another deadline. */
  ghost predicate Quiet(db: Db, db': Db) {
    && db.now <= db'.now
    && (db'.log == db.log || exists e :: db'.log == db.log + [e] && !e.Created? && !e.Swept?)
    && (forall t, k | t in db'.txs && db'.txs[t].Holds(k) ::
          t in db.txs && db.txs[t].Holds(k) && db'.txs[t].phase.lease == db.txs[t].phase.lease)
  }

  lemma QuietIsSpaced(db: Db, db': Db)
    requires Spaced(db) && Quiet(db, db')
    ensures Spaced(db')
  {
    assert forall i | 0 <= i < |db'.log| && (db'.log[i].Created? || db'.log[i].Swept?) ::
        i < |db.log| && db'.log[i] == db.log[i];
  }

  lemma RollbackIsQuiet(db: Db, tx: TxId)
    ensures Quiet(db, Rollback(db, tx))
  {
  }

  lemma AdvanceIsQuiet(db: Db, tx: TxId, phase: Phase)
    requires tx in db.txs
    requires phase.Saving? || phase.Adding? || phase.Committing? ==>
               (db.txs[tx].phase.Saving? || db.txs[tx].phase.Adding?) && phase.lease == db.txs[tx].phase.lease
    ensures Quiet(db, Advance(db, tx, phase))
  {
  }

  lemma ClaimedIsSpaced(db: Db, tx: TxId, reply: Reply)
    requires Spaced(db) && tx in db.txs && db.txs[tx].phase.Waiting? && db.txs[tx].command.key.Some?
    requires var k := db.txs[tx].command.key.value; k in db.keys || AllBefore(db, k, db.now)
    ensures Spaced(Claimed(db, tx, reply))
  {
    if reply.Raised() {
      RollbackIsQuiet(db, tx);
      QuietIsSpaced(db, Rollback(db, tx));
    } else if db.txs[tx].command.key.value in db.keys {
      AdvanceIsQuiet(db, tx, LostClaim);
      QuietIsSpaced(db, Advance(db, tx, LostClaim));
    } else {
      assert AllBefore(db, db.txs[tx].command.key.value, db.now);
    }
  }

  lemma ClaimKeepsSpaced(db: Db, tx: TxId, reply: Reply)
    requires Consistent(db.log) && KeysNameUploads(db) && Spaced(db)
    ensures Spaced(ClaimKey(db, tx, reply))
  {
    if CanClaim(db, tx) {
      if db.txs[tx].command.key.value !in db.keys { FreeKeyIsOld(db, db.txs[tx].command.key.value); }
      ClaimedIsSpaced(db, tx, reply);
    }
  }

  lemma CommitKeepsSpaced(db: Db, tx: TxId, reply: Reply)
    requires KeyLocks(db) && Spaced(db) && tx in db.txs
    ensures Spaced(CommitTx(db, tx, reply))
  {
    RollbackIsQuiet(db, tx);
    QuietIsSpaced(db, Rollback(db, tx));
    AdvanceIsQuiet(db, tx, Finding);
    QuietIsSpaced(db, Advance(db, tx, Finding));
    if db.txs[tx].phase.Committing? {
      PublishIsSpaced(db, tx);
    }
  }

  lemma SaveIsQuiet(db: Db, tx: TxId, reply: Reply)
    ensures Quiet(db, SaveTx(db, tx, reply))
  {
    RollbackIsQuiet(db, tx);
    if tx in db.txs && db.txs[tx].phase.Saving? { AdvanceIsQuiet(db, tx, Adding(db.txs[tx].phase.lease)); }
  }

  lemma AddIsQuiet(db: Db, tx: TxId, eventId: EventId, reply: Reply)
    ensures Quiet(db, AddTx(db, tx, eventId, reply))
  {
    RollbackIsQuiet(db, tx);
    if tx in db.txs && db.txs[tx].phase.Adding? {
      AdvanceIsQuiet(db, tx, Committing(db.txs[tx].phase.lease, eventId, db.now));
    }
  }

  lemma FindIsQuiet(db: Db, tx: TxId, reply: Reply)
    ensures Quiet(db, FindTx(db, tx, reply))
  {
    RollbackIsQuiet(db, tx);
    if tx in db.txs && db.txs[tx].phase.Finding? && db.txs[tx].command.key.Some? {
      var e := Outcome(db, db.txs[tx], db.txs[tx].command.key.value);
      RollbackIsQuiet(db.(log := db.log + [e]), tx);
    }
  }

  lemma BeginIsQuiet(db: Db, tx: TxId, c: Command, id: VideoId)
    requires tx !in db.txs
    ensures Quiet(db, Begun(db, tx, c, id))
  {
    assert forall k :: !Begun(db, tx, c, id).txs[tx].Holds(k);
  }

  lemma QuietStep(ttl: Retention, db: Db, s: Step)
    requires !s.Claim? && !s.Commit? && !s.Sweep?
    ensures Quiet(db, Next(ttl, db, s))
  {
    var db' := Next(ttl, db, s);
    match s {
      case Begin(tx, c, id) =>
        if db' != db {
          BeginIsQuiet(db, tx, c, id);
          assert db' == Begun(db, tx, c, id);
        }
      case ReadClock(tx, expiresAt) =>
        if tx in db.txs { AdvanceIsQuiet(db, tx, Waiting(expiresAt)); }
      case SaveVideo(tx, reply) =>
        SaveIsQuiet(db, tx, reply);
        assert db' == SaveTx(db, tx, reply);
      case AddOutbox(tx, eventId, reply) =>
        AddIsQuiet(db, tx, eventId, reply);
        assert db' == AddTx(db, tx, eventId, reply);
      case Find(tx, reply) =>
        FindIsQuiet(db, tx, reply);
        assert db' == FindTx(db, tx, reply);
      case Crash(tx) =>
        RollbackIsQuiet(db, tx);
        assert db' == Rollback(db, tx);
      case Tick(_) =>
      case MoveVideo(_, _) =>
      case DeleteVideo(_) =>
    }
  }

  lemma StepKeepsSpaced(ttl: Retention, db: Db, s: Step)
    requires Inv(db) && Spaced(db)
    ensures Spaced(Next(ttl, db, s))
  {
    if s.Claim? {
      ClaimKeepsSpaced(db, s.tx, s.reply);
      assert Next(ttl, db, s) == ClaimKey(db, s.tx, s.reply);
    } else if s.Commit? {
      if s.tx in db.txs {
        CommitKeepsSpaced(db, s.tx, s.reply);
        assert Next(ttl, db, s) == CommitTx(db, s.tx, s.reply);
      }
    } else if s.Sweep? {
      SweepIsSpaced(db);
    } else {
      QuietStep(ttl, db, s);
      QuietIsSpaced(db, Next(ttl, db, s));
    }
  }

  lemma {:induction false} RunKeepsSpaced(ttl: Retention, steps: seq<Step>)
    ensures Spaced(Run(ttl, EMPTY, steps))
  {
    if steps != [] {
      RunKeepsSpaced(ttl, steps[..|steps| - 1]);
      RunKeepsInv(ttl, EMPTY, steps[..|steps| - 1]);
      StepKeepsSpaced(ttl, Run(ttl, EMPTY, steps[..|steps| - 1]), steps[|steps| - 1]);
    }
  }

  /** A lease lasts no longer than the retention from the insertion on: the clock was read before it. */
  predicate Fits(ttl: Retention, now: Instant, phase: Phase) {
    match phase
    case Waiting(expiresAt) => expiresAt <= now + ttl
    case Saving(lease) => lease.expiresAt <= lease.insertedAt + ttl
    case Adding(lease) => lease.expiresAt <= lease.insertedAt + ttl
    case Committing(lease, _, _) => lease.expiresAt <= lease.insertedAt + ttl
    case _ => true
  }

  predicate LeasesFit(ttl: Retention, db: Db) {
    && (forall t | t in db.txs :: Fits(ttl, db.now, db.txs[t].phase))
    && (forall i | 0 <= i < |db.log| && db.log[i].Created? :: db.log[i].row.expiresAt <= db.log[i].insertedAt + ttl)
  }

  lemma AdvanceFits(ttl: Retention, db: Db, tx: TxId, phase: Phase)
    requires LeasesFit(ttl, db) && tx in db.txs && Fits(ttl, db.now, phase)
    ensures LeasesFit(ttl, Advance(db, tx, phase))
  {
  }

  lemma ClaimFits(ttl: Retention, db: Db, tx: TxId, reply: Reply)
    requires LeasesFit(ttl, db)
    ensures LeasesFit(ttl, ClaimKey(db, tx, reply))
  {
    if CanClaim(db, tx) {
      var phase := db.txs[tx].phase;
      assert Fits(ttl, db.now, phase);
      AdvanceFits(ttl, db, tx, Saving(Lease(phase.expiresAt, db.now)));
      AdvanceFits(ttl, db, tx, LostClaim);
    }
  }

  lemma CallStepFits(ttl: Retention, db: Db, s: Step)
    requires LeasesFit(ttl, db) && (s.ReadClock? || s.SaveVideo? || s.AddOutbox?)
    ensures LeasesFit(ttl, Next(ttl, db, s))
  {
    if s.tx in db.txs {
      assert Fits(ttl, db.now, db.txs[s.tx].phase);
    }
  }

  lemma StepFits(ttl: Retention, db: Db, s: Step)
    requires LeasesFit(ttl, db)
    ensures LeasesFit(ttl, Next(ttl, db, s))
  {
    match s {
      case ReadClock(_, _) => CallStepFits(ttl, db, s);
      case Claim(tx, reply) => ClaimFits(ttl, db, tx, reply);
      case SaveVideo(_, _) => CallStepFits(ttl, db, s);
      case AddOutbox(_, _, _) => CallStepFits(ttl, db, s);
      case Commit(tx, reply) => CommitFits(ttl, db, tx, reply);
      case Find(tx, reply) => assert Next(ttl, db, s) == FindTx(db, tx, reply);
      case Begin(_, _, _) =>
      case Crash(_) =>
      case Sweep(_) =>
      case Tick(_) =>
      case MoveVideo(_, _) =>
      case DeleteVideo(_) =>
    }
  }

  lemma CommitFits(ttl: Retention, db: Db, tx: TxId, reply: Reply)
    requires LeasesFit(ttl, db)
    ensures tx in db.txs ==> LeasesFit(ttl, CommitTx(db, tx, reply))
  {
    if tx in db.txs {
      assert Fits(ttl, db.now, db.txs[tx].phase);
    }
  }

  lemma {:induction false} RunKeepsLeases(ttl: Retention, steps: seq<Step>)
    ensures LeasesFit(ttl, Run(ttl, EMPTY, steps))
  {
    if steps != [] {
      RunKeepsLeases(ttl, steps[..|steps| - 1]);
      StepFits(ttl, Run(ttl, EMPTY, steps[..|steps| - 1]), steps[|steps| - 1]);
    }
  }

  // ---- main results ----

  /** The later of two uploads under one key was inserted after the earlier one had expired, and expires no later than
      the retention after that. */
  lemma UploadsAreSpaced(ttl: Retention, steps: seq<Step>, i: nat, j: nat)
    requires var log := Run(ttl, EMPTY, steps).log;
             i < j < |log| && log[i].Created? && log[j].Created? && log[i].key == log[j].key
    ensures var log := Run(ttl, EMPTY, steps).log;
            log[i].row.expiresAt < log[j].insertedAt && log[j].row.expiresAt <= log[j].insertedAt + ttl
  {
    RunKeepsSpaced(ttl, steps);
    RunKeepsLeases(ttl, steps);
  }

  /** In every reachable state a key row exists only with its video row and that video's outbox row. */
  lemma KeyExistsOnlyWithItsEffect(ttl: Retention, steps: seq<Step>, k: Key)
    requires k in Run(ttl, EMPTY, steps).keys
    ensures var db := Run(ttl, EMPTY, steps);
            && db.keys[k].response.id in db.videos
            && exists e :: e in db.outbox && db.outbox[e].videoId == db.keys[k].response.id
  {
    RunKeepsInv(ttl, EMPTY, steps);
    var db := Run(ttl, EMPTY, steps);
    var e := db.eventOf[db.keys[k].response.id];
    assert e in db.outbox;
  }

  /** Between two uploads created under one key there is always a sweep of that key. */
  lemma OneUploadPerKeyLife(ttl: Retention, steps: seq<Step>, i: nat, j: nat)
    requires var log := Run(ttl, EMPTY, steps).log;
             i < j < |log| && log[i].Created? && log[j].Created? && log[i].key == log[j].key
    ensures var log := Run(ttl, EMPTY, steps).log;
            exists m | i < m < j :: SweptAt(log, m, log[i].key)
  {
    RunKeepsInv(ttl, EMPTY, steps);
    var log := Run(ttl, EMPTY, steps).log;
    assert Justified(log[..j], log[j]);
    if forall m | i < m < j :: !SweptAt(log, m, log[i].key) {
      StaysLive(log, log[i].key, i, j);
    }
  }

  /** A replay answers with the snapshot committed under the key for the same payload, as it was at
      creation, and that key has not been swept in between. */
  lemma ReplayReturnsFirstSnapshot(ttl: Retention, steps: seq<Step>, j: nat)
    requires var log := Run(ttl, EMPTY, steps).log; j < |log| && log[j].Replayed?
    ensures var log := Run(ttl, EMPTY, steps).log;
            && log[j].video.status == PENDING
            && exists i | 0 <= i < j ::
                 && log[i].Created? && log[i].key == log[j].key
                 && log[i].row.fingerprint == log[j].fingerprint && log[i].row.response == log[j].video
                 && forall m | i < m < j :: !SweptAt(log, m, log[j].key)
  {
    RunKeepsInv(ttl, EMPTY, steps);
    var log := Run(ttl, EMPTY, steps).log;
    assert Justified(log[..j], log[j]);
    var i := LiveKeyOrigin(log[..j], log[j].key);
    assert log[i] == log[..j][i];
    assert Justified(log[..i], log[i]);
    forall m | i < m < j
      ensures !SweptAt(log, m, log[j].key)
    {
      assert log[..j][m] == log[m];
      assert !SweptAt(log[..j], m, log[j].key);
    }
  }

  lemma RejectedWasOther(log: seq<KeyEvent>, j: nat)
    requires Consistent(log) && j < |log| && log[j].Rejected?
    ensures exists i | 0 <= i < j ::
              && log[i].Created? && log[i].key == log[j].key && log[i].row.fingerprint != log[j].fingerprint
              && forall m | i < m < j :: !SweptAt(log, m, log[j].key)
  {
    assert Justified(log[..j], log[j]);
    var i := LiveKeyOrigin(log[..j], log[j].key);
    assert log[i] == log[..j][i];
    assert forall m | i < m < j :: log[..j][m] == log[m] && !SweptAt(log[..j], m, log[j].key);
  }

  lemma VanishedWasSwept(log: seq<KeyEvent>, j: nat)
    requires Consistent(log) && j < |log| && log[j].Vanished?
    ensures exists i, m | 0 <= i < m < j :: log[i].Created? && log[i].key == log[j].key && SweptAt(log, m, log[j].key)
  {
    assert Justified(log[..j], log[j]);
    var before, k := log[..j], log[j].key;
    var i :| 0 <= i < |before| && before[i].Created? && before[i].key == k;
    assert log[i] == before[i];
    if forall m | i < m < j :: !SweptAt(log, m, k) {
      StaysLive(log, k, i, j);
    }
  }

  /** A mismatch is reported only while the key stands for another payload, a vanished key only after an upload under it
      and a sweep of it since. */
  lemma RefusalsAreJustified(ttl: Retention, steps: seq<Step>, j: nat)
    requires j < |Run(ttl, EMPTY, steps).log|
    ensures var log := Run(ttl, EMPTY, steps).log;
            && (log[j].Rejected? ==> exists i | 0 <= i < j ::
                  && log[i].Created? && log[i].key == log[j].key && log[i].row.fingerprint != log[j].fingerprint
                  && forall m | i < m < j :: !SweptAt(log, m, log[j].key))
            && (log[j].Vanished? ==> exists i, m | 0 <= i < m < j ::
                  log[i].Created? && log[i].key == log[j].key && SweptAt(log, m, log[j].key))
  {
    RunKeepsInv(ttl, EMPTY, steps);
    var log := Run(ttl, EMPTY, steps).log;
    if log[j].Rejected? {
      RejectedWasOther(log, j);
    } else if log[j].Vanished? {
      VanishedWasSwept(log, j);
    }
  }

  /** One row is new and every other row is as it was. */
  predicate OneMore<A, B(==)>(was: map<A, B>, now: map<A, B>, a: A) {
    a !in was && a in now && now - {a} == was
  }

  /** What a commit adds to the tables: its rows, beside the rows there are. */
  predicate UploadAdded(db: Db, db': Db, t: Tx)
    requires t.phase.Committing?
  {
    && OneMore(db.videos, db'.videos, t.video.id)
    && db'.videos[t.video.id] == VideoRow(t.video.sourceKey, PENDING, t.video.uploadedAt, t.video.document, false)
    && OneMore(db.outbox, db'.outbox, t.phase.eventId)
    && db'.outbox[t.phase.eventId] == OutboxRow(t.video.id, t.phase.createdAt)
    && match t.command.key {
         case None => db'.keys == db.keys
         case Some(k) =>
           && OneMore(db.keys, db'.keys, k)
           && db'.keys[k] == KeyRow(FingerprintOf(t.command), t.video, t.phase.lease.expiresAt)
       }
  }

  /** Only the commit of a call that won its claim (or has no key) writes an upload, and then all of it.
      Whatever a losing, mismatched, failing or crashing call does leaves every table as it was. */
  lemma OnlyWinnersWrite(ttl: Retention, steps: seq<Step>, s: Step)
    requires !s.Sweep? && !s.MoveVideo? && !s.DeleteVideo?
    ensures var db := Run(ttl, EMPTY, steps);
            var db' := Next(ttl, db, s);
            if s.Commit? && s.tx in db.txs && s.reply.TookEffect() && db.txs[s.tx].phase.Committing? then
              UploadAdded(db, db', db.txs[s.tx])
            else
              db'.videos == db.videos && db'.outbox == db.outbox && db'.keys == db.keys
  {
    RunKeepsInv(ttl, EMPTY, steps);
    var db := Run(ttl, EMPTY, steps);
    if s.Commit? && s.tx in db.txs && db.txs[s.tx].phase.Committing? && s.reply.TookEffect() {
      assert Next(ttl, db, s) == Rollback(Publish(db, db.txs[s.tx]), s.tx);
      PublishAdds(db, s.tx);
    } else {
      TablesUntouched(ttl, db, s);
    }
  }

  lemma PublishAdds(db: Db, tx: TxId)
    requires KeyLocks(db) && FreshTxIds(db) && tx in db.txs && db.txs[tx].phase.Committing?
    ensures UploadAdded(db, Rollback(Publish(db, db.txs[tx]), tx), db.txs[tx])
  {
    var t := db.txs[tx];
    var db' := Rollback(Publish(db, t), tx);
    var row := VideoRow(t.video.sourceKey, PENDING, t.video.uploadedAt, t.video.document, false);
    PutAddsOne(db.videos, t.video.id, row);
    assert db'.videos == db.videos[t.video.id := row];
    PutAddsOne(db.outbox, t.phase.eventId, OutboxRow(t.video.id, t.phase.createdAt));
    if t.command.key.Some? {
      assert t.Holds(t.command.key.value);
      PutAddsOne(db.keys, t.command.key.value, KeyRow(FingerprintOf(t.command), t.video, t.phase.lease.expiresAt));
    }
  }

  lemma PutAddsOne<A, B>(was: map<A, B>, a: A, b: B)
    requires a !in was
    ensures OneMore(was, was[a := b], a)
  {
    assert was[a := b] - {a} == was;
  }

  lemma ClaimWritesNothing(db: Db, tx: TxId, reply: Reply)
    ensures var db' := ClaimKey(db, tx, reply);
            db'.videos == db.videos && db'.outbox == db.outbox && db'.keys == db.keys
  {
  }

  lemma TablesUntouched(ttl: Retention, db: Db, s: Step)
    requires !s.Sweep? && !s.MoveVideo? && !s.DeleteVideo?
    requires s.Commit? && s.tx in db.txs && db.txs[s.tx].phase.Committing? ==> !s.reply.TookEffect()
    ensures var db' := Next(ttl, db, s);
            db'.videos == db.videos && db'.outbox == db.outbox && db'.keys == db.keys
  {
    match s {
      case ReadClock(_, _) =>
      case Claim(tx, reply) => ClaimWritesNothing(db, tx, reply);
      case Commit(tx, reply) => assert tx in db.txs ==> Next(ttl, db, s) == CommitTx(db, tx, reply);
      case SaveVideo(tx, reply) => assert Next(ttl, db, s) == SaveTx(db, tx, reply);
      case AddOutbox(tx, e, reply) => assert Next(ttl, db, s) == AddTx(db, tx, e, reply);
      case Find(tx, reply) => assert Next(ttl, db, s) == FindTx(db, tx, reply);
      case Begin(tx, c, id) => assert Next(ttl, db, s) == db || Next(ttl, db, s) == Begun(db, tx, c, id);
      case Tick(_) =>
      case Crash(_) =>
    }
  }

  /** A call that lost its claim never gets to write: its next phases are the lookup and the end. */
  lemma LosersStayLosers(ttl: Retention, db: Db, s: Step, tx: TxId)
    requires tx in db.txs && (db.txs[tx].phase.LostClaim? || db.txs[tx].phase.Finding?)
    ensures var db' := Next(ttl, db, s);
            tx in db'.txs ==> db'.txs[tx].phase.LostClaim? || db'.txs[tx].phase.Finding?
  {
    if s.Claim? {
      ClaimMovesClaimersOnly(db, s.tx, s.reply, tx);
    } else if s.Commit? && s.tx in db.txs {
      CommitMovesOne(db, s.tx, s.reply, tx);
    }
  }

  lemma ClaimMovesClaimersOnly(db: Db, claimer: TxId, reply: Reply, tx: TxId)
    requires tx in db.txs && !db.txs[tx].phase.Waiting?
    ensures tx in ClaimKey(db, claimer, reply).txs && ClaimKey(db, claimer, reply).txs[tx] == db.txs[tx]
  {
  }

  lemma CommitMovesOne(db: Db, committer: TxId, reply: Reply, tx: TxId)
    requires committer in db.txs && tx in db.txs && (db.txs[tx].phase.LostClaim? || db.txs[tx].phase.Finding?)
    ensures var txs := CommitTx(db, committer, reply).txs;
            tx in txs ==> txs[tx].phase.LostClaim? || txs[tx].phase.Finding?
  {
  }
}
