/** UploadVideoUC.__call__ in its own order over one database session, and its place in the protocol. */
module UploadVideoUC {
  import opened Wrappers
  import opened VideoAgg
  import opened VideoTable
  import opened Uploads
  import Canonical

  /** The committed rows that an upload touches. */
  datatype Tables = Tables(videos: Rows, outbox: map<EventId, OutboxRow>, keys: map<Key, KeyRow>)

  datatype UploadResult = UploadResult(video: Snapshot, replayed: bool)

  datatype UploadError = EmptyKey | KeyReused(key: Key) | Unavailable

  /** How each await of one call ends. */
  datatype Replies = Replies(claim: Reply, save: Reply, add: Reply, commit: Reply, find: Reply)

  /** The committed state of the database. */
  class MediaDb {
    var videos: Rows
    var outbox: map<EventId, OutboxRow>
    var keys: map<Key, KeyRow>

    constructor ()
      ensures State() == Tables(map[], map[], map[])
    {
      videos, outbox, keys := map[], map[], map[];
    }

    function State(): Tables
      reads this
    {
      Tables(videos, outbox, keys)
    }
  }

  /** One session and the stores that share it: what they write is staged until the unit of work commits. */
  class Session {
    const db: MediaDb
    const ttl: Retention
    var stagedKeys: map<Key, KeyRow>
    var stagedVideos: seq<Snapshot>
    var stagedOutbox: map<EventId, OutboxRow>

    constructor (db: MediaDb, ttl: Retention)
      ensures this.db == db && this.ttl == ttl && Clean()
    {
      this.db, this.ttl := db, ttl;
      stagedKeys, stagedVideos, stagedOutbox := map[], [], map[];
    }

    predicate Clean()
      reads this
    {
      stagedKeys == map[] && stagedVideos == [] && stagedOutbox == map[]
    }

    /** SqlIdempotencyStore.claim, against committed keys. */
    method Claim(
        key: Key, fingerprint: Fingerprint, video: Snapshot, now: Instant, reply: Reply)
      returns (r: Result<bool, UploadError>)
      modifies this`stagedKeys
      ensures reply.Raised() ==> r == Err(Unavailable)
      ensures !reply.Raised() ==> r == Ok(key !in db.keys)
      ensures r == Ok(true) ==> stagedKeys == old(stagedKeys)[key := KeyRow(fingerprint, video, now + ttl)]
      ensures r == Ok(false) ==> stagedKeys == old(stagedKeys)
    {
      if reply.Raised() {
        return Err(Unavailable);
      }
      if key in db.keys {
        return Ok(false);
      }
      stagedKeys := stagedKeys[key := KeyRow(fingerprint, video, now + ttl)];
      r := Ok(true);
    }

    method Find(key: Key, reply: Reply) returns (r: Result<Option<KeyRow>, UploadError>)
      ensures reply.Raised() ==> r == Err(Unavailable)
      ensures !reply.Raised() ==> r == Ok(if key in db.keys then Some(db.keys[key]) else None)
    {
      if reply.Raised() {
        return Err(Unavailable);
      }
      r := Ok(if key in db.keys then Some(db.keys[key]) else None);
    }

    method SaveVideo(video: Snapshot, reply: Reply) returns (r: Result<(), UploadError>)
      modifies this`stagedVideos
      ensures r == if reply.Raised() then Err(Unavailable) else Ok(())
      ensures r.Ok? ==> stagedVideos == old(stagedVideos) + [video]
    {
      if reply.Raised() {
        return Err(Unavailable);
      }
      stagedVideos := stagedVideos + [video];
      r := Ok(());
    }

    method AddOutbox(
        event: VideoUploaded, eventId: EventId, now: Instant, reply: Reply) returns (r: Result<(), UploadError>)
      modifies this`stagedOutbox
      ensures r == if reply.Raised() then Err(Unavailable) else Ok(())
      ensures r.Ok? ==> stagedOutbox == old(stagedOutbox)[eventId := OutboxRow(event.videoId, now)]
    {
      if reply.Raised() {
        return Err(Unavailable);
      }
      stagedOutbox := stagedOutbox[eventId := OutboxRow(event.videoId, now)];
      r := Ok(());
    }

    /** SqlUoW on a clean exit: everything staged becomes visible, or nothing does. */
    method Commit(reply: Reply) returns (r: Result<(), UploadError>)
      requires |stagedVideos| <= 1
      modifies this, db
      ensures r == if reply.Raised() then Err(Unavailable) else Ok(())
      ensures Clean()
      ensures reply.TookEffect() ==>
                db.State() == Tables(
                  if old(stagedVideos) == [] then old(db.videos)
                      else Apply(old(db.videos), RepoOp.Save(old(stagedVideos)[0])),
                  old(db.outbox) + old(stagedOutbox), old(db.keys) + old(stagedKeys))
      ensures !reply.TookEffect() ==> db.State() == old(db.State())
    {
      if reply.TookEffect() {
        if stagedVideos != [] {
          db.videos := Apply(db.videos, RepoOp.Save(stagedVideos[0]));
        }
        db.outbox := db.outbox + stagedOutbox;
        db.keys := db.keys + stagedKeys;
      }
      Rollback();
      r := if reply.Raised() then Err(Unavailable) else Ok(());
    }

    /** SqlUoW on an exception. */
    method Rollback()
      modifies this
      ensures Clean()
    {
      stagedKeys, stagedVideos, stagedOutbox := map[], [], map[];
    }
  }

  /** What one undisturbed call does to the committed rows, and what it answers. */
  function Upload(ttl: Retention, t: Tables, now: Instant, c: Command, videoId: VideoId, eventId: EventId, rs: Replies)
    : (Tables, Result<UploadResult, UploadError>)
  {
    var video := Snapshot(videoId, c.sourceKey, PENDING, now, c.document);
    var failed := (t, Err(Unavailable));
    if c.sourceKey == "" then (t, Err(EmptyKey))
    else if c.key.Some? && rs.claim.Raised() then failed
    else if c.key.Some? && c.key.value in t.keys then
      var stored := t.keys[c.key.value];
      if rs.commit.Raised() || rs.find.Raised() then failed
      else if stored.fingerprint != Uploads.FingerprintOf(c) then (t, Err(KeyReused(c.key.value)))
      else (t, Ok(UploadResult(stored.response, true)))
    else if rs.save.Raised() || rs.add.Raised() || rs.commit == Refused then failed
    else
      var keys := match c.key
                  case None => t.keys
                  case Some(k) => t.keys[k := KeyRow(Uploads.FingerprintOf(c), video, now + ttl)];
      var written := Tables(Apply(t.videos, RepoOp.Save(video)), t.outbox[eventId := OutboxRow(videoId, now)], keys);
      (written, if rs.commit.Raised() then Err(Unavailable) else Ok(UploadResult(video, false)))
  }

  // ---- what an upload answers ----

  /** Every await was answered. */
  predicate AllDone(rs: Replies) {
    rs == Replies(Reply.Done, Reply.Done, Reply.Done, Reply.Done, Reply.Done)
  }

  predicate KeyTaken(t: Tables, c: Command) {
    c.key.Some? && c.key.value in t.keys
  }

  /** The tables hold one PENDING video, its outbox row and its key row more. */
  predicate HoldsUpload(t: Tables, t': Tables, v: Snapshot, eventId: EventId, c: Command, expiresAt: Instant) {
    && v.id in t'.videos && Stored(t'.videos, v.id) == v && !t'.videos[v.id].deleted
    && t'.videos - {v.id} == t.videos - {v.id}
    && eventId in t'.outbox && t'.outbox[eventId] == OutboxRow(v.id, v.uploadedAt)
    && t'.outbox - {eventId} == t.outbox - {eventId}
    && match c.key {
         case None => t'.keys == t.keys
         case Some(k) =>
           && k in t'.keys && t'.keys[k].response == v && t'.keys[k].expiresAt == expiresAt
           && t'.keys - {k} == t.keys
       }
  }

  /** An upload under a fresh key, or under none, creates the video that was asked for and answers with it. */
  lemma FirstUpload(
      ttl: Retention, t: Tables, now: Instant, c: Command, videoId: VideoId, eventId: EventId, rs: Replies)
    requires c.sourceKey != "" && !KeyTaken(t, c) && videoId !in t.videos && AllDone(rs)
    ensures var (t', r) := Upload(ttl, t, now, c, videoId, eventId, rs);
            && r.Ok? && !r.value.replayed
            && var v := r.value.video;
               && v.id == videoId && v.sourceKey == c.sourceKey && v.status == PENDING && v.uploadedAt == now
               && v.document == c.document
               && HoldsUpload(t, t', v, eventId, c, now + ttl)
  {
  }

  /** A second upload under the key of a first one changes no table, and answers with the first video exactly when it
      asks for the same payload: one source key, and one document up to the order of mapping keys. */
  lemma RetryAnswers(
      ttl: Retention, t: Tables, first: Command, now: Instant, id: VideoId, eventId: EventId, rs: Replies,
      again: Command, later: Instant, id': VideoId, eventId': EventId, rs': Replies)
    requires first.sourceKey != "" && !KeyTaken(t, first) && id !in t.videos && AllDone(rs) && AllDone(rs')
    requires again.sourceKey != "" && first.key.Some? && again.key == first.key
    requires Canonical.WellFormed(first.document) && Canonical.WellFormed(again.document)
    ensures var (t1, r1) := Upload(ttl, t, now, first, id, eventId, rs);
            var (t2, r2) := Upload(ttl, t1, later, again, id', eventId', rs');
            && t2 == t1 && r1.Ok?
            && r2 == if again.sourceKey == first.sourceKey
                        && Canonical.Meaning(again.document) == Canonical.Meaning(first.document)
                     then Ok(UploadResult(r1.value.video, true)) else Err(KeyReused(first.key.value))
  {
    Canonical.FingerprintDecidesPayload(first.sourceKey, first.document, again.sourceKey, again.document);
  }

  /** Whatever fails: a blank source key is refused first, the tables change by one whole upload or not at all, an
      answer tells which, and only an await that raises makes a call unavailable. */
  lemma AnswersUnderFailure(
      ttl: Retention, t: Tables, now: Instant, c: Command, videoId: VideoId, eventId: EventId, rs: Replies)
    requires videoId !in t.videos
    ensures var (t', r) := Upload(ttl, t, now, c, videoId, eventId, rs);
            var v := Snapshot(videoId, c.sourceKey, PENDING, now, c.document);
            && (r == Err(EmptyKey) <==> c.sourceKey == "")
            && (t' != t ==> HoldsUpload(t, t', v, eventId, c, now + ttl) && !KeyTaken(t, c) && rs.commit.TookEffect())
            && (r.Ok? && !r.value.replayed ==> r.value.video == v && HoldsUpload(t, t', v, eventId, c, now + ttl))
            && (r.Ok? && r.value.replayed ==>
                  && t' == t && KeyTaken(t, c) && r.value.video == t.keys[c.key.value].response
                  && t.keys[c.key.value].fingerprint == FingerprintOf(c))
            && (r.Err? && r.error.KeyReused? ==>
                  && t' == t && KeyTaken(t, c) && c.key.value == r.error.key
                  && t.keys[c.key.value].fingerprint != FingerprintOf(c))
            && (r == Err(Unavailable) ==> !AllDone(rs))
  {
  }

  class UploadVideoUC {
    const session: Session

    constructor (session: Session)
      ensures this.session == session
    {
      this.session := session;
    }

    method Call(
        c: Command, now: Instant, videoId: VideoId, eventId: EventId, rs: Replies)
      returns (r: Result<UploadResult, UploadError>)
      requires session.Clean()
      modifies session, session.db
      ensures session.Clean()
      ensures (session.db.State(), r) == Upload(session.ttl, old(session.db.State()), now, c, videoId, eventId, rs)
    {
      var created := Video.Upload(videoId, c.sourceKey, now, c.document);
      if created.Err? {
        return Err(EmptyKey);
      }
      var video := created.value;
      var snapshot := video.State();
      var fingerprint := Uploads.FingerprintOf(c);
      var staged := Stage(c, video, fingerprint, now, eventId, rs);
      if staged.Err? {
        return Err(Unavailable);
      }
      var claimed := staged.value;
      ghost var before := old(session.db.State());
      MergeNothing(before.outbox);
      MergeNothing(before.keys);
      MergeOne(before.outbox, eventId, OutboxRow(videoId, now));
      if c.key.Some? {
        MergeOne(before.keys, c.key.value, KeyRow(fingerprint, snapshot, now + session.ttl));
      }
      var committed := session.Commit(rs.commit);
      if committed.Err? {
        return Err(Unavailable);
      }
      if claimed {
        return Ok(UploadResult(snapshot, false));
      }
      r := Replay(c.key.value, fingerprint, rs.find);
    }

    /** What the transaction of a call stages; it is rolled back if any of it raises. */
    method Stage(c: Command, video: Video, fingerprint: Fingerprint, now: Instant, eventId: EventId, rs: Replies)
      returns (claimed: Result<bool, UploadError>)
      requires session.Clean() && |video.events| == 1 && video.events[0].videoId == video.id
      modifies session, video`events
      ensures claimed == if c.key.Some? && rs.claim.Raised() then Err(Unavailable)
                         else if c.key.Some? && c.key.value in session.db.keys then Ok(false)
                         else if rs.save.Raised() || rs.add.Raised() then Err(Unavailable)
                         else Ok(true)
      ensures claimed != Ok(true) ==> session.Clean()
      ensures claimed == Ok(true) ==>
                && session.stagedVideos == [old(video.State())]
                && session.stagedOutbox == map[eventId := OutboxRow(video.id, now)]
                && session.stagedKeys
                   == (if c.key.None? then map[]
                       else map[c.key.value := KeyRow(fingerprint, old(video.State()), now + session.ttl)])
    {
      if c.key.Some? {
        var claim := session.Claim(c.key.value, fingerprint, video.State(), now, rs.claim);
        if claim.Err? {
          session.Rollback();
          return Err(Unavailable);
        }
        if !claim.value {
          return Ok(false);
        }
      }
      var staged := SaveAndAdd(video, eventId, now, rs);
      if staged.Err? {
        session.Rollback();
        return Err(Unavailable);
      }
      claimed := Ok(true);
    }

    /** What the winner of a claim, or a call without a key, stages next. */
    method SaveAndAdd(video: Video, eventId: EventId, now: Instant, rs: Replies) returns (r: Result<(), UploadError>)
      requires session.stagedVideos == [] && session.stagedOutbox == map[]
      requires |video.events| == 1 && video.events[0].videoId == video.id
      modifies session`stagedVideos, session`stagedOutbox, video`events
      ensures r == if rs.save.Raised() || rs.add.Raised() then Err(Unavailable) else Ok(())
      ensures r.Ok? ==>
                session.stagedVideos == [old(video.State())]
                && session.stagedOutbox == map[eventId := OutboxRow(video.id, now)]
    {
      var saved := session.SaveVideo(video.State(), rs.save);
      if saved.Err? {
        return Err(Unavailable);
      }
      var events := video.CollectEvents();
      for i := 0 to |events|
        invariant session.stagedVideos == [old(video.State())]
        invariant session.stagedOutbox == if i == 0 then map[] else map[eventId := OutboxRow(video.id, now)]
        invariant i > 0 ==> !rs.add.Raised()
      {
        var added := session.AddOutbox(events[i], eventId, now, rs.add);
        if added.Err? {
          return Err(Unavailable);
        }
      }
      r := Ok(());
    }

    /** The end of a call that lost its claim. */
    method Replay(key: Key, fingerprint: Fingerprint, find: Reply) returns (r: Result<UploadResult, UploadError>)
      ensures r == if find.Raised() || key !in session.db.keys then Err(Unavailable)
                   else if session.db.keys[key].fingerprint != fingerprint then Err(KeyReused(key))
                   else Ok(UploadResult(session.db.keys[key].response, true))
    {
      var found := session.Find(key, find);
      if found.Err? || found.value.None? {
        return Err(Unavailable);
      }
      var stored := found.value.value;
      if stored.fingerprint != fingerprint {
        return Err(KeyReused(key));
      }
      r := Ok(UploadResult(stored.response, true));
    }
  }

  class IdempotencySweeper {
    const db: MediaDb

    constructor (db: MediaDb)
      ensures this.db == db
    {
      this.db := db;
    }

    /** purge_once: the keys past their expiry, in one transaction, and how many they were. */
    method PurgeOnce(now: Instant, reply: Reply) returns (r: Result<nat, UploadError>)
      modifies db`keys
      ensures !reply.TookEffect() ==> db.keys == old(db.keys)
      ensures reply.TookEffect() ==>
                && (forall k | k in db.keys :: k in old(db.keys) && db.keys[k] == old(db.keys[k]))
                && (forall k | k in old(db.keys) :: k in db.keys <==> now <= old(db.keys[k]).expiresAt)
      ensures r.Ok? <==> !reply.Raised()
      ensures r.Ok? ==> r.value == |old(db.keys)| - |db.keys|
    {
      var expired := set k | k in db.keys && db.keys[k].expiresAt < now;
      if reply.TookEffect() {
        ghost var before := db.keys;
        db.keys := db.keys - expired;
        assert before.Keys == db.keys.Keys + expired && db.keys.Keys !! expired;
        assert |before| == |before.Keys| && |db.keys| == |db.keys.Keys|;
      }
      r := if reply.Raised() then Err(Unavailable) else Ok(|expired|);
    }
  }

  /** The protocol's sweep purges the keys that PurgeOnce purges at that instant, and touches nothing else. */
  lemma SweepIsPurge(ttl: Retention, db: Db, reply: Reply)
    ensures var db' := Next(ttl, db, Sweep(reply));
            && db'.videos == db.videos && db'.outbox == db.outbox && db'.txs == db.txs && db'.now == db.now
            && (forall k | k in db'.keys :: k in db.keys && db'.keys[k] == db.keys[k])
            && (forall k | k in db.keys :: k in db'.keys <==> reply == Refused || db.now <= db.keys[k].expiresAt)
  {
  }

  // ---- one call in the protocol ----

  /** The awaits of one call, in order; those that the call does not reach are no steps. */
  function CallSteps(
      tx: TxId, c: Command, videoId: VideoId, expiresAt: Instant, eventId: EventId, rs: Replies): seq<Step> {
    [Begin(tx, c, videoId), ReadClock(tx, expiresAt), Claim(tx, rs.claim),
     SaveVideo(tx, rs.save), AddOutbox(tx, eventId, rs.add), Commit(tx, rs.commit), Find(tx, rs.find)]
  }

  function TablesOf(db: Db): Tables {
    Tables(db.videos, db.outbox, db.keys)
  }

  /** What the history of the keys says of the answer of a call: these are the events of the call. A replay is logged
      with the video that it answers with, a first upload under a key is logged with the row that stores its video, a
      reused key is logged as rejected, and a call that raises was not told whether its upload took place. */
  predicate Tells(c: Command, answer: Result<UploadResult, UploadError>, events: seq<KeyEvent>) {
    match answer
    case Ok(r) =>
      if r.replayed then c.key.Some? && events == [Replayed(c.key.value, FingerprintOf(c), r.video)]
      else if c.key.None? then events == []
      else IsCreation(c, events) && events[0].row.response == r.video
    case Err(e) =>
      match e
      case EmptyKey => c.sourceKey == "" && events == []
      case KeyReused(k) => c.key == Some(k) && events == [Rejected(k, FingerprintOf(c))]
      case Unavailable => events == [] || IsCreation(c, events)
  }

  predicate IsCreation(c: Command, events: seq<KeyEvent>) {
    && |events| == 1 && events[0].Created? && c.key == Some(events[0].key)
    && events[0].row.fingerprint == FingerprintOf(c)
  }

  /** The call left the tables that the method leaves, and logged what the method answers. */
  predicate EndsAs(db: Db, d: Db, c: Command, end: (Tables, Result<UploadResult, UploadError>)) {
    TablesOf(d) == end.0 && db.log <= d.log && Tells(c, end.1, d.log[|db.log|..])
  }

  lemma RunSeven(ttl: Retention, db: Db, s: seq<Step>, d1: Db, d2: Db, d3: Db, d4: Db, d5: Db, d6: Db)
    requires |s| == 7
    requires d1 == Next(ttl, db, s[0]) && d2 == Next(ttl, d1, s[1]) && d3 == Next(ttl, d2, s[2])
    requires d4 == Next(ttl, d3, s[3]) && d5 == Next(ttl, d4, s[4]) && d6 == Next(ttl, d5, s[5])
    ensures Run(ttl, db, s) == Next(ttl, d6, s[6])
  {
    assert s[..1][..0] == [] && s[..2][..1] == s[..1] && s[..3][..2] == s[..2] && s[..4][..3] == s[..3]
        && s[..5][..4] == s[..4] && s[..6][..5] == s[..5];
    assert Run(ttl, db, s[..1]) == d1;
    assert Run(ttl, db, s[..2]) == d2;
    assert Run(ttl, db, s[..3]) == d3;
    assert Run(ttl, db, s[..4]) == d4;
    assert Run(ttl, db, s[..5]) == d5;
    assert Run(ttl, db, s[..6]) == d6;
  }

  /** The database with one open call in it. */
  function With(db: Db, tx: TxId, t: Tx): Db {
    db.(txs := map[tx := t])
  }

  function Without(db: Db): Db {
    db.(txs := map[])
  }

  lemma RollbackOnly(db: Db, tx: TxId, t: Tx)
    ensures Rollback(With(db, tx, t), tx) == Without(db)
  {
    assert map[tx := t] - {tx} == map[];
  }

  lemma AdvanceOnly(db: Db, tx: TxId, t: Tx, phase: Phase)
    ensures Advance(With(db, tx, t), tx, phase) == With(db, tx, t.(phase := phase))
  {
    assert map[tx := t][tx := t.(phase := phase)] == map[tx := t.(phase := phase)];
  }

  /** The awaits of a call after its claim. */
  function Finish(db: Db, tx: TxId, eventId: EventId, rs: Replies): Db {
    FinishSaved(SaveTx(db, tx, rs.save), tx, eventId, rs)
  }

  /** The awaits of a call after its save. */
  function FinishSaved(db: Db, tx: TxId, eventId: EventId, rs: Replies): Db {
    var d := AddTx(db, tx, eventId, rs.add);
    FindTx(if tx in d.txs then CommitTx(d, tx, rs.commit) else d, tx, rs.find)
  }

  /** From a lost claim on: two more awaits, and no write. */
  lemma LostCall(db: Db, tx: TxId, t: Tx, eventId: EventId, rs: Replies)
    requires t.phase.LostClaim? && t.command.key.Some?
    ensures var d := Finish(With(db, tx, t), tx, eventId, rs);
            && TablesOf(d) == TablesOf(db) && tx !in d.txs
            && d.log == db.log + if rs.commit.Raised() || rs.find.Raised() then []
                                 else [Outcome(db, t, t.command.key.value)]
  {
    RollbackOnly(db, tx, t);
    AdvanceOnly(db, tx, t, Finding);
    RollbackOnly(db, tx, t.(phase := Finding));
  }

  lemma UnsavedCall(db: Db, tx: TxId, t: Tx, eventId: EventId, rs: Replies)
    requires t.phase.Saving? && rs.save.Raised()
    ensures Finish(With(db, tx, t), tx, eventId, rs) == Without(db)
  {
    RollbackOnly(db, tx, t);
    assert SaveTx(With(db, tx, t), tx, rs.save) == Without(db);
  }

  /** What the add leaves of a call that has saved its video. */
  lemma AddOnly(db: Db, tx: TxId, t: Tx, eventId: EventId, reply: Reply)
    requires t.phase.Adding? && eventId !in db.usedIds
    ensures AddTx(With(db, tx, t), tx, eventId, reply)
            == if reply.Raised() then Without(db)
               else With(db.(usedIds := db.usedIds + {eventId}), tx,
                   t.(phase := Committing(t.phase.lease, eventId, db.now)))
  {
    RollbackOnly(db, tx, t);
    AdvanceOnly(db, tx, t, Committing(t.phase.lease, eventId, db.now));
  }

  predicate SameSeen(d: Db, d': Db) {
    TablesOf(d) == TablesOf(d') && d.log == d'.log
  }

  lemma CommitOnly(db: Db, tx: TxId, t: Tx, reply: Reply)
    requires t.phase.Committing?
    ensures var d := CommitTx(With(db, tx, t), tx, reply);
            tx !in d.txs && SameSeen(d, if reply.TookEffect() then Publish(db, t) else db)
  {
    RollbackOnly(db, tx, t);
  }

  lemma AddedCall(db: Db, tx: TxId, t: Tx, eventId: EventId, rs: Replies)
    requires t.phase.Adding? && eventId !in db.usedIds
    ensures var d := FinishSaved(With(db, tx, t), tx, eventId, rs);
            && tx !in d.txs
            && SameSeen(d, if rs.add.Raised() || rs.commit == Refused then db
                           else Publish(db, t.(phase := Committing(t.phase.lease, eventId, db.now))))
  {
    AddOnly(db, tx, t, eventId, rs.add);
    if !rs.add.Raised() {
      var used, done := db.(usedIds := db.usedIds + {eventId}), t.(phase := Committing(t.phase.lease, eventId, db.now));
      CommitOnly(used, tx, done, rs.commit);
      NothingToFind(CommitTx(With(used, tx, done), tx, rs.commit), tx, rs.find);
      IdsAreUnseen(db, used.usedIds, done);
    }
  }

  lemma IdsAreUnseen(db: Db, ids: set<nat>, t: Tx)
    requires t.phase.Committing?
    ensures SameSeen(Publish(db.(usedIds := ids), t), Publish(db, t))
  {
  }

  lemma NothingToFind(db: Db, tx: TxId, reply: Reply)
    requires tx !in db.txs
    ensures FindTx(db, tx, reply) == db
  {
  }

  lemma SavedCall(db: Db, tx: TxId, t: Tx, eventId: EventId, rs: Replies)
    requires t.phase.Saving? && eventId !in db.usedIds && !rs.save.Raised()
    ensures var d := Finish(With(db, tx, t), tx, eventId, rs);
            && tx !in d.txs
            && SameSeen(d, if rs.add.Raised() || rs.commit == Refused then db
                           else Publish(db, t.(phase := Committing(t.phase.lease, eventId, db.now))))
  {
    var adding := t.(phase := Adding(t.phase.lease));
    AdvanceOnly(db, tx, t, adding.phase);
    assert SaveTx(With(db, tx, t), tx, rs.save) == With(db, tx, adding);
    AddedCall(db, tx, adding, eventId, rs);
    assert adding.(phase := Committing(t.phase.lease, eventId, db.now))
        == t.(phase := Committing(t.phase.lease, eventId, db.now));
  }

  /** From a won claim (or none) on: three awaits, and a write that is whole or not at all. */
  lemma WinningCall(db: Db, tx: TxId, t: Tx, eventId: EventId, rs: Replies)
    requires t.phase.Saving? && eventId !in db.usedIds
    ensures var d := Finish(With(db, tx, t), tx, eventId, rs);
            && tx !in d.txs
            && SameSeen(d, if rs.save.Raised() || rs.add.Raised() || rs.commit == Refused then db
                           else Publish(db, t.(phase := Committing(t.phase.lease, eventId, db.now))))
  {
    if rs.save.Raised() {
      UnsavedCall(db, tx, t, eventId, rs);
    } else {
      SavedCall(db, tx, t, eventId, rs);
    }
  }

  /** Run without interleaving, the steps of a call do to the tables what the method does, and the history of the keys
      gets the events that the method's answer tells of. */
  lemma CallIsSteps(ttl: Retention, db: Db, tx: TxId, c: Command, videoId: VideoId, eventId: EventId, rs: Replies)
    requires db.txs == map[] && videoId !in db.usedIds && eventId !in db.usedIds && videoId != eventId
    ensures var db' := Run(ttl, db, CallSteps(tx, c, videoId, db.now + ttl, eventId, rs));
            && EndsAs(db, db', c, Upload(ttl, TablesOf(db), db.now, c, videoId, eventId, rs))
            && tx !in db'.txs
  {
    StepsInOrder(ttl, db, tx, c, videoId, db.now + ttl, eventId, rs);
    FromBegin(ttl, db, tx, c, videoId, db.now + ttl, eventId, rs);
  }

  lemma BeginKeepsTime(ttl: Retention, db: Db, tx: TxId, c: Command, videoId: VideoId)
    ensures Next(ttl, db, Begin(tx, c, videoId)).now == db.now
  {
  }

  lemma StepsInOrder(
      ttl: Retention, db: Db, tx: TxId, c: Command, videoId: VideoId, expiresAt: Instant, eventId: EventId, rs: Replies)
    requires expiresAt == db.now + ttl
    ensures Run(ttl, db, CallSteps(tx, c, videoId, expiresAt, eventId, rs))
            == Finish(ReadAndClaim(Next(ttl, db, Begin(tx, c, videoId)), tx, expiresAt, rs.claim), tx, eventId, rs)
  {
    var s := CallSteps(tx, c, videoId, expiresAt, eventId, rs);
    var d1 := Next(ttl, db, s[0]);
    BeginKeepsTime(ttl, db, tx, c, videoId);
    var d2 := Next(ttl, d1, s[1]);
    assert d2 == SendClaim(d1, tx, expiresAt);
    RunSeven(ttl, db, s, d1, d2, ClaimKey(d2, tx, rs.claim), SaveTx(ClaimKey(d2, tx, rs.claim), tx, rs.save),
             BeforeCommit(d2, tx, eventId, rs), AfterCommit(d2, tx, eventId, rs));
  }

  function BeforeCommit(db: Db, tx: TxId, eventId: EventId, rs: Replies): Db {
    AddTx(SaveTx(ClaimKey(db, tx, rs.claim), tx, rs.save), tx, eventId, rs.add)
  }

  function AfterCommit(db: Db, tx: TxId, eventId: EventId, rs: Replies): Db {
    var d := BeforeCommit(db, tx, eventId, rs);
    if tx in d.txs then CommitTx(d, tx, rs.commit) else d
  }

  /** The clock read and the claim that follows it. */
  function ReadAndClaim(db: Db, tx: TxId, expiresAt: Instant, reply: Reply): Db {
    ClaimKey(SendClaim(db, tx, expiresAt), tx, reply)
  }

  /** What they leave of a call that has just begun. */
  lemma ClaimOnly(db: Db, tx: TxId, t: Tx, expiresAt: Instant, reply: Reply)
    requires t.phase.Claiming? && t.command.key.Some?
    ensures ReadAndClaim(With(db, tx, t), tx, expiresAt, reply)
            == if reply.Raised() then Without(db)
               else if t.command.key.value in db.keys then With(db, tx, t.(phase := LostClaim))
               else With(db, tx, t.(phase := Saving(Lease(expiresAt, db.now))))
  {
    SendOnly(db, tx, t, expiresAt);
    SentClaimOnly(db, tx, t.(phase := Waiting(expiresAt)), reply);
  }

  lemma SendOnly(db: Db, tx: TxId, t: Tx, expiresAt: Instant)
    requires t.phase.Claiming?
    ensures SendClaim(With(db, tx, t), tx, expiresAt) == With(db, tx, t.(phase := Waiting(expiresAt)))
  {
    AdvanceOnly(db, tx, t, Waiting(expiresAt));
  }

  lemma SentClaimOnly(db: Db, tx: TxId, t: Tx, reply: Reply)
    requires t.phase.Waiting? && t.command.key.Some?
    ensures ClaimKey(With(db, tx, t), tx, reply)
            == if reply.Raised() then Without(db)
               else if t.command.key.value in db.keys then With(db, tx, t.(phase := LostClaim))
               else With(db, tx, t.(phase := Saving(Lease(t.phase.expiresAt, db.now))))
  {
    assert !KeyIsLocked(With(db, tx, t), t.command.key.value);
    RollbackOnly(db, tx, t);
    AdvanceOnly(db, tx, t, LostClaim);
    AdvanceOnly(db, tx, t, Saving(Lease(t.phase.expiresAt, db.now)));
  }

  lemma EndedCall(db: Db, tx: TxId, eventId: EventId, rs: Replies)
    ensures Finish(Without(db), tx, eventId, rs) == Without(db)
  {
  }

  /** How the method ends for a call of the protocol. */
  function EndOf(ttl: Retention, db: Db, t: Tx, eventId: EventId, rs: Replies)
    : (Tables, Result<UploadResult, UploadError>)
  {
    Upload(ttl, TablesOf(db), db.now, t.command, t.video.id, eventId, rs)
  }

  /** A call that has just begun, with a key to claim. */
  predicate ToClaim(db: Db, t: Tx) {
    && t.phase.Claiming? && t.command.key.Some? && t.command.sourceKey != ""
    && t.video == Snapshot(t.video.id, t.command.sourceKey, PENDING, db.now, t.command.document)
  }

  lemma UnansweredClaim(
      ttl: Retention, db: Db, tx: TxId, t: Tx, expiresAt: Instant, eventId: EventId, rs: Replies)
    requires expiresAt == db.now + ttl && ToClaim(db, t) && rs.claim.Raised()
    ensures var d := Finish(ReadAndClaim(With(db, tx, t), tx, expiresAt, rs.claim), tx, eventId, rs);
            tx !in d.txs && EndsAs(db, d, t.command, EndOf(ttl, db, t, eventId, rs))
  {
    ClaimOnly(db, tx, t, expiresAt, rs.claim);
    EndedCall(db, tx, eventId, rs);
  }

  lemma LostClaimCall(
      ttl: Retention, db: Db, tx: TxId, t: Tx, expiresAt: Instant, eventId: EventId, rs: Replies)
    requires expiresAt == db.now + ttl && ToClaim(db, t) && !rs.claim.Raised() && t.command.key.value in db.keys
    ensures var d := Finish(ReadAndClaim(With(db, tx, t), tx, expiresAt, rs.claim), tx, eventId, rs);
            tx !in d.txs && EndsAs(db, d, t.command, EndOf(ttl, db, t, eventId, rs))
  {
    ClaimOnly(db, tx, t, expiresAt, rs.claim);
    LostCall(db, tx, t.(phase := LostClaim), eventId, rs);
  }

  /** The rows that a winning call publishes are those that the method writes. */
  lemma WinnerWrites(ttl: Retention, db: Db, t: Tx, expiresAt: Instant, eventId: EventId, rs: Replies)
    requires expiresAt == db.now + ttl && ToClaim(db, t) && !rs.claim.Raised() && t.command.key.value !in db.keys
    ensures EndsAs(db, if rs.save.Raised() || rs.add.Raised() || rs.commit == Refused then db
                       else Publish(db, t.(phase := Committing(Lease(expiresAt, db.now), eventId, db.now))),
                   t.command, EndOf(ttl, db, t, eventId, rs))
  {
  }

  lemma WonClaimSteps(db: Db, tx: TxId, t: Tx, expiresAt: Instant, eventId: EventId, rs: Replies)
    requires ToClaim(db, t) && !rs.claim.Raised() && t.command.key.value !in db.keys && eventId !in db.usedIds
    ensures var d := Finish(ReadAndClaim(With(db, tx, t), tx, expiresAt, rs.claim), tx, eventId, rs);
            var lease := Lease(expiresAt, db.now);
            && tx !in d.txs
            && SameSeen(d, if rs.save.Raised() || rs.add.Raised() || rs.commit == Refused then db
                           else Publish(db, t.(phase := Committing(lease, eventId, db.now))))
  {
    var lease := Lease(expiresAt, db.now);
    ClaimOnly(db, tx, t, expiresAt, rs.claim);
    WinningCall(db, tx, t.(phase := Saving(lease)), eventId, rs);
    assert t.(phase := Saving(lease)).(phase := Committing(lease, eventId, db.now))
        == t.(phase := Committing(lease, eventId, db.now));
  }

  lemma WonClaimCall(
      ttl: Retention, db: Db, tx: TxId, t: Tx, expiresAt: Instant, eventId: EventId, rs: Replies)
    requires expiresAt == db.now + ttl && ToClaim(db, t) && eventId !in db.usedIds
    requires !rs.claim.Raised() && t.command.key.value !in db.keys
    ensures var d := Finish(ReadAndClaim(With(db, tx, t), tx, expiresAt, rs.claim), tx, eventId, rs);
            tx !in d.txs && EndsAs(db, d, t.command, EndOf(ttl, db, t, eventId, rs))
  {
    WonClaimSteps(db, tx, t, expiresAt, eventId, rs);
    WinnerWrites(ttl, db, t, expiresAt, eventId, rs);
  }

  lemma KeyedCall(
      ttl: Retention, db: Db, tx: TxId, t: Tx, expiresAt: Instant, eventId: EventId, rs: Replies)
    requires expiresAt == db.now + ttl && ToClaim(db, t) && eventId !in db.usedIds
    ensures var d := Finish(ReadAndClaim(With(db, tx, t), tx, expiresAt, rs.claim), tx, eventId, rs);
            tx !in d.txs && EndsAs(db, d, t.command, EndOf(ttl, db, t, eventId, rs))
  {
    if rs.claim.Raised() {
      UnansweredClaim(ttl, db, tx, t, expiresAt, eventId, rs);
    } else if t.command.key.value in db.keys {
      LostClaimCall(ttl, db, tx, t, expiresAt, eventId, rs);
    } else {
      WonClaimCall(ttl, db, tx, t, expiresAt, eventId, rs);
    }
  }

  lemma BegunIsWith(ttl: Retention, db: Db, tx: TxId, c: Command, videoId: VideoId)
    requires db.txs == map[] && videoId !in db.usedIds && c.sourceKey != ""
    ensures var t := Tx(c, Snapshot(videoId, c.sourceKey, PENDING, db.now, c.document),
                        if c.key.Some? then Claiming else Saving(Lease(db.now, db.now)));
            Next(ttl, db, Begin(tx, c, videoId)) == With(db.(usedIds := db.usedIds + {videoId}), tx, t)
  {
  }

  /** A call without a key reads no clock for it and claims nothing. */
  lemma NothingToClaim(db: Db, tx: TxId, t: Tx, expiresAt: Instant, reply: Reply)
    requires t.phase.Saving?
    ensures ReadAndClaim(With(db, tx, t), tx, expiresAt, reply) == With(db, tx, t)
  {
  }

  lemma EmptyKeyCall(
      ttl: Retention, db: Db, tx: TxId, c: Command, videoId: VideoId, expiresAt: Instant, eventId: EventId, rs: Replies)
    requires db.txs == map[] && c.sourceKey == ""
    ensures var d1 := Next(ttl, db, Begin(tx, c, videoId));
            Finish(ReadAndClaim(d1, tx, expiresAt, rs.claim), tx, eventId, rs) == db
  {
    assert Next(ttl, db, Begin(tx, c, videoId)) == db;
    assert ReadAndClaim(db, tx, expiresAt, rs.claim) == db;
  }

  lemma FromBegin(
      ttl: Retention, db: Db, tx: TxId, c: Command, videoId: VideoId, expiresAt: Instant, eventId: EventId, rs: Replies)
    requires expiresAt == db.now + ttl && db.txs == map[]
    requires videoId !in db.usedIds && eventId !in db.usedIds && videoId != eventId
    ensures var d1 := Next(ttl, db, Begin(tx, c, videoId));
            var d := Finish(ReadAndClaim(d1, tx, expiresAt, rs.claim), tx, eventId, rs);
            && EndsAs(db, d, c, Upload(ttl, TablesOf(db), db.now, c, videoId, eventId, rs))
            && tx !in d.txs
  {
    if c.sourceKey == "" {
      EmptyKeyCall(ttl, db, tx, c, videoId, expiresAt, eventId, rs);
    } else {
      BegunIsWith(ttl, db, tx, c, videoId);
      var used := db.(usedIds := db.usedIds + {videoId});
      var t := Tx(c, Snapshot(videoId, c.sourceKey, PENDING, db.now, c.document),
                  if c.key.Some? then Claiming else Saving(Lease(db.now, db.now)));
      if c.key.None? {
        NothingToClaim(used, tx, t, expiresAt, rs.claim);
        WinningCall(used, tx, t, eventId, rs);
      } else {
        KeyedCall(ttl, used, tx, t, expiresAt, eventId, rs);
      }
    }
  }
}
