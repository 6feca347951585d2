/** The whole video pipeline: uploads, relays, the media_processing service and the status consumers take steps
    in any order, each with any fault; what holds in every reachable state. */
module Pipeline {
  import opened Wrappers
  import opened VideoAgg
  import opened VideoTable
  import U = Uploads
  import R = OutboxRelay
  import M = MediaProcessing
  import C = StatusConsumer
  import O = StatusOrder

  datatype Config = Config(keyTtl: U.Retention, relayBatch: Positive, retries: nat)

  datatype System = System(db: U.Db, relay: R.Relay, service: M.Service, group: C.Group)

  const START := System(U.EMPTY, R.IDLE, M.NO_WORK, C.NEW_GROUP)

  datatype SystemStep =
    | DbStep(upload: U.Step)
    | RelayDoes(relay: R.RelayStep)
    | ServiceDoes(service: M.ServiceStep)
    | ConsumerDoes(consumer: C.ConsumerStep)

  /** The status stream as the consumers decode it: the publisher writes nothing malformed or of unknown type. */
  function Entries(status: seq<M.StatusEvent>): seq<C.Entry> {
    seq(|status|, i requires 0 <= i < |status| => C.Known(status[i]))
  }

  /** Statuses move through the consumers and the cancel endpoint only. */
  function SystemNext(cfg: Config, s: System, step: SystemStep): System {
    match step
    case DbStep(u) => if u.MoveVideo? then s else s.(db := U.Next(cfg.keyTtl, s.db, u))
    case RelayDoes(r) => s.(relay := R.RelayNext(cfg.relayBatch, s.db.outbox, s.relay, r))
    case ServiceDoes(m) => s.(service := M.ServiceNext(cfg.retries, s.relay.stream, s.service, m))
    case ConsumerDoes(c) =>
      var (videos, group) := C.ConsumerNext(Entries(s.service.status), s.db.videos, s.group, c);
      s.(db := s.db.(videos := videos), group := group)
  }

  function SystemRun(cfg: Config, steps: seq<SystemStep>): System {
    if steps == [] then START else SystemNext(cfg, SystemRun(cfg, steps[..|steps| - 1]), steps[|steps| - 1])
  }

  /** A verdict of no such video is only ever passed on a video that was deleted. */
  predicate RefusedAsGone(s: System) {
    forall i | i in s.group.verdicts && C.NoSuchVideo in s.group.verdicts[i] && i < |s.service.status| ::
      var v := s.service.status[i].videoId;
      v in s.db.videos && s.db.videos[v].deleted
  }

  ghost predicate SystemInv(cfg: Config, s: System) {
    && U.Inv(s.db)
    && R.RelayInv(s.db.outbox, s.relay)
    && M.ServiceInv(s.relay.stream, s.service) && M.RetriesRespected(cfg.retries, s.service)
    && C.GroupInv(Entries(s.service.status), s.db.videos, s.group)
    && RefusedAsGone(s)
  }

  // ---- what one component leaves of what the next one reads ----

  /** Committed rows stay; new videos are PENDING; nothing is undeleted. */
  predicate RowsEvolve(rows: Rows, rows': Rows) {
    && (forall v | v in rows :: v in rows' && (rows[v].deleted ==> rows'[v].deleted))
    && (forall v | v in rows :: rows'[v].status == rows[v].status)
    && (forall v | v in rows' && v !in rows :: rows'[v].status == PENDING)
  }

  lemma PublishOnlyAdds(db: U.Db, t: U.Tx)
    requires t.phase.Committing? && t.phase.eventId !in db.outbox && t.video.id !in db.videos
             && t.video.status == PENDING
    ensures var db' := U.Publish(db, t);
            RowsEvolve(db.videos, db'.videos) && forall e | e in db.outbox ::
                e in db'.outbox && db'.outbox[e] == db.outbox[e]
  {
  }

  lemma CommitOnlyAdds(db: U.Db, tx: U.TxId, reply: Reply)
    requires U.FreshTxIds(db) && tx in db.txs
    ensures var db' := U.CommitTx(db, tx, reply);
            RowsEvolve(db.videos, db'.videos) && forall e | e in db.outbox ::
                e in db'.outbox && db'.outbox[e] == db.outbox[e]
  {
    var t := db.txs[tx];
    if t.phase.Committing? && reply.TookEffect() {
      PublishOnlyAdds(db, t);
      assert U.CommitTx(db, tx, reply) == U.Rollback(U.Publish(db, t), tx);
    } else {
      assert U.CommitTx(db, tx, reply).videos == db.videos && U.CommitTx(db, tx, reply).outbox == db.outbox;
    }
  }

  lemma DbOnlyAdds(ttl: U.Retention, db: U.Db, u: U.Step)
    requires U.Inv(db) && !u.MoveVideo?
    ensures var db' := U.Next(ttl, db, u);
            RowsEvolve(db.videos, db'.videos) && forall e | e in db.outbox ::
                e in db'.outbox && db'.outbox[e] == db.outbox[e]
  {
    if u.Commit? {
      if u.tx in db.txs {
        CommitOnlyAdds(db, u.tx, u.reply);
        assert U.Next(ttl, db, u) == U.CommitTx(db, u.tx, u.reply);
      }
    } else if u.DeleteVideo? || u.Sweep? {
      assert U.Next(ttl, db, u).outbox == db.outbox;
    } else {
      U.TablesUntouched(ttl, db, u);
    }
  }

  lemma StreamOnlyGrows(batch: Positive, outbox: R.Outbox, r: R.Relay, step: R.RelayStep)
    ensures r.stream <= R.RelayNext(batch, outbox, r, step).stream
  {
  }

  lemma StatusOnlyGrows(retries: nat, uploaded: seq<R.UploadMsg>, s: M.Service, step: M.ServiceStep)
    ensures s.status <= M.ServiceNext(retries, uploaded, s, step).status
  {
    if M.IsHandlerStep(step) {
      M.HandlerStepMoves(uploaded, s, step);
    } else if M.IsJobStep(step) {
      if step.j in s.jobs {
        M.JobStepMovesOne(retries, s, step);
      }
    }
  }

  /** A consumer step keeps every video and its deletion mark. */
  lemma ConsumerKeepsVideos(stream: seq<C.Entry>, rows: Rows, g: C.Group, step: C.ConsumerStep)
    ensures var (rows', _) := C.ConsumerNext(stream, rows, g, step);
            rows'.Keys == rows.Keys && forall v | v in rows :: rows'[v].deleted == rows[v].deleted
  {
  }

  /** It says no such video only of a video that is not live. */
  lemma ConsumerRefusesTheDead(stream: seq<C.Entry>, rows: Rows, g: C.Group, step: C.ConsumerStep, i: C.EntryId)
    ensures var g' := C.ConsumerNext(stream, rows, g, step).1;
            i in g'.verdicts && C.NoSuchVideo in g'.verdicts[i] ==>
              || (i in g.verdicts && C.NoSuchVideo in g.verdicts[i])
              || (i < |stream| && stream[i].Known? && !Live(rows, stream[i].event.videoId))
  {
    if step.HandleHead? {
      C.HandlingJudges(stream, rows, g, step.c, step.reply, i);
    } else {
      C.OthersDoNotJudge(stream, rows, g, step);
    }
  }

  // ---- causality ----

  /** Where a video's upload message comes from: its row and its outbox row, committed together. */
  predicate Uploaded(s: System, v: VideoId) {
    && v in s.db.videos && v in s.db.eventOf
    && s.db.eventOf[v] in s.db.outbox && s.db.outbox[s.db.eventOf[v]].videoId == v
    && R.UploadMsg(s.db.eventOf[v], v) in s.relay.stream
  }

  lemma OnStreamWasUploaded(s: System, v: VideoId)
    requires U.CommittedTogether(s.db) && R.StreamIsCommitted(s.db.outbox, s.relay) && M.OnStream(s.relay.stream, v)
    ensures Uploaded(s, v)
  {
    var k :| 0 <= k < |s.relay.stream| && s.relay.stream[k].videoId == v;
    assert s.relay.stream[k] in s.relay.stream;
  }

  // ---- every step keeps the invariant ----

  lemma DbStepKeepsInv(cfg: Config, s: System, u: U.Step)
    requires SystemInv(cfg, s)
    ensures SystemInv(cfg, SystemNext(cfg, s, DbStep(u)))
  {
    if !u.MoveVideo? {
      var db' := U.Next(cfg.keyTtl, s.db, u);
      U.StepKeepsInv(cfg.keyTtl, s.db, u);
      DbOnlyAdds(cfg.keyTtl, s.db, u);
      R.NewRowsKeepInv(s.db.outbox, db'.outbox, s.relay);
      C.OtherRowsKeepInv(Entries(s.service.status), s.db.videos, db'.videos, s.group);
    }
  }

  lemma RelayStepKeepsInv(cfg: Config, s: System, r: R.RelayStep)
    requires SystemInv(cfg, s)
    ensures SystemInv(cfg, SystemNext(cfg, s, RelayDoes(r)))
  {
    R.RelayStepKeepsInv(cfg.relayBatch, s.db.outbox, s.relay, r);
    StreamOnlyGrows(cfg.relayBatch, s.db.outbox, s.relay, r);
    M.NewMessagesKeepInv(s.relay.stream, R.RelayNext(cfg.relayBatch, s.db.outbox, s.relay, r).stream, s.service);
  }

  lemma MoreStatusIsGone(s: System, service: M.Service)
    requires RefusedAsGone(s) && s.service.status <= service.status
    requires C.AckedWereHandled(Entries(s.service.status), s.group)
    ensures RefusedAsGone(s.(service := service))
  {
    forall i | i in s.group.verdicts && C.NoSuchVideo in s.group.verdicts[i]
      ensures i < |s.service.status|
    {
      assert C.VerdictIsSound(Entries(s.service.status), s.group.asked, i, C.NoSuchVideo);
    }
  }

  lemma MoreStatusKeepsGroup(s: System, service: M.Service)
    requires C.GroupInv(Entries(s.service.status), s.db.videos, s.group) && RefusedAsGone(s)
             && s.service.status <= service.status
    ensures C.GroupInv(Entries(service.status), s.db.videos, s.group) && RefusedAsGone(s.(service := service))
  {
    assert Entries(s.service.status) <= Entries(service.status);
    C.NewEntriesKeepInv(Entries(s.service.status), Entries(service.status), s.db.videos, s.group);
    MoreStatusIsGone(s, service);
  }

  lemma ServiceStepKeepsInv(cfg: Config, s: System, m: M.ServiceStep)
    requires SystemInv(cfg, s)
    ensures SystemInv(cfg, SystemNext(cfg, s, ServiceDoes(m)))
  {
    var service := M.ServiceNext(cfg.retries, s.relay.stream, s.service, m);
    M.ServiceStepKeepsInv(cfg.retries, s.relay.stream, s.service, m);
    M.StepWithinRetries(cfg.retries, s.relay.stream, s.service, m);
    StatusOnlyGrows(cfg.retries, s.relay.stream, s.service, m);
    MoreStatusKeepsGroup(s, service);
  }

  lemma ConsumerKeepsGone(s: System, c: C.ConsumerStep)
    requires RefusedAsGone(s) && U.CommittedTogether(s.db) && R.StreamIsCommitted(s.db.outbox, s.relay)
    requires forall e | e in s.service.status :: M.OnStream(s.relay.stream, e.videoId)
    ensures var (videos, group) := C.ConsumerNext(Entries(s.service.status), s.db.videos, s.group, c);
            RefusedAsGone(s.(db := s.db.(videos := videos), group := group))
  {
    var (videos, group) := C.ConsumerNext(Entries(s.service.status), s.db.videos, s.group, c);
    ConsumerKeepsVideos(Entries(s.service.status), s.db.videos, s.group, c);
    forall i | i in group.verdicts && C.NoSuchVideo in group.verdicts[i] && i < |s.service.status|
      ensures var v := s.service.status[i].videoId; v in videos && videos[v].deleted
    {
      ConsumerRefusesTheDead(Entries(s.service.status), s.db.videos, s.group, c, i);
      var e := s.service.status[i];
      assert e in s.service.status;
      OnStreamWasUploaded(s, e.videoId);
    }
  }

  lemma ConsumerKeepsDb(s: System, c: C.ConsumerStep)
    requires U.Inv(s.db)
    ensures U.Inv(s.db.(videos := C.ConsumerNext(Entries(s.service.status), s.db.videos, s.group, c).0))
  {
    var videos := C.ConsumerNext(Entries(s.service.status), s.db.videos, s.group, c).0;
    ConsumerKeepsVideos(Entries(s.service.status), s.db.videos, s.group, c);
    U.VideosKeepInv(s.db, videos);
  }

  lemma ConsumerKeepsParts(s: System, c: C.ConsumerStep)
    requires U.Inv(s.db) && C.GroupInv(Entries(s.service.status), s.db.videos, s.group) && RefusedAsGone(s)
    requires R.StreamIsCommitted(s.db.outbox, s.relay)
    requires forall e | e in s.service.status :: M.OnStream(s.relay.stream, e.videoId)
    ensures var (videos, group) := C.ConsumerNext(Entries(s.service.status), s.db.videos, s.group, c);
            && U.Inv(s.db.(videos := videos)) && C.GroupInv(Entries(s.service.status), videos, group)
            && RefusedAsGone(s.(db := s.db.(videos := videos), group := group))
  {
    C.ConsumerStepKeepsInv(Entries(s.service.status), s.db.videos, s.group, c);
    ConsumerKeepsDb(s, c);
    ConsumerKeepsGone(s, c);
  }

  lemma ConsumerStepKeepsInv(cfg: Config, s: System, c: C.ConsumerStep)
    requires SystemInv(cfg, s)
    ensures SystemInv(cfg, SystemNext(cfg, s, ConsumerDoes(c)))
  {
    var (videos, group) := C.ConsumerNext(Entries(s.service.status), s.db.videos, s.group, c);
    ConsumerKeepsParts(s, c);
    VideosAndGroupKeepInv(cfg, s, videos, group);
    assert SystemNext(cfg, s, ConsumerDoes(c)) == s.(db := s.db.(videos := videos), group := group);
  }

  lemma VideosAndGroupKeepInv(cfg: Config, s: System, videos: Rows, group: C.Group)
    requires SystemInv(cfg, s) && U.Inv(s.db.(videos := videos))
    requires C.GroupInv(Entries(s.service.status), videos, group)
    requires RefusedAsGone(s.(db := s.db.(videos := videos), group := group))
    ensures SystemInv(cfg, s.(db := s.db.(videos := videos), group := group))
  {
  }

  lemma StepKeepsInv(cfg: Config, s: System, step: SystemStep)
    requires SystemInv(cfg, s)
    ensures SystemInv(cfg, SystemNext(cfg, s, step))
  {
    match step {
      case DbStep(u) => DbStepKeepsInv(cfg, s, u);
      case RelayDoes(r) => RelayStepKeepsInv(cfg, s, r);
      case ServiceDoes(m) => ServiceStepKeepsInv(cfg, s, m);
      case ConsumerDoes(c) => ConsumerStepKeepsInv(cfg, s, c);
    }
  }

  lemma DbStart()
    ensures U.Inv(U.EMPTY)
  {
  }

  lemma ServiceStart(retries: nat)
    ensures M.ServiceInv([], M.NO_WORK) && M.RetriesRespected(retries, M.NO_WORK)
  {
  }

  lemma GroupStart()
    ensures C.GroupInv([], map[], C.NEW_GROUP)
  {
  }

  lemma RelayStart()
    ensures R.RelayInv(map[], R.IDLE)
  {
  }

  lemma StartHasInv(cfg: Config)
    ensures SystemInv(cfg, START)
  {
    DbStart();
    RelayStart();
    ServiceStart(cfg.retries);
    GroupStart();
    assert Entries(START.service.status) == [];
  }

  lemma {:induction false} RunKeepsInv(cfg: Config, steps: seq<SystemStep>)
    ensures SystemInv(cfg, SystemRun(cfg, steps))
    decreases |steps|
  {
    if steps == [] {
      StartHasInv(cfg);
    } else {
      var before, last := SystemRun(cfg, steps[..|steps| - 1]), steps[|steps| - 1];
      RunKeepsInv(cfg, steps[..|steps| - 1]);
      StepKeepsInv(cfg, before, last);
      assert SystemRun(cfg, steps) == SystemNext(cfg, before, last);
    }
  }

  lemma ReachableGroup(cfg: Config, steps: seq<SystemStep>)
    ensures var s := SystemRun(cfg, steps); C.GroupInv(Entries(s.service.status), s.db.videos, s.group)
  {
    RunKeepsInv(cfg, steps);
  }

  lemma ReachableService(cfg: Config, steps: seq<SystemStep>)
    ensures var s := SystemRun(cfg, steps);
            M.ServiceInv(s.relay.stream, s.service) && M.RetriesRespected(cfg.retries, s.service)
  {
    RunKeepsInv(cfg, steps);
  }

  lemma ReachableRelay(cfg: Config, steps: seq<SystemStep>)
    ensures var s := SystemRun(cfg, steps); U.CommittedTogether(s.db) && R.RelayInv(s.db.outbox, s.relay)
  {
    RunKeepsInv(cfg, steps);
  }

  // ---- main results: over every run ----

  /** End-to-end causality: every event on the status stream names a video whose row and outbox row were
      committed together and whose upload message reached the upload stream. */
  lemma EveryStatusEventWasUploaded(cfg: Config, steps: seq<SystemStep>, i: nat)
    requires i < |SystemRun(cfg, steps).service.status|
    ensures Uploaded(SystemRun(cfg, steps), SystemRun(cfg, steps).service.status[i].videoId)
  {
    ReachableService(cfg, steps);
    ReachableRelay(cfg, steps);
    var s := SystemRun(cfg, steps);
    assert s.service.status[i] in s.service.status;
    OnStreamWasUploaded(s, s.service.status[i].videoId);
  }

  /** The event was uploaded, every kind has been queued for it, and a started event published. */
  predicate FannedOut(s: System, e: U.EventId) {
    && e in s.service.marked
    && var v := s.service.marked[e];
       && Uploaded(s, v) && s.db.eventOf[v] == e
       && M.StatusEvent(Started, v) in s.service.status
       && forall i | 0 <= i < |M.KINDS| ::
            && (e, M.KINDS[i]) in s.service.enqueued
            && var j := s.service.enqueued[(e, M.KINDS[i])];
               j in s.service.jobs && s.service.jobs[j].kind == M.KINDS[i] && s.service.jobs[j].msg.eventId == e
  }

  lemma MarkedIsFannedOut(s: System, e: U.EventId)
    requires U.CommittedTogether(s.db) && R.StreamIsCommitted(s.db.outbox, s.relay) && e in s.service.marked
    requires M.MarkedIsFannedOut(s.relay.stream, s.service) && M.Caused(s.relay.stream, s.service)
    ensures FannedOut(s, e)
  {
    var v := s.service.marked[e];
    var m := R.UploadMsg(e, v);
    assert m == R.Message(s.db.outbox, e);
    assert M.EnqueuedUpTo(s.service, e, |M.KINDS|);
  }

  /** What the inbox has marked has been fanned out, as that very event of the video. */
  lemma MarkedEventsAreFannedOut(cfg: Config, steps: seq<SystemStep>, e: U.EventId)
    requires e in SystemRun(cfg, steps).service.inbox
    ensures FannedOut(SystemRun(cfg, steps), e)
  {
    ReachableService(cfg, steps);
    ReachableRelay(cfg, steps);
    MarkedIsFannedOut(SystemRun(cfg, steps), e);
  }

  /** An upload message is acknowledged only once its event had been fanned out. */
  lemma AckedUploadsAreFannedOut(cfg: Config, steps: seq<SystemStep>, i: nat)
    requires i in SystemRun(cfg, steps).service.acked
    ensures var s := SystemRun(cfg, steps);
            i < |s.relay.stream| && FannedOut(s, s.relay.stream[i].eventId)
  {
    ReachableService(cfg, steps);
    ReachableRelay(cfg, steps);
    MarkedIsFannedOut(SystemRun(cfg, steps), SystemRun(cfg, steps).relay.stream[i].eventId);
  }

  /** Join soundness: a published processed event has the work of all three kinds behind it. */
  lemma ProcessedMeansAllWorkDone(cfg: Config, steps: seq<SystemStep>, v: VideoId)
    requires M.StatusEvent(Processed, v) in SystemRun(cfg, steps).service.status
    ensures forall k: M.JobKind :: (v, k) in SystemRun(cfg, steps).service.completed
  {
    ReachableService(cfg, steps);
    assert M.AllCompleted(SystemRun(cfg, steps).service, v);
  }

  /** A full join is never silently lost. */
  lemma FullJoinIsNeverLost(cfg: Config, steps: seq<SystemStep>, v: VideoId)
    requires var s := SystemRun(cfg, steps).service; v in s.join && s.join[v] == M.ALL_KINDS
    ensures var s := SystemRun(cfg, steps).service;
            || M.StatusEvent(Processed, v) in s.status
            || exists j :: j in s.jobs && s.jobs[j].msg.videoId == v && M.StillOwes(s.jobs[j])
  {
    ReachableService(cfg, steps);
    M.FullJoinIsOwed(SystemRun(cfg, steps).service, v);
  }

  /** From any reachable state, whatever the service does next keeps started before processed exactly when it has kept
      it so far and every video on the upload stream has its started event already. */
  lemma OrderIsSafeIff(cfg: Config, steps: seq<SystemStep>)
    ensures var s := SystemRun(cfg, steps);
            (forall next: seq<M.ServiceStep> ::
                O.StartedFirst(O.RunService(cfg.retries, s.relay.stream, s.service, next).status))
            <==> O.StartedFirst(s.service.status) && O.AllStarted(s.relay.stream, s.service)
  {
    ReachableService(cfg, steps);
    ReachableRelay(cfg, steps);
    var s := SystemRun(cfg, steps);
    forall i, j | 0 <= i < |s.relay.stream| && 0 <= j < |s.relay.stream|
        && s.relay.stream[i].eventId == s.relay.stream[j].eventId
      ensures s.relay.stream[i].videoId == s.relay.stream[j].videoId
    {
      assert s.relay.stream[i] in s.relay.stream && s.relay.stream[j] in s.relay.stream;
    }
    O.OrderIsSafeIff(cfg.retries, s.relay.stream, s.service);
  }

  /** A failure is published only of a video one of whose jobs has used up its attempts. */
  lemma FailedMeansAJobGaveUp(cfg: Config, steps: seq<SystemStep>, v: VideoId)
    requires M.StatusEvent(Failed, v) in SystemRun(cfg, steps).service.status
    ensures var s := SystemRun(cfg, steps).service;
            exists j :: j in s.jobs && s.jobs[j].msg.videoId == v && s.jobs[j].attempts == M.AttemptLimit(cfg.retries)
                && M.Terminal(s.jobs[j].phase)
  {
    ReachableService(cfg, steps);
    var s := SystemRun(cfg, steps).service;
    assert M.GaveUp(s, v);
    var j :| j in s.jobs && s.jobs[j].msg.videoId == v && M.Terminal(s.jobs[j].phase);
    assert M.JobWithinRetries(cfg.retries, s.jobs[j]);
  }

  /** Outbox conservation: only committed rows reach the upload stream, and a row's message is there once for
      being sent, once per aborted drain that had published it, and once if an open drain has. */
  lemma OutboxIsConserved(cfg: Config, steps: seq<SystemStep>)
    ensures var s := SystemRun(cfg, steps);
            && (forall m | m in s.relay.stream ::
               m.eventId in s.db.outbox && s.db.outbox[m.eventId].videoId == m.videoId)
            && (forall e | e in s.relay.sent :: e in s.db.outbox && R.Message(s.db.outbox, e) in s.relay.stream)
            && (forall c, d, e | c in s.relay.drains && d in s.relay.drains && e in s.relay.drains[c].rows
               && e in s.relay.drains[d].rows :: c == d)
            && (forall e | e in s.db.outbox ::
                  R.Copies(s.db.outbox, s.relay, e)
                  == (if e in s.relay.sent then 1 else 0) + s.relay.aborted[e]
                      + (if R.InFlight(s.relay, e) then 1 else 0))
  {
    ReachableRelay(cfg, steps);
    var s := SystemRun(cfg, steps);
    forall e | e in s.relay.sent
      ensures R.Message(s.db.outbox, e) in s.relay.stream
    {
      assert R.Copies(s.db.outbox, s.relay, e) >= 1;
    }
  }

  /** The verdict on an event is right: it was applied where its video's status allowed it; or refused where the status
      did not, and rightly ever since unless it was processed on a PENDING video; or its video is deleted. */
  ghost predicate VerdictIsRight(s: System, e: M.StatusEvent, i: nat, x: C.Verdict) {
    var asked, v, r := s.group.asked, e.videoId, e.request;
    match x
    case Applied(at) => at < |asked| && asked[at] == C.Asked(C.Delivery(i), v, r)
        && Target(r) in Allowed(C.StatusAfter(asked[..at], v))
    case NotAllowed(at) =>
      && at < |asked| && asked[at] == C.Asked(C.Delivery(i), v, r)
      && Target(r) !in Allowed(C.StatusAfter(asked[..at], v))
      && ((C.StatusAfter(asked[..at], v) == PENDING && r == Processed)
          || forall n | at <= n <= |asked| :: Target(r) !in Allowed(C.StatusAfter(asked[..n], v)))
    case NoSuchVideo => v in s.db.videos && s.db.videos[v].deleted
    case Unusable => false
  }

  lemma SoundVerdictIsRight(cfg: Config, s: System, i: nat, x: C.Verdict)
    requires SystemInv(cfg, s) && i < |s.service.status| && i in s.group.verdicts && x in s.group.verdicts[i]
    ensures VerdictIsRight(s, s.service.status[i], i, x)
  {
    var stream, g := Entries(s.service.status), s.group;
    assert C.VerdictIsSound(stream, g.asked, i, x) && stream[i] == C.Known(s.service.status[i]);
    if x.Applied? || x.NotAllowed? {
      assert C.IsCaused(stream, g.asked[x.at]);
    }
    if x.NotAllowed? {
      forall n | x.at <= n <= |g.asked|
        ensures (C.StatusBefore(g.asked, x.at) == PENDING && g.asked[x.at].request == Processed)
                || Target(g.asked[x.at].request) !in Allowed(C.StatusAfter(g.asked[..n], g.asked[x.at].videoId))
      {
        C.RefusalStaysRight(stream, s.db.videos, g, i, x.at, n);
      }
    }
  }

  /** Consumer-group conservation: each status event is undelivered, pending with one consumer, or acknowledged,
      exactly one of them; acknowledged only with a verdict; and every verdict is right. */
  lemma EveryEventIsAccountedFor(cfg: Config, steps: seq<SystemStep>, i: nat)
    requires i < |SystemRun(cfg, steps).service.status|
    ensures var s := SystemRun(cfg, steps);
            var g := s.group;
            && (i >= g.delivered ==> i !in g.pending && i !in g.acked)
            && (i < g.delivered ==> (i in g.pending <==> i !in g.acked))
            && (i in g.acked ==> i in g.verdicts && g.verdicts[i] != {})
            && (i in g.verdicts ==> forall x | x in g.verdicts[i] :: VerdictIsRight(s, s.service.status[i], i, x))
  {
    RunKeepsInv(cfg, steps);
    var s := SystemRun(cfg, steps);
    if i in s.group.verdicts {
      forall x | x in s.group.verdicts[i]
        ensures VerdictIsRight(s, s.service.status[i], i, x)
      {
        SoundVerdictIsRight(cfg, s, i, x);
      }
    }
  }

  /** Exactly-once effect: an event moves its video at most once, a committed move is broadcast at most once, never
      before its commit and nothing else is, and the committed history of a video is a path of at most two moves that
      ends in its stored status. */
  lemma EffectsHappenOnce(cfg: Config, steps: seq<SystemStep>)
    ensures var s := SystemRun(cfg, steps);
            var g := s.group;
            && (forall i, m, n | i in g.verdicts && C.Applied(m) in g.verdicts[i] && C.Applied(n) in g.verdicts[i] ::
               m == n)
            && R.Distinct(g.broadcasts) && (forall k | 0 <= k < |g.broadcasts| ::
               C.TookEffect(g.asked, g.broadcasts[k]))
            && forall v | v in s.db.videos ::
                 var h := History(PENDING, C.HandledOf(g.asked, v));
                 && h[|h| - 1] == s.db.videos[v].status && |h| <= 3
                 && forall k | 0 <= k < |h| - 1 :: h[k + 1] in Allowed(h[k])
  {
    ReachableGroup(cfg, steps);
    var s := SystemRun(cfg, steps);
    C.EffectsOnce(Entries(s.service.status), s.db.videos, s.group);
  }

  /** The stored status is decided by the order of the requests handled for the video, and by nothing else: DONE
      exactly when some started was handled before some processed, with
      no failed and no cancel before that processed. */
  lemma DeliveriesDecideStatus(cfg: Config, steps: seq<SystemStep>, v: VideoId)
    requires v in SystemRun(cfg, steps).db.videos
    ensures var s := SystemRun(cfg, steps);
            var handled, status := C.HandledOf(s.group.asked, v), s.db.videos[v].status;
            && status == Final(PENDING, handled)
            && (status == DONE <==> CompletedInOrder(handled))
            && (status == FAILED <==> !CompletedInOrder(handled) && Failed in handled)
            && (status == PROCESSING <==> !CompletedInOrder(handled) && Failed !in handled && Started in handled)
            && forall r | r in handled ::
                 M.StatusEvent(r, v) in s.service.status || (r == Failed && C.Cancelled(s.group, v))
  {
    ReachableGroup(cfg, steps);
    var s := SystemRun(cfg, steps);
    C.StatusWasAskedFor(Entries(s.service.status), s.db.videos, s.group, v);
    KnownEvents(s.service.status);
    forall r | r in C.HandledOf(s.group.asked, v)
      ensures M.StatusEvent(r, v) in s.service.status || (r == Failed && C.Cancelled(s.group, v))
    {
      C.HandledIsCaused(Entries(s.service.status), s.db.videos, s.group, v, r);
    }
  }

  lemma KnownEvents(status: seq<M.StatusEvent>)
    ensures forall e :: C.Known(e) in Entries(status) ==> e in status
  {
    forall e | C.Known(e) in Entries(status)
      ensures e in status
    {
      var i :| 0 <= i < |Entries(status)| && Entries(status)[i] == C.Known(e);
      assert status[i] == e;
    }
  }

  /** What a stored status is worth, end to end: a video is DONE only if all its work was done, and FAILED only
      if a user cancelled it or one of its jobs used up its attempts. */
  lemma StoredStatusIsTrue(cfg: Config, steps: seq<SystemStep>, v: VideoId)
    requires v in SystemRun(cfg, steps).db.videos
    ensures var s := SystemRun(cfg, steps);
            && (s.db.videos[v].status == DONE ==> forall k: M.JobKind :: (v, k) in s.service.completed)
            && (s.db.videos[v].status == FAILED ==> C.Cancelled(s.group, v) || M.GaveUp(s.service, v))
            && (s.db.videos[v].status in {PROCESSING, DONE} ==> Uploaded(s, v))
  {
    ReachableService(cfg, steps);
    ReachableRelay(cfg, steps);
    ReachableGroup(cfg, steps);
    var s := SystemRun(cfg, steps);
    C.StatusWasAskedFor(Entries(s.service.status), s.db.videos, s.group, v);
    KnownEvents(s.service.status);
    if s.db.videos[v].status == DONE {
      ProcessedMeansAllWorkDone(cfg, steps, v);
    }
    if M.StatusEvent(Started, v) in s.service.status {
      OnStreamWasUploaded(s, v);
    }
  }
}
