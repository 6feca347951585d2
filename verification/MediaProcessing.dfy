/** The media_processing service as a protocol: any number of message handlers and job attempts
    interleave, every call on a store may fail or lose its reply, workers crash, keys expire. */
module MediaProcessing {
  import opened Wrappers
  import opened VideoAgg
  import opened Uploads
  import opened OutboxRelay

  type HandlerId = nat
  type JobId = nat

  datatype JobKind = TRANSCODE | PLAGIARISM | STT

  /** `for kind in JobKind`, in declaration order. */
  const KINDS: seq<JobKind> := [TRANSCODE, PLAGIARISM, STT]
  const ALL_KINDS: set<JobKind> := {TRANSCODE, PLAGIARISM, STT}
  const FAN_OUT: nat := 3

  datatype StatusEvent = StatusEvent(request: Request, videoId: VideoId)

  /** The next await of OnVideoUploadedUC, and the final ack. */
  datatype HandlerPhase = Checking | Enqueuing(n: nat) | Starting | Marking | Acking

  datatype Handler = Handler(entry: nat, msg: UploadMsg, phase: HandlerPhase)

  /** Where a job is: waiting for a worker; in an attempt (its work, then the awaits of CompleteJobUC);
      failed and not yet seen by after_process; in the awaits of OnJobFailedUC; or over. */
  datatype JobPhase =
    | Queued | Working | Adding | Publishing | Clearing
    | RaisedError | FailPublishing | FailClearing
    | Finished | Dead(cleared: bool)

  /** `owes`: the job's last add found the join full, and neither its publish nor its terminal clear took effect yet. */
  datatype Job = Job(msg: UploadMsg, kind: JobKind, attempts: nat, phase: JobPhase, owes: bool)

  datatype Service = Service(
    handlers: map<HandlerId, Handler>,
    acked: set<nat>,
    inbox: set<EventId>,
    jobs: map<JobId, Job>,
    join: map<VideoId, set<JobKind>>,
    status: seq<StatusEvent>,
    // histories
    completed: set<(VideoId, JobKind)>,
    enqueued: map<(EventId, JobKind), JobId>,
    marked: map<EventId, VideoId>)

  const NO_WORK := Service(map[], {}, {}, map[], map[], [], {}, map[], map[])

  datatype ServiceStep =
    | Deliver(h: HandlerId, entry: nat)
    | CheckInbox(h: HandlerId, reply: Reply)
    | Enqueue(h: HandlerId, job: JobId, reply: Reply)
    | PublishStarted(h: HandlerId, reply: Reply)
    | MarkInbox(h: HandlerId, reply: Reply)
    | AckMessage(h: HandlerId, reply: Reply)
    | CrashHandler(h: HandlerId)
    | ExpireInbox(e: EventId)
    | ExpireJoin(v: VideoId)
    | StartJob(j: JobId)
    | Work(j: JobId, ok: bool)
    | AddToJoin(j: JobId, reply: Reply)
    | PublishProcessed(j: JobId, reply: Reply)
    | ClearJoin(j: JobId, reply: Reply)
    | CrashJob(j: JobId)
    | AfterProcess(j: JobId)
    | PublishFailed(j: JobId, reply: Reply)
    | ClearFailed(j: JobId, reply: Reply)

  predicate IsHandlerStep(step: ServiceStep) {
    step.Deliver? || step.CheckInbox? || step.Enqueue? || step.PublishStarted? || step.MarkInbox? || step.AckMessage?
        || step.CrashHandler?
  }

  predicate IsJobStep(step: ServiceStep) {
    !IsHandlerStep(step) && !step.ExpireInbox? && !step.ExpireJoin?
  }

  function Kinds(join: map<VideoId, set<JobKind>>, v: VideoId): set<JobKind> {
    if v in join then join[v] else {}
  }

  // ---- handlers of video_uploaded messages ----

  function Proceed(s: Service, h: HandlerId, phase: HandlerPhase): Service
    requires h in s.handlers
  {
    s.(handlers := s.handlers[h := s.handlers[h].(phase := phase)])
  }

  /** The handler is over: it acked, or it raised and its message stays pending. */
  function Leave(s: Service, h: HandlerId): Service {
    s.(handlers := s.handlers - {h})
  }

  function ProceedOrLeave(s: Service, h: HandlerId, phase: HandlerPhase, reply: Reply): Service
    requires h in s.handlers
  {
    if reply.Raised() then Leave(s, h) else Proceed(s, h, phase)
  }

  /** A new job, for a message on the stream. */
  function Queue(s: Service, m: UploadMsg, kind: JobKind, j: JobId): Service {
    s.(jobs := s.jobs[j := Job(m, kind, 0, Queued, false)], enqueued := s.enqueued[(m.eventId, kind) := j])
  }

  function NextToEnqueue(n: nat): HandlerPhase {
    if n + 1 < |KINDS| then Enqueuing(n + 1) else Starting
  }

  function EnqueueOne(s: Service, h: HandlerId, job: JobId, reply: Reply): Service
    requires h in s.handlers && s.handlers[h].phase.Enqueuing? && s.handlers[h].phase.n < |KINDS|
  {
    var x := s.handlers[h];
    var kind := KINDS[x.phase.n];
    var queued := if reply.TookEffect() then Queue(s, x.msg, kind, job) else s;
    ProceedOrLeave(queued, h, NextToEnqueue(x.phase.n), reply)
  }

  function Append(s: Service, request: Request, v: VideoId, reply: Reply): Service {
    if reply.TookEffect() then s.(status := s.status + [StatusEvent(request, v)]) else s
  }

  function HandlerNext(uploaded: seq<UploadMsg>, s: Service, step: ServiceStep): Service
    requires IsHandlerStep(step)
  {
    if step.Deliver? then
      if step.h in s.handlers || step.entry >= |uploaded| || step.entry in s.acked then s
      else s.(handlers := s.handlers[step.h := Handler(step.entry, uploaded[step.entry], Checking)])
    else if step.h !in s.handlers then s
    else if step.CrashHandler? then Leave(s, step.h)
    else
      var x := s.handlers[step.h];
      if step.CheckInbox? && x.phase.Checking? then
        ProceedOrLeave(s, step.h, if x.msg.eventId in s.inbox then Acking else Enqueuing(0), step.reply)
      else if step.Enqueue? && x.phase.Enqueuing? && x.phase.n < |KINDS| && step.job !in s.jobs then
        EnqueueOne(s, step.h, step.job, step.reply)
      else if step.PublishStarted? && x.phase.Starting? then
        ProceedOrLeave(Append(s, Started, x.msg.videoId, step.reply), step.h, Marking, step.reply)
      else if step.MarkInbox? && x.phase.Marking? then
        ProceedOrLeave(if step.reply.TookEffect() then Mark(s, x.msg) else s, step.h, Acking, step.reply)
      else if step.AckMessage? && x.phase.Acking? then
        Leave(if step.reply.TookEffect() then s.(acked := s.acked + {x.entry}) else s, step.h)
      else s
  }

  function Mark(s: Service, m: UploadMsg): Service {
    s.(inbox := s.inbox + {m.eventId}, marked := s.marked[m.eventId := m.videoId])
  }

  // ---- jobs ----

  function PutJob(s: Service, j: JobId, y: Job): Service {
    s.(jobs := s.jobs[j := y])
  }

  function SetJob(s: Service, j: JobId, phase: JobPhase, owes: bool): Service
    requires j in s.jobs
  {
    PutJob(s, j, s.jobs[j].(phase := phase, owes := owes))
  }

  // Each of these is no step unless the job is in the phase it starts from.

  function StartOne(s: Service, j: JobId): Service
    requires j in s.jobs
  {
    var x := s.jobs[j];
    if x.phase != Queued then s else PutJob(s, j, x.(phase := Working, attempts := x.attempts + 1))
  }

  /** The work itself; complete_job comes only after it. */
  function WorkOne(s: Service, j: JobId, ok: bool): Service
    requires j in s.jobs
  {
    var x := s.jobs[j];
    if x.phase != Working then s
    else if ok then SetJob(s.(completed := s.completed + {(x.msg.videoId, x.kind)}), j, JobPhase.Adding, x.owes)
    else SetJob(s, j, RaisedError, x.owes)
  }

  function AfterAdd(full: bool, reply: Reply): JobPhase {
    if reply.Raised() then RaisedError else if full then Publishing else Finished
  }

  /** SADD, EXPIRE and SCARD in one transaction; then publish if the count reached the fan-out. */
  function AddOne(s: Service, j: JobId, reply: Reply): Service
    requires j in s.jobs
  {
    var x := s.jobs[j];
    var kinds := Kinds(s.join, x.msg.videoId) + {x.kind};
    if x.phase != JobPhase.Adding then s
    else if reply == Refused then SetJob(s, j, RaisedError, x.owes)
    else
      var full := |kinds| >= FAN_OUT;
      SetJob(s.(join := s.join[x.msg.videoId := kinds]), j, AfterAdd(full, reply), full)
  }

  function PublishOne(s: Service, j: JobId, reply: Reply): Service
    requires j in s.jobs
  {
    var x := s.jobs[j];
    if x.phase != Publishing then s
    else SetJob(Append(s, Processed, x.msg.videoId, reply), j,
                if reply.Raised() then RaisedError else Clearing, x.owes && !reply.TookEffect())
  }

  function ClearOne(s: Service, j: JobId, reply: Reply): Service
    requires j in s.jobs
  {
    var x := s.jobs[j];
    if x.phase != Clearing then s
    else SetJob(if reply.TookEffect() then s.(join := s.join - {x.msg.videoId}) else s, j,
                if reply.Raised() then RaisedError else Finished, x.owes)
  }

  predicate Running(p: JobPhase) {
    p.Working? || p.Adding? || p.Publishing? || p.Clearing?
  }

  /** The worker dies, or the job is cancelled: an attempt ends in an error, the terminal hook just ends. */
  function CrashOne(s: Service, j: JobId): Service
    requires j in s.jobs
  {
    var x := s.jobs[j];
    if Running(x.phase) then SetJob(s, j, RaisedError, x.owes)
    else if x.phase.FailPublishing? || x.phase.FailClearing? then SetJob(s, j, Dead(false), x.owes)
    else s
  }

  /** after_process of a failed attempt: another attempt while any is left, else the terminal failure. */
  function SettleOne(retries: nat, s: Service, j: JobId): Service
    requires j in s.jobs
  {
    var x := s.jobs[j];
    if x.phase != RaisedError then s
    else SetJob(s, j, if x.attempts < retries then Queued else FailPublishing, x.owes)
  }

  /** The failed event is best effort: the clear follows either way. */
  function FailOne(s: Service, j: JobId, reply: Reply): Service
    requires j in s.jobs
  {
    var x := s.jobs[j];
    if x.phase != FailPublishing then s
    else SetJob(Append(s, Failed, x.msg.videoId, reply), j, FailClearing, x.owes)
  }

  /** The clear that ends a terminal failure; its own failure is swallowed. */
  function ClearDead(s: Service, j: JobId, reply: Reply): Service
    requires j in s.jobs
  {
    var x := s.jobs[j];
    if x.phase != FailClearing then s
    else SetJob(if reply.TookEffect() then s.(join := s.join - {x.msg.videoId}) else s, j,
                Dead(reply.TookEffect()), x.owes && !reply.TookEffect())
  }

  function JobNext(retries: nat, s: Service, step: ServiceStep): Service
    requires IsJobStep(step)
  {
    if step.j !in s.jobs then s
    else
      match step
      case StartJob(j) => StartOne(s, j)
      case Work(j, ok) => WorkOne(s, j, ok)
      case AddToJoin(j, reply) => AddOne(s, j, reply)
      case PublishProcessed(j, reply) => PublishOne(s, j, reply)
      case ClearJoin(j, reply) => ClearOne(s, j, reply)
      case CrashJob(j) => CrashOne(s, j)
      case AfterProcess(j) => SettleOne(retries, s, j)
      case PublishFailed(j, reply) => FailOne(s, j, reply)
      case ClearFailed(j, reply) => ClearDead(s, j, reply)
  }

  /** One step, over the messages that the relays have put on the upload stream so far. */
  function ServiceNext(retries: nat, uploaded: seq<UploadMsg>, s: Service, step: ServiceStep): Service {
    if IsHandlerStep(step) then HandlerNext(uploaded, s, step)
    else if step.ExpireInbox? then s.(inbox := s.inbox - {step.e})
    else if step.ExpireJoin? then s.(join := s.join - {step.v})
    else JobNext(retries, s, step)
  }

  // ---- invariant ----

  predicate AllCompleted(s: Service, v: VideoId) {
    forall k: JobKind :: (v, k) in s.completed
  }

  /** The join only holds kinds whose work was done, and so does every announcement of completion. */
  predicate JoinSound(s: Service) {
    && (forall v, k | v in s.join && k in s.join[v] :: (v, k) in s.completed)
    && (forall e | e in s.status && e.request == Processed :: AllCompleted(s, e.videoId))
    && (forall j | j in s.jobs && (s.jobs[j].phase.Adding? || s.jobs[j].phase.Publishing?
       || s.jobs[j].phase.Clearing?) ::
          (s.jobs[j].msg.videoId, s.jobs[j].kind) in s.completed)
    && (forall j | j in s.jobs && s.jobs[j].phase.Publishing? :: AllCompleted(s, s.jobs[j].msg.videoId))
  }

  predicate Announced(s: Service, v: VideoId) {
    StatusEvent(Processed, v) in s.status
  }

  predicate Owing(s: Service, v: VideoId) {
    exists j :: j in s.jobs && s.jobs[j].msg.videoId == v && s.jobs[j].owes
  }

  /** A full join is announced, or some job still owes the announcement. */
  predicate FullJoinIsCovered(s: Service) {
    && (forall v | v in s.join && s.join[v] == ALL_KINDS :: Announced(s, v) || Owing(s, v))
    && (forall j | j in s.jobs && s.jobs[j].owes ::
          !s.jobs[j].phase.Clearing? && !s.jobs[j].phase.Finished? && s.jobs[j].phase != Dead(true))
    && (forall j | j in s.jobs && s.jobs[j].phase.Publishing? :: s.jobs[j].owes)
  }

  predicate EnqueuedUpTo(s: Service, e: EventId, n: nat) {
    forall i | 0 <= i < n && i < |KINDS| :: (e, KINDS[i]) in s.enqueued
  }

  /** The histories hold what a handler must have done to be in a phase. */
  predicate PhaseIsEarned(s: Service, m: UploadMsg, phase: HandlerPhase) {
    && (phase.Enqueuing? ==> phase.n < |KINDS| && EnqueuedUpTo(s, m.eventId, phase.n))
    && (phase.Starting? ==> EnqueuedUpTo(s, m.eventId, |KINDS|))
    && (phase.Marking? ==> EnqueuedUpTo(s, m.eventId, |KINDS|) && StatusEvent(Started, m.videoId) in s.status)
    && (phase.Acking? ==> m.eventId in s.marked)
  }

  /** A handler past an await has the effect of that await in the histories. */
  predicate HandlersInOrder(s: Service) {
    forall h | h in s.handlers :: PhaseIsEarned(s, s.handlers[h].msg, s.handlers[h].phase)
  }

  /** A marked event had every kind enqueued and its started event published; what is acked was marked. */
  predicate MarkedIsFannedOut(uploaded: seq<UploadMsg>, s: Service) {
    && s.inbox <= s.marked.Keys
    && (forall e | e in s.marked :: EnqueuedUpTo(s, e, |KINDS|) && StatusEvent(Started, s.marked[e]) in s.status
                                    && UploadMsg(e, s.marked[e]) in uploaded)
    && (forall i | i in s.acked :: i < |uploaded| && uploaded[i].eventId in s.marked)
  }

  predicate OnStream(uploaded: seq<UploadMsg>, v: VideoId) {
    exists i :: 0 <= i < |uploaded| && uploaded[i].videoId == v
  }

  /** Everything the service does goes back to a message on the upload stream. */
  predicate Caused(uploaded: seq<UploadMsg>, s: Service) {
    && (forall h | h in s.handlers ::
       s.handlers[h].entry < |uploaded| && s.handlers[h].msg == uploaded[s.handlers[h].entry])
    && (forall j | j in s.jobs :: OnStream(uploaded, s.jobs[j].msg.videoId))
    && (forall e | e in s.status :: OnStream(uploaded, e.videoId))
    && (forall p | p in s.enqueued ::
       s.enqueued[p] in s.jobs && s.jobs[s.enqueued[p]].kind == p.1 && s.jobs[s.enqueued[p]].msg.eventId == p.0)
  }

  predicate ServiceInv(uploaded: seq<UploadMsg>, s: Service) {
    && JoinSound(s)
    && FullJoinIsCovered(s)
    && HandlersInOrder(s)
    && MarkedIsFannedOut(uploaded, s)
    && Caused(uploaded, s)
  }

  // ---- every step keeps the invariant ----

  lemma ProceedOrLeaveKeepsInv(uploaded: seq<UploadMsg>, s: Service, h: HandlerId, phase: HandlerPhase, reply: Reply)
    requires ServiceInv(uploaded, s) && h in s.handlers
    requires !reply.Raised() ==> PhaseIsEarned(s, s.handlers[h].msg, phase)
    ensures ServiceInv(uploaded, ProceedOrLeave(s, h, phase, reply))
  {
    if reply.Raised() {
      LeaveKeepsInv(uploaded, s, h);
    }
  }

  lemma LeaveKeepsInv(uploaded: seq<UploadMsg>, s: Service, h: HandlerId)
    requires ServiceInv(uploaded, s)
    ensures ServiceInv(uploaded, Leave(s, h))
  {
  }

  lemma DeliverKeepsInv(uploaded: seq<UploadMsg>, s: Service, h: HandlerId, entry: nat)
    requires ServiceInv(uploaded, s) && h !in s.handlers && entry < |uploaded|
    ensures ServiceInv(uploaded, s.(handlers := s.handlers[h := Handler(entry, uploaded[entry], Checking)]))
  {
  }

  lemma AppendKeepsInv(uploaded: seq<UploadMsg>, s: Service, request: Request, v: VideoId, reply: Reply)
    requires ServiceInv(uploaded, s) && OnStream(uploaded, v)
    requires request == Processed ==> AllCompleted(s, v)
    ensures ServiceInv(uploaded, Append(s, request, v, reply))
  {
    var s' := Append(s, request, v, reply);
    forall w | Owing(s, w)
      ensures Owing(s', w)
    {
      var j :| j in s.jobs && s.jobs[j].msg.videoId == w && s.jobs[j].owes;
      assert j in s'.jobs;
    }
  }

  lemma MarkKeepsInv(uploaded: seq<UploadMsg>, s: Service, m: UploadMsg)
    requires ServiceInv(uploaded, s)
    requires m in uploaded && EnqueuedUpTo(s, m.eventId, |KINDS|) && StatusEvent(Started, m.videoId) in s.status
    ensures ServiceInv(uploaded, Mark(s, m))
  {
  }

  lemma AckKeepsInv(uploaded: seq<UploadMsg>, s: Service, entry: nat)
    requires ServiceInv(uploaded, s) && entry < |uploaded| && uploaded[entry].eventId in s.marked
    ensures ServiceInv(uploaded, s.(acked := s.acked + {entry}))
  {
  }

  lemma QueueIsCovered(s: Service, m: UploadMsg, kind: JobKind, j: JobId)
    requires FullJoinIsCovered(s) && j !in s.jobs
    ensures FullJoinIsCovered(Queue(s, m, kind, j))
  {
    var s' := Queue(s, m, kind, j);
    forall w | Owing(s, w)
      ensures Owing(s', w)
    {
      var i :| i in s.jobs && s.jobs[i].msg.videoId == w && s.jobs[i].owes;
      assert i in s'.jobs && s'.jobs[i] == s.jobs[i];
    }
  }

  lemma QueueKeepsInv(uploaded: seq<UploadMsg>, s: Service, m: UploadMsg, kind: JobKind, j: JobId)
    requires ServiceInv(uploaded, s) && j !in s.jobs && OnStream(uploaded, m.videoId)
    ensures ServiceInv(uploaded, Queue(s, m, kind, j))
  {
    QueueIsCovered(s, m, kind, j);
  }

  /** What a job may turn into: nothing it has not earned, and no owed announcement forgotten. */
  predicate JobPhaseIsEarned(s: Service, x: Job, phase: JobPhase, owes: bool) {
    var v := x.msg.videoId;
    && (phase.Adding? || phase.Publishing? || phase.Clearing? ==> (v, x.kind) in s.completed)
    && (phase.Publishing? ==> owes && AllCompleted(s, v))
    && (owes ==> !phase.Clearing? && !phase.Finished? && phase != Dead(true))
    && (x.owes && !owes ==> Announced(s, v) || Kinds(s.join, v) != ALL_KINDS)
  }

  lemma PutJobIsCovered(s: Service, j: JobId, y: Job)
    requires FullJoinIsCovered(s) && j in s.jobs && y.msg == s.jobs[j].msg
    requires JobPhaseIsEarned(s, s.jobs[j], y.phase, y.owes)
    ensures FullJoinIsCovered(PutJob(s, j, y))
  {
    var s', v := PutJob(s, j, y), y.msg.videoId;
    forall w | Owing(s, w) && (w != v || y.owes || !s.jobs[j].owes)
      ensures Owing(s', w)
    {
      var i :| i in s.jobs && s.jobs[i].msg.videoId == w && s.jobs[i].owes;
      assert i in s'.jobs && s'.jobs[i].msg == s.jobs[i].msg && s'.jobs[if y.owes && w == v then j else i].owes;
    }
  }

  lemma PutJobKeepsInv(uploaded: seq<UploadMsg>, s: Service, j: JobId, y: Job)
    requires ServiceInv(uploaded, s) && j in s.jobs && y.msg == s.jobs[j].msg && y.kind == s.jobs[j].kind
    requires JobPhaseIsEarned(s, s.jobs[j], y.phase, y.owes)
    ensures ServiceInv(uploaded, PutJob(s, j, y))
  {
    PutJobIsCovered(s, j, y);
  }

  lemma SetJobKeepsInv(uploaded: seq<UploadMsg>, s: Service, j: JobId, phase: JobPhase, owes: bool)
    requires ServiceInv(uploaded, s) && j in s.jobs && JobPhaseIsEarned(s, s.jobs[j], phase, owes)
    ensures ServiceInv(uploaded, SetJob(s, j, phase, owes))
  {
    PutJobKeepsInv(uploaded, s, j, s.jobs[j].(phase := phase, owes := owes));
  }

  lemma JoinGoneKeepsInv(uploaded: seq<UploadMsg>, s: Service, v: VideoId)
    requires ServiceInv(uploaded, s)
    ensures ServiceInv(uploaded, s.(join := s.join - {v}))
  {
    var s' := s.(join := s.join - {v});
    forall w | Owing(s, w)
      ensures Owing(s', w)
    {
      var j :| j in s.jobs && s.jobs[j].msg.videoId == w && s.jobs[j].owes;
      assert j in s'.jobs;
    }
  }

  lemma WorkDoneKeepsInv(uploaded: seq<UploadMsg>, s: Service, v: VideoId, kind: JobKind)
    requires ServiceInv(uploaded, s)
    ensures ServiceInv(uploaded, s.(completed := s.completed + {(v, kind)}))
  {
    var s' := s.(completed := s.completed + {(v, kind)});
    forall w | Owing(s, w)
      ensures Owing(s', w)
    {
      var j :| j in s.jobs && s.jobs[j].msg.videoId == w && s.jobs[j].owes;
      assert j in s'.jobs;
    }
  }

  /** The join reaches the fan-out exactly when it holds every kind. */
  lemma FullIsAllKinds(kinds: set<JobKind>)
    ensures |kinds| >= FAN_OUT <==> kinds == ALL_KINDS
    ensures kinds == ALL_KINDS ==> forall k: JobKind :: k in kinds
  {
    forall k: JobKind
      ensures k in ALL_KINDS
    {
      match k case TRANSCODE => case PLAGIARISM => case STT =>
    }
    assert |ALL_KINDS - kinds| + |kinds| == |ALL_KINDS| by {
      assert (ALL_KINDS - kinds) + kinds == ALL_KINDS;
    }
    assert |ALL_KINDS| == 3;
    if |kinds| >= FAN_OUT {
      assert ALL_KINDS - kinds == {};
    }
  }

  /** Putting a completed kind into the join, once its job owes the announcement if that fills the join. */
  lemma JoinGrowsKeepsInv(uploaded: seq<UploadMsg>, s: Service, v: VideoId, kind: JobKind)
    requires ServiceInv(uploaded, s) && (v, kind) in s.completed
    requires Kinds(s.join, v) + {kind} == ALL_KINDS ==> Owing(s, v)
    ensures ServiceInv(uploaded, s.(join := s.join[v := Kinds(s.join, v) + {kind}]))
  {
    var s' := s.(join := s.join[v := Kinds(s.join, v) + {kind}]);
    forall w | Owing(s, w)
      ensures Owing(s', w)
    {
      var j :| j in s.jobs && s.jobs[j].msg.videoId == w && s.jobs[j].owes;
      assert j in s'.jobs;
    }
  }

  // The same add in three moves: the job takes on what it owes, the join grows, the job moves on.

  lemma OwingKeepsInv(uploaded: seq<UploadMsg>, s: Service, j: JobId)
    requires ServiceInv(uploaded, s) && j in s.jobs
    ensures var x := s.jobs[j];
            var full := |Kinds(s.join, x.msg.videoId) + {x.kind}| >= FAN_OUT;
            && ServiceInv(uploaded, SetJob(s, j, RaisedError, full))
            && (full ==> Owing(SetJob(s, j, RaisedError, full), x.msg.videoId))
  {
    var x := s.jobs[j];
    var kinds := Kinds(s.join, x.msg.videoId) + {x.kind};
    FullIsAllKinds(kinds);
    assert |kinds| < FAN_OUT ==> Kinds(s.join, x.msg.videoId) != ALL_KINDS;
    var s1 := SetJob(s, j, RaisedError, |kinds| >= FAN_OUT);
    SetJobKeepsInv(uploaded, s, j, RaisedError, |kinds| >= FAN_OUT);
    assert j in s1.jobs && s1.jobs[j].msg == x.msg;
  }

  /** The job owes what its add found; the join has grown. */
  function Added(s: Service, j: JobId): Service
    requires j in s.jobs
  {
    var v, kinds := s.jobs[j].msg.videoId, Kinds(s.join, s.jobs[j].msg.videoId) + {s.jobs[j].kind};
    SetJob(s, j, RaisedError, |kinds| >= FAN_OUT).(join := s.join[v := kinds])
  }

  lemma AddedKeepsInv(uploaded: seq<UploadMsg>, s: Service, j: JobId)
    requires ServiceInv(uploaded, s) && j in s.jobs && s.jobs[j].phase.Adding?
    ensures ServiceInv(uploaded, Added(s, j))
    ensures Added(s, j).jobs[j].owes ==> AllCompleted(Added(s, j), s.jobs[j].msg.videoId)
    ensures !Added(s, j).jobs[j].owes ==> Kinds(Added(s, j).join, s.jobs[j].msg.videoId) != ALL_KINDS
  {
    var x := s.jobs[j];
    var v, kinds := x.msg.videoId, Kinds(s.join, x.msg.videoId) + {x.kind};
    FullIsAllKinds(kinds);
    OwingKeepsInv(uploaded, s, j);
    JoinGrowsKeepsInv(uploaded, SetJob(s, j, RaisedError, |kinds| >= FAN_OUT), v, x.kind);
    assert v in Added(s, j).join && Added(s, j).join[v] == kinds;
  }

  lemma AddIsAddedThenMoved(s: Service, j: JobId, reply: Reply)
    requires j in s.jobs && s.jobs[j].phase.Adding? && reply != Refused
    ensures var s1 := Added(s, j);
            AddOne(s, j, reply) == SetJob(s1, j, AfterAdd(s1.jobs[j].owes, reply), s1.jobs[j].owes)
  {
    var x, owes := s.jobs[j], Added(s, j).jobs[j].owes;
    assert s.jobs[j := x.(phase := RaisedError, owes := owes)][j := x.(phase := AfterAdd(owes, reply), owes := owes)]
        == s.jobs[j := x.(phase := AfterAdd(owes, reply), owes := owes)];
  }

  lemma AddKeepsInv(uploaded: seq<UploadMsg>, s: Service, j: JobId, reply: Reply)
    requires ServiceInv(uploaded, s) && j in s.jobs
    ensures ServiceInv(uploaded, AddOne(s, j, reply))
  {
    if s.jobs[j].phase != JobPhase.Adding {
    } else if reply == Refused {
      SetJobKeepsInv(uploaded, s, j, RaisedError, s.jobs[j].owes);
    } else {
      var s1 := Added(s, j);
      AddedKeepsInv(uploaded, s, j);
      SetJobKeepsInv(uploaded, s1, j, AfterAdd(s1.jobs[j].owes, reply), s1.jobs[j].owes);
      AddIsAddedThenMoved(s, j, reply);
    }
  }

  lemma PublishKeepsInv(uploaded: seq<UploadMsg>, s: Service, j: JobId, reply: Reply)
    requires ServiceInv(uploaded, s) && j in s.jobs
    ensures ServiceInv(uploaded, PublishOne(s, j, reply))
  {
    var x := s.jobs[j];
    if x.phase == Publishing {
      AppendKeepsInv(uploaded, s, Processed, x.msg.videoId, reply);
      var s1 := Append(s, Processed, x.msg.videoId, reply);
      assert reply.TookEffect() ==> s1.status[|s.status|] == StatusEvent(Processed, x.msg.videoId);
      SetJobKeepsInv(uploaded, s1, j, if reply.Raised() then RaisedError else Clearing, x.owes && !reply.TookEffect());
    }
  }

  lemma ClearKeepsInv(uploaded: seq<UploadMsg>, s: Service, j: JobId, reply: Reply)
    requires ServiceInv(uploaded, s) && j in s.jobs
    ensures ServiceInv(uploaded, ClearOne(s, j, reply)) && ServiceInv(uploaded, ClearDead(s, j, reply))
  {
    var x := s.jobs[j];
    JoinGoneKeepsInv(uploaded, s, x.msg.videoId);
    var s1 := if reply.TookEffect() then s.(join := s.join - {x.msg.videoId}) else s;
    if x.phase == Clearing {
      SetJobKeepsInv(uploaded, s1, j, if reply.Raised() then RaisedError else Finished, x.owes);
    } else if x.phase == FailClearing {
      SetJobKeepsInv(uploaded, s1, j, Dead(reply.TookEffect()), x.owes && !reply.TookEffect());
    }
  }

  lemma StartKeepsInv(uploaded: seq<UploadMsg>, s: Service, j: JobId)
    requires ServiceInv(uploaded, s) && j in s.jobs
    ensures ServiceInv(uploaded, StartOne(s, j))
  {
    var x := s.jobs[j];
    var started := x.(phase := Working, attempts := x.attempts + 1);
    if x.phase == Queued {
      PutJobKeepsInv(uploaded, s, j, started);
      assert StartOne(s, j) == PutJob(s, j, started);
    }
  }

  lemma WorkKeepsInv(uploaded: seq<UploadMsg>, s: Service, j: JobId, ok: bool)
    requires ServiceInv(uploaded, s) && j in s.jobs
    ensures ServiceInv(uploaded, WorkOne(s, j, ok))
  {
    var x := s.jobs[j];
    if x.phase == Working && ok {
      WorkDoneKeepsInv(uploaded, s, x.msg.videoId, x.kind);
      SetJobKeepsInv(uploaded, s.(completed := s.completed + {(x.msg.videoId, x.kind)}), j, JobPhase.Adding, x.owes);
    } else if x.phase == Working {
      SetJobKeepsInv(uploaded, s, j, RaisedError, x.owes);
    }
  }

  lemma FailKeepsInv(uploaded: seq<UploadMsg>, s: Service, j: JobId, reply: Reply)
    requires ServiceInv(uploaded, s) && j in s.jobs
    ensures ServiceInv(uploaded, FailOne(s, j, reply))
  {
    var x := s.jobs[j];
    if x.phase == FailPublishing {
      AppendKeepsInv(uploaded, s, Failed, x.msg.videoId, reply);
      SetJobKeepsInv(uploaded, Append(s, Failed, x.msg.videoId, reply), j, FailClearing, x.owes);
    }
  }

  lemma CrashKeepsInv(uploaded: seq<UploadMsg>, s: Service, j: JobId)
    requires ServiceInv(uploaded, s) && j in s.jobs
    ensures ServiceInv(uploaded, CrashOne(s, j))
  {
    var x := s.jobs[j];
    if Running(x.phase) {
      SetJobKeepsInv(uploaded, s, j, RaisedError, x.owes);
    } else if x.phase.FailPublishing? || x.phase.FailClearing? {
      SetJobKeepsInv(uploaded, s, j, Dead(false), x.owes);
    }
  }

  lemma SettleKeepsInv(retries: nat, uploaded: seq<UploadMsg>, s: Service, j: JobId)
    requires ServiceInv(uploaded, s) && j in s.jobs
    ensures ServiceInv(uploaded, SettleOne(retries, s, j))
  {
    var x := s.jobs[j];
    if x.phase == RaisedError {
      SetJobKeepsInv(uploaded, s, j, if x.attempts < retries then Queued else FailPublishing, x.owes);
    }
  }

  lemma JobStepKeepsInv(retries: nat, uploaded: seq<UploadMsg>, s: Service, step: ServiceStep)
    requires ServiceInv(uploaded, s) && IsJobStep(step)
    ensures ServiceInv(uploaded, JobNext(retries, s, step))
  {
    if step.j in s.jobs {
      match step {
        case StartJob(j) => StartKeepsInv(uploaded, s, j);
        case Work(j, ok) => WorkKeepsInv(uploaded, s, j, ok);
        case AddToJoin(j, reply) => AddKeepsInv(uploaded, s, j, reply);
        case PublishProcessed(j, reply) => PublishKeepsInv(uploaded, s, j, reply);
        case ClearJoin(j, reply) => ClearKeepsInv(uploaded, s, j, reply);
        case CrashJob(j) => CrashKeepsInv(uploaded, s, j);
        case AfterProcess(j) => SettleKeepsInv(retries, uploaded, s, j);
        case PublishFailed(j, reply) => FailKeepsInv(uploaded, s, j, reply);
        case ClearFailed(j, reply) => ClearKeepsInv(uploaded, s, j, reply);
      }
    }
  }

  lemma QueuedOneMore(s: Service, m: UploadMsg, n: nat, j: JobId)
    requires PhaseIsEarned(s, m, Enqueuing(n))
    ensures PhaseIsEarned(Queue(s, m, KINDS[n], j), m, NextToEnqueue(n))
  {
  }

  lemma EnqueueKeepsInv(uploaded: seq<UploadMsg>, s: Service, h: HandlerId, job: JobId, reply: Reply)
    requires ServiceInv(uploaded, s) && h in s.handlers && s.handlers[h].phase.Enqueuing? && job !in s.jobs
    ensures s.handlers[h].phase.n < |KINDS| && ServiceInv(uploaded, EnqueueOne(s, h, job, reply))
  {
    var x := s.handlers[h];
    assert PhaseIsEarned(s, x.msg, x.phase);
    if reply.TookEffect() {
      assert OnStream(uploaded, x.msg.videoId) by { assert uploaded[x.entry].videoId == x.msg.videoId; }
      var queued := Queue(s, x.msg, KINDS[x.phase.n], job);
      QueueKeepsInv(uploaded, s, x.msg, KINDS[x.phase.n], job);
      QueuedOneMore(s, x.msg, x.phase.n, job);
      ProceedOrLeaveKeepsInv(uploaded, queued, h, NextToEnqueue(x.phase.n), reply);
      assert EnqueueOne(s, h, job, reply) == ProceedOrLeave(queued, h, NextToEnqueue(x.phase.n), reply);
    } else {
      ProceedOrLeaveKeepsInv(uploaded, s, h, NextToEnqueue(x.phase.n), reply);
    }
  }

  lemma PublishStartedKeepsInv(uploaded: seq<UploadMsg>, s: Service, h: HandlerId, reply: Reply)
    requires ServiceInv(uploaded, s) && h in s.handlers && s.handlers[h].phase.Starting?
    ensures ServiceInv(uploaded,
                       ProceedOrLeave(Append(s, Started, s.handlers[h].msg.videoId, reply), h, Marking, reply))
  {
    var x := s.handlers[h];
    assert PhaseIsEarned(s, x.msg, x.phase);
    assert OnStream(uploaded, x.msg.videoId) by { assert uploaded[x.entry].videoId == x.msg.videoId; }
    AppendKeepsInv(uploaded, s, Started, x.msg.videoId, reply);
    var s1 := Append(s, Started, x.msg.videoId, reply);
    assert reply.TookEffect() ==> s1.status[|s.status|] == StatusEvent(Started, x.msg.videoId);
    ProceedOrLeaveKeepsInv(uploaded, s1, h, Marking, reply);
  }

  lemma MarkInboxKeepsInv(uploaded: seq<UploadMsg>, s: Service, h: HandlerId, reply: Reply)
    requires ServiceInv(uploaded, s) && h in s.handlers && s.handlers[h].phase.Marking?
    ensures ServiceInv(uploaded,
                       ProceedOrLeave(if reply.TookEffect() then Mark(s, s.handlers[h].msg) else s, h, Acking, reply))
  {
    var x := s.handlers[h];
    assert PhaseIsEarned(s, x.msg, x.phase);
    MarkKeepsInv(uploaded, s, x.msg);
    ProceedOrLeaveKeepsInv(uploaded, if reply.TookEffect() then Mark(s, x.msg) else s, h, Acking, reply);
  }

  lemma AckMessageKeepsInv(uploaded: seq<UploadMsg>, s: Service, h: HandlerId, reply: Reply)
    requires ServiceInv(uploaded, s) && h in s.handlers && s.handlers[h].phase.Acking?
    ensures ServiceInv(uploaded,
                       Leave(if reply.TookEffect() then s.(acked := s.acked + {s.handlers[h].entry}) else s, h))
  {
    var x := s.handlers[h];
    assert PhaseIsEarned(s, x.msg, x.phase);
    AckKeepsInv(uploaded, s, x.entry);
    var acked := if reply.TookEffect() then s.acked + {x.entry} else s.acked;
    ProceedOrLeaveKeepsInv(uploaded, s.(acked := acked), h, Acking, Refused);
  }

  lemma HandlerStepKeepsInv(uploaded: seq<UploadMsg>, s: Service, step: ServiceStep)
    requires ServiceInv(uploaded, s) && IsHandlerStep(step)
    ensures ServiceInv(uploaded, HandlerNext(uploaded, s, step))
  {
    if step.Deliver? {
      if step.h !in s.handlers && step.entry < |uploaded| { DeliverKeepsInv(uploaded, s, step.h, step.entry); }
    } else if step.h in s.handlers {
      var h, x := step.h, s.handlers[step.h];
      if step.CrashHandler? { ProceedOrLeaveKeepsInv(uploaded, s, h, x.phase, Refused); }
      else if step.CheckInbox? && x.phase.Checking? {
        ProceedOrLeaveKeepsInv(uploaded, s, h, if x.msg.eventId in s.inbox then Acking else Enqueuing(0), step.reply);
      }
      else if step.Enqueue? && x.phase.Enqueuing? && step.job !in s.jobs {
        EnqueueKeepsInv(uploaded, s, h, step.job, step.reply);
      }
      else if step.PublishStarted? && x.phase.Starting? { PublishStartedKeepsInv(uploaded, s, h, step.reply); }
      else if step.MarkInbox? && x.phase.Marking? { MarkInboxKeepsInv(uploaded, s, h, step.reply); }
      else if step.AckMessage? && x.phase.Acking? { AckMessageKeepsInv(uploaded, s, h, step.reply); }
    }
  }

  lemma ServiceStepKeepsInv(retries: nat, uploaded: seq<UploadMsg>, s: Service, step: ServiceStep)
    requires ServiceInv(uploaded, s)
    ensures ServiceInv(uploaded, ServiceNext(retries, uploaded, s, step))
  {
    if IsHandlerStep(step) {
      HandlerStepKeepsInv(uploaded, s, step);
    } else if step.ExpireInbox? {
      assert ServiceNext(retries, uploaded, s, step) == s.(inbox := s.inbox - {step.e});
      InboxGoneKeepsInv(uploaded, s, step.e);
    } else if step.ExpireJoin? {
      JoinGoneKeepsInv(uploaded, s, step.v);
    } else {
      JobStepKeepsInv(retries, uploaded, s, step);
    }
  }

  lemma InboxGoneKeepsInv(uploaded: seq<UploadMsg>, s: Service, e: EventId)
    requires ServiceInv(uploaded, s)
    ensures ServiceInv(uploaded, s.(inbox := s.inbox - {e}))
  {
  }

  /** The upload stream only grows. */
  lemma NewMessagesKeepInv(uploaded: seq<UploadMsg>, uploaded': seq<UploadMsg>, s: Service)
    requires ServiceInv(uploaded, s) && uploaded <= uploaded'
    ensures ServiceInv(uploaded', s)
  {
    forall v | OnStream(uploaded, v)
      ensures OnStream(uploaded', v)
    {
      var i :| 0 <= i < |uploaded| && uploaded[i].videoId == v;
      assert uploaded'[i].videoId == v;
    }
  }

  /** Where a job can be that filled the join and has neither announced nor cleared it since: about to publish,
      failed and on its way through the retry, in the terminal hook, or past a hook whose clear failed. */
  predicate StillOwes(x: Job) {
    && x.owes
    && (x.phase.Publishing? || x.phase.RaisedError? || x.phase.Queued? || x.phase.Working? || x.phase.Adding?
        || x.phase.FailPublishing? || x.phase.FailClearing? || x.phase == Dead(false))
  }

  lemma FullJoinIsOwed(s: Service, v: VideoId)
    requires FullJoinIsCovered(s) && v in s.join && s.join[v] == ALL_KINDS
    ensures Announced(s, v) || exists j :: j in s.jobs && s.jobs[j].msg.videoId == v && StillOwes(s.jobs[j])
  {
    if !Announced(s, v) {
      var j :| j in s.jobs && s.jobs[j].msg.videoId == v && s.jobs[j].owes;
      assert StillOwes(s.jobs[j]);
    }
  }

  // ---- retries ----

  predicate Terminal(p: JobPhase) {
    p.FailPublishing? || p.FailClearing? || p.Dead?
  }

  function AttemptLimit(retries: nat): nat {
    if retries == 0 then 1 else retries
  }

  predicate GaveUp(s: Service, v: VideoId) {
    exists j :: j in s.jobs && s.jobs[j].msg.videoId == v && Terminal(s.jobs[j].phase)
  }

  /** A job in this state has kept to its retries. */
  predicate JobWithinRetries(retries: nat, x: Job) {
    && x.attempts <= AttemptLimit(retries)
    && (x.phase.Queued? ==> x.attempts < AttemptLimit(retries))
    && (Terminal(x.phase) ==> x.attempts == AttemptLimit(retries))
    && (!x.phase.Queued? ==> x.attempts > 0)
  }

  /** Jobs keep to their retries, and a failure is only published of a video one of whose jobs used them all. */
  predicate RetriesRespected(retries: nat, s: Service) {
    && (forall j | j in s.jobs :: JobWithinRetries(retries, s.jobs[j]))
    && (forall e | e in s.status && e.request == Failed :: GaveUp(s, e.videoId))
  }

  /** The life of one job. */
  predicate JobMoves(retries: nat, x: Job, y: Job) {
    && y.msg == x.msg && y.kind == x.kind
    && (y.attempts == if x.phase.Queued? && y.phase.Working? then x.attempts + 1 else x.attempts)
    && match x.phase {
         case Queued => y.phase.Working? || y.phase.Queued?
         case RaisedError => y.phase == RaisedError || y.phase == if x.attempts < retries then Queued
             else FailPublishing
         case FailPublishing => Terminal(y.phase)
         case FailClearing => Terminal(y.phase)
         case Finished => y == x
         case Dead(_) => y == x
         case _ => Running(y.phase) || y.phase.RaisedError? || y.phase.Finished?
       }
  }

  /** A step on one job leaves every other as it is and appends at most the event its phase is there for. */
  predicate OneJobMoves(retries: nat, s: Service, s': Service, j: JobId) {
    && j in s.jobs && j in s'.jobs && s'.jobs == s.jobs[j := s'.jobs[j]]
    && JobMoves(retries, s.jobs[j], s'.jobs[j])
    && var v := s.jobs[j].msg.videoId;
       || s'.status == s.status
       || (s'.status == s.status + [StatusEvent(Processed, v)] && s.jobs[j].phase.Publishing?)
       || (s'.status == s.status + [StatusEvent(Failed, v)] && s.jobs[j].phase.FailPublishing?)
  }

  lemma AttemptMovesOne(retries: nat, s: Service, j: JobId, ok: bool, reply: Reply)
    requires j in s.jobs
    ensures OneJobMoves(retries, s, StartOne(s, j), j) && OneJobMoves(retries, s, WorkOne(s, j, ok), j)
    ensures OneJobMoves(retries, s, AddOne(s, j, reply), j)
  {
    assert s.jobs == s.jobs[j := s.jobs[j]];
  }

  lemma CompleteMovesOne(retries: nat, s: Service, j: JobId, reply: Reply)
    requires j in s.jobs
    ensures OneJobMoves(retries, s, PublishOne(s, j, reply), j) && OneJobMoves(retries, s, ClearOne(s, j, reply), j)
  {
    assert s.jobs == s.jobs[j := s.jobs[j]];
  }

  lemma FailureMovesOne(retries: nat, s: Service, j: JobId, reply: Reply)
    requires j in s.jobs
    ensures OneJobMoves(retries, s, FailOne(s, j, reply), j) && OneJobMoves(retries, s, ClearDead(s, j, reply), j)
  {
    assert s.jobs == s.jobs[j := s.jobs[j]];
  }

  lemma ErrorMovesOne(retries: nat, s: Service, j: JobId)
    requires j in s.jobs
    ensures OneJobMoves(retries, s, CrashOne(s, j), j) && OneJobMoves(retries, s, SettleOne(retries, s, j), j)
  {
    assert s.jobs == s.jobs[j := s.jobs[j]];
  }

  lemma JobStepMovesOne(retries: nat, s: Service, step: ServiceStep)
    requires IsJobStep(step) && step.j in s.jobs
    ensures OneJobMoves(retries, s, JobNext(retries, s, step), step.j)
  {
    match step {
      case StartJob(j) => AttemptMovesOne(retries, s, j, true, Refused);
      case Work(j, ok) => AttemptMovesOne(retries, s, j, ok, Refused);
      case AddToJoin(j, reply) => AttemptMovesOne(retries, s, j, true, reply);
      case PublishProcessed(j, reply) => CompleteMovesOne(retries, s, j, reply);
      case ClearJoin(j, reply) => CompleteMovesOne(retries, s, j, reply);
      case CrashJob(j) => ErrorMovesOne(retries, s, j);
      case AfterProcess(j) => ErrorMovesOne(retries, s, j);
      case PublishFailed(j, reply) => FailureMovesOne(retries, s, j, reply);
      case ClearFailed(j, reply) => FailureMovesOne(retries, s, j, reply);
    }
  }

  /** A step of a handler queues at most one job and appends at most a started event. */
  predicate HandlerMoves(s: Service, s': Service) {
    && (s'.jobs == s.jobs || exists j :: j !in s.jobs && j in s'.jobs && s'.jobs == s.jobs[j := s'.jobs[j]]
                               && s'.jobs[j].phase.Queued? && s'.jobs[j].attempts == 0)
    && (s'.status == s.status
        || (|s'.status| == |s.status| + 1 && s'.status[..|s.status|] == s.status
           && s'.status[|s.status|].request == Started))
  }

  lemma HandlerStepMoves(uploaded: seq<UploadMsg>, s: Service, step: ServiceStep)
    requires IsHandlerStep(step)
    ensures HandlerMoves(s, HandlerNext(uploaded, s, step))
  {
    var s' := HandlerNext(uploaded, s, step);
    if s' != s && step.Enqueue? {
      assert s' == EnqueueOne(s, step.h, step.job, step.reply);
      if step.reply.TookEffect() {
        assert s'.jobs == s.jobs[step.job := s'.jobs[step.job]];
      }
    } else if s' != s && step.PublishStarted? && step.reply.TookEffect() {
      assert s'.status == s.status + [StatusEvent(Started, s.handlers[step.h].msg.videoId)];
    }
  }

  lemma JobStepWithinRetries(retries: nat, s: Service, s': Service, j: JobId)
    requires RetriesRespected(retries, s) && OneJobMoves(retries, s, s', j)
    ensures RetriesRespected(retries, s')
  {
    forall e | e in s'.status && e.request == Failed
      ensures GaveUp(s', e.videoId)
    {
      if e in s.status {
        var i :| i in s.jobs && s.jobs[i].msg.videoId == e.videoId && Terminal(s.jobs[i].phase);
        assert i in s'.jobs && s'.jobs[i].msg.videoId == e.videoId && Terminal(s'.jobs[i].phase);
      } else {
        assert s'.jobs[j].msg.videoId == e.videoId && Terminal(s'.jobs[j].phase);
      }
    }
  }

  lemma HandlerStepWithinRetries(retries: nat, s: Service, s': Service)
    requires RetriesRespected(retries, s) && HandlerMoves(s, s')
    ensures RetriesRespected(retries, s')
  {
    forall e | e in s'.status && e.request == Failed
      ensures GaveUp(s', e.videoId)
    {
      assert e in s.status;
      var i :| i in s.jobs && s.jobs[i].msg.videoId == e.videoId && Terminal(s.jobs[i].phase);
      assert i in s'.jobs && s'.jobs[i] == s.jobs[i];
    }
  }

  lemma StepWithinRetries(retries: nat, uploaded: seq<UploadMsg>, s: Service, step: ServiceStep)
    requires RetriesRespected(retries, s)
    ensures RetriesRespected(retries, ServiceNext(retries, uploaded, s, step))
  {
    var s' := ServiceNext(retries, uploaded, s, step);
    if IsHandlerStep(step) {
      HandlerStepMoves(uploaded, s, step);
      HandlerStepWithinRetries(retries, s, s');
    } else if IsJobStep(step) {
      if step.j in s.jobs {
        JobStepMovesOne(retries, s, step);
        JobStepWithinRetries(retries, s, s', step.j);
      }
    } else {
      assert s'.jobs == s.jobs && s'.status == s.status;
      assert forall v | GaveUp(s, v) :: GaveUp(s', v);
    }
  }
}
