/** The order of the started and processed events of a video on the status stream. */
module StatusOrder {
  import opened Wrappers
  import opened VideoAgg
  import opened OutboxRelay
  import opened MediaProcessing

  /** Every announcement of completion comes after a started event of the same video. */
  predicate StartedFirst(status: seq<StatusEvent>) {
    forall i | 0 <= i < |status| && status[i].request == Processed ::
        StatusEvent(Started, status[i].videoId) in status[..i]
  }

  function Stepper(retries: nat, uploaded: seq<UploadMsg>): (Service, ServiceStep) -> Service {
    (s, step) => ServiceNext(retries, uploaded, s, step)
  }

  function RunService(retries: nat, uploaded: seq<UploadMsg>, s: Service, steps: seq<ServiceStep>): Service {
    Fold(Stepper(retries, uploaded), s, steps)
  }

  lemma AppendedInOrder(status: seq<StatusEvent>, e: StatusEvent)
    requires StartedFirst(status) && (e.request == Processed ==> StatusEvent(Started, e.videoId) in status)
    ensures StartedFirst(status + [e])
  {
    var status' := status + [e];
    forall i | 0 <= i < |status'| && status'[i].request == Processed
      ensures StatusEvent(Started, status'[i].videoId) in status'[..i]
    {
      assert status'[..i] == if i < |status| then status[..i] else status;
    }
  }

  /** One attempt of a job in which nothing fails, up to the publication if its add fills the join. */
  function Attempt(j: JobId): seq<ServiceStep> {
    [StartJob(j), Work(j, true), AddToJoin(j, Reply.Done), PublishProcessed(j, Reply.Done)]
  }

  lemma WorkedJob(s: Service, j: JobId)
    requires j in s.jobs && s.jobs[j].phase == Queued
    ensures var s', x := WorkOne(StartOne(s, j), j, true), s.jobs[j];
            && s'.handlers == s.handlers && s'.join == s.join && s'.status == s.status
            && (forall i | i in s.jobs && i != j :: i in s'.jobs && s'.jobs[i] == s.jobs[i])
            && j in s'.jobs && s'.jobs[j].msg == x.msg && s'.jobs[j].kind == x.kind
            && s'.jobs[j].phase == JobPhase.Adding
  {
  }

  /** What such an attempt leaves. */
  predicate Attempted(s: Service, j: JobId, s': Service)
    requires j in s.jobs
  {
    var x := s.jobs[j];
    var kinds := Kinds(s.join, x.msg.videoId) + {x.kind};
    && s'.handlers == s.handlers && s'.join == s.join[x.msg.videoId := kinds]
    && (forall i | i in s.jobs && i != j :: i in s'.jobs && s'.jobs[i] == s.jobs[i])
    && s'.status == if kinds == ALL_KINDS then s.status + [StatusEvent(Processed, x.msg.videoId)] else s.status
  }

  lemma AddedJob(s: Service, j: JobId)
    requires j in s.jobs && s.jobs[j].phase == JobPhase.Adding
    ensures Attempted(s, j, PublishOne(AddOne(s, j, Reply.Done), j, Reply.Done))
  {
    FullIsAllKinds(Kinds(s.join, s.jobs[j].msg.videoId) + {s.jobs[j].kind});
  }

  lemma RunsHandlerStep(retries: nat, uploaded: seq<UploadMsg>, s: Service, step: ServiceStep, rest: seq<ServiceStep>)
    requires IsHandlerStep(step)
    ensures RunService(retries, uploaded, s, [step] + rest)
            == RunService(retries, uploaded, HandlerNext(uploaded, s, step), rest)
  {
    assert ([step] + rest)[1..] == rest;
  }

  lemma JobStepRuns(retries: nat, uploaded: seq<UploadMsg>, s: Service, step: ServiceStep)
    requires IsJobStep(step) && step.j in s.jobs
    ensures Stepper(retries, uploaded)(s, step) == JobNext(retries, s, step)
  {
  }

  lemma AttemptRuns(retries: nat, uploaded: seq<UploadMsg>, j: JobId, s: Service, s1: Service, s2: Service, s3: Service)
    requires j in s.jobs && j in s1.jobs && j in s2.jobs && j in s3.jobs
    requires s1 == JobNext(retries, s, StartJob(j)) && s2 == JobNext(retries, s1, Work(j, true))
    requires s3 == JobNext(retries, s2, AddToJoin(j, Reply.Done))
    ensures RunService(retries, uploaded, s, Attempt(j)) == JobNext(retries, s3, PublishProcessed(j, Reply.Done))
  {
    JobStepRuns(retries, uploaded, s, StartJob(j));
    JobStepRuns(retries, uploaded, s1, Work(j, true));
    JobStepRuns(retries, uploaded, s2, AddToJoin(j, Reply.Done));
    JobStepRuns(retries, uploaded, s3, PublishProcessed(j, Reply.Done));
    FoldFour(Stepper(retries, uploaded), Attempt(j), s, s1, s2, s3,
        JobNext(retries, s3, PublishProcessed(j, Reply.Done)));
  }

  lemma AttemptAdds(retries: nat, uploaded: seq<UploadMsg>, s: Service, j: JobId)
    requires j in s.jobs && s.jobs[j].phase == Queued
    ensures Attempted(s, j, RunService(retries, uploaded, s, Attempt(j)))
  {
    var s2 := WorkOne(StartOne(s, j), j, true);
    AttemptRuns(retries, uploaded, j, s, StartOne(s, j), s2, AddOne(s2, j, Reply.Done));
    WorkedJob(s, j);
    AddedJob(s2, j);
  }

  // ---- overtaking, from any state ----

  /** Three different jobs that do not exist yet, and a handler that does not. */
  predicate Unused(s: Service, h: HandlerId, ids: seq<JobId>) {
    |ids| == |KINDS| && Distinct(ids) && (forall i | 0 <= i < |ids| :: ids[i] !in s.jobs) && h !in s.handlers
  }

  /** Handler h has queued the jobs of its message, and no worker has seen them. */
  predicate FannedOut(s0: Service, s: Service, m: UploadMsg, entry: nat, h: HandlerId, ids: seq<JobId>) {
    && h in s.handlers && s.handlers[h] == Handler(entry, m, Starting)
    && s.status == s0.status && s.join == s0.join && |ids| == |KINDS| && Distinct(ids)
    && forall i | 0 <= i < |KINDS| :: ids[i] in s.jobs && s.jobs[ids[i]] == Job(m, KINDS[i], 0, Queued, false)
  }

  function FanOutSteps(h: HandlerId, entry: nat, ids: seq<JobId>): seq<ServiceStep>
    requires |ids| == |KINDS|
  {
    [Deliver(h, entry), CheckInbox(h, Reply.Done)] + Enqueues(h, ids)
  }

  function Enqueues(h: HandlerId, ids: seq<JobId>): seq<ServiceStep>
    requires |ids| == |KINDS|
  {
    [Enqueue(h, ids[0], Reply.Done), Enqueue(h, ids[1], Reply.Done), Enqueue(h, ids[2], Reply.Done)]
  }

  function ThreeEnqueued(s: Service, h: HandlerId, ids: seq<JobId>): Service
    requires |ids| == |KINDS| && h in s.handlers && s.handlers[h].phase == Enqueuing(0)
  {
    EnqueueOne(EnqueueOne(EnqueueOne(s, h, ids[0], Reply.Done), h, ids[1], Reply.Done), h, ids[2], Reply.Done)
  }

  lemma FansOut(s: Service, m: UploadMsg, entry: nat, h: HandlerId, ids: seq<JobId>)
    requires h in s.handlers && s.handlers[h] == Handler(entry, m, Enqueuing(0))
    requires |ids| == |KINDS| && Distinct(ids)
    ensures FannedOut(s, ThreeEnqueued(s, h, ids), m, entry, h, ids)
  {
  }

  lemma EnqueuesRun(
      retries: nat, uploaded: seq<UploadMsg>, h: HandlerId, ids: seq<JobId>, s: Service, s1: Service, s2: Service)
    requires |ids| == |KINDS|
    requires h in s.handlers && s.handlers[h].phase == Enqueuing(0) && ids[0] !in s.jobs
             && s1 == EnqueueOne(s, h, ids[0], Reply.Done)
    requires h in s1.handlers && s1.handlers[h].phase == Enqueuing(1) && ids[1] !in s1.jobs
             && s2 == EnqueueOne(s1, h, ids[1], Reply.Done)
    requires h in s2.handlers && s2.handlers[h].phase == Enqueuing(2) && ids[2] !in s2.jobs
    ensures RunService(retries, uploaded, s, Enqueues(h, ids)) == EnqueueOne(s2, h, ids[2], Reply.Done)
  {
    var e0, e1, e2 := Enqueue(h, ids[0], Reply.Done), Enqueue(h, ids[1], Reply.Done), Enqueue(h, ids[2], Reply.Done);
    assert [e2] == [e2] + [] && [e1, e2] == [e1] + [e2] && [e0, e1, e2] == [e0] + [e1, e2];
    RunsHandlerStep(retries, uploaded, s, e0, [e1, e2]);
    RunsHandlerStep(retries, uploaded, s1, e1, [e2]);
    RunsHandlerStep(retries, uploaded, s2, e2, []);
  }

  lemma ThreeEnqueuesRun(retries: nat, uploaded: seq<UploadMsg>, h: HandlerId, ids: seq<JobId>, s: Service)
    requires h in s.handlers && s.handlers[h].phase == Enqueuing(0)
    requires |ids| == |KINDS| && Distinct(ids) && forall i | 0 <= i < |ids| :: ids[i] !in s.jobs
    ensures RunService(retries, uploaded, s, Enqueues(h, ids)) == ThreeEnqueued(s, h, ids)
  {
    var s1 := EnqueueOne(s, h, ids[0], Reply.Done);
    EnqueuesRun(retries, uploaded, h, ids, s, s1, EnqueueOne(s1, h, ids[1], Reply.Done));
  }

  lemma FanOutRuns(retries: nat, uploaded: seq<UploadMsg>, s: Service, entry: nat, h: HandlerId, ids: seq<JobId>)
    requires entry < |uploaded| && entry !in s.acked && uploaded[entry].eventId !in s.inbox && Unused(s, h, ids)
    ensures FannedOut(s, RunService(retries, uploaded, s, FanOutSteps(h, entry, ids)), uploaded[entry], entry, h, ids)
  {
    var m, check := uploaded[entry], CheckInbox(h, Reply.Done);
    assert FanOutSteps(h, entry, ids) == [Deliver(h, entry)] + ([check] + Enqueues(h, ids));
    var s1 := HandlerNext(uploaded, s, Deliver(h, entry));
    var s2 := HandlerNext(uploaded, s1, check);
    assert s2.handlers[h] == Handler(entry, m, Enqueuing(0)) && s2.jobs == s.jobs && s2.status == s.status
        && s2.join == s.join;
    RunsHandlerStep(retries, uploaded, s, Deliver(h, entry), [check] + Enqueues(h, ids));
    RunsHandlerStep(retries, uploaded, s1, check, Enqueues(h, ids));
    ThreeEnqueuesRun(retries, uploaded, h, ids, s2);
    FansOut(s2, m, entry, h, ids);
  }

  lemma ThreeAttempts(s0: Service, m: UploadMsg, entry: nat, h: HandlerId, ids: seq<JobId>,
                      s: Service, s1: Service, s2: Service, s3: Service)
    requires FannedOut(s0, s, m, entry, h, ids) && m.videoId !in s0.join && Attempted(s, ids[0], s1)
    requires ids[1] in s1.jobs && Attempted(s1, ids[1], s2) && ids[2] in s2.jobs && Attempted(s2, ids[2], s3)
    ensures s3.status == s0.status + [StatusEvent(Processed, m.videoId)] && s3.handlers == s.handlers
  {
    assert KINDS[0] == TRANSCODE && KINDS[1] == PLAGIARISM && KINDS[2] == STT;
    assert s.jobs[ids[1]].kind == PLAGIARISM && s.jobs[ids[2]].kind == STT;
    assert STT in ALL_KINDS && PLAGIARISM in ALL_KINDS;
    assert Kinds(s1.join, m.videoId) == {TRANSCODE};
    assert Kinds(s2.join, m.videoId) == {TRANSCODE, PLAGIARISM};
  }

  function Attempts(ids: seq<JobId>): seq<ServiceStep>
    requires |ids| == |KINDS|
  {
    Attempt(ids[0]) + (Attempt(ids[1]) + Attempt(ids[2]))
  }

  lemma AttemptsRun(
      retries: nat, uploaded: seq<UploadMsg>, s0: Service, m: UploadMsg, entry: nat, h: HandlerId, ids: seq<JobId>,
      s: Service)
    requires FannedOut(s0, s, m, entry, h, ids) && m.videoId !in s0.join
    ensures var s' := RunService(retries, uploaded, s, Attempts(ids));
            s'.status == s0.status + [StatusEvent(Processed, m.videoId)] && s'.handlers == s.handlers
  {
    var s1 := RunService(retries, uploaded, s, Attempt(ids[0]));
    AttemptAdds(retries, uploaded, s, ids[0]);
    var s2 := RunService(retries, uploaded, s1, Attempt(ids[1]));
    AttemptAdds(retries, uploaded, s1, ids[1]);
    AttemptAdds(retries, uploaded, s2, ids[2]);
    ThreeAttempts(s0, m, entry, h, ids, s, s1, s2, RunService(retries, uploaded, s2, Attempt(ids[2])));
    FoldAppend(Stepper(retries, uploaded), s, Attempt(ids[0]), Attempt(ids[1]) + Attempt(ids[2]));
    FoldAppend(Stepper(retries, uploaded), s1, Attempt(ids[1]), Attempt(ids[2]));
  }

  /** A message delivered to a new handler, its jobs quicker than the handler's own next step: nothing fails. */
  function OvertakingSteps(h: HandlerId, entry: nat, ids: seq<JobId>): seq<ServiceStep>
    requires |ids| == |KINDS|
  {
    FanOutSteps(h, entry, ids) + Attempts(ids)
  }

  lemma OvertakingRuns(retries: nat, uploaded: seq<UploadMsg>, s: Service, entry: nat, h: HandlerId, ids: seq<JobId>)
    requires entry < |uploaded| && entry !in s.acked && uploaded[entry].eventId !in s.inbox
    requires uploaded[entry].videoId !in s.join && Unused(s, h, ids)
    ensures var s' := RunService(retries, uploaded, s, OvertakingSteps(h, entry, ids));
            && s'.status == s.status + [StatusEvent(Processed, uploaded[entry].videoId)]
            && h in s'.handlers && s'.handlers[h] == Handler(entry, uploaded[entry], Starting)
  {
    var s1 := RunService(retries, uploaded, s, FanOutSteps(h, entry, ids));
    FanOutRuns(retries, uploaded, s, entry, h, ids);
    AttemptsRun(retries, uploaded, s, uploaded[entry], entry, h, ids, s1);
    FoldAppend(Stepper(retries, uploaded), s, FanOutSteps(h, entry, ids), Attempts(ids));
  }

  lemma {:induction false} BeyondAll(used: set<nat>) returns (n: nat)
    ensures forall x | x in used :: x < n
    decreases |used|
  {
    n := 0;
    if used != {} {
      var x :| x in used;
      var rest := used - {x};
      var k := BeyondAll(rest);
      n := if x < k then k else x + 1;
      assert used == rest + {x};
    }
  }

  /** One video per event id, as the relay writes them. */
  predicate OneVideoPerEvent(uploaded: seq<UploadMsg>) {
    forall i, j | 0 <= i < |uploaded| && 0 <= j < |uploaded| && uploaded[i].eventId == uploaded[j].eventId ::
      uploaded[i].videoId == uploaded[j].videoId
  }

  lemma MarkedWasStarted(uploaded: seq<UploadMsg>, s: Service, i: nat)
    requires MarkedIsFannedOut(uploaded, s) && OneVideoPerEvent(uploaded)
    requires i < |uploaded| && uploaded[i].eventId in s.marked
    ensures StatusEvent(Started, uploaded[i].videoId) in s.status
  {
    var m := UploadMsg(uploaded[i].eventId, s.marked[uploaded[i].eventId]);
    var j :| 0 <= j < |uploaded| && uploaded[j] == m;
    assert uploaded[i].videoId == uploaded[j].videoId;
  }

  /** An upload whose started event is missing is neither acknowledged nor marked: it will be handled. */
  lemma UnstartedIsOpen(uploaded: seq<UploadMsg>, s: Service, i: nat)
    requires MarkedIsFannedOut(uploaded, s) && OneVideoPerEvent(uploaded)
    requires i < |uploaded| && StatusEvent(Started, uploaded[i].videoId) !in s.status
    ensures uploaded[i].eventId !in s.inbox && i !in s.acked
  {
    if uploaded[i].eventId in s.inbox || i in s.acked {
      MarkedWasStarted(uploaded, s, i);
    }
  }

  /** While an uploaded video lacks its started event, a run without any fault publishes its processed first. */
  lemma UnstartedCanBeOvertaken(
      retries: nat, uploaded: seq<UploadMsg>, s: Service, i: nat) returns (steps: seq<ServiceStep>)
    requires ServiceInv(uploaded, s) && OneVideoPerEvent(uploaded)
    requires i < |uploaded| && StatusEvent(Started, uploaded[i].videoId) !in s.status
    ensures !StartedFirst(RunService(retries, uploaded, s, steps).status)
  {
    var v := uploaded[i].videoId;
    UnstartedIsOpen(uploaded, s, i);
    var s1 := s.(join := s.join - {v});
    var h := BeyondAll(s.handlers.Keys);
    var j := BeyondAll(s.jobs.Keys);
    var ids := [j, j + 1, j + 2];
    assert Unused(s1, h, ids);
    OvertakingRuns(retries, uploaded, s1, i, h, ids);
    steps := [ExpireJoin(v)] + OvertakingSteps(h, i, ids);
    ExpiryRuns(retries, uploaded, s, v, OvertakingSteps(h, i, ids));
    NotStartedFirst(s.status, v);
  }

  lemma ExpiryRuns(retries: nat, uploaded: seq<UploadMsg>, s: Service, v: VideoId, rest: seq<ServiceStep>)
    ensures RunService(retries, uploaded, s, [ExpireJoin(v)] + rest)
            == RunService(retries, uploaded, s.(join := s.join - {v}), rest)
  {
    assert ([ExpireJoin(v)] + rest)[1..] == rest;
  }

  lemma NotStartedFirst(status: seq<StatusEvent>, v: VideoId)
    requires StatusEvent(Started, v) !in status
    ensures !StartedFirst(status + [StatusEvent(Processed, v)])
  {
    var status' := status + [StatusEvent(Processed, v)];
    assert status'[..|status|] == status && status'[|status|] == StatusEvent(Processed, v);
  }

  // ---- exactly when the order is safe ----

  predicate AllStarted(uploaded: seq<UploadMsg>, s: Service) {
    forall i | 0 <= i < |uploaded| :: StatusEvent(Started, uploaded[i].videoId) in s.status
  }

  lemma StartedStepKeepsOrder(retries: nat, uploaded: seq<UploadMsg>, s: Service, step: ServiceStep)
    requires ServiceInv(uploaded, s) && StartedFirst(s.status) && AllStarted(uploaded, s)
    ensures var s' := ServiceNext(retries, uploaded, s, step); StartedFirst(s'.status) && AllStarted(uploaded, s')
  {
    var s' := ServiceNext(retries, uploaded, s, step);
    if IsHandlerStep(step) {
      HandlerStepMoves(uploaded, s, step);
      OneMoreInOrder(s.status, s'.status);
    } else if IsJobStep(step) && step.j in s.jobs {
      JobStepMovesOne(retries, s, step);
      var v := s.jobs[step.j].msg.videoId;
      assert OnStream(uploaded, v);
      OneMoreInOrder(s.status, s'.status);
    }
  }

  lemma OneMoreInOrder(status: seq<StatusEvent>, status': seq<StatusEvent>)
    requires StartedFirst(status)
    requires status' == status || (|status'| == |status| + 1 && status'[..|status|] == status)
    requires status' != status && status'[|status|].request == Processed ==>
             StatusEvent(Started, status'[|status|].videoId) in status
    ensures StartedFirst(status') && forall e | e in status :: e in status'
  {
    if status' != status {
      assert status' == status + [status'[|status|]];
      AppendedInOrder(status, status'[|status|]);
    }
  }

  lemma {:induction false} StartedRunKeepsOrder(
      retries: nat, uploaded: seq<UploadMsg>, s: Service, steps: seq<ServiceStep>)
    requires ServiceInv(uploaded, s) && StartedFirst(s.status) && AllStarted(uploaded, s)
    ensures StartedFirst(RunService(retries, uploaded, s, steps).status)
    decreases steps
  {
    if steps != [] {
      StartedStepKeepsOrder(retries, uploaded, s, steps[0]);
      ServiceStepKeepsInv(retries, uploaded, s, steps[0]);
      StartedRunKeepsOrder(retries, uploaded, ServiceNext(retries, uploaded, s, steps[0]), steps[1..]);
    }
  }

  /** video_status.md promises started before processed. From a reachable state every run keeps that order exactly
      when it is kept so far and every uploaded video already has its started event on the stream. */
  lemma OrderIsSafeIff(retries: nat, uploaded: seq<UploadMsg>, s: Service)
    requires ServiceInv(uploaded, s) && OneVideoPerEvent(uploaded)
    ensures (forall steps: seq<ServiceStep> :: StartedFirst(RunService(retries, uploaded, s, steps).status))
            <==> StartedFirst(s.status) && AllStarted(uploaded, s)
  {
    if StartedFirst(s.status) && AllStarted(uploaded, s) {
      forall steps: seq<ServiceStep>
        ensures StartedFirst(RunService(retries, uploaded, s, steps).status)
      {
        StartedRunKeepsOrder(retries, uploaded, s, steps);
      }
    } else if !StartedFirst(s.status) {
      assert RunService(retries, uploaded, s, []) == s;
    } else {
      var i :| 0 <= i < |uploaded| && StatusEvent(Started, uploaded[i].videoId) !in s.status;
      var steps := UnstartedCanBeOvertaken(retries, uploaded, s, i);
      assert !StartedFirst(RunService(retries, uploaded, s, steps).status);
    }
  }
}
