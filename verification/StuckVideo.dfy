/** One run of the whole pipeline in which nothing fails and a finished video is left PROCESSING: its jobs overtake the
    started event of the handler that queued them. */
module StuckVideo {
  import opened Wrappers
  import opened VideoAgg
  import opened VideoTable
  import opened Pipeline
  import Canonical
  import U = Uploads
  import R = OutboxRelay
  import M = MediaProcessing
  import C = StatusConsumer
  import O = StatusOrder

  // ---- runs of the system, from any state ----

  function Stepper(cfg: Config): (System, SystemStep) -> System {
    (s, step) => SystemNext(cfg, s, step)
  }

  function Go(cfg: Config, s: System, steps: seq<SystemStep>): System {
    Fold(Stepper(cfg), s, steps)
  }

  lemma {:induction false} GoFromStart(cfg: Config, steps: seq<SystemStep>)
    ensures Go(cfg, START, steps) == SystemRun(cfg, steps)
    decreases |steps|
  {
    if steps != [] {
      var before, last := steps[..|steps| - 1], steps[|steps| - 1];
      GoFromStart(cfg, before);
      assert steps == before + [last];
      FoldAppend(Stepper(cfg), START, before, [last]);
      assert [last][1..] == [];
    }
  }

  lemma GoOne(cfg: Config, s: System, step: SystemStep, rest: seq<SystemStep>)
    ensures Go(cfg, s, [step] + rest) == Go(cfg, SystemNext(cfg, s, step), rest)
  {
    assert ([step] + rest)[1..] == rest;
  }

  function Served(steps: seq<M.ServiceStep>): (r: seq<SystemStep>)
    ensures |r| == |steps| && forall i | 0 <= i < |r| :: r[i] == ServiceDoes(steps[i])
  {
    seq(|steps|, i requires 0 <= i < |steps| => ServiceDoes(steps[i]))
  }

  lemma {:induction false} GoServed(cfg: Config, s: System, steps: seq<M.ServiceStep>)
    ensures Go(cfg, s, Served(steps)) == s.(service := O.RunService(cfg.retries, s.relay.stream, s.service, steps))
    decreases steps
  {
    if steps != [] {
      var s' := SystemNext(cfg, s, ServiceDoes(steps[0]));
      assert Served(steps) == [ServiceDoes(steps[0])] + Served(steps[1..]);
      GoOne(cfg, s, ServiceDoes(steps[0]), Served(steps[1..]));
      GoServed(cfg, s', steps[1..]);
    }
  }

  // ---- a video is uploaded ----

  const COMMAND := U.Command("key", Canonical.Null, None)

  const UPLOAD := [
    DbStep(U.Begin(0, COMMAND, 0)), DbStep(U.SaveVideo(0, Reply.Done)),
    DbStep(U.AddOutbox(0, 1, Reply.Done)), DbStep(U.Step.Commit(0, Reply.Done))]

  const ROW := VideoRow("key", PENDING, 0, Canonical.Null, false)

  lemma Uploads(cfg: Config) returns (s: System)
    ensures s == Go(cfg, START, UPLOAD)
    ensures s.db.videos == map[0 := ROW] && s.db.outbox == map[1 := U.OutboxRow(0, 0)]
    ensures s.relay == START.relay && s.service == START.service && s.group == START.group
  {
    var d1 := U.Next(cfg.keyTtl, U.EMPTY, U.Begin(0, COMMAND, 0));
    assert d1.txs == map[0 := U.Tx(COMMAND, Snapshot(0, "key", PENDING, 0, Canonical.Null), U.Saving(U.Lease(0, 0)))];
    var d2 := U.Next(cfg.keyTtl, d1, U.SaveVideo(0, Reply.Done));
    assert d2.txs == map[0 := d1.txs[0].(phase := U.Phase.Adding(U.Lease(0, 0)))];
    var d3 := U.Next(cfg.keyTtl, d2, U.AddOutbox(0, 1, Reply.Done));
    assert d3.txs == map[0 := d1.txs[0].(phase := U.Phase.Committing(U.Lease(0, 0), 1, 0))];
    var d4 := U.Next(cfg.keyTtl, d3, U.Step.Commit(0, Reply.Done));
    s := START.(db := d4);
    FoldFour(Stepper(cfg), UPLOAD, START, START.(db := d1), START.(db := d2), START.(db := d3), s);
  }

  // ---- and relayed ----

  const RELAY := [
    RelayDoes(R.ClaimRows(0, [1])), RelayDoes(R.XAdd(0, Reply.Done)), RelayDoes(R.MarkAndCommit(0, Reply.Done))]

  lemma Relays(cfg: Config, s: System) returns (s': System)
    requires s.db.outbox == map[1 := U.OutboxRow(0, 0)] && s.relay == R.IDLE
    ensures s' == Go(cfg, s, RELAY)
    ensures s'.relay.stream == [R.UploadMsg(1, 0)] && s' == s.(relay := s'.relay)
  {
    assert R.ValidClaim(s.db.outbox, R.IDLE, cfg.relayBatch, [1]);
    var r1 := R.RelayNext(cfg.relayBatch, s.db.outbox, R.IDLE, R.ClaimRows(0, [1]));
    assert r1.drains == map[0 := R.Drain([1], 0)];
    var r2 := R.RelayNext(cfg.relayBatch, s.db.outbox, r1, R.XAdd(0, Reply.Done));
    assert r2.drains == map[0 := R.Drain([1], 1)];
    var r3 := R.RelayNext(cfg.relayBatch, s.db.outbox, r2, R.MarkAndCommit(0, Reply.Done));
    s' := s.(relay := r3);
    GoThree(cfg, RELAY, s, s.(relay := r1), s.(relay := r2));
  }

  // ---- and processed, before the handler gets to say that it started ----

  const HANDLER_ENDS := [M.PublishStarted(0, Reply.Done), M.MarkInbox(0, Reply.Done), M.AckMessage(0, Reply.Done)]

  lemma HandlerEnds(retries: nat, uploaded: seq<R.UploadMsg>, s: M.Service, m: R.UploadMsg)
    requires 0 in s.handlers && s.handlers[0] == M.Handler(0, m, M.Starting)
    ensures var s' := O.RunService(retries, uploaded, s, HANDLER_ENDS);
            s'.status == s.status + [M.StatusEvent(Started, m.videoId)] && 0 in s'.acked
  {
    var s1 := M.HandlerNext(uploaded, s, HANDLER_ENDS[0]);
    var s2 := M.HandlerNext(uploaded, s1, HANDLER_ENDS[1]);
    assert HANDLER_ENDS == [HANDLER_ENDS[0]] + HANDLER_ENDS[1..];
    assert HANDLER_ENDS[1..] == [HANDLER_ENDS[1]] + HANDLER_ENDS[2..] && HANDLER_ENDS[2..] == [HANDLER_ENDS[2]] + [];
    O.RunsHandlerStep(retries, uploaded, s, HANDLER_ENDS[0], HANDLER_ENDS[1..]);
    O.RunsHandlerStep(retries, uploaded, s1, HANDLER_ENDS[1], HANDLER_ENDS[2..]);
    O.RunsHandlerStep(retries, uploaded, s2, HANDLER_ENDS[2], []);
  }

  const OVERTAKEN := [M.StatusEvent(Processed, 0), M.StatusEvent(Started, 0)]

  function SERVICE(): seq<M.ServiceStep> {
    O.OvertakingSteps(0, 0, [0, 1, 2]) + HANDLER_ENDS
  }

  lemma ServiceOvertakes(retries: nat, uploaded: seq<R.UploadMsg>) returns (service: M.Service)
    requires uploaded == [R.UploadMsg(1, 0)]
    ensures service == O.RunService(retries, uploaded, M.NO_WORK, SERVICE())
    ensures service.status == OVERTAKEN && 0 in service.acked
  {
    var steps := O.OvertakingSteps(0, 0, [0, 1, 2]);
    O.OvertakingRuns(retries, uploaded, M.NO_WORK, 0, 0, [0, 1, 2]);
    var worked := O.RunService(retries, uploaded, M.NO_WORK, steps);
    HandlerEnds(retries, uploaded, worked, R.UploadMsg(1, 0));
    ServiceRunsOn(retries, uploaded, steps, HANDLER_ENDS);
    service := O.RunService(retries, uploaded, M.NO_WORK, SERVICE());
  }

  lemma ServiceRunsOn(retries: nat, uploaded: seq<R.UploadMsg>, first: seq<M.ServiceStep>, rest: seq<M.ServiceStep>)
    ensures O.RunService(retries, uploaded, M.NO_WORK, first + rest)
            == O.RunService(retries, uploaded, O.RunService(retries, uploaded, M.NO_WORK, first), rest)
  {
    FoldAppend(O.Stepper(retries, uploaded), M.NO_WORK, first, rest);
  }

  lemma Overtakes(cfg: Config, s: System) returns (s': System)
    requires s.relay.stream == [R.UploadMsg(1, 0)] && s.service == M.NO_WORK
    ensures s' == Go(cfg, s, Served(SERVICE()))
    ensures s'.service.status == OVERTAKEN && 0 in s'.service.acked && s' == s.(service := s'.service)
  {
    var service := ServiceOvertakes(cfg.retries, s.relay.stream);
    GoServed(cfg, s, SERVICE());
    s' := s.(service := service);
  }

  // ---- and both events are consumed ----

  const CONSUME_PROCESSED := [
    ConsumerDoes(C.ReadNew(0, 2, Reply.Done)), ConsumerDoes(C.HandleHead(0, Reply.Done)),
    ConsumerDoes(C.AckHead(0, Reply.Done))]

  const CONSUME_STARTED := [
    ConsumerDoes(C.HandleHead(0, Reply.Done)), ConsumerDoes(C.Broadcast(C.Consumer(0), Reply.Done)),
    ConsumerDoes(C.AckHead(0, Reply.Done))]

  lemma BothAreRead() returns (g: C.Group)
    ensures g == C.ReadOne(Entries(OVERTAKEN), C.NEW_GROUP, 0, 2, Reply.Done)
    ensures g.batches == map[0 := C.Batch([0, 1], C.Handling)] && g.pending == map[0 := 0, 1 := 0]
    ensures g.feeds == map[] && g.acked == {}
  {
    g := C.ReadOne(Entries(OVERTAKEN), C.NEW_GROUP, 0, 2, Reply.Done);
    assert C.Range(0, 2) == [0, 1];
  }

  lemma HeadIsRefused(g: C.Group) returns (g': C.Group)
    requires g.batches == map[0 := C.Batch([0, 1], C.Handling)]
    ensures C.HandleOne(Entries(OVERTAKEN), map[0 := ROW], g, 0, Reply.Done) == (map[0 := ROW], g')
    ensures g'.batches == map[0 := C.Batch([0, 1], C.Acknowledging)]
    ensures g'.pending == g.pending && g'.feeds == g.feeds && g'.acked == g.acked
  {
    g' := C.HandleOne(Entries(OVERTAKEN), map[0 := ROW], g, 0, Reply.Done).1;
  }

  /** The processed event finds a PENDING video: it is refused, and acknowledged. */
  lemma ProcessedIsRefused(cfg: Config, s: System) returns (s': System)
    requires s.service.status == OVERTAKEN && s.db.videos == map[0 := ROW] && s.group == C.NEW_GROUP
    ensures s' == Go(cfg, s, CONSUME_PROCESSED) && s' == s.(group := s'.group)
    ensures s'.group.acked == {0} && s'.group.pending == map[1 := 0] && s'.group.feeds == map[]
    ensures s'.group.batches == map[0 := C.Batch([1], C.Handling)]
  {
    var g1 := BothAreRead();
    var g2 := HeadIsRefused(g1);
    var g3 := C.AckOne(g2, 0, Reply.Done);
    assert g3.pending == map[1 := 0];
    s' := s.(group := g3);
    GoThree(cfg, CONSUME_PROCESSED, s, s.(group := g1), s.(group := g2));
  }

  lemma GoThree(cfg: Config, steps: seq<SystemStep>, s: System, s1: System, s2: System)
    requires |steps| == 3 && s1 == SystemNext(cfg, s, steps[0]) && s2 == SystemNext(cfg, s1, steps[1])
    ensures Go(cfg, s, steps) == SystemNext(cfg, s2, steps[2])
  {
    GoOne(cfg, s, steps[0], steps[1..]);
    GoOne(cfg, s1, steps[1], steps[2..]);
    GoOne(cfg, s2, steps[2], []);
    assert steps == [steps[0]] + steps[1..] && steps[1..] == [steps[1]] + steps[2..] && steps[2..] == [steps[2]] + [];
  }

  lemma HeadIsApplied(g: C.Group) returns (rows: Rows, g': C.Group)
    requires g.batches == map[0 := C.Batch([1], C.Handling)]
    ensures C.HandleOne(Entries(OVERTAKEN), map[0 := ROW], g, 0, Reply.Done) == (rows, g')
    ensures rows == map[0 := ROW.(status := PROCESSING)]
    ensures g'.batches == map[0 := C.Batch([1], C.Broadcasting)] && C.Consumer(0) in g'.feeds
    ensures g'.pending == g.pending && g'.acked == g.acked
  {
    var handled := C.HandleOne(Entries(OVERTAKEN), map[0 := ROW], g, 0, Reply.Done);
    rows, g' := handled.0, handled.1;
  }

  lemma BroadcastAndAck(g: C.Group) returns (g1: C.Group, g2: C.Group)
    requires g.batches == map[0 := C.Batch([1], C.Broadcasting)] && C.Consumer(0) in g.feeds
    requires g.pending == map[1 := 0] && g.acked == {0}
    ensures g1 == C.BroadcastOne(g, C.Consumer(0), Reply.Done) && g2 == C.AckOne(g1, 0, Reply.Done)
    ensures g2.acked == {0, 1} && g2.pending == map[]
  {
    g1 := C.BroadcastOne(g, C.Consumer(0), Reply.Done);
    assert g1.batches == map[0 := C.Batch([1], C.Acknowledging)];
    g2 := C.AckOne(g1, 0, Reply.Done);
  }

  lemma StartedIsApplied(cfg: Config, s: System) returns (s': System)
    requires s.service.status == OVERTAKEN && s.db.videos == map[0 := ROW]
    requires s.group.acked == {0} && s.group.pending == map[1 := 0]
    requires s.group.batches == map[0 := C.Batch([1], C.Handling)]
    ensures s' == Go(cfg, s, CONSUME_STARTED) && s'.service == s.service && s'.relay == s.relay
    ensures s'.group.acked == {0, 1} && s'.group.pending == map[]
            && s'.db.videos == map[0 := ROW.(status := PROCESSING)]
  {
    var rows, g1 := HeadIsApplied(s.group);
    var g2, g3 := BroadcastAndAck(g1);
    var s1 := s.(db := s.db.(videos := rows), group := g1);
    s' := s1.(group := g3);
    GoThree(cfg, CONSUME_STARTED, s, s1, s1.(group := g2));
  }

  // ---- the run ----

  function StuckRun(): seq<SystemStep> {
    UPLOAD + (RELAY + (Served(SERVICE()) + (CONSUME_PROCESSED + CONSUME_STARTED)))
  }

  lemma GoFive(
      cfg: Config, s: System,
      a: seq<SystemStep>, b: seq<SystemStep>, c: seq<SystemStep>, d: seq<SystemStep>, e: seq<SystemStep>)
    ensures Go(cfg, s, a + (b + (c + (d + e)))) == Go(cfg, Go(cfg, Go(cfg, Go(cfg, Go(cfg, s, a), b), c), d), e)
  {
    FoldAppend(Stepper(cfg), s, a, b + (c + (d + e)));
    FoldAppend(Stepper(cfg), Go(cfg, s, a), b, c + (d + e));
    FoldAppend(Stepper(cfg), Go(cfg, Go(cfg, s, a), b), c, d + e);
    FoldAppend(Stepper(cfg), Go(cfg, Go(cfg, Go(cfg, s, a), b), c), d, e);
  }

  lemma StuckStates(cfg: Config) returns (s: System)
    ensures s == Go(cfg, Go(cfg, Go(cfg, Go(cfg, Go(cfg, START, UPLOAD), RELAY), Served(SERVICE())), CONSUME_PROCESSED),
            CONSUME_STARTED)
    ensures s.relay.stream == [R.UploadMsg(1, 0)] && 0 in s.service.acked && s.service.status == OVERTAKEN
    ensures s.group.acked == {0, 1} && s.group.pending == map[] && s.db.videos == map[0 := ROW.(status := PROCESSING)]
  {
    var s1 := Uploads(cfg);
    var s2 := Relays(cfg, s1);
    var s3 := Overtakes(cfg, s2);
    var s4 := ProcessedIsRefused(cfg, s3);
    s := StartedIsApplied(cfg, s4);
  }

  /** All work of the video is done and every message and event about it is acknowledged, but it is PROCESSING. */
  lemma OvertakenVideoSticks(cfg: Config)
    ensures var s := SystemRun(cfg, StuckRun());
            && (forall k: M.JobKind :: (0, k) in s.service.completed)
            && s.relay.stream == [R.UploadMsg(1, 0)] && 0 in s.service.acked
            && s.service.status == OVERTAKEN && s.group.acked == {0, 1} && s.group.pending == map[]
            && s.db.videos == map[0 := ROW.(status := PROCESSING)]
  {
    var s := StuckStates(cfg);
    GoFive(cfg, START, UPLOAD, RELAY, Served(SERVICE()), CONSUME_PROCESSED, CONSUME_STARTED);
    GoFromStart(cfg, StuckRun());
    assert OVERTAKEN[0] in s.service.status;
    ProcessedMeansAllWorkDone(cfg, StuckRun(), 0);
  }
}
