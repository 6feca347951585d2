/** The pipeline with every mark in two steps: a consumer or a cancel loads the video and checks the move, and saves in
    a later step whatever the status is by then. Everything else is as in Pipeline. */
module SplitMarks {
  import opened Wrappers
  import opened VideoAgg
  import opened VideoTable
  import opened Pipeline
  import M = MediaProcessing
  import C = StatusConsumer
  import R = OutboxRelay

  /** A mark between its load and its save; `since` is how long the history of what was asked was at the load. */
  datatype Loaded = Loaded(video: VideoId, request: Request, since: nat)

  /** A save: whether the one-step mark would have made the same move, and whether anything came between. */
  datatype Saved = Saved(isMark: bool, isUndisturbed: bool)

  /** `fused` are the steps of the one-step pipeline that correspond to what was done. */
  datatype Split = Split(
    sys: System, loads: map<C.Broadcaster, Loaded>, saves: seq<Saved>, fused: seq<SystemStep>)

  const SPLIT_START := Split(START, map[], [], [])

  datatype SplitStep =
    | Plain(step: SystemStep)
    | LoadHead(c: C.ConsumerId)
    | SaveHead(c: C.ConsumerId, reply: Reply)
    | LoadCancel(k: C.CallerId, v: VideoId)
    | SaveCancel(k: C.CallerId, reply: Reply)

  function Head(s: System, c: C.ConsumerId): C.Entry
    requires C.AtHead(Entries(s.service.status), s.group, c)
  {
    Entries(s.service.status)[s.group.batches[c].todo[0]]
  }

  /** The consumer is about to handle an event that its video's status allows. */
  predicate CanLoad(s: System, c: C.ConsumerId) {
    && C.AtHead(Entries(s.service.status), s.group, c) && Head(s, c).Known?
    && C.Applicable(s.db.videos, Head(s, c).event.videoId, Head(s, c).event.request)
  }

  /** A step of the one-step pipeline that marks nothing, and is not that of a consumer or caller with a load. */
  predicate IsPlain(s: Split, step: SystemStep) {
    step.ConsumerDoes? ==>
      && (step.consumer.HandleHead? ==>
            !CanLoad(s.sys, step.consumer.c) && C.Consumer(step.consumer.c) !in s.loads)
      && !step.consumer.Cancel?
  }

  /** What a crash makes of the load of who crashes. */
  function LoadsAfter(loads: map<C.Broadcaster, Loaded>, step: SystemStep): map<C.Broadcaster, Loaded> {
    if step.ConsumerDoes? && step.consumer.CrashConsumer? then loads - {C.Consumer(step.consumer.c)}
    else if step.ConsumerDoes? && step.consumer.CrashCaller? then loads - {C.Caller(step.consumer.k)}
    else loads
  }

  function PlainOne(cfg: Config, s: Split, step: SystemStep): Split {
    if !IsPlain(s, step) then s
    else Split(SystemNext(cfg, s.sys, step), LoadsAfter(s.loads, step), s.saves, s.fused + [step])
  }

  function LoadHeadOne(s: Split, c: C.ConsumerId): Split {
    if C.Consumer(c) in s.loads || !CanLoad(s.sys, c) then s
    else
      var e := Head(s.sys, c).event;
      s.(loads := s.loads[C.Consumer(c) := Loaded(e.videoId, e.request, |s.sys.group.asked|)])
  }

  function LoadCancelOne(s: Split, k: C.CallerId, v: VideoId): Split {
    if C.Caller(k) in s.loads || C.Caller(k) in s.sys.group.feeds || !C.Applicable(s.sys.db.videos, v, Failed) then s
    else s.(loads := s.loads[C.Caller(k) := Loaded(v, Failed, |s.sys.group.asked|)])
  }

  /** A move of the video since the load, other than that of a started under a failure. */
  predicate Disturbs(asked: seq<C.Asked>, x: Loaded, m: nat) {
    && x.since <= m < |asked| && asked[m].videoId == x.video && C.TookEffect(asked, m)
    && !(asked[m].request == Started && x.request == Failed)
  }

  /** The video is still live, and nothing disturbed the mark. */
  predicate Undisturbed(s: System, x: Loaded) {
    Live(s.db.videos, x.video) && forall m | x.since <= m < |s.group.asked| :: !Disturbs(s.group.asked, x, m)
  }

  function Record(s: Split, x: Loaded): Saved {
    Saved(C.Applicable(s.sys.db.videos, x.video, x.request), Undisturbed(s.sys, x))
  }

  /** The upsert of the status, whatever it is. */
  function Upserted(rows: Rows, x: Loaded): Rows {
    if x.video !in rows then rows
    else Apply(rows, RepoOp.Save(Stored(rows, x.video).(status := Target(x.request))))
  }

  function SaveHeadOne(s: Split, c: C.ConsumerId, reply: Reply): Split {
    var b := C.Consumer(c);
    if b !in s.loads || !C.AtHead(Entries(s.sys.service.status), s.sys.group, c) then s
    else
      var x, g := s.loads[b], s.sys.group;
      var fused := s.fused + [ConsumerDoes(C.HandleHead(c, reply))];
      if !reply.TookEffect() then
        s.(sys := s.sys.(group := C.Drop(g, c)), loads := s.loads - {b},
           fused := s.fused + [ConsumerDoes(C.CrashConsumer(c))])
      else
        var group := C.AppliedBy(g, g.batches[c].todo[0], c, M.StatusEvent(x.request, x.video), reply);
        Split(s.sys.(db := s.sys.db.(videos := Upserted(s.sys.db.videos, x)), group := group),
              s.loads - {b}, s.saves + [Record(s, x)], fused)
  }

  function SaveCancelOne(s: Split, k: C.CallerId, reply: Reply): Split {
    var b := C.Caller(k);
    if b !in s.loads || b in s.sys.group.feeds then s
    else if !reply.TookEffect() then s.(loads := s.loads - {b})
    else
      var x := s.loads[b];
      var group := C.Commit(s.sys.group, b, C.Asked(C.User, x.video, Failed), reply);
      Split(s.sys.(db := s.sys.db.(videos := Upserted(s.sys.db.videos, x)), group := group), s.loads - {b},
            s.saves + [Record(s, x)], s.fused + [ConsumerDoes(C.Cancel(k, x.video, reply))])
  }

  function SplitNext(cfg: Config, s: Split, step: SplitStep): Split {
    match step
    case Plain(p) => PlainOne(cfg, s, p)
    case LoadHead(c) => LoadHeadOne(s, c)
    case SaveHead(c, reply) => SaveHeadOne(s, c, reply)
    case LoadCancel(k, v) => LoadCancelOne(s, k, v)
    case SaveCancel(k, reply) => SaveCancelOne(s, k, reply)
  }

  function SplitRun(cfg: Config, steps: seq<SplitStep>): Split {
    if steps == [] then SPLIT_START else SplitNext(cfg, SplitRun(cfg, steps[..|steps| - 1]), steps[|steps| - 1])
  }

  // ---- when a save makes the move of the one-step mark ----

  lemma AfterOne(asked: seq<C.Asked>, n: nat, v: VideoId)
    requires n < |asked|
    ensures C.StatusAfter(asked[..n + 1], v)
            == if asked[n].videoId == v then Move(C.StatusAfter(asked[..n], v), asked[n].request)
               else C.StatusAfter(asked[..n], v)
  {
    assert asked[..n + 1] == asked[..n] + [asked[n]];
    C.HandledAppend(asked[..n], asked[n], v);
  }

  predicate IsMoveOf(asked: seq<C.Asked>, m: nat, v: VideoId) {
    m < |asked| && asked[m].videoId == v && C.TookEffect(asked, m)
  }

  lemma {:induction false} NoMoveNoChange(asked: seq<C.Asked>, v: VideoId, a: nat, b: nat)
    requires a <= b <= |asked| && forall m | a <= m < b :: !IsMoveOf(asked, m, v)
    ensures C.StatusAfter(asked[..b], v) == C.StatusAfter(asked[..a], v)
    decreases b - a
  {
    if a < b {
      AfterOne(asked, b - 1, v);
      assert !IsMoveOf(asked, b - 1, v);
      NoMoveNoChange(asked, v, a, b - 1);
    }
  }

  /** After moves by started alone a video is being processed. */
  lemma {:induction false} OnlyStarts(asked: seq<C.Asked>, v: VideoId, a: nat, b: nat)
    requires a < b <= |asked|
    requires forall m | a <= m < b && IsMoveOf(asked, m, v) :: asked[m].request == Started
    requires exists m :: a <= m < b && IsMoveOf(asked, m, v)
    ensures C.StatusAfter(asked[..b], v) == PROCESSING
    decreases b - a
  {
    AfterOne(asked, b - 1, v);
    if !IsMoveOf(asked, b - 1, v) {
      OnlyStarts(asked, v, a, b - 1);
    }
  }

  lemma {:induction false} StatusGrows(asked: seq<C.Asked>, v: VideoId, a: nat, b: nat)
    requires a <= b <= |asked|
    ensures Rank(C.StatusAfter(asked[..a], v)) <= Rank(C.StatusAfter(asked[..b], v))
    decreases b - a
  {
    if a < b {
      AfterOne(asked, b - 1, v);
      StatusGrows(asked, v, a, b - 1);
    }
  }

  /** The move is still allowed exactly when nothing disturbed it. */
  lemma AllowedIffUndisturbed(asked: seq<C.Asked>, x: Loaded)
    requires x.since <= |asked| && Target(x.request) in Allowed(C.StatusAfter(asked[..x.since], x.video))
    ensures Target(x.request) in Allowed(C.StatusAfter(asked, x.video))
            <==> forall m | x.since <= m < |asked| :: !Disturbs(asked, x, m)
  {
    var v, n := x.video, |asked|;
    assert asked[..n] == asked;
    if m :| x.since <= m < n && Disturbs(asked, x, m) {
      StatusGrows(asked, v, x.since, m);
      AfterOne(asked, m, v);
      StatusGrows(asked, v, m + 1, n);
    } else {
      assert forall m | x.since <= m < n && IsMoveOf(asked, m, v) :: !Disturbs(asked, x, m);
      if m :| x.since <= m < n && IsMoveOf(asked, m, v) {
        OnlyStarts(asked, v, x.since, n);
      } else {
        NoMoveNoChange(asked, v, x.since, n);
      }
    }
  }

  // ---- what holds of the loads ----

  /** The load was right when it was made, and its consumer still has that event at the head of its batch. */
  predicate LoadOk(s: System, b: C.Broadcaster, x: Loaded) {
    && x.since <= |s.group.asked| && x.video in s.db.videos
    && Target(x.request) in Allowed(C.StatusAfter(s.group.asked[..x.since], x.video))
    && (b.Caller? ==> x.request == Failed)
    && (b.Consumer? ==>
          && C.AtHead(Entries(s.service.status), s.group, b.consumer)
          && Head(s, b.consumer) == C.Known(M.StatusEvent(x.request, x.video)))
  }

  predicate LoadsOk(s: System, loads: map<C.Broadcaster, Loaded>) {
    forall b | b in loads :: LoadOk(s, b, loads[b])
  }

  predicate AllMarks(saves: seq<Saved>) {
    forall i | 0 <= i < |saves| :: saves[i].isMark
  }

  predicate AllUndisturbed(saves: seq<Saved>) {
    forall i | 0 <= i < |saves| :: saves[i].isUndisturbed
  }

  /** As long as every save made the move of the one-step mark, this is a run of the one-step pipeline. */
  ghost predicate SplitInv(cfg: Config, s: Split) {
    && (AllMarks(s.saves) <==> AllUndisturbed(s.saves))
    && (AllMarks(s.saves) ==> InStep(cfg, s))
  }

  // ---- what one step of the one-step pipeline leaves of a load ----

  /** The step is that of the broadcaster itself, and ends or handles what it loaded. */
  predicate IsOwn(b: C.Broadcaster, step: SystemStep) {
    && step.ConsumerDoes? && b.Consumer?
    && ((step.consumer.HandleHead? && step.consumer.c == b.consumer)
        || (step.consumer.CrashConsumer? && step.consumer.c == b.consumer))
  }

  lemma ConsumerAsksOn(stream: seq<C.Entry>, rows: Rows, g: C.Group, step: C.ConsumerStep)
    ensures g.asked <= C.ConsumerNext(stream, rows, g, step).1.asked
  {
  }

  lemma HandlingLeavesOthers(
      stream: seq<C.Entry>, rows: Rows, g: C.Group, d: C.ConsumerId, reply: Reply, c: C.ConsumerId)
    requires c != d && c in g.batches
    ensures var g' := C.HandleOne(stream, rows, g, d, reply).1; c in g'.batches && g'.batches[c] == g.batches[c]
  {
    if C.AtHead(stream, g, d) {
      var i := g.batches[d].todo[0];
      RefusingLeavesOthers(stream, rows, g, d, c, i);
      if stream[i].Known? {
        ApplyingLeavesOthers(g, d, c, i, stream[i].event, reply);
      }
    }
  }

  lemma RefusingLeavesOthers(
      stream: seq<C.Entry>, rows: Rows, g: C.Group, d: C.ConsumerId, c: C.ConsumerId, i: C.EntryId)
    requires c != d && c in g.batches && d in g.batches && i < |stream|
    ensures var g' := C.SetPhase(C.RefusedBy(g, i, rows, stream[i]), d, C.Acknowledging);
            c in g'.batches && g'.batches[c] == g.batches[c]
  {
  }

  lemma ApplyingLeavesOthers(
      g: C.Group, d: C.ConsumerId, c: C.ConsumerId, i: C.EntryId, e: M.StatusEvent, reply: Reply)
    requires c != d && c in g.batches && d in g.batches
    ensures var g' := C.AppliedBy(g, i, d, e, reply); c in g'.batches && g'.batches[c] == g.batches[c]
  {
  }

  lemma EndingLeavesOthers(g: C.Group, c: C.ConsumerId, d: C.ConsumerId, b: C.Broadcaster, reply: Reply)
    requires c in g.batches && g.batches[c].phase == C.Handling
    ensures var g' := C.BroadcastOne(g, b, reply); c in g'.batches && g'.batches[c] == g.batches[c]
    ensures var g' := C.AckOne(g, d, reply); c in g'.batches && g'.batches[c] == g.batches[c]
  {
  }

  lemma OthersLeaveHead(stream: seq<C.Entry>, rows: Rows, g: C.Group, step: C.ConsumerStep, c: C.ConsumerId)
    requires c in g.batches && g.batches[c].phase == C.Handling
    requires !(step.HandleHead? && step.c == c) && !(step.CrashConsumer? && step.c == c)
    ensures var g' := C.ConsumerNext(stream, rows, g, step).1; c in g'.batches && g'.batches[c] == g.batches[c]
  {
    match step {
      case HandleHead(d, reply) => HandlingLeavesOthers(stream, rows, g, d, reply, c);
      case Broadcast(b, reply) => EndingLeavesOthers(g, c, c, b, reply);
      case AckHead(d, reply) => EndingLeavesOthers(g, c, d, C.Consumer(d), reply);
      case ReadNew(_, _, _) =>
      case ClaimStale(_, _, _) =>
      case CrashConsumer(_) =>
      case Cancel(_, _, _) =>
      case CrashCaller(_) =>
    }
  }

  /** The history, the rows and the batch that a load speaks of are still there, with more behind them. */
  predicate Extends(s: System, s': System, b: C.Broadcaster) {
    && s.group.asked <= s'.group.asked && s.service.status <= s'.service.status
    && (forall v | v in s.db.videos :: v in s'.db.videos)
    && (b.Consumer? && b.consumer in s.group.batches && s.group.batches[b.consumer].phase == C.Handling ==>
          b.consumer in s'.group.batches && s'.group.batches[b.consumer] == s.group.batches[b.consumer])
  }

  lemma ExtendedLoadIsOk(s: System, s': System, b: C.Broadcaster, x: Loaded)
    requires LoadOk(s, b, x) && Extends(s, s', b)
    ensures LoadOk(s', b, x)
  {
    assert s'.group.asked[..x.since] == s.group.asked[..x.since];
    if b.Consumer? {
      var i := s.group.batches[b.consumer].todo[0];
      assert Entries(s'.service.status)[i] == Entries(s.service.status)[i];
    }
  }

  /** A consumer's step, and what it makes of the group. */
  lemma ConsumerStepExtends(cfg: Config, s: System, c: C.ConsumerStep, b: C.Broadcaster)
    requires b.Consumer? && b.consumer in s.group.batches && s.group.batches[b.consumer].phase == C.Handling ==>
               !IsOwn(b, ConsumerDoes(c))
    ensures Extends(s, SystemNext(cfg, s, ConsumerDoes(c)), b)
  {
    var stream, rows := Entries(s.service.status), s.db.videos;
    var (rows', g') := C.ConsumerNext(stream, rows, s.group, c);
    ConsumerAsksOn(stream, rows, s.group, c);
    ConsumerKeepsVideos(stream, rows, s.group, c);
    if b.Consumer? && b.consumer in s.group.batches && s.group.batches[b.consumer].phase == C.Handling {
      OthersLeaveHead(stream, rows, s.group, c, b.consumer);
    }
    assert SystemNext(cfg, s, ConsumerDoes(c)) == s.(db := s.db.(videos := rows'), group := g');
  }

  /** Any other step leaves the group as it is. */
  lemma OtherStepExtends(cfg: Config, s: System, step: SystemStep, b: C.Broadcaster)
    requires U.Inv(s.db) && !step.ConsumerDoes?
    ensures Extends(s, SystemNext(cfg, s, step), b)
  {
    match step {
      case DbStep(u) => if !u.MoveVideo? { DbOnlyAdds(cfg.keyTtl, s.db, u); }
      case RelayDoes(_) =>
      case ServiceDoes(m) => StatusOnlyGrows(cfg.retries, s.relay.stream, s.service, m);
    }
  }

  lemma StepExtends(cfg: Config, s: System, step: SystemStep, b: C.Broadcaster, x: Loaded)
    requires SystemInv(cfg, s) && LoadOk(s, b, x) && !IsOwn(b, step)
    ensures Extends(s, SystemNext(cfg, s, step), b)
  {
    if step.ConsumerDoes? {
      ConsumerStepExtends(cfg, s, step.consumer, b);
    } else {
      OtherStepExtends(cfg, s, step, b);
    }
  }

  lemma LoadsStayOk(cfg: Config, s: System, step: SystemStep, loads: map<C.Broadcaster, Loaded>,
                    loads': map<C.Broadcaster, Loaded>)
    requires SystemInv(cfg, s) && LoadsOk(s, loads)
    requires forall b | b in loads' :: b in loads && loads'[b] == loads[b] && !IsOwn(b, step)
    ensures LoadsOk(SystemNext(cfg, s, step), loads')
  {
    forall b | b in loads' ensures LoadOk(SystemNext(cfg, s, step), b, loads'[b]) {
      StepExtends(cfg, s, step, b, loads[b]);
      ExtendedLoadIsOk(s, SystemNext(cfg, s, step), b, loads[b]);
    }
  }

  // ---- every step keeps it ----

  lemma RunOneMore(cfg: Config, steps: seq<SystemStep>, step: SystemStep)
    ensures SystemRun(cfg, steps + [step]) == SystemNext(cfg, SystemRun(cfg, steps), step)
  {
    assert (steps + [step])[..|steps|] == steps;
  }

  /** The system is in the state of the one-step run so far. */
  ghost predicate InStep(cfg: Config, s: Split) {
    s.sys == SystemRun(cfg, s.fused) && LoadsOk(s.sys, s.loads)
  }

  lemma StepsOn(cfg: Config, s: Split, step: SystemStep, loads: map<C.Broadcaster, Loaded>)
    requires InStep(cfg, s)
    requires forall b | b in loads :: b in s.loads && loads[b] == s.loads[b] && !IsOwn(b, step)
    ensures SystemNext(cfg, s.sys, step) == SystemRun(cfg, s.fused + [step])
    ensures LoadsOk(SystemNext(cfg, s.sys, step), loads)
  {
    RunKeepsInv(cfg, s.fused);
    RunOneMore(cfg, s.fused, step);
    LoadsStayOk(cfg, s.sys, step, s.loads, loads);
  }

  lemma PlainKeepsInv(cfg: Config, s: Split, step: SystemStep)
    requires SplitInv(cfg, s)
    ensures SplitInv(cfg, PlainOne(cfg, s, step))
  {
    if IsPlain(s, step) && AllMarks(s.saves) {
      StepsOn(cfg, s, step, LoadsAfter(s.loads, step));
    }
  }

  lemma NewLoadIsOk(cfg: Config, s: Split, b: C.Broadcaster, v: VideoId, r: Request)
    requires InStep(cfg, s) && C.Applicable(s.sys.db.videos, v, r) && (b.Caller? ==> r == Failed)
    requires b.Consumer? ==> CanLoad(s.sys, b.consumer) && Head(s.sys, b.consumer).event == M.StatusEvent(r, v)
    ensures LoadOk(s.sys, b, Loaded(v, r, |s.sys.group.asked|))
  {
    ReachableGroup(cfg, s.fused);
    StatusIsAfterAll(Entries(s.sys.service.status), s.sys.db.videos, s.sys.group, v);
  }

  lemma StatusIsAfterAll(stream: seq<C.Entry>, rows: Rows, g: C.Group, v: VideoId)
    requires C.GroupInv(stream, rows, g) && v in rows
    ensures rows[v].status == C.StatusAfter(g.asked, v) == C.StatusAfter(g.asked[..|g.asked|], v)
  {
    assert g.asked[..|g.asked|] == g.asked;
  }

  lemma LoadKeepsInv(cfg: Config, s: Split, b: C.Broadcaster, v: VideoId, r: Request)
    requires SplitInv(cfg, s) && C.Applicable(s.sys.db.videos, v, r) && (b.Caller? ==> r == Failed)
    requires b.Consumer? ==> CanLoad(s.sys, b.consumer) && Head(s.sys, b.consumer).event == M.StatusEvent(r, v)
    ensures SplitInv(cfg, s.(loads := s.loads[b := Loaded(v, r, |s.sys.group.asked|)]))
  {
    if AllMarks(s.saves) {
      NewLoadIsOk(cfg, s, b, v, r);
    }
  }

  /** A save makes the move of the one-step mark exactly when nothing came between. */
  lemma MarkIffUndisturbed(cfg: Config, s: Split, b: C.Broadcaster)
    requires InStep(cfg, s) && b in s.loads
    ensures var x := s.loads[b];
            C.Applicable(s.sys.db.videos, x.video, x.request) <==> Undisturbed(s.sys, x)
  {
    var x := s.loads[b];
    assert LoadOk(s.sys, b, x);
    ReachableGroup(cfg, s.fused);
    StatusIsAfterAll(Entries(s.sys.service.status), s.sys.db.videos, s.sys.group, x.video);
    AllowedIffUndisturbed(s.sys.group.asked, x);
  }

  lemma SavedAppend(saves: seq<Saved>, x: Saved)
    requires AllMarks(saves) <==> AllUndisturbed(saves)
    requires AllMarks(saves) ==> (x.isMark <==> x.isUndisturbed)
    ensures AllMarks(saves + [x]) <==> AllUndisturbed(saves + [x])
    ensures AllMarks(saves + [x]) <==> AllMarks(saves) && x.isMark
  {
    var saves' := saves + [x];
    assert saves'[|saves|] == x && forall i | 0 <= i < |saves| :: saves'[i] == saves[i];
  }

  lemma UpsertedIsMarked(rows: Rows, x: Loaded)
    requires C.Applicable(rows, x.video, x.request)
    ensures Upserted(rows, x) == Marked(rows, x.video, x.request)
  {
  }

  lemma SaveHeadIsHandle(cfg: Config, s: Split, c: C.ConsumerId, reply: Reply)
    requires C.Consumer(c) in s.loads && LoadOk(s.sys, C.Consumer(c), s.loads[C.Consumer(c)])
    requires var x := s.loads[C.Consumer(c)]; C.Applicable(s.sys.db.videos, x.video, x.request)
    requires reply.TookEffect()
    ensures SaveHeadOne(s, c, reply).sys == SystemNext(cfg, s.sys, ConsumerDoes(C.HandleHead(c, reply)))
  {
    UpsertedIsMarked(s.sys.db.videos, s.loads[C.Consumer(c)]);
  }

  lemma UnsavedIsCrash(cfg: Config, s: Split, c: C.ConsumerId, reply: Reply)
    requires C.Consumer(c) in s.loads && C.AtHead(Entries(s.sys.service.status), s.sys.group, c) && !reply.TookEffect()
    ensures SaveHeadOne(s, c, reply).sys == SystemNext(cfg, s.sys, ConsumerDoes(C.CrashConsumer(c)))
  {
  }

  lemma UnsavedHeadStaysInStep(cfg: Config, s: Split, c: C.ConsumerId, reply: Reply)
    requires InStep(cfg, s) && C.Consumer(c) in s.loads && !reply.TookEffect()
    ensures InStep(cfg, SaveHeadOne(s, c, reply))
  {
    var b := C.Consumer(c);
    assert LoadOk(s.sys, b, s.loads[b]);
    StepsOn(cfg, s, ConsumerDoes(C.CrashConsumer(c)), s.loads - {b});
    UnsavedIsCrash(cfg, s, c, reply);
  }

  lemma SavedHeadStaysInStep(cfg: Config, s: Split, c: C.ConsumerId, reply: Reply)
    requires InStep(cfg, s) && C.Consumer(c) in s.loads && reply.TookEffect()
    requires var x := s.loads[C.Consumer(c)]; C.Applicable(s.sys.db.videos, x.video, x.request)
    ensures InStep(cfg, SaveHeadOne(s, c, reply))
  {
    var b := C.Consumer(c);
    assert LoadOk(s.sys, b, s.loads[b]);
    StepsOn(cfg, s, ConsumerDoes(C.HandleHead(c, reply)), s.loads - {b});
    SaveHeadIsHandle(cfg, s, c, reply);
  }

  lemma SaveHeadKeepsInv(cfg: Config, s: Split, c: C.ConsumerId, reply: Reply)
    requires SplitInv(cfg, s)
    ensures SplitInv(cfg, SaveHeadOne(s, c, reply))
  {
    var b := C.Consumer(c);
    if b in s.loads && C.AtHead(Entries(s.sys.service.status), s.sys.group, c) {
      var x := s.loads[b];
      if AllMarks(s.saves) {
        MarkIffUndisturbed(cfg, s, b);
        if !reply.TookEffect() {
          UnsavedHeadStaysInStep(cfg, s, c, reply);
        } else if C.Applicable(s.sys.db.videos, x.video, x.request) {
          SavedHeadStaysInStep(cfg, s, c, reply);
        }
      }
      SavedAppend(s.saves, Record(s, x));
    }
  }

  lemma SaveCancelIsCancel(cfg: Config, s: Split, k: C.CallerId, reply: Reply)
    requires C.Caller(k) in s.loads && LoadOk(s.sys, C.Caller(k), s.loads[C.Caller(k)])
    requires C.Caller(k) !in s.sys.group.feeds && reply.TookEffect()
    requires C.Applicable(s.sys.db.videos, s.loads[C.Caller(k)].video, Failed)
    ensures SaveCancelOne(s, k, reply).sys
            == SystemNext(cfg, s.sys, ConsumerDoes(C.Cancel(k, s.loads[C.Caller(k)].video, reply)))
  {
    UpsertedIsMarked(s.sys.db.videos, s.loads[C.Caller(k)]);
  }

  lemma SaveCancelStaysInStep(cfg: Config, s: Split, k: C.CallerId, reply: Reply)
    requires InStep(cfg, s) && C.Caller(k) in s.loads && C.Caller(k) !in s.sys.group.feeds && reply.TookEffect()
    requires C.Applicable(s.sys.db.videos, s.loads[C.Caller(k)].video, s.loads[C.Caller(k)].request)
    ensures InStep(cfg, SaveCancelOne(s, k, reply))
  {
    var b := C.Caller(k);
    assert LoadOk(s.sys, b, s.loads[b]);
    StepsOn(cfg, s, ConsumerDoes(C.Cancel(k, s.loads[b].video, reply)), s.loads - {b});
    SaveCancelIsCancel(cfg, s, k, reply);
  }

  lemma SaveCancelKeepsInv(cfg: Config, s: Split, k: C.CallerId, reply: Reply)
    requires SplitInv(cfg, s)
    ensures SplitInv(cfg, SaveCancelOne(s, k, reply))
  {
    var b := C.Caller(k);
    if b in s.loads && b !in s.sys.group.feeds && reply.TookEffect() {
      var x := s.loads[b];
      if AllMarks(s.saves) {
        MarkIffUndisturbed(cfg, s, b);
        if C.Applicable(s.sys.db.videos, x.video, x.request) {
          SaveCancelStaysInStep(cfg, s, k, reply);
        }
      }
      SavedAppend(s.saves, Record(s, x));
    }
  }

  lemma SplitStepKeepsInv(cfg: Config, s: Split, step: SplitStep)
    requires SplitInv(cfg, s)
    ensures SplitInv(cfg, SplitNext(cfg, s, step))
  {
    match step {
      case Plain(p) => PlainKeepsInv(cfg, s, p);
      case LoadHead(c) =>
        if C.Consumer(c) !in s.loads && CanLoad(s.sys, c) {
          var e := Head(s.sys, c).event;
          LoadKeepsInv(cfg, s, C.Consumer(c), e.videoId, e.request);
        }
      case SaveHead(c, reply) => SaveHeadKeepsInv(cfg, s, c, reply);
      case LoadCancel(k, v) =>
        if C.Applicable(s.sys.db.videos, v, Failed) { LoadKeepsInv(cfg, s, C.Caller(k), v, Failed); }
      case SaveCancel(k, reply) => SaveCancelKeepsInv(cfg, s, k, reply);
    }
  }

  lemma {:induction false} SplitRunKeepsInv(cfg: Config, steps: seq<SplitStep>)
    ensures SplitInv(cfg, SplitRun(cfg, steps))
  {
    if steps == [] {
      assert SystemRun(cfg, []) == START;
    } else {
      SplitRunKeepsInv(cfg, steps[..|steps| - 1]);
      SplitStepKeepsInv(cfg, SplitRun(cfg, steps[..|steps| - 1]), steps[|steps| - 1]);
    }
  }

  // ---- main results: over every run of the pipeline with split marks ----

  /** Every save made the move that the one-step mark would have made exactly when none was disturbed: no other move of
      its video, except by started under a failure, and no deletion fell between its load and itself. */
  lemma MarksIffUndisturbed(cfg: Config, steps: seq<SplitStep>)
    ensures AllMarks(SplitRun(cfg, steps).saves) <==> AllUndisturbed(SplitRun(cfg, steps).saves)
  {
    SplitRunKeepsInv(cfg, steps);
  }

  /** An undisturbed run is one of the one-step pipeline, so all that holds over every run of that holds of it. */
  lemma UndisturbedIsFused(cfg: Config, steps: seq<SplitStep>)
    requires AllUndisturbed(SplitRun(cfg, steps).saves)
    ensures SplitRun(cfg, steps).sys == SystemRun(cfg, SplitRun(cfg, steps).fused)
  {
    SplitRunKeepsInv(cfg, steps);
  }

  /** Exactly-once effect with loads and saves apart, on every undisturbed run. */
  lemma SplitEffectsHappenOnce(cfg: Config, steps: seq<SplitStep>)
    requires AllUndisturbed(SplitRun(cfg, steps).saves)
    ensures var s := SplitRun(cfg, steps).sys;
            var g := s.group;
            && (forall i, m, n | i in g.verdicts && C.Applied(m) in g.verdicts[i] && C.Applied(n) in g.verdicts[i] ::
                  m == n)
            && R.Distinct(g.broadcasts)
            && (forall k | 0 <= k < |g.broadcasts| :: C.TookEffect(g.asked, g.broadcasts[k]))
            && forall v | v in s.db.videos ::
                 var h := History(PENDING, C.HandledOf(g.asked, v));
                 && h[|h| - 1] == s.db.videos[v].status && |h| <= 3
                 && forall k | 0 <= k < |h| - 1 :: h[k + 1] in Allowed(h[k])
  {
    UndisturbedIsFused(cfg, steps);
    EffectsHappenOnce(cfg, SplitRun(cfg, steps).fused);
  }

  // ---- and every run of the one-step pipeline is an undisturbed run of this one ----

  /** The steps that do what one step does, when nobody has a load. */
  function Taken(s: System, step: SystemStep): seq<SplitStep> {
    if step.ConsumerDoes? && step.consumer.HandleHead? && CanLoad(s, step.consumer.c) then
      [LoadHead(step.consumer.c), SaveHead(step.consumer.c, step.consumer.reply)]
    else if step.ConsumerDoes? && step.consumer.Cancel? then
      [LoadCancel(step.consumer.k, step.consumer.v), SaveCancel(step.consumer.k, step.consumer.reply)]
    else [Plain(step)]
  }

  lemma SplitSnoc(cfg: Config, steps: seq<SplitStep>, step: SplitStep)
    ensures SplitRun(cfg, steps + [step]) == SplitNext(cfg, SplitRun(cfg, steps), step)
  {
    assert (steps + [step])[..|steps|] == steps;
  }

  lemma SplitTwice(cfg: Config, steps: seq<SplitStep>, a: SplitStep, b: SplitStep)
    ensures SplitRun(cfg, steps + [a, b]) == SplitNext(cfg, SplitNext(cfg, SplitRun(cfg, steps), a), b)
  {
    SplitSnoc(cfg, steps, a);
    SplitSnoc(cfg, steps + [a], b);
    assert steps + [a, b] == steps + [a] + [b];
  }

  /** Nobody has a load, and the saves so far were undisturbed. */
  predicate AtRest(s: Split, sys: System) {
    s.sys == sys && s.loads == map[] && AllUndisturbed(s.saves)
  }

  lemma HeadAtOnce(cfg: Config, s: Split, c: C.ConsumerId, reply: Reply)
    requires AtRest(s, s.sys) && CanLoad(s.sys, c)
    ensures AtRest(SaveHeadOne(LoadHeadOne(s, c), c, reply),
                   SystemNext(cfg, s.sys, ConsumerDoes(C.HandleHead(c, reply))))
  {
    var e := Head(s.sys, c).event;
    var s1 := LoadHeadOne(s, c);
    UpsertedIsMarked(s.sys.db.videos, s1.loads[C.Consumer(c)]);
    assert s1.loads - {C.Consumer(c)} == map[];
  }

  lemma CancelAtOnce(cfg: Config, s: Split, k: C.CallerId, v: VideoId, reply: Reply)
    requires AtRest(s, s.sys)
    ensures AtRest(SaveCancelOne(LoadCancelOne(s, k, v), k, reply),
                   SystemNext(cfg, s.sys, ConsumerDoes(C.Cancel(k, v, reply))))
  {
    var s1 := LoadCancelOne(s, k, v);
    if C.Caller(k) in s1.loads {
      UpsertedIsMarked(s.sys.db.videos, s1.loads[C.Caller(k)]);
      assert s1.loads - {C.Caller(k)} == map[];
    }
  }

  lemma {:induction false} OneStepIsSplit(cfg: Config, steps: seq<SystemStep>) returns (split: seq<SplitStep>)
    ensures AtRest(SplitRun(cfg, split), SystemRun(cfg, steps))
    decreases |steps|
  {
    split := [];
    if steps != [] {
      var before, step := steps[..|steps| - 1], steps[|steps| - 1];
      var init := OneStepIsSplit(cfg, before);
      var s := SplitRun(cfg, init);
      split := init + Taken(s.sys, step);
      if step.ConsumerDoes? && step.consumer.HandleHead? && CanLoad(s.sys, step.consumer.c) {
        SplitTwice(cfg, init, LoadHead(step.consumer.c), SaveHead(step.consumer.c, step.consumer.reply));
        HeadAtOnce(cfg, s, step.consumer.c, step.consumer.reply);
      } else if step.ConsumerDoes? && step.consumer.Cancel? {
        SplitTwice(cfg, init, LoadCancel(step.consumer.k, step.consumer.v),
                   SaveCancel(step.consumer.k, step.consumer.reply));
        CancelAtOnce(cfg, s, step.consumer.k, step.consumer.v, step.consumer.reply);
      } else {
        SplitSnoc(cfg, init, Plain(step));
      }
    }
  }
}
