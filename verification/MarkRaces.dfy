/** A Mark*UC as the two awaits it is: it loads the video and checks the move, and saves in a later step. Any number of
    calls (deliveries of status events, and user cancels) interleave, and a save writes its status over any other. */
module MarkRaces {
  import opened Wrappers
  import opened VideoAgg
  import opened VideoTable
  import Canonical

  type CallId = nat

  /** A call between its load and its save; `since` is how long the log was at the load. */
  datatype Mark = Mark(id: VideoId, request: Request, since: nat)

  /** How a call ended: committed, or refused at its load because of the status it found. */
  datatype Ended = Ended(mark: Mark, committed: bool)

  datatype Races = Races(rows: Rows, calls: map<CallId, Mark>, log: seq<Ended>)

  const EMPTY := Races(map[], map[], [])

  datatype Step =
    | Upload(id: VideoId, sourceKey: string, uploadedAt: Instant, document: Canonical.Json)
    | Delete(id: VideoId)
    | LoadVideo(call: CallId, id: VideoId, request: Request)
    | SaveVideo(call: CallId, reply: Reply)

  /** get_by_id, the not-found branch and the transition. */
  function Loaded(r: Races, call: CallId, id: VideoId, request: Request): Races {
    var mark := Mark(id, request, |r.log|);
    if call in r.calls || !Live(r.rows, id) then r
    else if Target(request) in Allowed(r.rows[id].status) then r.(calls := r.calls[call := mark])
    else r.(log := r.log + [Ended(mark, false)])
  }

  /** The upsert and its commit: the status column becomes the target, with no look at what it is. */
  function Saved(r: Races, call: CallId, reply: Reply): Races {
    if call !in r.calls || r.calls[call].id !in r.rows then r
    else
      var mark := r.calls[call];
      var ended := r.(calls := r.calls - {call});
      if !reply.TookEffect() then ended
      else
        var video := Stored(r.rows, mark.id).(status := Target(mark.request));
        ended.(rows := Apply(r.rows, RepoOp.Save(video)), log := r.log + [Ended(mark, true)])
  }

  function Next(r: Races, s: Step): Races {
    match s
    case Upload(id, sourceKey, uploadedAt, document) =>
      if id in r.rows then r
      else r.(rows := Apply(r.rows, RepoOp.Save(Snapshot(id, sourceKey, PENDING, uploadedAt, document))))
    case Delete(id) => r.(rows := Apply(r.rows, RepoOp.SoftDelete(id)))
    case LoadVideo(call, id, request) => Loaded(r, call, id, request)
    case SaveVideo(call, reply) => Saved(r, call, reply)
  }

  function Run(r: Races, steps: seq<Step>): Races {
    if steps == [] then r else Next(Run(r, steps[..|steps| - 1]), steps[|steps| - 1])
  }

  // ---- what a log says ----

  /** The committed status of a video: what the last committed save of it wrote. */
  function Committed(log: seq<Ended>, id: VideoId): VideoStatus
    decreases |log|
  {
    if log == [] then PENDING
    else
      var e := log[|log| - 1];
      if e.committed && e.mark.id == id then Target(e.mark.request) else Committed(log[..|log| - 1], id)
  }

  predicate IsMove(log: seq<Ended>, i: nat)
    requires i < |log|
  {
    Target(log[i].mark.request) in Allowed(Committed(log[..i], log[i].mark.id))
  }

  /** Every committed save is a move of the status machine from the status committed before it. */
  predicate Legal(log: seq<Ended>) {
    forall i | 0 <= i < |log| && log[i].committed :: IsMove(log, i)
  }

  predicate IsSaveOf(log: seq<Ended>, m: nat, id: VideoId)
    requires m < |log|
  {
    log[m].committed && log[m].mark.id == id
  }

  /** Both entries are saves of one video. */
  predicate FallsUnder(log: seq<Ended>, i: nat, m: nat)
    requires i < |log| && m < |log|
  {
    log[i].committed && IsSaveOf(log, m, log[i].mark.id)
  }

  /** No save of the same video falls between a call's load and its save, except that of a call that marks the video
      PROCESSING under one that marks it FAILED. */
  predicate Undisturbed(log: seq<Ended>) {
    forall i, m | 0 <= i < |log| && log[i].mark.since <= m < i && FallsUnder(log, i, m) ::
      log[m].mark.request == Started && log[i].mark.request == Failed
  }

  /** What a call's load established: it found the committed status of that moment, and went on if that allowed it. */
  predicate LoadWasRight(log: seq<Ended>, i: nat)
    requires i < |log|
  {
    var e := log[i];
    && e.mark.since <= i
    && (e.committed ==> Target(e.mark.request) in Allowed(Committed(log[..e.mark.since], e.mark.id)))
    && (!e.committed ==> e.mark.since == i && Target(e.mark.request) !in Allowed(Committed(log[..i], e.mark.id)))
  }

  predicate LoadsWereRight(log: seq<Ended>) {
    forall i | 0 <= i < |log| :: LoadWasRight(log, i)
  }

  /** The requests made for a video, refused ones included, in the order in which the calls ended. */
  function RequestsFor(log: seq<Ended>, id: VideoId): seq<Request>
    decreases |log|
  {
    if log == [] then []
    else
      var e := log[|log| - 1];
      RequestsFor(log[..|log| - 1], id) + if e.mark.id == id then [e.mark.request] else []
  }

  lemma CommittedAppend(log: seq<Ended>, e: Ended, id: VideoId)
    ensures Committed(log + [e], id) == if e.committed && e.mark.id == id then Target(e.mark.request)
            else Committed(log, id)
  {
    assert (log + [e])[..|log|] == log;
  }

  lemma CommittedStep(log: seq<Ended>, n: nat, id: VideoId)
    requires n < |log|
    ensures Committed(log[..n + 1], id) == if IsSaveOf(log, n, id) then Target(log[n].mark.request)
            else Committed(log[..n], id)
  {
    assert log[..n + 1] == log[..n] + [log[n]];
    CommittedAppend(log[..n], log[n], id);
  }

  // ---- every run tells its loads right ----

  ghost predicate Inv(r: Races) {
    && LoadsWereRight(r.log)
    && (forall id | id in r.rows :: r.rows[id].status == Committed(r.log, id))
    && (forall id | id !in r.rows :: Committed(r.log, id) == PENDING)
    && (forall c | c in r.calls ::
          var mark := r.calls[c];
          mark.since <= |r.log| && Target(mark.request) in Allowed(Committed(r.log[..mark.since], mark.id)))
  }

  lemma LogEndKeepsLoads(log: seq<Ended>, e: Ended)
    requires LoadsWereRight(log) && LoadWasRight(log + [e], |log|)
    ensures LoadsWereRight(log + [e])
  {
    var log' := log + [e];
    forall i | 0 <= i < |log'|
      ensures LoadWasRight(log', i)
    {
      if i < |log| {
        assert LoadWasRight(log, i);
        assert log'[..i] == log[..i] && log'[..log[i].mark.since] == log[..log[i].mark.since];
      }
    }
  }

  lemma LoadKeepsInv(r: Races, call: CallId, id: VideoId, request: Request)
    requires Inv(r)
    ensures Inv(Loaded(r, call, id, request))
  {
    assert r.log[..|r.log|] == r.log;
    var r' := Loaded(r, call, id, request);
    if r'.log != r.log {
      var e := Ended(Mark(id, request, |r.log|), false);
      assert (r.log + [e])[..|r.log|] == r.log;
      LogEndKeepsLoads(r.log, e);
      LaterLogKeepsCalls(r, e);
      forall video {:trigger Committed(r'.log, video)} ensures Committed(r'.log, video) == Committed(r.log, video) {
        CommittedAppend(r.log, e, video);
      }
    }
  }

  lemma LaterLogKeepsCalls(r: Races, e: Ended)
    requires Inv(r)
    ensures forall c | c in r.calls :: (r.log + [e])[..r.calls[c].since] == r.log[..r.calls[c].since]
  {
  }

  lemma SaveKeepsInv(r: Races, call: CallId, reply: Reply)
    requires Inv(r)
    ensures Inv(Saved(r, call, reply))
  {
    if call in r.calls && r.calls[call].id in r.rows && reply.TookEffect() {
      var r' := Saved(r, call, reply);
      var mark := r.calls[call];
      var e := Ended(mark, true);
      assert r'.log == r.log + [e] && r'.log[..mark.since] == r.log[..mark.since];
      LogEndKeepsLoads(r.log, e);
      LaterLogKeepsCalls(r, e);
      forall video {:trigger Committed(r'.log, video)}
        ensures Committed(r'.log, video) == if video == mark.id then Target(mark.request) else Committed(r.log, video)
      {
        CommittedAppend(r.log, e, video);
      }
    }
  }

  lemma StepKeepsInv(r: Races, s: Step)
    requires Inv(r)
    ensures Inv(Next(r, s))
  {
    match s {
      case LoadVideo(call, id, request) =>
        LoadKeepsInv(r, call, id, request);
        assert Next(r, s) == Loaded(r, call, id, request);
      case SaveVideo(call, reply) =>
        SaveKeepsInv(r, call, reply);
        assert Next(r, s) == Saved(r, call, reply);
      case Upload(_, _, _, _) =>
      case Delete(_) =>
    }
  }

  lemma {:induction false} RunKeepsInv(steps: seq<Step>)
    ensures Inv(Run(EMPTY, steps))
  {
    if steps != [] {
      RunKeepsInv(steps[..|steps| - 1]);
      StepKeepsInv(Run(EMPTY, steps[..|steps| - 1]), steps[|steps| - 1]);
    }
  }

  // ---- legal exactly when undisturbed ----

  lemma {:induction false} NoSaveNoChange(log: seq<Ended>, id: VideoId, a: nat, b: nat)
    requires a <= b <= |log|
    requires forall m | a <= m < b :: !IsSaveOf(log, m, id)
    ensures Committed(log[..b], id) == Committed(log[..a], id)
    decreases b - a
  {
    if a < b {
      CommittedStep(log, b - 1, id);
      NoSaveNoChange(log, id, a, b - 1);
    }
  }

  /** After saves of started alone a video is being processed. */
  lemma {:induction false} OnlyStarts(log: seq<Ended>, id: VideoId, a: nat, b: nat)
    requires a < b <= |log|
    requires forall m | a <= m < b && IsSaveOf(log, m, id) :: log[m].mark.request == Started
    requires exists m :: a <= m < b && IsSaveOf(log, m, id)
    ensures Committed(log[..b], id) == PROCESSING
    decreases b - a
  {
    CommittedStep(log, b - 1, id);
    if !IsSaveOf(log, b - 1, id) {
      OnlyStarts(log, id, a, b - 1);
    }
  }

  lemma {:induction false} LegalRankGrows(log: seq<Ended>, id: VideoId, a: nat, b: nat)
    requires Legal(log) && a <= b <= |log|
    ensures Rank(Committed(log[..a], id)) <= Rank(Committed(log[..b], id))
    decreases b - a
  {
    if a < b {
      CommittedStep(log, b - 1, id);
      LegalRankGrows(log, id, a, b - 1);
    }
  }

  /** In a legal log the only save that can fall under a call is a started one under a failure. */
  lemma LegalIsUndisturbed(log: seq<Ended>, i: nat, m: nat)
    requires LoadsWereRight(log) && Legal(log) && i < |log| && log[i].committed
    requires log[i].mark.since <= m < i && IsSaveOf(log, m, log[i].mark.id)
    ensures log[m].mark.request == Started && log[i].mark.request == Failed
  {
    var id := log[i].mark.id;
    assert LoadWasRight(log, i);
    LegalRankGrows(log, id, log[i].mark.since, m);
    CommittedStep(log, m, id);
    LegalRankGrows(log, id, m + 1, i);
  }

  lemma UndisturbedIsLegal(log: seq<Ended>, i: nat)
    requires LoadsWereRight(log) && Undisturbed(log) && i < |log| && log[i].committed
    ensures IsMove(log, i)
  {
    var id, since := log[i].mark.id, log[i].mark.since;
    assert LoadWasRight(log, i);
    assert forall m | since <= m < i && IsSaveOf(log, m, id) :: FallsUnder(log, i, m);
    if m :| since <= m < i && IsSaveOf(log, m, id) {
      OnlyStarts(log, id, since, i);
    } else {
      NoSaveNoChange(log, id, since, i);
    }
  }

  lemma LegalAsUndisturbed(log: seq<Ended>)
    requires LoadsWereRight(log)
    ensures Legal(log) <==> Undisturbed(log)
  {
    if Legal(log) {
      forall i, m | 0 <= i < |log| && log[i].mark.since <= m < i && FallsUnder(log, i, m)
        ensures log[m].mark.request == Started && log[i].mark.request == Failed
      {
        LegalIsUndisturbed(log, i, m);
      }
      assert Undisturbed(log);
    }
    if Undisturbed(log) {
      forall i | 0 <= i < |log| && log[i].committed
        ensures IsMove(log, i)
      {
        UndisturbedIsLegal(log, i);
      }
      assert Legal(log);
    }
  }

  /** The request of entry i, judged in one step by the status that all requests before it lead to. */
  predicate FusedVerdict(log: seq<Ended>, i: nat)
    requires i < |log|
  {
    var e := log[i];
    e.committed <==> Target(e.mark.request) in Allowed(Final(PENDING, RequestsFor(log[..i], e.mark.id)))
  }

  predicate Fused(log: seq<Ended>) {
    forall i | 0 <= i < |log| :: FusedVerdict(log, i)
  }

  lemma RequestsStep(log: seq<Ended>, n: nat, id: VideoId)
    requires n < |log|
    ensures Final(PENDING, RequestsFor(log[..n + 1], id)) ==
            var s := Final(PENDING, RequestsFor(log[..n], id));
            if log[n].mark.id == id then Move(s, log[n].mark.request) else s
  {
    assert log[..n + 1][..n] == log[..n];
    FinalAppend(PENDING, RequestsFor(log[..n], id), log[n].mark.request);
    assert RequestsFor(log[..n], id) + [] == RequestsFor(log[..n], id);
  }

  /** The commits of a log are all its allowed requests, up to n. */
  lemma {:induction false} CommittedIsFinal(log: seq<Ended>, n: nat, id: VideoId)
    requires n <= |log| && ((LoadsWereRight(log) && Legal(log)) || Fused(log))
    ensures Committed(log[..n], id) == Final(PENDING, RequestsFor(log[..n], id))
    decreases n
  {
    if n > 0 {
      CommittedIsFinal(log, n - 1, id);
      CommittedStep(log, n - 1, id);
      RequestsStep(log, n - 1, id);
      assert LoadsWereRight(log) ==> LoadWasRight(log, n - 1);
      assert Fused(log) ==> FusedVerdict(log, n - 1);
    }
  }

  lemma FusedIffLegal(log: seq<Ended>)
    requires LoadsWereRight(log)
    ensures Fused(log) <==> Legal(log)
  {
    if Legal(log) {
      forall i | 0 <= i < |log| ensures FusedVerdict(log, i) {
        CommittedIsFinal(log, i, log[i].mark.id);
        assert LoadWasRight(log, i);
      }
    }
    if Fused(log) {
      forall i | 0 <= i < |log| && log[i].committed
        ensures IsMove(log, i)
      {
        CommittedIsFinal(log, i, log[i].mark.id);
        assert FusedVerdict(log, i);
      }
    }
  }

  // ---- main results ----

  /** In every run, the committed saves are moves of the status machine exactly when no call was disturbed. */
  lemma LegalIffUndisturbed(steps: seq<Step>)
    ensures Legal(Run(EMPTY, steps).log) <==> Undisturbed(Run(EMPTY, steps).log)
  {
    RunKeepsInv(steps);
    LegalAsUndisturbed(Run(EMPTY, steps).log);
  }

  /** The calls that take effect are those of a machine that loads, checks and saves in one step when each call ends,
      exactly when no call was disturbed; and then the rows have the statuses of that machine. */
  lemma FusedIffUndisturbed(steps: seq<Step>)
    ensures var r := Run(EMPTY, steps);
            && (Fused(r.log) <==> Undisturbed(r.log))
            && (Undisturbed(r.log) ==>
                  forall id | id in r.rows :: r.rows[id].status == Final(PENDING, RequestsFor(r.log, id)))
  {
    RunKeepsInv(steps);
    LegalIffUndisturbed(steps);
    var r := Run(EMPTY, steps);
    FusedIffLegal(r.log);
    if Undisturbed(r.log) {
      assert r.log[..|r.log|] == r.log;
      forall id | id in r.rows
        ensures r.rows[id].status == Final(PENDING, RequestsFor(r.log, id))
      {
        CommittedIsFinal(r.log, |r.log|, id);
      }
    }
  }

  /** Undisturbed, a request takes effect at most once on a video, however many deliveries race for it. */
  lemma UndisturbedEffectsOnce(steps: seq<Step>, i: nat, j: nat)
    requires var log := Run(EMPTY, steps).log;
             && Undisturbed(log) && i < j < |log|
             && log[i].committed && log[j].committed && log[i].mark.id == log[j].mark.id
    ensures var log := Run(EMPTY, steps).log; log[i].mark.request != log[j].mark.request
  {
    LegalIffUndisturbed(steps);
    var log := Run(EMPTY, steps).log;
    CommittedStep(log, i, log[i].mark.id);
    LegalRankGrows(log, log[i].mark.id, i + 1, j);
  }

  /** A call that nothing comes between is the mark that the status consumer makes in one step. */
  lemma UninterruptedIsMarked(r: Races, call: CallId, id: VideoId, request: Request)
    requires call !in r.calls
    ensures Saved(Loaded(r, call, id, request), call, Reply.Done).rows == Marked(r.rows, id, request)
  {
  }

  // ---- a run that is disturbed ----

  const BEGIN := [Upload(0, "k", 0, Canonical.Null), LoadVideo(0, 0, Started), SaveVideo(0, Reply.Done)]

  const RACE := [
    LoadVideo(1, 0, Processed), LoadVideo(2, 0, Failed), SaveVideo(2, Reply.Done), SaveVideo(1, Reply.Done)]

  lemma RunSnoc(steps: seq<Step>, s: Step)
    ensures Run(EMPTY, steps + [s]) == Next(Run(EMPTY, steps), s)
  {
    assert (steps + [s])[..|steps|] == steps;
  }

  lemma BeginRuns() returns (r: Races)
    ensures r == Run(EMPTY, BEGIN) && r.calls == map[] && 0 in r.rows && r.rows[0].status == PROCESSING
            && !r.rows[0].deleted
    ensures r.log == [Ended(Mark(0, Started, 0), true)]
  {
    assert BEGIN[..2][..1][..0] == [];
    assert BEGIN[..2][1] == BEGIN[1] && BEGIN[..2][..1][0] == BEGIN[0];
    assert Run(EMPTY, BEGIN[..2][..1]) == Next(EMPTY, BEGIN[0]);
    assert Run(EMPTY, BEGIN[..2]) == Next(Next(EMPTY, BEGIN[0]), BEGIN[1]);
    r := Run(EMPTY, BEGIN);
  }

  lemma RaceEnds(r: Races) returns (r': Races)
    requires r.calls == map[] && 0 in r.rows && r.rows[0].status == PROCESSING && !r.rows[0].deleted && |r.log| == 1
    ensures r' == Next(Next(Next(Next(r, RACE[0]), RACE[1]), RACE[2]), RACE[3])
    ensures r'.log == r.log + [Ended(Mark(0, Failed, 1), true), Ended(Mark(0, Processed, 1), true)]
  {
    var r1 := Next(r, RACE[0]);
    assert r1.calls == map[1 := Mark(0, Processed, 1)] && r1.rows == r.rows && r1.log == r.log;
    var r2 := Next(r1, RACE[1]);
    assert r2.calls == map[1 := Mark(0, Processed, 1), 2 := Mark(0, Failed, 1)] && r2.rows == r.rows && r2.log == r.log;
    r' := Next(Next(r2, RACE[2]), RACE[3]);
  }

  /** A cancel between the load and the save of a completion: both are committed, and the cancelled video is DONE. */
  lemma StaleSaveOverwrites()
    ensures var r := Run(EMPTY, BEGIN + RACE);
            && |r.log| == 3 && Committed(r.log[..2], 0) == FAILED && Committed(r.log, 0) == DONE
            && !Legal(r.log) && !Undisturbed(r.log)
  {
    var r0 := BeginRuns();
    var r4 := RaceEnds(r0);
    RaceIsRun();
    assert FallsUnder(r4.log, 2, 1);
    CommittedStep(r4.log, 1, 0);
    LegalIffUndisturbed(BEGIN + RACE);
  }

  lemma RaceIsRun()
    ensures Run(EMPTY, BEGIN + RACE) == Next(Next(Next(Next(Run(EMPTY, BEGIN), RACE[0]), RACE[1]), RACE[2]), RACE[3])
  {
    RunSnoc(BEGIN, RACE[0]);
    RunSnoc(BEGIN + [RACE[0]], RACE[1]);
    RunSnoc(BEGIN + [RACE[0]] + [RACE[1]], RACE[2]);
    RunSnoc(BEGIN + [RACE[0]] + [RACE[1]] + [RACE[2]], RACE[3]);
    assert BEGIN + RACE == BEGIN + [RACE[0]] + [RACE[1]] + [RACE[2]] + [RACE[3]];
  }
}
