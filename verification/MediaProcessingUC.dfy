/** The media_processing use cases, stores and entry points in their own order, and their place in the protocol. */
module MediaProcessingUC {
  import opened Wrappers
  import opened VideoAgg
  import opened Uploads
  import opened OutboxRelay
  import opened MediaProcessing

  datatype PortError = PortError

  /** A SAQ job carries its video and, as its function name, its kind. */
  datatype QueuedJob = QueuedJob(videoId: VideoId, kind: JobKind)

  // ---- stores ----

  datatype JoinEntry = JoinEntry(kinds: set<JobKind>, until: Instant)

  type Ttl = Positive

  /** What is left of a keyed store at an instant. */
  function LiveJoin(entries: map<VideoId, JoinEntry>, now: Instant): map<VideoId, set<JobKind>> {
    map v | v in entries && now < entries[v].until :: entries[v].kinds
  }

  function LiveMarks(marks: map<EventId, Instant>, now: Instant): set<EventId> {
    set e | e in marks && now < marks[e]
  }

  class ValkeyJoinStore {
    const ttl: Ttl
    var entries: map<VideoId, JoinEntry>

    constructor (ttl: Ttl)
      ensures this.ttl == ttl && entries == map[]
    {
      this.ttl := ttl;
      entries := map[];
    }

    function Join(now: Instant): map<VideoId, set<JobKind>>
      reads this
    {
      LiveJoin(entries, now)
    }

    /** SADD, EXPIRE, SCARD in one transaction: every add gives the whole set a new deadline. */
    method Add(v: VideoId, kind: JobKind, now: Instant, reply: Reply) returns (r: Result<nat, PortError>)
      modifies this
      ensures !reply.TookEffect() ==> entries == old(entries)
      ensures reply.TookEffect() ==> Join(now) == old(Join(now))[v := Kinds(old(Join(now)), v) + {kind}]
      ensures reply.TookEffect() ==> v in entries && entries[v].until == now + ttl
      ensures forall w | w != v :: w in entries <==> w in old(entries)
      ensures forall w | w != v && w in entries :: entries[w] == old(entries[w])
      ensures r == if reply.Raised() then Err(PortError) else Ok(|Kinds(Join(now), v)|)
    {
      if reply.TookEffect() {
        var kinds := Kinds(Join(now), v) + {kind};
        entries := entries[v := JoinEntry(kinds, now + ttl)];
      }
      r := if reply.Raised() then Err(PortError) else Ok(|Kinds(Join(now), v)|);
    }

    method Clear(v: VideoId, reply: Reply) returns (r: Result<(), PortError>)
      modifies this
      ensures entries == if reply.TookEffect() then old(entries) - {v} else old(entries)
      ensures r == if reply.Raised() then Err(PortError) else Ok(())
    {
      if reply.TookEffect() {
        entries := entries - {v};
      }
      r := if reply.Raised() then Err(PortError) else Ok(());
    }
  }

  class ValkeyInboxStore {
    const ttl: Ttl
    var marks: map<EventId, Instant>

    constructor (ttl: Ttl)
      ensures this.ttl == ttl && marks == map[]
    {
      this.ttl := ttl;
      marks := map[];
    }

    function Inbox(now: Instant): set<EventId>
      reads this
    {
      LiveMarks(marks, now)
    }

    method Seen(e: EventId, now: Instant, reply: Reply) returns (r: Result<bool, PortError>)
      ensures r == if reply.Raised() then Err(PortError) else Ok(e in Inbox(now))
    {
      r := if reply.Raised() then Err(PortError) else Ok(e in marks && now < marks[e]);
    }

    /** SET ... EX ttl NX: a live mark keeps the deadline of the call that set it. */
    method MarkProcessed(e: EventId, now: Instant, reply: Reply) returns (r: Result<(), PortError>)
      modifies this
      ensures Inbox(now) == if reply.TookEffect() then old(Inbox(now)) + {e} else old(Inbox(now))
      ensures forall x | x in old(Inbox(now)) :: x in marks && marks[x] == old(marks[x])
      ensures reply.TookEffect() && e !in old(Inbox(now)) ==> e in marks && marks[e] == now + ttl
      ensures r == if reply.Raised() then Err(PortError) else Ok(())
    {
      if reply.TookEffect() && !(e in marks && now < marks[e]) {
        marks := marks[e := now + ttl];
      }
      r := if reply.Raised() then Err(PortError) else Ok(());
    }
  }

  /** Time passing takes keys away and changes nothing else: it is a number of the protocol's expiry steps. */
  lemma TimeOnlyExpires(entries: map<VideoId, JoinEntry>, marks: map<EventId, Instant>, now: Instant, later: Instant)
    requires now <= later
    ensures exists gone: set<VideoId> :: LiveJoin(entries, later) == LiveJoin(entries, now) - gone
    ensures exists gone: set<EventId> :: LiveMarks(marks, later) == LiveMarks(marks, now) - gone
    ensures forall v :: v in LiveJoin(entries, later) <==> v in entries && later < entries[v].until
    ensures forall v | v in LiveJoin(entries, later) :: LiveJoin(entries, later)[v] == entries[v].kinds
    ensures forall e :: e in LiveMarks(marks, later) <==> e in marks && later < marks[e]
  {
    var goneJoin := set v | v in entries && entries[v].until <= later;
    assert LiveJoin(entries, later) == LiveJoin(entries, now) - goneJoin;
    var goneMarks := set e | e in marks && marks[e] <= later;
    assert LiveMarks(marks, later) == LiveMarks(marks, now) - goneMarks;
  }

  class ValkeyEventPublisher {
    var status: seq<StatusEvent>

    constructor ()
      ensures status == []
    {
      status := [];
    }

    method Publish(request: Request, v: VideoId, reply: Reply) returns (r: Result<(), PortError>)
      modifies this
      ensures status == if reply.TookEffect() then old(status) + [StatusEvent(request, v)] else old(status)
      ensures r == if reply.Raised() then Err(PortError) else Ok(())
    {
      if reply.TookEffect() {
        status := status + [StatusEvent(request, v)];
      }
      r := if reply.Raised() then Err(PortError) else Ok(());
    }
  }

  class SaqJobQueue {
    var queued: seq<QueuedJob>

    constructor ()
      ensures queued == []
    {
      queued := [];
    }

    method Enqueue(v: VideoId, kind: JobKind, reply: Reply) returns (r: Result<(), PortError>)
      modifies this
      ensures queued == if reply.TookEffect() then old(queued) + [QueuedJob(v, kind)] else old(queued)
      ensures r == if reply.Raised() then Err(PortError) else Ok(())
    {
      if reply.TookEffect() {
        queued := queued + [QueuedJob(v, kind)];
      }
      r := if reply.Raised() then Err(PortError) else Ok(());
    }
  }

  // ---- completing a job ----

  datatype CompleteReplies = CompleteReplies(add: Reply, publish: Reply, clear: Reply)

  /** What a call leaves in the join and on the stream, and whether it returned. */
  datatype Outcome = Outcome(join: map<VideoId, set<JobKind>>, status: seq<StatusEvent>, returned: bool)

  function Complete(
      join: map<VideoId, set<JobKind>>, status: seq<StatusEvent>, v: VideoId, kind: JobKind, rs: CompleteReplies)
    : Outcome {
    var added := join[v := Kinds(join, v) + {kind}];
    if rs.add.Raised() then Outcome(if rs.add.TookEffect() then added else join, status, false)
    else if added[v] != ALL_KINDS then Outcome(added, status, true)
    else
      var announced := status + [StatusEvent(Processed, v)];
      if rs.publish.Raised() then Outcome(added, if rs.publish.TookEffect() then announced else status, false)
      else Outcome(if rs.clear.TookEffect() then added - {v} else added, announced, !rs.clear.Raised())
  }

  class CompleteJobUC {
    const store: ValkeyJoinStore
    const publisher: ValkeyEventPublisher

    constructor (store: ValkeyJoinStore, publisher: ValkeyEventPublisher)
      ensures this.store == store && this.publisher == publisher
    {
      this.store, this.publisher := store, publisher;
    }

    method Call(v: VideoId, kind: JobKind, now: Instant, rs: CompleteReplies) returns (r: Result<(), PortError>)
      modifies store, publisher
      ensures Outcome(store.Join(now), publisher.status, r.Ok?)
              == Complete(old(store.Join(now)), old(publisher.status), v, kind, rs)
    {
      ghost var before := store.Join(now);
      var done := store.Add(v, kind, now, rs.add);
      if done.Err? {
        return Err(PortError);
      }
      FullIsAllKinds(Kinds(store.Join(now), v));
      if done.value >= FAN_OUT {
        var published := publisher.Publish(Processed, v, rs.publish);
        if published.Err? {
          return published;
        }
        ghost var full := store.Join(now);
        r := store.Clear(v, rs.clear);
        assert rs.clear.TookEffect() ==> store.Join(now) == full - {v};
        return;
      }
      r := Ok(());
    }
  }

  datatype FailedReplies = FailedReplies(publish: Reply, clear: Reply)

  class OnJobFailedUC {
    const store: ValkeyJoinStore
    const publisher: ValkeyEventPublisher

    constructor (store: ValkeyJoinStore, publisher: ValkeyEventPublisher)
      ensures this.store == store && this.publisher == publisher
    {
      this.store, this.publisher := store, publisher;
    }

    /** The clear does not depend on how the publish went. */
    method Call(v: VideoId, now: Instant, rs: FailedReplies) returns (r: Result<(), PortError>)
      modifies store, publisher
      ensures publisher.status == if rs.publish.TookEffect() then old(publisher.status) + [StatusEvent(Failed, v)]
              else old(publisher.status)
      ensures store.Join(now) == if rs.clear.TookEffect() then old(store.Join(now)) - {v} else old(store.Join(now))
      ensures r.Ok? <==> !rs.clear.Raised()
    {
      var _ := publisher.Publish(Failed, v, rs.publish);
      ghost var before := store.Join(now);
      r := store.Clear(v, rs.clear);
      assert rs.clear.TookEffect() ==> store.Join(now) == before - {v};
    }
  }

  /** The job functions and the hooks of the SAQ worker. */
  class SaqWorker {
    const retries: nat
    const completeJob: CompleteJobUC
    const onJobFailed: OnJobFailedUC

    constructor (retries: nat, completeJob: CompleteJobUC, onJobFailed: OnJobFailedUC)
      requires completeJob.store == onJobFailed.store && completeJob.publisher == onJobFailed.publisher
      ensures this.retries == retries && this.completeJob == completeJob && this.onJobFailed == onJobFailed
    {
      this.retries, this.completeJob, this.onJobFailed := retries, completeJob, onJobFailed;
    }

    /** stt, plagiarism, transcode: the join is touched only once the work is done. */
    method RunJob(v: VideoId, kind: JobKind, workOk: bool, now: Instant, rs: CompleteReplies) returns (raised: bool)
      modifies completeJob.store, completeJob.publisher
      ensures !workOk ==> raised && completeJob.store.entries == old(completeJob.store.entries)
                          && completeJob.publisher.status == old(completeJob.publisher.status)
      ensures workOk ==>
                Outcome(completeJob.store.Join(now), completeJob.publisher.status, !raised)
                == Complete(old(completeJob.store.Join(now)), old(completeJob.publisher.status), v, kind, rs)
    {
      if !workOk {
        return true;
      }
      var r := completeJob.Call(v, kind, now, rs);
      raised := r.Err?;
    }

    /** Only the last attempt's failure is terminal, and the hook itself never raises. */
    method AfterProcess(failed: bool, job: Option<Job>, now: Instant, rs: FailedReplies) returns (terminal: bool)
      modifies onJobFailed.store, onJobFailed.publisher
      ensures terminal <==> failed && job.Some? && job.value.attempts >= retries
      ensures !terminal ==> onJobFailed.store.entries == old(onJobFailed.store.entries)
                            && onJobFailed.publisher.status == old(onJobFailed.publisher.status)
      ensures terminal ==>
                var v := job.value.msg.videoId;
                && onJobFailed.publisher.status == old(onJobFailed.publisher.status)
                   + (if rs.publish.TookEffect() then [StatusEvent(Failed, v)] else [])
                && onJobFailed.store.Join(now) == if rs.clear.TookEffect() then old(onJobFailed.store.Join(now)) - {v}
                   else old(onJobFailed.store.Join(now))
    {
      if !failed {
        return false;
      }
      if job.None? || job.value.attempts < retries {
        return false;
      }
      var _ := onJobFailed.Call(job.value.msg.videoId, now, rs);
      terminal := true;
    }
  }

  // ---- handling an upload ----

  datatype HandleReplies = HandleReplies(seen: Reply, enqueue: seq<Reply>, started: Reply, mark: Reply) {
    predicate Valid() { |enqueue| == |KINDS| }
  }

  /** What a call leaves in the queue, on the stream and in the inbox, and whether it returned. */
  datatype Handled = Handled(queued: seq<QueuedJob>, status: seq<StatusEvent>, inbox: set<EventId>, returned: bool)

  /** The kinds enqueued from the n-th on, up to the first failure, and whether there was none. */
  function Enqueues(v: VideoId, replies: seq<Reply>, n: nat): (seq<QueuedJob>, bool)
    requires |replies| == |KINDS| && n <= |KINDS|
    decreases |KINDS| - n
  {
    if n == |KINDS| then ([], true)
    else
      var job := if replies[n].TookEffect() then [QueuedJob(v, KINDS[n])] else [];
      if replies[n].Raised() then (job, false)
      else
        var (rest, all) := Enqueues(v, replies, n + 1);
        (job + rest, all)
  }

  function Handle(
      queued: seq<QueuedJob>, status: seq<StatusEvent>, inbox: set<EventId>, m: UploadMsg, rs: HandleReplies): Handled
    requires rs.Valid()
  {
    if rs.seen.Raised() then Handled(queued, status, inbox, false)
    else if m.eventId in inbox then Handled(queued, status, inbox, true)
    else
      var (jobs, all) := Enqueues(m.videoId, rs.enqueue, 0);
      if !all then Handled(queued + jobs, status, inbox, false)
      else
        var status' := if rs.started.TookEffect() then status + [StatusEvent(Started, m.videoId)] else status;
        if rs.started.Raised() then Handled(queued + jobs, status', inbox, false)
        else
          var inbox' := if rs.mark.TookEffect() then inbox + {m.eventId} else inbox;
          Handled(queued + jobs, status', inbox', !rs.mark.Raised())
  }

  class OnVideoUploadedUC {
    const queue: SaqJobQueue
    const publisher: ValkeyEventPublisher
    const inbox: ValkeyInboxStore

    constructor (queue: SaqJobQueue, publisher: ValkeyEventPublisher, inbox: ValkeyInboxStore)
      ensures this.queue == queue && this.publisher == publisher && this.inbox == inbox
    {
      this.queue, this.publisher, this.inbox := queue, publisher, inbox;
    }

    method Call(m: UploadMsg, now: Instant, rs: HandleReplies) returns (r: Result<(), PortError>)
      requires rs.Valid()
      modifies queue, publisher, inbox
      ensures Handled(queue.queued, publisher.status, inbox.Inbox(now), r.Ok?)
              == Handle(old(queue.queued), old(publisher.status), old(inbox.Inbox(now)), m, rs)
    {
      var seen := inbox.Seen(m.eventId, now, rs.seen);
      if seen.Err? {
        return Err(PortError);
      }
      if seen.value {
        return Ok(());
      }
      ghost var all := Enqueues(m.videoId, rs.enqueue, 0);
      for i := 0 to |KINDS|
        invariant queue.queued + Enqueues(m.videoId, rs.enqueue, i).0 == old(queue.queued) + all.0
        invariant Enqueues(m.videoId, rs.enqueue, i).1 == all.1
        invariant publisher.status == old(publisher.status) && inbox.marks == old(inbox.marks)
      {
        var enqueued := queue.Enqueue(m.videoId, KINDS[i], rs.enqueue[i]);
        if enqueued.Err? {
          return enqueued;
        }
      }
      var started := publisher.Publish(Started, m.videoId, rs.started);
      if started.Err? {
        return started;
      }
      r := inbox.MarkProcessed(m.eventId, now, rs.mark);
    }
  }

  /** The subscriber of the video_uploaded stream; a payload that does not decode is None. */
  class UploadedConsumer {
    const useCase: OnVideoUploadedUC
    var acked: set<nat>

    constructor (useCase: OnVideoUploadedUC)
      ensures this.useCase == useCase && acked == {}
    {
      this.useCase := useCase;
      acked := {};
    }

    method OnVideoUploaded(
        entry: nat, payload: Option<UploadMsg>, now: Instant, rs: HandleReplies, ack: Reply)
      returns (r: Result<(), PortError>)
      requires rs.Valid()
      modifies this`acked, useCase.queue, useCase.publisher, useCase.inbox
      ensures payload.None? ==>
                && Handled(useCase.queue.queued, useCase.publisher.status, useCase.inbox.Inbox(now), true)
                   == old(Handled(useCase.queue.queued, useCase.publisher.status, useCase.inbox.Inbox(now), true))
                && acked == (if ack.TookEffect() then old(acked) + {entry} else old(acked))
                && (r.Ok? <==> !ack.Raised())
      ensures payload.Some? ==>
                var h := Handle(old(useCase.queue.queued), old(useCase.publisher.status), old(useCase.inbox.Inbox(now)),
                    payload.value, rs);
                && useCase.queue.queued == h.queued && useCase.publisher.status == h.status
                && useCase.inbox.Inbox(now) == h.inbox
                && acked == (if h.returned && ack.TookEffect() then old(acked) + {entry} else old(acked))
                && (r.Ok? <==> h.returned && !ack.Raised())
    {
      if payload.Some? {
        var handled := useCase.Call(payload.value, now, rs);
        if handled.Err? {
          return handled;
        }
      }
      if ack.TookEffect() {
        acked := acked + {entry};
      }
      r := if ack.Raised() then Err(PortError) else Ok(());
    }
  }

  // ---- what the calls promise ----

  lemma {:induction false} EnqueuesAll(v: VideoId, replies: seq<Reply>, n: nat)
    requires |replies| == |KINDS| && n <= |KINDS|
    ensures var (jobs, all) := Enqueues(v, replies, n);
            && (all <==> forall i | n <= i < |KINDS| :: !replies[i].Raised())
            && (all ==> jobs == seq(|KINDS| - n, i requires 0 <= i < |KINDS| - n => QueuedJob(v, KINDS[n + i])))
            && (forall q | q in jobs :: q.videoId == v)
    decreases |KINDS| - n
  {
    if n < |KINDS| {
      EnqueuesAll(v, replies, n + 1);
    }
  }

  /** A call that returns without having seen the event has queued each kind once, announced the start once and
      left the mark; a call that raises leaves no new mark unless only the mark's own reply was lost. */
  lemma ReturnedMeansFannedOut(
      queued: seq<QueuedJob>, status: seq<StatusEvent>, inbox: set<EventId>, m: UploadMsg, rs: HandleReplies)
    requires rs.Valid()
    ensures var h := Handle(queued, status, inbox, m, rs);
            && (h.returned ==> m.eventId in h.inbox)
            && (h.inbox != inbox ==>
                  && m.eventId !in inbox && h.inbox == inbox + {m.eventId}
                  && h.queued == queued + [QueuedJob(m.videoId, TRANSCODE), QueuedJob(m.videoId, PLAGIARISM),
                     QueuedJob(m.videoId, STT)]
                  && h.status == status + [StatusEvent(Started, m.videoId)])
            && (m.eventId in inbox ==> h.queued == queued && h.status == status && h.inbox == inbox)
  {
    EnqueuesAll(m.videoId, rs.enqueue, 0);
    if Enqueues(m.videoId, rs.enqueue, 0).1 {
      assert Enqueues(m.videoId, rs.enqueue, 0).0
          == [QueuedJob(m.videoId, TRANSCODE), QueuedJob(m.videoId, PLAGIARISM), QueuedJob(m.videoId, STT)];
    }
  }

  /** How a completion ends, whatever fails: the kind is added to those of the video; the add that finds all three, and
      no other, announces the video once and then forgets it; other videos are not touched. */
  lemma CompleteInWords(
      join: map<VideoId, set<JobKind>>, status: seq<StatusEvent>, v: VideoId, kind: JobKind, rs: CompleteReplies)
    ensures var done := (if v in join then join[v] else {}) + {kind};
            var full := TRANSCODE in done && PLAGIARISM in done && STT in done;
            var o := Complete(join, status, v, kind, rs);
            && o.join - {v} == join - {v}
            && (rs.add == Refused ==> o.join == join)
            && (rs.add != Refused ==>
                  if full && rs.add == Reply.Done && rs.publish == Reply.Done && rs.clear != Refused then v !in o.join
                  else v in o.join && o.join[v] == done)
            && o.status == (if full && rs.add == Reply.Done && rs.publish != Refused
                            then status + [StatusEvent(Processed, v)] else status)
            && (o.returned <==>
                  rs.add == Reply.Done && (full ==> rs.publish == Reply.Done && rs.clear == Reply.Done))
  {
    assert (if v in join then join[v] else {}) == Kinds(join, v);
    AllKindsInWords(Kinds(join, v) + {kind});
  }

  lemma AllKindsInWords(kinds: set<JobKind>)
    ensures kinds == ALL_KINDS <==> TRANSCODE in kinds && PLAGIARISM in kinds && STT in kinds
  {
    if TRANSCODE in kinds && PLAGIARISM in kinds && STT in kinds {
      forall k: JobKind
        ensures k in kinds <==> k in ALL_KINDS
      {
        match k {
          case TRANSCODE =>
          case PLAGIARISM =>
          case STT =>
        }
      }
    }
  }

  const NO_FAULT := CompleteReplies(Reply.Done, Reply.Done, Reply.Done)

  /** The three jobs of a video complete without a fault, in any order: the last one announces it, and nothing is
      left. */
  lemma ThreeCompletionsAnnounce(
      join: map<VideoId, set<JobKind>>, status: seq<StatusEvent>, v: VideoId, a: JobKind, b: JobKind, c: JobKind)
    requires v !in join && a != b && b != c && a != c
    ensures var first := Complete(join, status, v, a, NO_FAULT);
            var second := Complete(first.join, first.status, v, b, NO_FAULT);
            var third := Complete(second.join, second.status, v, c, NO_FAULT);
            && first.returned && second.returned && third.returned
            && first.status == status && second.status == status
            && third.status == status + [StatusEvent(Processed, v)] && third.join == join
  {
    var first := Complete(join, status, v, a, NO_FAULT);
    CompleteInWords(join, status, v, a, NO_FAULT);
    var second := Complete(first.join, first.status, v, b, NO_FAULT);
    CompleteInWords(first.join, first.status, v, b, NO_FAULT);
    CompleteInWords(second.join, second.status, v, c, NO_FAULT);
    var third := Complete(second.join, second.status, v, c, NO_FAULT);
    assert third.join == third.join - {v} == join - {v} == join;
  }

  /** The jobs of one video, in the order in which they are queued. */
  function FanOut(v: VideoId): seq<QueuedJob> {
    [QueuedJob(v, TRANSCODE), QueuedJob(v, PLAGIARISM), QueuedJob(v, STT)]
  }

  predicate DoneBefore(replies: seq<Reply>, n: nat)
    requires n <= |replies|
  {
    forall i | 0 <= i < n :: replies[i] == Reply.Done
  }

  /** Some first ones of them are queued: job i when all before it were answered and its own call took effect. */
  lemma {:induction false} EnqueuesPrefix(v: VideoId, replies: seq<Reply>, n: nat)
    requires |replies| == |KINDS| && n <= |KINDS|
    ensures var (jobs, all) := Enqueues(v, replies, n);
            && jobs <= FanOut(v)[n..]
            && (all <==> forall i | n <= i < |KINDS| :: replies[i] == Reply.Done)
            && forall i | n <= i < |KINDS| ::
                 i < n + |jobs| <==> replies[i] != Refused && forall k | n <= k < i :: replies[k] == Reply.Done
    decreases |KINDS| - n
  {
    if n < |KINDS| {
      EnqueuesPrefix(v, replies, n + 1);
      assert FanOut(v)[n..] == [QueuedJob(v, KINDS[n])] + FanOut(v)[n + 1..];
    }
  }

  /** How a delivery ends, whatever fails: an event that was seen changes nothing; otherwise the jobs are queued in
      order up to the first failure, and only when all are is the start announced and then the event marked. */
  lemma HandleInWords(
      queued: seq<QueuedJob>, status: seq<StatusEvent>, inbox: set<EventId>, m: UploadMsg, rs: HandleReplies)
    requires rs.Valid()
    ensures var h := Handle(queued, status, inbox, m, rs);
            var unseen := rs.seen == Reply.Done && m.eventId !in inbox;
            var allQueued := unseen && DoneBefore(rs.enqueue, |KINDS|);
            && queued <= h.queued && h.queued[|queued|..] <= FanOut(m.videoId)
            && (forall i | 0 <= i < |KINDS| ::
                  i < |h.queued| - |queued| <==> unseen && DoneBefore(rs.enqueue, i) && rs.enqueue[i] != Refused)
            && h.status == (if allQueued && rs.started != Refused then status + [StatusEvent(Started, m.videoId)]
                            else status)
            && h.inbox == (if allQueued && rs.started == Reply.Done && rs.mark != Refused then inbox + {m.eventId}
                           else inbox)
            && (h.returned <==>
                  || (rs.seen == Reply.Done && m.eventId in inbox)
                  || (allQueued && rs.started == Reply.Done && rs.mark == Reply.Done))
  {
    EnqueuesPrefix(m.videoId, rs.enqueue, 0);
    var jobs := Enqueues(m.videoId, rs.enqueue, 0).0;
    assert FanOut(m.videoId)[0..] == FanOut(m.videoId);
    assert (queued + jobs)[|queued|..] == jobs;
    assert queued[|queued|..] == [];
  }

  // ---- one call in the protocol ----

  lemma AddEffect(s: Service, j: JobId, reply: Reply)
    requires j in s.jobs && s.jobs[j].phase == JobPhase.Adding
    ensures var s', x := AddOne(s, j, reply), s.jobs[j];
            var added := s.join[x.msg.videoId := Kinds(s.join, x.msg.videoId) + {x.kind}];
            && j in s'.jobs && s'.jobs[j].msg == x.msg && s'.status == s.status
            && s'.join == (if reply.TookEffect() then added else s.join)
            && s'.jobs[j].phase == AfterAdd(added[x.msg.videoId] == ALL_KINDS, reply)
  {
    FullIsAllKinds(Kinds(s.join, s.jobs[j].msg.videoId) + {s.jobs[j].kind});
  }

  lemma PublishEffect(s: Service, j: JobId, reply: Reply)
    requires j in s.jobs
    ensures var s', x := PublishOne(s, j, reply), s.jobs[j];
            && j in s'.jobs && s'.jobs[j].msg == x.msg && s'.join == s.join
            && (x.phase != Publishing ==> s' == s)
            && (x.phase == Publishing ==>
                  && s'.status == (if reply.TookEffect() then s.status + [StatusEvent(Processed, x.msg.videoId)]
                     else s.status)
                  && s'.jobs[j].phase == if reply.Raised() then RaisedError else Clearing)
  {
  }

  lemma ClearEffect(s: Service, j: JobId, reply: Reply)
    requires j in s.jobs
    ensures var s', x := ClearOne(s, j, reply), s.jobs[j];
            && j in s'.jobs && s'.status == s.status
            && (x.phase != Clearing ==> s' == s)
            && (x.phase == Clearing ==>
                  && s'.join == (if reply.TookEffect() then s.join - {x.msg.videoId} else s.join)
                  && s'.jobs[j].phase == if reply.Raised() then RaisedError else Finished)
  {
  }

  /** The awaits of a completion, uninterrupted, are CompleteJobUC; those it does not reach are no steps. */
  lemma CompleteIsSteps(s: Service, j: JobId, rs: CompleteReplies)
    requires j in s.jobs && s.jobs[j].phase == JobPhase.Adding
    ensures var s1 := AddOne(s, j, rs.add);
            var s2 := PublishOne(s1, j, rs.publish);
            var s3 := ClearOne(s2, j, rs.clear);
            && Outcome(s3.join, s3.status, s3.jobs[j].phase.Finished?)
               == Complete(s.join, s.status, s.jobs[j].msg.videoId, s.jobs[j].kind, rs)
            && (!s3.jobs[j].phase.Finished? ==> s3.jobs[j].phase == RaisedError)
  {
    var s1 := AddOne(s, j, rs.add);
    AddEffect(s, j, rs.add);
    PublishEffect(s1, j, rs.publish);
    ClearEffect(PublishOne(s1, j, rs.publish), j, rs.clear);
  }

  /** The awaits of the terminal hook, uninterrupted, are OnJobFailedUC. */
  lemma JobFailedIsSteps(s: Service, j: JobId, rs: FailedReplies)
    requires j in s.jobs && s.jobs[j].phase == FailPublishing
    ensures var s2 := ClearDead(FailOne(s, j, rs.publish), j, rs.clear);
            var v := s.jobs[j].msg.videoId;
            && s2.status == (if rs.publish.TookEffect() then s.status + [StatusEvent(Failed, v)] else s.status)
            && s2.join == (if rs.clear.TookEffect() then s.join - {v} else s.join)
            && j in s2.jobs && s2.jobs[j].phase == Dead(rs.clear.TookEffect())
  {
    var s1 := FailOne(s, j, rs.publish);
    assert s1.jobs[j].phase == FailClearing && s1.join == s.join;
  }

  /** The jobs a handler has queued so far. */
  predicate QueuedSoFar(s: Service, s': Service, m: UploadMsg, ids: seq<JobId>, n: nat)
    requires |ids| == |KINDS| && n <= |KINDS|
  {
    && (forall j | j in s.jobs :: j in s'.jobs && s'.jobs[j] == s.jobs[j])
    && (forall i | 0 <= i < n :: ids[i] in s'.jobs && s'.jobs[ids[i]] == Job(m, KINDS[i], 0, Queued, false))
    && (forall j | j in s'.jobs :: j in s.jobs || j in ids[..n])
  }

  /** The enqueues of a handler from the n-th on. */
  function EnqueueSteps(s: Service, h: HandlerId, ids: seq<JobId>, replies: seq<Reply>, n: nat): Service
    requires |ids| == |KINDS| == |replies| && n <= |KINDS|
    decreases |KINDS| - n
  {
    if n == |KINDS| then s else EnqueueSteps(HandlerNext([], s, Enqueue(h, ids[n], replies[n])), h, ids, replies, n + 1)
  }

  lemma {:induction false} AbsentHandler(s: Service, h: HandlerId, ids: seq<JobId>, replies: seq<Reply>, n: nat)
    requires |ids| == |KINDS| == |replies| && n <= |KINDS| && h !in s.handlers
    ensures EnqueueSteps(s, h, ids, replies, n) == s
    decreases |KINDS| - n
  {
    if n < |KINDS| {
      AbsentHandler(s, h, ids, replies, n + 1);
    }
  }

  /** Where one enqueue leaves a handler. */
  predicate Enqueued(
      s0: Service, s: Service, s': Service, h: HandlerId, m: UploadMsg, ids: seq<JobId>, reply: Reply, n: nat)
    requires |ids| == |KINDS| && n < |KINDS|
  {
    && s'.status == s.status && s'.inbox == s.inbox
    && (reply.Raised() ==> h !in s'.handlers)
    && (!reply.Raised() ==> h in s'.handlers && s'.handlers[h] == Handler(s'.handlers[h].entry, m, NextToEnqueue(n)))
    && QueuedSoFar(s0, s', m, ids, if reply.TookEffect() then n + 1 else n)
  }

  lemma OneEnqueue(s0: Service, s: Service, h: HandlerId, m: UploadMsg, ids: seq<JobId>, reply: Reply, n: nat)
    requires |ids| == |KINDS| && n < |KINDS| && Distinct(ids) && QueuedSoFar(s0, s, m, ids, n)
    requires h in s.handlers && s.handlers[h].msg == m && s.handlers[h].phase == Enqueuing(n) && ids[n] !in s0.jobs
    ensures Enqueued(s0, s, HandlerNext([], s, Enqueue(h, ids[n], reply)), h, m, ids, reply, n)
  {
    assert ids[n] !in ids[..n];
    assert ids[..n + 1] == ids[..n] + [ids[n]];
  }

  /** They queue what Enqueues says, in the order of KINDS, and end the handler at the first failure. */
  predicate EnqueuedAll(
      s0: Service, s: Service, s': Service, h: HandlerId, m: UploadMsg, ids: seq<JobId>, replies: seq<Reply>, n: nat)
    requires |ids| == |KINDS| == |replies| && n <= |KINDS|
  {
    var (jobs, all) := Enqueues(m.videoId, replies, n);
    && n + |jobs| <= |KINDS| && QueuedSoFar(s0, s', m, ids, n + |jobs|)
    && s'.status == s.status && s'.inbox == s.inbox
    && (all ==> h in s'.handlers && s'.handlers[h] == Handler(s'.handlers[h].entry, m, Starting))
    && (!all ==> h !in s'.handlers)
  }

  lemma {:induction false} EnqueuesAreSteps(
      s0: Service, s: Service, h: HandlerId, m: UploadMsg, ids: seq<JobId>, replies: seq<Reply>, n: nat)
    requires |ids| == |KINDS| == |replies| && n <= |KINDS| && Distinct(ids) && QueuedSoFar(s0, s, m, ids, n)
    requires forall i | 0 <= i < |ids| :: ids[i] !in s0.jobs
    requires h in s.handlers && s.handlers[h].msg == m && s.handlers[h].phase == if n < |KINDS| then Enqueuing(n)
             else Starting
    ensures EnqueuedAll(s0, s, EnqueueSteps(s, h, ids, replies, n), h, m, ids, replies, n)
    decreases |KINDS| - n, 1
  {
    if n < |KINDS| {
      var s1 := HandlerNext([], s, Enqueue(h, ids[n], replies[n]));
      OneEnqueue(s0, s, h, m, ids, replies[n], n);
      EnqueuesGoOn(s0, s, s1, h, m, ids, replies, n);
    }
  }

  lemma {:induction false} EnqueuesGoOn(
      s0: Service, s: Service, s1: Service, h: HandlerId, m: UploadMsg, ids: seq<JobId>, replies: seq<Reply>, n: nat)
    requires |ids| == |KINDS| == |replies| && n < |KINDS| && Distinct(ids) && forall i | 0 <= i < |ids| ::
             ids[i] !in s0.jobs
    requires Enqueued(s0, s, s1, h, m, ids, replies[n], n)
    ensures EnqueuedAll(s0, s, EnqueueSteps(s1, h, ids, replies, n + 1), h, m, ids, replies, n)
    decreases |KINDS| - n, 0
  {
    if replies[n].Raised() {
      AbsentHandler(s1, h, ids, replies, n + 1);
      EnqueuesStop(s0, s, s1, h, m, ids, replies, n);
    } else {
      EnqueuesAreSteps(s0, s1, h, m, ids, replies, n + 1);
      EnqueuesContinue(s0, s, s1, EnqueueSteps(s1, h, ids, replies, n + 1), h, m, ids, replies, n);
    }
  }

  lemma EnqueuesStop(
      s0: Service, s: Service, s1: Service, h: HandlerId, m: UploadMsg, ids: seq<JobId>, replies: seq<Reply>, n: nat)
    requires |ids| == |KINDS| == |replies| && n < |KINDS| && replies[n].Raised()
    requires Enqueued(s0, s, s1, h, m, ids, replies[n], n)
    ensures EnqueuedAll(s0, s, s1, h, m, ids, replies, n)
  {
  }

  lemma EnqueuesContinue(
      s0: Service, s: Service, s1: Service, s': Service,
      h: HandlerId, m: UploadMsg, ids: seq<JobId>, replies: seq<Reply>, n: nat)
    requires |ids| == |KINDS| == |replies| && n < |KINDS| && !replies[n].Raised()
    requires Enqueued(s0, s, s1, h, m, ids, replies[n], n) && EnqueuedAll(s0, s1, s', h, m, ids, replies, n + 1)
    ensures EnqueuedAll(s0, s, s', h, m, ids, replies, n)
  {
    var (jobs, _) := Enqueues(m.videoId, replies, n);
    var (rest, _) := Enqueues(m.videoId, replies, n + 1);
    assert |jobs| == 1 + |rest|;
  }

  /** The awaits of a handler after its enqueues. */
  function EndSteps(s: Service, h: HandlerId, rs: HandleReplies): Service {
    HandlerNext([], HandlerNext([], s, PublishStarted(h, rs.started)), MarkInbox(h, rs.mark))
  }

  lemma StartedEffect(s: Service, h: HandlerId, reply: Reply)
    requires h in s.handlers && s.handlers[h].phase == Starting
    ensures var s', m := HandlerNext([], s, PublishStarted(h, reply)), s.handlers[h].msg;
            && s'.jobs == s.jobs && s'.inbox == s.inbox
            && s'.status == (if reply.TookEffect() then s.status + [StatusEvent(Started, m.videoId)] else s.status)
            && (h in s'.handlers <==> !reply.Raised())
            && (h in s'.handlers ==> s'.handlers[h] == s.handlers[h].(phase := Marking))
  {
  }

  lemma MarkEffect(s: Service, h: HandlerId, reply: Reply)
    requires h in s.handlers ==> s.handlers[h].phase == Marking
    ensures var s' := HandlerNext([], s, MarkInbox(h, reply));
            && s'.jobs == s.jobs && s'.status == s.status
            && (h !in s.handlers ==> s' == s)
            && (h in s.handlers ==>
                  && s'.inbox == (if reply.TookEffect() then s.inbox + {s.handlers[h].msg.eventId} else s.inbox)
                  && (h in s'.handlers <==> !reply.Raised())
                  && (h in s'.handlers ==> s'.handlers[h].phase == Acking))
  {
  }

  lemma EndEffect(s: Service, h: HandlerId, rs: HandleReplies)
    requires h in s.handlers && s.handlers[h].phase == Starting
    ensures var s', m := EndSteps(s, h, rs), s.handlers[h].msg;
            && s'.jobs == s.jobs
            && s'.status == (if rs.started.TookEffect() then s.status + [StatusEvent(Started, m.videoId)] else s.status)
            && s'.inbox == (if !rs.started.Raised() && rs.mark.TookEffect() then s.inbox + {m.eventId} else s.inbox)
            && (h in s'.handlers <==> !rs.started.Raised() && !rs.mark.Raised())
            && (h in s'.handlers ==> s'.handlers[h].phase == Acking)
  {
    StartedEffect(s, h, rs.started);
    MarkEffect(HandlerNext([], s, PublishStarted(h, rs.started)), h, rs.mark);
  }

  lemma NoEnd(s: Service, h: HandlerId, rs: HandleReplies)
    requires h in s.handlers ==> s.handlers[h].phase == Acking
    ensures EndSteps(s, h, rs) == s
  {
  }

  /** Uninterrupted, the steps of a handler are OnVideoUploadedUC: the same jobs, events and marks, and it
      goes on to acknowledge exactly when the call returned. */
  lemma HandleIsSteps(s: Service, h: HandlerId, ids: seq<JobId>, rs: HandleReplies)
    requires rs.Valid() && |ids| == |KINDS| && Distinct(ids) && forall i | 0 <= i < |ids| :: ids[i] !in s.jobs
    requires h in s.handlers && s.handlers[h].phase == Checking
    ensures var m := s.handlers[h].msg;
            var s1 := HandlerNext([], s, CheckInbox(h, rs.seen));
            var s2 := EnqueueSteps(s1, h, ids, rs.enqueue, 0);
            var s3 := EndSteps(s2, h, rs);
            var handled := Handle([], s.status, s.inbox, m, rs);
            && s3.status == handled.status && s3.inbox == handled.inbox
            && |handled.queued| <= |KINDS| && QueuedSoFar(s, s3, m, ids, |handled.queued|)
            && (h in s3.handlers <==> handled.returned)
            && (h in s3.handlers ==> s3.handlers[h].phase == Acking)
  {
    var m := s.handlers[h].msg;
    var s1 := HandlerNext([], s, CheckInbox(h, rs.seen));
    CheckEffect(s, h, rs.seen);
    var s2 := EnqueueSteps(s1, h, ids, rs.enqueue, 0);
    if rs.seen.Raised() {
      AbsentHandler(s1, h, ids, rs.enqueue, 0);
      NoEnd(s2, h, rs);
    } else if m.eventId in s.inbox {
      AckingQueuesNothing(s1, h, ids, rs.enqueue, 0);
      NoEnd(s2, h, rs);
    } else {
      assert QueuedSoFar(s, s1, m, ids, 0);
      EnqueuesAreSteps(s, s1, h, m, ids, rs.enqueue, 0);
      if Enqueues(m.videoId, rs.enqueue, 0).1 {
        EndEffect(s2, h, rs);
      } else {
        NoEnd(s2, h, rs);
      }
    }
  }

  lemma CheckEffect(s: Service, h: HandlerId, reply: Reply)
    requires h in s.handlers && s.handlers[h].phase == Checking
    ensures var s' := HandlerNext([], s, CheckInbox(h, reply));
            && s'.jobs == s.jobs && s'.status == s.status && s'.inbox == s.inbox
            && (h in s'.handlers <==> !reply.Raised())
            && (h in s'.handlers ==>
                  s'.handlers[h] == s.handlers[h].(phase :=
                      if s.handlers[h].msg.eventId in s.inbox then Acking else Enqueuing(0)))
  {
  }

  lemma {:induction false} AckingQueuesNothing(s: Service, h: HandlerId, ids: seq<JobId>, replies: seq<Reply>, n: nat)
    requires |ids| == |KINDS| == |replies| && n <= |KINDS| && h in s.handlers && s.handlers[h].phase == Acking
    ensures EnqueueSteps(s, h, ids, replies, n) == s
    decreases |KINDS| - n
  {
    if n < |KINDS| {
      AckingQueuesNothing(s, h, ids, replies, n + 1);
    }
  }
}
