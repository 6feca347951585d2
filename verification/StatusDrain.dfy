/** VideoStatusConsumer and the Mark*UC use cases in their own order, and their place in the protocol. */
module StatusDrain {
  import opened Wrappers
  import opened VideoAgg
  import opened VideoTable
  import opened OutboxRelay
  import opened MediaProcessing
  import opened StatusConsumer

  datatype MarkError = VideoNotFound | Invalid(error: DomainError) | Unavailable

  datatype ValkeyError = Unreachable | NoGroup

  datatype MarkReplies = MarkReplies(load: Reply, save: Reply, feed: Reply)

  /** The pending list and the acknowledgements of the group, as Valkey keeps them. */
  class ConsumerGroup {
    var present: bool
    var stream: seq<Entry>
    var delivered: nat
    var pending: map<EntryId, ConsumerId>
    var acked: set<EntryId>

    constructor ()
      ensures Valid() && !present && stream == []
    {
      present, stream, delivered, pending, acked := false, [], 0, map[], {};
    }

    /** Every entry is undelivered, pending with one consumer, or acknowledged; a missing group delivered nothing. */
    predicate Valid()
      reads this
    {
      && delivered <= |stream| && (!present ==> delivered == 0)
      && (forall i | i in pending :: i < delivered && i !in acked)
      && (forall i | i in acked :: i < delivered)
      && (forall i | 0 <= i < delivered :: i in pending || i in acked)
    }

    /** ensure_group: XGROUP CREATE from id 0, tolerating BUSYGROUP. */
    method EnsureGroup(reply: Reply) returns (r: Result<(), ValkeyError>)
      requires Valid()
      modifies this`present
      ensures Valid()
      ensures present == (old(present) || reply.TookEffect())
      ensures r == if reply.Raised() then Err(Unreachable) else Ok(())
    {
      present := present || reply.TookEffect();
      r := if reply.Raised() then Err(Unreachable) else Ok(());
    }

    /** How many entries a read of this many would deliver. */
    function Available(count: nat): nat
      requires delivered <= |stream|
      reads this`stream, this`delivered
    {
      if |stream| - delivered < count then |stream| - delivered else count
    }

    /** XREADGROUP >: the next entries, in stream order. */
    method ReadNew(c: ConsumerId, count: nat, reply: Reply) returns (r: Result<seq<EntryId>, ValkeyError>)
      requires Valid()
      modifies this`delivered, this`pending
      ensures Valid()
      ensures !reply.Raised() && !present ==> r == Err(NoGroup)
      ensures reply.Raised() ==> r == Err(Unreachable)
      ensures !present || !reply.TookEffect() ==> delivered == old(delivered) && pending == old(pending)
      ensures present && reply.TookEffect() ==>
                var n := old(Available(count));
                && delivered == old(delivered) + n && pending == Assign(old(pending), Range(old(delivered), n), c)
                && (!reply.Raised() ==> r == Ok(Range(old(delivered), n)))
      ensures present && !reply.Raised() ==>
                && r.Ok? && |r.value| <= count && delivered == old(delivered) + |r.value| <= |stream|
                && (|r.value| < count ==> delivered == |stream|)
                && (forall k | 0 <= k < |r.value| :: r.value[k] == old(delivered) + k && pending[r.value[k]] == c)
    {
      if !present {
        return Err(if reply.Raised() then Unreachable else NoGroup);
      }
      var n := Available(count);
      var ids := Range(delivered, n);
      RangeIs(delivered, n);
      AssignInWords(pending, ids, c);
      if reply.TookEffect() {
        pending := Assign(pending, ids, c);
        delivered := delivered + n;
      }
      r := if reply.Raised() then Err(Unreachable) else Ok(ids);
    }

    /** The pending entries that have idled for long enough, oldest first, up to a count. */
    predicate OldestIdle(ids: seq<EntryId>, idle: set<EntryId>, count: nat)
      reads this
    {
      && |ids| <= count && Distinct(ids) && (forall i | i in ids :: i in idle && i in pending)
      && (forall i | i in idle && i in pending && i !in ids :: |ids| == count && forall j | j in ids :: j < i)
    }

    /** XAUTOCLAIM from 0-0. */
    method AutoClaim(
        c: ConsumerId, idle: set<EntryId>, count: nat, reply: Reply) returns (r: Result<seq<EntryId>, ValkeyError>)
      requires Valid()
      modifies this`pending
      ensures Valid() && pending.Keys == old(pending.Keys)
      ensures reply.Raised() ==> r == Err(Unreachable)
      ensures !reply.Raised() && !present ==> r == Err(NoGroup)
      ensures !reply.Raised() && present ==>
                r.Ok? && old(OldestIdle(r.value, idle, count)) && pending == Assign(old(pending), r.value, c)
      ensures !present || !reply.TookEffect() ==> pending == old(pending)
    {
      if !present {
        return Err(if reply.Raised() then Unreachable else NoGroup);
      }
      var ids: seq<EntryId> := [];
      var at := 0;
      while at < delivered && |ids| < count
        invariant at <= delivered && |ids| <= count && Distinct(ids)
        invariant forall i | i in ids :: i < at && i in idle && i in pending
        invariant forall i | 0 <= i < at && i in idle && i in pending :: i in ids
      {
        if at in idle && at in pending {
          ids := ids + [at];
        }
        at := at + 1;
      }
      if reply.TookEffect() {
        pending := Assign(pending, ids, c);
        assert pending.Keys == old(pending.Keys);
      }
      r := if reply.Raised() then Err(Unreachable) else Ok(ids);
    }

    method Ack(i: EntryId, reply: Reply) returns (r: Result<(), ValkeyError>)
      requires Valid() && i < delivered
      modifies this`pending, this`acked
      ensures Valid()
      ensures reply.TookEffect() ==> pending == old(pending) - {i} && acked == old(acked) + {i}
      ensures !reply.TookEffect() ==> pending == old(pending) && acked == old(acked)
      ensures r == if reply.Raised() then Err(Unreachable) else Ok(())
    {
      if reply.TookEffect() {
        pending := pending - {i};
        acked := acked + {i};
      }
      r := if reply.Raised() then Err(Unreachable) else Ok(());
    }
  }

  datatype FeedEvent = FeedEvent(videoId: VideoId, status: VideoStatus)

  class FeedPublisher {
    var published: seq<FeedEvent>

    constructor ()
      ensures published == []
    {
      published := [];
    }

    /** Never raises. */
    method Publish(e: FeedEvent, reply: Reply)
      modifies this
      ensures published == if reply.TookEffect() then old(published) + [e] else old(published)
    {
      if reply.TookEffect() {
        published := published + [e];
      }
    }
  }

  /** What one Mark*UC call comes to: the rows, the feed and the error, if any. */
  function MarkOnce(
      rows: Rows, feed: seq<FeedEvent>, v: VideoId, r: Request, rs: MarkReplies)
    : (Rows, seq<FeedEvent>, Result<(), MarkError>) {
    if rs.load.Raised() then (rows, feed, Err(Unavailable))
    else if !Live(rows, v) then (rows, feed, Err(VideoNotFound))
    else if Target(r) !in Allowed(rows[v].status) then
        (rows, feed, Err(Invalid(InvalidTransition(rows[v].status, Target(r)))))
    else if rs.save.Raised() then (if rs.save.TookEffect() then Marked(rows, v, r) else rows, feed, Err(Unavailable))
    else (Marked(rows, v, r), if rs.feed.TookEffect() then feed + [FeedEvent(v, Target(r))] else feed, Ok(()))
  }

  /** The row of one video has this status, and nothing else in the table is different. */
  predicate OnlyStatusMoved(rows: Rows, rows': Rows, v: VideoId, status: VideoStatus) {
    v in rows && v in rows' && rows'[v] == rows[v].(status := status) && rows' - {v} == rows - {v}
  }

  /** What a mark answers once its load is answered: a video that is not there or is deleted is not found, a move that
      its status does not allow is refused with both statuses, and only the save can make any other mark fail. */
  predicate MarkAnswers(rows: Rows, v: VideoId, r: Request, save: Reply, answer: Result<(), MarkError>) {
    if v !in rows || rows[v].deleted then answer == Err(VideoNotFound)
    else if Target(r) !in Allowed(rows[v].status) then
      answer == Err(Invalid(InvalidTransition(rows[v].status, Target(r))))
    else answer == if save.Raised() then Err(Unavailable) else Ok(())
  }

  /** What it does: the row takes the status that was asked for, or nothing happens; a success is broadcast. */
  predicate MarkEffects(
      rows: Rows, rows': Rows, feed: seq<FeedEvent>, feed': seq<FeedEvent>, v: VideoId, r: Request, rs: MarkReplies,
      answer: Result<(), MarkError>) {
    && (answer == Ok(()) ==>
          && OnlyStatusMoved(rows, rows', v, Target(r))
          && feed' == if rs.feed.TookEffect() then feed + [FeedEvent(v, Target(r))] else feed)
    && (answer != Ok(()) ==> feed' == feed)
    && (answer.Err? && answer.error != Unavailable ==> rows' == rows)
    && (answer == Err(Unavailable) ==>
          if rs.load.Raised() || !rs.save.TookEffect() then rows' == rows
          else OnlyStatusMoved(rows, rows', v, Target(r)))
  }

  lemma MarkInWords(rows: Rows, feed: seq<FeedEvent>, v: VideoId, r: Request, rs: MarkReplies)
    ensures var (rows', feed', answer) := MarkOnce(rows, feed, v, r, rs);
            && (if rs.load.Raised() then answer == Err(Unavailable) else MarkAnswers(rows, v, r, rs.save, answer))
            && MarkEffects(rows, rows', feed, feed', v, r, rs, answer)
  {
  }

  /** A mark whose awaits are answered succeeds exactly for a live video whose status allows the move. */
  lemma MarkSucceedsIff(rows: Rows, feed: seq<FeedEvent>, v: VideoId, r: Request, rs: MarkReplies)
    requires !rs.load.Raised() && !rs.save.Raised()
    ensures var answer := MarkOnce(rows, feed, v, r, rs).2;
            && (answer == Ok(()) <==> v in rows && !rows[v].deleted && Target(r) in Allowed(rows[v].status))
            && (answer == Err(VideoNotFound) <==> !(v in rows && !rows[v].deleted))
            && answer != Err(Unavailable)
  {
  }

  /** MarkProcessingUC, MarkDoneUC, MarkFailedUC: one shape, three targets. */
  class MarkUC {
    const repo: SqlVideoRepo
    const feed: FeedPublisher
    const request: Request

    constructor (repo: SqlVideoRepo, feed: FeedPublisher, request: Request)
      ensures this.repo == repo && this.feed == feed && this.request == request
    {
      this.repo, this.feed, this.request := repo, feed, request;
    }

    method Call(v: VideoId, rs: MarkReplies) returns (r: Result<(), MarkError>)
      modifies repo, feed
      ensures (repo.rows, feed.published, r) == MarkOnce(old(repo.rows), old(feed.published), v, request, rs)
      ensures if rs.load.Raised() then r == Err(Unavailable) else MarkAnswers(old(repo.rows), v, request, rs.save, r)
      ensures MarkEffects(old(repo.rows), repo.rows, old(feed.published), feed.published, v, request, rs, r)
    {
      MarkInWords(repo.rows, feed.published, v, request, rs);
      if rs.load.Raised() {
        return Err(Unavailable);
      }
      var found := repo.GetById(v);
      if found.None? {
        return Err(VideoNotFound);
      }
      var video := found.value;
      var moved := video.Transition(Target(request));
      if moved.Err? {
        return Err(Invalid(moved.error));
      }
      if rs.save.TookEffect() {
        repo.Save(video);
      }
      if rs.save.Raised() {
        return Err(Unavailable);
      }
      feed.Publish(FeedEvent(v, video.status), rs.feed);
      r := Ok(());
    }
  }

  // ---- the consumer ----

  datatype EntryReplies = EntryReplies(mark: MarkReplies, ack: Reply)

  datatype World = World(rows: Rows, feed: seq<FeedEvent>, pending: map<EntryId, ConsumerId>, acked: set<EntryId>)

  /** _handle: it raises only on a transient failure, and says to acknowledge in every other case. */
  function HandleEntry(rows: Rows, feed: seq<FeedEvent>, e: Entry, rs: MarkReplies): (Rows, seq<FeedEvent>, bool) {
    if !e.Known? then (rows, feed, true)
    else
      var (rows', feed', r) := MarkOnce(rows, feed, e.event.videoId, e.event.request, rs);
      (rows', feed', r != Err(Unavailable))
  }

  predicate Within(ids: seq<EntryId>, n: nat) {
    forall k | 0 <= k < |ids| :: ids[k] < n
  }

  /** _apply_entries: one entry after the other; the first failure ends it. Some(n): it returned n. */
  function ApplyFrom(stream: seq<Entry>, w: World, ids: seq<EntryId>, rs: seq<EntryReplies>): (World, Option<nat>)
    requires |rs| == |ids| && Within(ids, |stream|)
    decreases ids
  {
    if ids == [] then (w, Some(0))
    else
      var (rows, feed, ack) := HandleEntry(w.rows, w.feed, stream[ids[0]], rs[0].mark);
      if !ack then (World(rows, feed, w.pending, w.acked), None)
      else
        var w' := if rs[0].ack.TookEffect() then World(rows, feed, w.pending - {ids[0]}, w.acked + {ids[0]})
                  else World(rows, feed, w.pending, w.acked);
        if rs[0].ack.Raised() then (w', None)
        else
          var (last, n) := ApplyFrom(stream, w', ids[1..], rs[1..]);
          (last, if n.Some? then Some(n.value + 1) else None)
  }

  /** The batch after it was assigned to a consumer and applied. */
  function TakeAndApply(
      stream: seq<Entry>, w: World, c: ConsumerId, ids: seq<EntryId>, rs: EntryId -> EntryReplies): (World, Option<nat>)
    requires Within(ids, |stream|)
  {
    ApplyFrom(stream, w.(pending := Assign(w.pending, ids, c)), ids, Replies(ids, rs))
  }

  function Sum(a: Option<nat>, b: Option<nat>): Option<nat> {
    if a.Some? && b.Some? then Some(a.value + b.value) else None
  }

  /** The replies to each entry of a batch. */
  function Replies(ids: seq<EntryId>, rs: EntryId -> EntryReplies): seq<EntryReplies> {
    seq(|ids|, k requires 0 <= k < |ids| => rs(ids[k]))
  }

  class VideoStatusConsumer {
    const group: ConsumerGroup
    const repo: SqlVideoRepo
    const feed: FeedPublisher
    const started: MarkUC
    const processed: MarkUC
    const failed: MarkUC
    const me: ConsumerId
    const batch: Positive

    constructor (group: ConsumerGroup, repo: SqlVideoRepo, feed: FeedPublisher, me: ConsumerId, batch: Positive)
      ensures Wired() && this.group == group && this.repo == repo && this.feed == feed && this.me == me
              && this.batch == batch
    {
      this.group, this.repo, this.feed, this.me, this.batch := group, repo, feed, me, batch;
      started := new MarkUC(repo, feed, Started);
      processed := new MarkUC(repo, feed, Processed);
      failed := new MarkUC(repo, feed, Failed);
    }

    /** The three use cases of one facade share a session and the feed. */
    predicate Wired() {
      && started.request == Started && processed.request == Processed && failed.request == Failed
      && started.repo == processed.repo == failed.repo == repo && started.feed == processed.feed == failed.feed == feed
    }

    function State(): World
      reads group, repo, feed
    {
      World(repo.rows, feed.published, group.pending, group.acked)
    }

    method Handle(e: Entry, rs: MarkReplies) returns (ack: bool)
      requires Wired()
      modifies repo, feed
      ensures (repo.rows, feed.published, ack) == HandleEntry(old(repo.rows), old(feed.published), e, rs)
    {
      if !e.Known? {
        return true;
      }
      var r: Result<(), MarkError>;
      match e.event.request {
        case Started => r := started.Call(e.event.videoId, rs);
        case Processed => r := processed.Call(e.event.videoId, rs);
        case Failed => r := failed.Call(e.event.videoId, rs);
      }
      ack := r != Err(Unavailable);
    }

    method ApplyEntries(ids: seq<EntryId>, rs: seq<EntryReplies>) returns (handled: Option<nat>)
      requires Wired() && group.Valid() && |rs| == |ids| && Within(ids, group.delivered)
      modifies repo, feed, group`pending, group`acked
      ensures group.Valid()
      ensures (State(), handled) == ApplyFrom(group.stream, old(State()), ids, rs)
      ensures BatchOutcome(old(State()), State(), ids, handled)
    {
      ApplyAcks(group.stream, State(), ids, rs);
      var count := 0;
      for k := 0 to |ids|
        invariant count == k && group.Valid()
        invariant var (w, n) := ApplyFrom(group.stream, old(State()), ids, rs);
                  var (w', n') := ApplyFrom(group.stream, State(), ids[k..], rs[k..]);
                  w == w' && n == if n'.Some? then Some(k + n'.value) else None
      {
        assert ids[k..][0] == ids[k] && ids[k..][1..] == ids[k + 1..];
        assert rs[k..][0] == rs[k] && rs[k..][1..] == rs[k + 1..];
        var ack := Handle(group.stream[ids[k]], rs[k].mark);
        if !ack {
          return None;
        }
        var acked := group.Ack(ids[k], rs[k].ack);
        if acked.Err? {
          return None;
        }
        count := count + 1;
      }
      handled := Some(count);
    }

    /** _claim_stale: `idle` are the entries past the threshold. A missing group is created anew, and nothing is
        claimed. */
    method ClaimStale(idle: set<EntryId>, claim: Reply, create: Reply, rs: EntryId -> EntryReplies)
      returns (handled: Option<nat>, ghost taken: seq<EntryId>)
      requires Wired() && group.Valid()
      modifies repo, feed, group`present, group`pending, group`acked
      ensures group.Valid()
      ensures Within(taken, group.delivered)
      ensures claim.Raised() ==>
                && handled == None && taken == [] && State().(pending := old(group.pending)) == old(State())
                && group.present == old(group.present) && group.pending.Keys == old(group.pending.Keys)
      ensures !claim.Raised() ==> group.present == (old(group.present) || create.TookEffect())
      ensures !claim.Raised() && !old(group.present) && create.Raised() ==>
              handled == None && taken == [] && State() == old(State())
      ensures !claim.Raised() && (old(group.present) || !create.Raised()) ==>
                && old(group.OldestIdle(taken, idle, batch))
                && (State(), handled) == TakeAndApply(group.stream, old(State()), me, taken, rs)
      ensures handled.Some? ==> handled.value == |taken| && forall i | i in taken :: i in group.acked
    {
      taken := [];
      var claimed := group.AutoClaim(me, idle, batch, claim);
      assert group.pending.Keys == old(group.pending.Keys);
      if claimed.Err? {
        if claimed.error != NoGroup {
          return None, [];
        }
        var created := group.EnsureGroup(create);
        assert Assign(group.pending, taken, me) == group.pending;
        return if created.Err? then None else Some(0), [];
      }
      var ids := claimed.value;
      taken := ids;
      assert forall k | 0 <= k < |ids| :: ids[k] in ids && ids[k] in group.pending;
      handled := ApplyEntries(ids, Replies(ids, rs));
    }

    /** The xreadgroup of drain_once, and what it brings applied. */
    method ReadAndApply(
        read: Reply, rs: EntryId -> EntryReplies) returns (handled: Option<nat>, ghost unread: seq<EntryId>)
      requires Wired() && group.Valid()
      modifies repo, feed, group`delivered, group`pending, group`acked
      ensures group.Valid()
      ensures Within(unread, |group.stream|)
      ensures read.Raised() || !group.present ==>
                handled == None && unread == [] && State().(pending := old(group.pending)) == old(State())
      ensures !group.present || read == Refused ==> State() == old(State()) && group.delivered == old(group.delivered)
      ensures !read.Raised() && group.present ==>
                && unread == Range(old(group.delivered), old(group.Available(batch)))
                && group.delivered == old(group.delivered) + |unread|
                && (State(), handled) == TakeAndApply(group.stream, old(State()), me, unread, rs)
      ensures handled.Some? ==> handled.value == |unread| && forall i | i in unread :: i in group.acked
      ensures forall i | i in old(group.acked) :: i in group.acked
    {
      unread := [];
      var got := group.ReadNew(me, batch, read);
      if got.Err? {
        return None, [];
      }
      var ids := got.value;
      unread := ids;
      assert Within(ids, group.delivered);
      handled := ApplyEntries(ids, Replies(ids, rs));
    }

    /** drain_once: the stale entries, then the unread ones, and nothing more after a failure. DrainAcks says what its
        outcome is worth. A missing group is created, and then read from its start. */
    method DrainOnce(idle: set<EntryId>, claim: Reply, create: Reply, read: Reply, rs: EntryId -> EntryReplies)
      returns (handled: Option<nat>, ghost taken: seq<EntryId>, ghost stale: Option<nat>, ghost mid: World,
               ghost unread: seq<EntryId>, ghost rest: Option<nat>)
      requires Wired() && group.Valid()
      modifies repo, feed, group`present, group`delivered, group`pending, group`acked
      ensures group.Valid() && Within(taken, |group.stream|) && Within(unread, |group.stream|)
      ensures claim.Raised() ==> stale == None && taken == [] && mid.(pending := old(group.pending)) == old(State())
      ensures !claim.Raised() && !old(group.present) && create.Raised() ==> stale == None && mid == old(State())
      ensures !claim.Raised() && (old(group.present) || !create.Raised()) ==>
                (mid, stale) == TakeAndApply(group.stream, old(State()), me, taken, rs)
      ensures handled == Sum(stale, rest)
      ensures stale.None? ==> State() == mid && unread == [] && group.delivered == old(group.delivered)
      ensures read.Raised() ==> rest == None
      ensures stale.Some? && read.Raised() ==> unread == [] && State().(pending := mid.pending) == mid
      ensures stale.Some? && read == Refused ==> State() == mid && group.delivered == old(group.delivered)
      ensures stale.Some? && !read.Raised() ==>
                && unread == Range(old(group.delivered), old(group.Available(batch)))
                && group.delivered == old(group.delivered) + |unread|
      ensures stale.Some? && !read.Raised() ==> (State(), rest) == TakeAndApply(group.stream, mid, me, unread, rs)
      ensures handled.Some? <==> stale.Some? && rest.Some?
      ensures handled.Some? ==>
                && handled.value == |taken| + |unread|
                && forall i | i in taken || i in unread :: i in group.acked && i !in group.pending
    {
      unread, rest := [], None;
      var claimed;
      claimed, taken := ClaimStale(idle, claim, create, rs);
      stale, mid := claimed, State();
      if claimed.None? {
        return None, taken, stale, mid, [], None;
      }
      var applied;
      applied, unread := ReadAndApply(read, rs);
      rest := applied;
      handled := Sum(claimed, applied);
    }
  }

  // ---- what a batch comes to ----

  /** From w to w' at most the entries of ids left the pending list, all of them if the batch returned, and
      they left it by being acknowledged. */
  predicate BatchOutcome(w: World, w': World, ids: seq<EntryId>, handled: Option<nat>) {
    && (handled.Some? ==> handled.value == |ids| && forall i | i in ids :: i in w'.acked)
    && (forall i | i in w'.acked :: i in w.acked || i in ids)
    && (forall i | i in w.acked :: i in w'.acked)
    && (forall i | i in w'.pending :: i in w.pending)
    && (forall i | i in w.pending :: i in w'.pending || (i in ids && i in w'.acked))
  }

  /** The first k entries of a batch acknowledged, and no other. */
  predicate AckedFirst(w: World, w': World, ids: seq<EntryId>, k: nat)
    requires k <= |ids|
  {
    w'.acked == w.acked + Elements(ids[..k]) && w'.pending == w.pending - Elements(ids[..k])
  }

  lemma AckedOneMore(w: World, w1: World, w': World, ids: seq<EntryId>, k: nat)
    requires ids != [] && k < |ids|
    requires w1.acked == w.acked + {ids[0]} && w1.pending == w.pending - {ids[0]} && AckedFirst(w1, w', ids[1..], k)
    ensures AckedFirst(w, w', ids, k + 1)
  {
    assert ids[..k + 1] == [ids[0]] + ids[1..][..k];
    assert Elements(ids[..k + 1]) == {ids[0]} + Elements(ids[1..][..k]);
  }

  /** A batch acknowledges its entries in order. It returns their number, or stops at the first failure: the
      entry that failed and all after it stay as they were (unless only the reply to its own ack was lost). */
  lemma {:induction false} AcksInOrder(
      stream: seq<Entry>, w: World, ids: seq<EntryId>, rs: seq<EntryReplies>) returns (k: nat)
    requires |rs| == |ids| && Within(ids, |stream|)
    ensures var (w', n) := ApplyFrom(stream, w, ids, rs);
            && k <= |ids| && AckedFirst(w, w', ids, k)
            && (n.Some? ==> n.value == k == |ids|)
            && (n.None? ==> k < |ids| || (k > 0 && rs[k - 1].ack == Lost))
    decreases ids
  {
    k := 0;
    if ids != [] {
      var (rows, feed, ack) := HandleEntry(w.rows, w.feed, stream[ids[0]], rs[0].mark);
      if ack && rs[0].ack.TookEffect() {
        var w1 := World(rows, feed, w.pending - {ids[0]}, w.acked + {ids[0]});
        if rs[0].ack == Lost {
          k := 1;
          AckedOneMore(w, w1, w1, ids, 0);
        } else {
          k := AcksInOrder(stream, w1, ids[1..], rs[1..]);
          AckedOneMore(w, w1, ApplyFrom(stream, w1, ids[1..], rs[1..]).0, ids, k);
          k := k + 1;
        }
      }
    }
  }

  lemma ApplyAcks(stream: seq<Entry>, w: World, ids: seq<EntryId>, rs: seq<EntryReplies>)
    requires |rs| == |ids| && Within(ids, |stream|)
    ensures var (w', n) := ApplyFrom(stream, w, ids, rs); BatchOutcome(w, w', ids, n)
  {
    var k := AcksInOrder(stream, w, ids, rs);
    assert ids[..|ids|] == ids;
  }

  /** A drain that returns has acknowledged all it took and returns their number; whatever else was pending still
      is, and nothing else was acknowledged. */
  lemma DrainAcks(
      stream: seq<Entry>, w: World, c: ConsumerId, taken: seq<EntryId>, unread: seq<EntryId>,
      rs: EntryId -> EntryReplies)
    requires Within(taken, |stream|) && Within(unread, |stream|)
    ensures var (mid, stale) := TakeAndApply(stream, w, c, taken, rs);
            var (w', n) := TakeAndApply(stream, mid, c, unread, rs);
            && (stale.Some? ==> stale.value == |taken| && forall i | i in taken :: i in mid.acked)
            && (n.Some? ==> n.value == |unread| && forall i | i in unread :: i in w'.acked)
            && (forall i | i in w.acked :: i in mid.acked) && (forall i | i in mid.acked :: i in w'.acked)
            && (forall i | i in w'.acked :: i in w.acked || i in taken || i in unread)
            && (forall i | i in w.pending :: i in w'.pending || ((i in taken || i in unread) && i in w'.acked))
  {
    ApplyAcks(stream, w.(pending := Assign(w.pending, taken, c)), taken, Replies(taken, rs));
    var mid := TakeAndApply(stream, w, c, taken, rs).0;
    ApplyAcks(stream, mid.(pending := Assign(mid.pending, unread, c)), unread, Replies(unread, rs));
  }

  /** The cancel endpoint marks a video as failed in the same way: the protocol's cancel and the broadcast after it do
      to the rows and the feed what the mark does, and touch no entry. */
  lemma CancelIsSteps(rows: Rows, s: Group, k: CallerId, v: VideoId, rs: MarkReplies)
    requires Caller(k) !in s.feeds
    ensures var (rows1, s1) := CancelOne(rows, s, k, v, if rs.load.Raised() then Refused else rs.save);
            var s2 := BroadcastOne(s1, Caller(k), rs.feed);
            var (rows', feed, answer) := MarkOnce(rows, [], v, Failed, rs);
            && rows1 == rows' && SameFeed(s, s2, feed) && s2.feeds == s.feeds
            && s2.pending == s.pending && s2.acked == s.acked && s2.batches == s.batches && s2.verdicts == s.verdicts
            && s2.delivered == s.delivered
  {
    var reply := if rs.load.Raised() then Refused else rs.save;
    var (_, s1) := CancelOne(rows, s, k, v, reply);
    var s2 := BroadcastOne(s1, Caller(k), rs.feed);
    if Applicable(rows, v, Failed) && reply == Reply.Done {
      assert s1.asked == s.asked + [Asked(User, v, Failed)] && s1.feeds == s.feeds[Caller(k) := |s.asked|];
      assert s2.feeds == s.feeds;
    } else {
      assert s1.feeds == s.feeds && s2 == s1;
    }
  }

  // ---- one entry in the protocol ----

  /** How the atomic handling step of the protocol ends when the calls of a Mark*UC end like this. */
  function HandleReply(rows: Rows, e: Entry, rs: MarkReplies): Reply {
    if rs.load.Raised() then Refused
    else if e.Known? && Applicable(rows, e.event.videoId, e.event.request) then rs.save
    else Reply.Done
  }

  /** What one round adds to the feed, and what the protocol's broadcasts record of it. */
  predicate SameFeed(s: Group, s': Group, feed: seq<FeedEvent>) {
    || (feed == [] && s'.broadcasts == s.broadcasts)
    || (|s.asked| < |s'.asked| && s'.broadcasts == s.broadcasts + [|s.asked|] &&
        feed == [FeedEvent(s'.asked[|s.asked|].videoId, Target(s'.asked[|s.asked|].request))])
  }

  lemma ApplyIsStep(stream: seq<Entry>, rows: Rows, s: Group, c: ConsumerId, rs: MarkReplies)
    requires AtHead(stream, s, c)
    requires var e := stream[s.batches[c].todo[0]]; e.Known? && Applicable(rows, e.event.videoId, e.event.request)
    ensures var e := stream[s.batches[c].todo[0]];
            var (rows', s') := HandleOne(stream, rows, s, c, HandleReply(rows, e, rs));
            var (rows1, feed, ack) := HandleEntry(rows, [], e, rs);
            && rows' == rows1 && s'.pending == s.pending && s'.acked == s.acked && s'.broadcasts == s.broadcasts
            && (c in s'.batches <==> ack) && (!ack ==> feed == [] && Consumer(c) !in s'.feeds)
            && (ack ==>
                  && s'.batches[c] == s.batches[c].(phase := Broadcasting)
                  && Consumer(c) in s'.feeds && s'.feeds[Consumer(c)] == |s.asked| < |s'.asked|
                  && s'.asked[|s.asked|] == Asked(Delivery(s.batches[c].todo[0]), e.event.videoId, e.event.request)
                  && feed == if rs.feed.TookEffect() then [FeedEvent(e.event.videoId, Target(e.event.request))] else [])
  {
  }

  lemma RefuseIsStep(stream: seq<Entry>, rows: Rows, s: Group, c: ConsumerId, rs: MarkReplies)
    requires AtHead(stream, s, c) && Consumer(c) !in s.feeds
    requires var e := stream[s.batches[c].todo[0]]; !(e.Known? && Applicable(rows, e.event.videoId, e.event.request))
    ensures var e := stream[s.batches[c].todo[0]];
            var (rows', s') := HandleOne(stream, rows, s, c, HandleReply(rows, e, rs));
            var (rows1, feed, ack) := HandleEntry(rows, [], e, rs);
            && rows' == rows1 == rows && s'.pending == s.pending && s'.acked == s.acked && s'.broadcasts == s.broadcasts
            && feed == [] && Consumer(c) !in s'.feeds
            && (c in s'.batches <==> ack)
            && (ack ==> s'.batches[c] == s.batches[c].(phase := Acknowledging))
  {
  }

  lemma BroadcastIsStep(s: Group, c: ConsumerId, reply: Reply)
    requires c in s.batches && s.batches[c].phase == Broadcasting && Consumer(c) in s.feeds
    ensures var s' := BroadcastOne(s, Consumer(c), reply);
            && s'.batches == s.batches[c := s.batches[c].(phase := Acknowledging)]
            && s'.pending == s.pending && s'.acked == s.acked && s'.asked == s.asked
            && s'.broadcasts == if reply.TookEffect() then s.broadcasts + [s.feeds[Consumer(c)]] else s.broadcasts
  {
  }

  /** From an entry handled to the next one, or to the end of the batch. */
  lemma AckIsStep(s: Group, c: ConsumerId, reply: Reply)
    requires c in s.batches && s.batches[c].todo != [] && s.batches[c].phase == Acknowledging
    ensures var i, s' := s.batches[c].todo[0], AckOne(s, c, reply);
            && s'.asked == s.asked && s'.broadcasts == s.broadcasts
            && s'.pending == (if reply.TookEffect() then s.pending - {i} else s.pending)
            && s'.acked == (if reply.TookEffect() then s.acked + {i} else s.acked)
            && (c in s'.batches <==> !reply.Raised() && |s.batches[c].todo| > 1)
            && (c in s'.batches ==> s'.batches[c] == Batch(s.batches[c].todo[1..], Handling))
  {
  }

  lemma NoAckStep(s: Group, c: ConsumerId, reply: Reply)
    requires c !in s.batches
    ensures AckOne(s, c, reply) == s
  {
  }

  /** Uninterrupted, the three steps for the head of a batch do what one round of _apply_entries does: the same
      rows, feed and acknowledgement, and the batch goes on to the rest exactly when the round did not raise. */
  lemma RoundIsSteps(stream: seq<Entry>, rows: Rows, s: Group, c: ConsumerId, rs: EntryReplies)
    requires AtHead(stream, s, c) && FeedsMatch(s)
    ensures var todo := s.batches[c].todo;
            var (rows1, s1) := HandleOne(stream, rows, s, c, HandleReply(rows, stream[todo[0]], rs.mark));
            var s3 := AckOne(BroadcastOne(s1, Consumer(c), rs.mark.feed), c, rs.ack);
            var (w, n) := ApplyFrom(stream, World(rows, [], s.pending, s.acked), [todo[0]], [rs]);
            && rows1 == w.rows && s3.pending == w.pending && s3.acked == w.acked && SameFeed(s, s3, w.feed)
            && (c in s3.batches <==> n.Some? && |todo| > 1)
            && (c in s3.batches ==> s3.batches[c] == Batch(todo[1..], Handling))
  {
    var todo := s.batches[c].todo;
    var e := stream[todo[0]];
    var (rows1, s1) := HandleOne(stream, rows, s, c, HandleReply(rows, e, rs.mark));
    var s2 := BroadcastOne(s1, Consumer(c), rs.mark.feed);
    if e.Known? && Applicable(rows, e.event.videoId, e.event.request) {
      ApplyIsStep(stream, rows, s, c, rs.mark);
      if c in s1.batches {
        BroadcastIsStep(s1, c, rs.mark.feed);
      }
    } else {
      RefuseIsStep(stream, rows, s, c, rs.mark);
      assert s2 == s1;
    }
    if c in s1.batches {
      AckIsStep(s2, c, rs.ack);
    } else {
      NoAckStep(s2, c, rs.ack);
    }
  }
}
