/** The consumer group on the video_status stream and the status machine behind it: several consumers read,
    claim, apply, broadcast and acknowledge while users cancel videos, and any await may fail. */
module StatusConsumer {
  import opened Wrappers
  import opened VideoAgg
  import opened VideoTable
  import opened OutboxRelay
  import opened MediaProcessing

  type EntryId = nat
  type ConsumerId = nat
  type CallerId = nat

  /** A stream entry as a consumer decodes it. */
  datatype Entry = Known(event: StatusEvent) | UnknownType | Malformed

  /** What handling an entry came to; `at` is where it stands in the history of what was asked of live videos. */
  datatype Verdict = Applied(at: nat) | NotAllowed(at: nat) | NoSuchVideo | Unusable

  /** The next await for the first entry of a batch. */
  datatype HeadPhase = Handling | Broadcasting | Acknowledging

  datatype Batch = Batch(todo: seq<EntryId>, phase: HeadPhase)

  /** Who asks a video to change its status: the delivery of an entry, or the cancel endpoint. */
  datatype Asker = Delivery(entry: EntryId) | User

  datatype Asked = Asked(asker: Asker, videoId: VideoId, request: Request)

  /** Who broadcasts a committed move: a consumer, or a cancel request of the API. */
  datatype Broadcaster = Consumer(consumer: ConsumerId) | Caller(caller: CallerId)

  datatype Group = Group(
    delivered: nat,
    pending: map<EntryId, ConsumerId>,
    acked: set<EntryId>,
    batches: map<ConsumerId, Batch>,
    feeds: map<Broadcaster, nat>,
    // histories
    asked: seq<Asked>,
    broadcasts: seq<nat>,
    verdicts: map<EntryId, set<Verdict>>)

  const NEW_GROUP := Group(0, map[], {}, map[], map[], [], [], map[])

  datatype ConsumerStep =
    | ReadNew(c: ConsumerId, n: nat, reply: Reply)
    | ClaimStale(c: ConsumerId, ids: seq<EntryId>, reply: Reply)
    | HandleHead(c: ConsumerId, reply: Reply)
    | Broadcast(b: Broadcaster, reply: Reply)
    | AckHead(c: ConsumerId, reply: Reply)
    | CrashConsumer(c: ConsumerId)
    | Cancel(k: CallerId, v: VideoId, reply: Reply)
    | CrashCaller(k: CallerId)

  // Each of these is no step unless the consumer is where it starts from.

  function Assign(pending: map<EntryId, ConsumerId>, ids: seq<EntryId>, c: ConsumerId): map<EntryId, ConsumerId> {
    map i | i in pending.Keys + (set j | j in ids) :: if i in ids then c else pending[i]
  }

  /** The named entries are the consumer's, the others as before. */
  lemma AssignInWords(pending: map<EntryId, ConsumerId>, ids: seq<EntryId>, c: ConsumerId)
    ensures forall i :: i in Assign(pending, ids, c) <==> i in pending || i in ids
    ensures forall i | i in ids :: Assign(pending, ids, c)[i] == c
    ensures forall i | i in pending && i !in ids :: Assign(pending, ids, c)[i] == pending[i]
  {
  }

  function Range(from: nat, n: nat): seq<nat> {
    seq(n, i => from + i)
  }

  function Open(s: Group, c: ConsumerId, ids: seq<EntryId>, reply: Reply): Group {
    if ids == [] || reply.Raised() then s else s.(batches := s.batches[c := Batch(ids, Handling)])
  }

  /** XREADGROUP of never-delivered entries: all of them, up to the batch size. */
  function ReadOne(stream: seq<Entry>, s: Group, c: ConsumerId, n: nat, reply: Reply): Group {
    if c in s.batches || s.delivered + n > |stream| || !reply.TookEffect() then s
    else
      var ids := Range(s.delivered, n);
      Open(s.(delivered := s.delivered + n, pending := Assign(s.pending, ids, c)), c, ids, reply)
  }

  /** XAUTOCLAIM: any pending entries may have been idle for long enough. */
  function ClaimOne(s: Group, c: ConsumerId, ids: seq<EntryId>, reply: Reply): Group {
    if c in s.batches || !Distinct(ids) || (exists i | 0 <= i < |ids| :: ids[i] !in s.pending)
        || !reply.TookEffect() then s
    else Open(s.(pending := Assign(s.pending, ids, c)), c, ids, reply)
  }

  /** The drain raises: what is left of the batch stays pending. */
  function Drop(s: Group, c: ConsumerId): Group {
    s.(batches := s.batches - {c}, feeds := s.feeds - {Consumer(c)})
  }

  function Judge(s: Group, i: EntryId, x: Verdict): Group {
    s.(verdicts := s.verdicts[i := (if i in s.verdicts then s.verdicts[i] else {}) + {x}])
  }

  function SetPhase(s: Group, c: ConsumerId, phase: HeadPhase): Group
    requires c in s.batches
  {
    s.(batches := s.batches[c := s.batches[c].(phase := phase)])
  }

  function Ask(s: Group, x: Asked): Group {
    s.(asked := s.asked + [x])
  }

  /** A Mark*UC of a live video whose status allows the move: it is committed, its broadcast is to come. */
  function Commit(s: Group, b: Broadcaster, x: Asked, reply: Reply): Group {
    if reply.Raised() then Ask(s, x) else Ask(s, x).(feeds := s.feeds[b := |s.asked|])
  }

  predicate Applicable(rows: Rows, v: VideoId, r: Request) {
    Live(rows, v) && Target(r) in Allowed(rows[v].status)
  }

  /** What handling an applicable entry leaves of the group. */
  function AppliedBy(s: Group, i: EntryId, c: ConsumerId, e: StatusEvent, reply: Reply): Group
    requires c in s.batches
  {
    var s1 := Commit(Judge(s, i, Applied(|s.asked|)), Consumer(c), Asked(Delivery(i), e.videoId, e.request), reply);
    if reply.Raised() then Drop(s1, c) else SetPhase(s1, c, Broadcasting)
  }

  /** An entry that cannot be applied, and why; it is acknowledged all the same. */
  function RefusedBy(s: Group, i: EntryId, rows: Rows, e: Entry): Group {
    if !e.Known? then Judge(s, i, Unusable)
    else if !Live(rows, e.event.videoId) then Judge(s, i, NoSuchVideo)
    else Ask(Judge(s, i, NotAllowed(|s.asked|)), Asked(Delivery(i), e.event.videoId, e.event.request))
  }

  /** The head of a consumer's batch is still to be handled. */
  predicate AtHead(stream: seq<Entry>, s: Group, c: ConsumerId) {
    c in s.batches && s.batches[c].todo != [] && s.batches[c].todo[0] < |stream| && s.batches[c].phase == Handling
  }

  /** One entry handled: applied, refused for good, or left by a failure. */
  function HandleOne(stream: seq<Entry>, rows: Rows, s: Group, c: ConsumerId, reply: Reply): (Rows, Group) {
    if !AtHead(stream, s, c) then (rows, s)
    else
      var i := s.batches[c].todo[0];
      var e := stream[i];
      if e.Known? && Applicable(rows, e.event.videoId, e.event.request) then
        if !reply.TookEffect() then (rows, Drop(s, c))
        else (Marked(rows, e.event.videoId, e.event.request), AppliedBy(s, i, c, e.event, reply))
      else if e.Known? && reply.Raised() then (rows, Drop(s, c))
      else (rows, SetPhase(RefusedBy(s, i, rows, e), c, Acknowledging))
  }

  /** Best effort: the caller goes on whether the feed took the event or not. */
  function BroadcastOne(s: Group, b: Broadcaster, reply: Reply): Group {
    if b !in s.feeds then s
    else
      var s' := s.(feeds := s.feeds - {b}, broadcasts :=
          if reply.TookEffect() then s.broadcasts + [s.feeds[b]] else s.broadcasts);
      if b.Consumer? && b.consumer in s.batches && s.batches[b.consumer].phase == Broadcasting then
          SetPhase(s', b.consumer, Acknowledging) else s'
  }

  function AckOne(s: Group, c: ConsumerId, reply: Reply): Group {
    if c !in s.batches || s.batches[c].todo == [] || s.batches[c].phase != Acknowledging then s
    else
      var x := s.batches[c];
      var s' := if reply.TookEffect() then s.(pending := s.pending - {x.todo[0]}, acked := s.acked + {x.todo[0]})
          else s;
      if reply.Raised() || |x.todo| == 1 then Drop(s', c)
          else s'.(batches := s.batches[c := Batch(x.todo[1..], Handling)])
  }

  function CancelOne(rows: Rows, s: Group, k: CallerId, v: VideoId, reply: Reply): (Rows, Group) {
    if Caller(k) in s.feeds || !Applicable(rows, v, Failed) || !reply.TookEffect() then (rows, s)
    else (Marked(rows, v, Failed), Commit(s, Caller(k), Asked(User, v, Failed), reply))
  }

  /** One step, over the video rows and the stream as they stand. */
  function ConsumerNext(stream: seq<Entry>, rows: Rows, s: Group, step: ConsumerStep): (Rows, Group) {
    match step
    case ReadNew(c, n, reply) => (rows, ReadOne(stream, s, c, n, reply))
    case ClaimStale(c, ids, reply) => (rows, ClaimOne(s, c, ids, reply))
    case HandleHead(c, reply) => HandleOne(stream, rows, s, c, reply)
    case Broadcast(b, reply) => (rows, BroadcastOne(s, b, reply))
    case AckHead(c, reply) => (rows, AckOne(s, c, reply))
    case CrashConsumer(c) => (rows, Drop(s, c))
    case Cancel(k, v, reply) => CancelOne(rows, s, k, v, reply)
    case CrashCaller(k) => (rows, s.(feeds := s.feeds - {Caller(k)}))
  }

  // ---- what the history says ----

  /** What was asked of one video while it was live, in order. */
  function HandledOf(asked: seq<Asked>, v: VideoId): seq<Request>
    decreases |asked|
  {
    if asked == [] then []
    else
      var before, last := HandledOf(asked[..|asked| - 1], v), asked[|asked| - 1];
      if last.videoId == v then before + [last.request] else before
  }

  /** Where the status machine stands after all that. */
  function StatusAfter(asked: seq<Asked>, v: VideoId): VideoStatus {
    Final(PENDING, HandledOf(asked, v))
  }

  function StatusBefore(asked: seq<Asked>, at: nat): VideoStatus
    requires at < |asked|
  {
    StatusAfter(asked[..at], asked[at].videoId)
  }

  /** The request found a status that allowed it: it was a move. */
  predicate TookEffect(asked: seq<Asked>, at: nat) {
    at < |asked| && Target(asked[at].request) in Allowed(StatusBefore(asked, at))
  }

  // ---- invariant ----

  /** Every entry is undelivered, pending with one consumer, or acknowledged. */
  predicate Conserved(stream: seq<Entry>, s: Group) {
    && s.delivered <= |stream|
    && (forall i | i in s.pending :: i < s.delivered && i !in s.acked)
    && (forall i | i in s.acked :: i < s.delivered)
    && (forall i | 0 <= i < s.delivered :: i in s.pending || i in s.acked)
  }

  /** Applied and refused entries stand in the history as what they asked, where it did or did not take effect. */
  predicate VerdictIsSound(stream: seq<Entry>, asked: seq<Asked>, i: EntryId, x: Verdict) {
    && i < |stream|
    && match x {
         case Applied(at) => TookEffect(asked, at) && asked[at].asker == Delivery(i)
         case NotAllowed(at) => at < |asked| && asked[at].asker == Delivery(i) && !TookEffect(asked, at)
         case NoSuchVideo => stream[i].Known?
         case Unusable => !stream[i].Known?
       }
  }

  /** Nothing is acknowledged before it was handled. */
  predicate AckedWereHandled(stream: seq<Entry>, s: Group) {
    && (forall i | i in s.acked :: i in s.verdicts)
    && (forall i | i in s.verdicts :: s.verdicts[i] != {} && forall x | x in s.verdicts[i] ::
       VerdictIsSound(stream, s.asked, i, x))
    && (forall c | c in s.batches ::
          && s.batches[c].todo != []
          && (forall i | i in s.batches[c].todo :: i < s.delivered)
          && (s.batches[c].phase != Handling ==> s.batches[c].todo[0] in s.verdicts))
  }

  /** Each committed move is broadcast at most once, and never before its commit; nothing else is broadcast. */
  predicate BroadcastOnce(s: Group) {
    NoneTwice(s.feeds, s.broadcasts) && OnlyMoves(s.asked, s.feeds, s.broadcasts)
  }

  predicate NoneTwice(feeds: map<Broadcaster, nat>, broadcasts: seq<nat>) {
    && Distinct(broadcasts)
    && (forall b | b in feeds :: feeds[b] !in broadcasts)
    && (forall a, b | a in feeds && b in feeds && a != b :: feeds[a] != feeds[b])
  }

  predicate OnlyMoves(asked: seq<Asked>, feeds: map<Broadcaster, nat>, broadcasts: seq<nat>) {
    && (forall i | 0 <= i < |broadcasts| :: TookEffect(asked, broadcasts[i]))
    && (forall b | b in feeds :: TookEffect(asked, feeds[b]))
  }

  /** A consumer owes a broadcast exactly while its batch waits for it. */
  predicate FeedsMatch(s: Group) {
    && (forall b | b in s.feeds && b.Consumer? ::
       b.consumer in s.batches && s.batches[b.consumer].phase == Broadcasting)
    && (forall c | c in s.batches && s.batches[c].phase == Broadcasting :: Consumer(c) in s.feeds)
  }

  /** The stored status of a video is what the machine makes of all that was asked of it. */
  predicate StatusIsDecided(rows: Rows, asked: seq<Asked>) {
    && (forall i | 0 <= i < |asked| :: asked[i].videoId in rows)
    && (forall v | v in rows :: rows[v].status == StatusAfter(asked, v))
  }

  /** What is asked of a video is on the stream, or is a user's cancel. */
  predicate IsCaused(stream: seq<Entry>, x: Asked) {
    match x.asker
    case Delivery(i) => i < |stream| && stream[i] == Known(StatusEvent(x.request, x.videoId))
    case User => x.request == Failed
  }

  predicate AskedAreCaused(stream: seq<Entry>, asked: seq<Asked>) {
    forall i | 0 <= i < |asked| :: IsCaused(stream, asked[i])
  }

  predicate GroupInv(stream: seq<Entry>, rows: Rows, s: Group) {
    && Conserved(stream, s) && AckedWereHandled(stream, s) && BroadcastOnce(s) && FeedsMatch(s)
    && StatusIsDecided(rows, s.asked) && AskedAreCaused(stream, s.asked)
  }

  // ---- every step keeps it ----

  lemma OpenKeepsHandled(stream: seq<Entry>, s: Group, c: ConsumerId, ids: seq<EntryId>, reply: Reply)
    requires AckedWereHandled(stream, s) && forall i | i in ids :: i < s.delivered
    ensures AckedWereHandled(stream, Open(s, c, ids, reply))
  {
  }

  lemma RangeIs(from: nat, n: nat)
    ensures forall i :: i in Range(from, n) <==> from <= i < from + n
  {
    forall i | from <= i < from + n
      ensures i in Range(from, n)
    {
      assert Range(from, n)[i - from] == i;
    }
  }

  lemma ReadConserves(stream: seq<Entry>, s: Group, c: ConsumerId, n: nat)
    requires Conserved(stream, s) && s.delivered + n <= |stream|
    ensures Conserved(stream, s.(delivered := s.delivered + n, pending := Assign(s.pending, Range(s.delivered, n), c)))
  {
    RangeIs(s.delivered, n);
  }

  lemma ReadKeepsHandled(stream: seq<Entry>, s: Group, c: ConsumerId, n: nat, reply: Reply)
    requires AckedWereHandled(stream, s)
    ensures AckedWereHandled(stream, ReadOne(stream, s, c, n, reply))
  {
    if c !in s.batches && s.delivered + n <= |stream| && reply.TookEffect() {
      var ids := Range(s.delivered, n);
      RangeIs(s.delivered, n);
      OpenKeepsHandled(stream, s.(delivered := s.delivered + n, pending := Assign(s.pending, ids, c)), c, ids, reply);
    }
  }

  lemma ReadKeepsInv(stream: seq<Entry>, s: Group, c: ConsumerId, n: nat, reply: Reply)
    requires Conserved(stream, s) && AckedWereHandled(stream, s)
    ensures var s' := ReadOne(stream, s, c, n, reply); Conserved(stream, s') && AckedWereHandled(stream, s')
  {
    ReadKeepsHandled(stream, s, c, n, reply);
    if s.delivered + n <= |stream| {
      ReadConserves(stream, s, c, n);
    }
  }

  lemma ClaimKeepsInv(stream: seq<Entry>, s: Group, c: ConsumerId, ids: seq<EntryId>, reply: Reply)
    requires Conserved(stream, s) && AckedWereHandled(stream, s)
    ensures var s' := ClaimOne(s, c, ids, reply); Conserved(stream, s') && AckedWereHandled(stream, s')
  {
    if c !in s.batches && (forall i | 0 <= i < |ids| :: ids[i] in s.pending) && reply.TookEffect() {
      assert forall i | i in ids :: i in s.pending;
      var s1 := s.(pending := Assign(s.pending, ids, c));
      assert s1.pending.Keys == s.pending.Keys;
      OpenKeepsHandled(stream, s1, c, ids, reply);
    }
  }

  lemma JudgeKeepsHandled(stream: seq<Entry>, s: Group, i: EntryId, x: Verdict)
    requires AckedWereHandled(stream, s) && VerdictIsSound(stream, s.asked, i, x)
    ensures AckedWereHandled(stream, Judge(s, i, x))
  {
    assert x in Judge(s, i, x).verdicts[i];
  }

  /** What is asked later changes nothing of what an earlier request did. */
  lemma EffectsStay(asked: seq<Asked>, x: Asked, at: nat)
    requires at < |asked|
    ensures TookEffect(asked + [x], at) <==> TookEffect(asked, at)
  {
    assert (asked + [x])[..at] == asked[..at];
  }

  lemma AskKeepsHandled(stream: seq<Entry>, s: Group, x: Asked)
    requires AckedWereHandled(stream, s)
    ensures AckedWereHandled(stream, Ask(s, x))
  {
    forall i, y | i in s.verdicts && y in s.verdicts[i]
      ensures VerdictIsSound(stream, Ask(s, x).asked, i, y)
    {
      assert VerdictIsSound(stream, s.asked, i, y);
      if y.Applied? || y.NotAllowed? {
        EffectsStay(s.asked, x, y.at);
      }
    }
  }

  lemma AskKeepsBroadcasts(s: Group, x: Asked)
    requires BroadcastOnce(s)
    ensures BroadcastOnce(Ask(s, x))
  {
    forall at | TookEffect(s.asked, at)
      ensures TookEffect(Ask(s, x).asked, at)
    {
      EffectsStay(s.asked, x, at);
    }
  }

  lemma AckKeepsInv(stream: seq<Entry>, s: Group, c: ConsumerId, reply: Reply)
    requires Conserved(stream, s) && AckedWereHandled(stream, s)
    ensures var s' := AckOne(s, c, reply); Conserved(stream, s') && AckedWereHandled(stream, s')
  {
    if c in s.batches {
      var todo := s.batches[c].todo;
      assert todo[0] in todo && forall i | i in todo[1..] :: i in todo;
    }
  }

  lemma CommitKeepsBroadcasts(s: Group, b: Broadcaster, x: Asked, reply: Reply)
    requires BroadcastOnce(s) && TookEffect(s.asked + [x], |s.asked|)
    ensures BroadcastOnce(Commit(s, b, x, reply))
  {
    AskKeepsBroadcasts(s, x);
    NewIsNotTwice(s.asked, s.feeds, s.broadcasts, b);
  }

  lemma NewIsNotTwice(asked: seq<Asked>, feeds: map<Broadcaster, nat>, broadcasts: seq<nat>, b: Broadcaster)
    requires NoneTwice(feeds, broadcasts) && OnlyMoves(asked, feeds, broadcasts)
    ensures NoneTwice(feeds[b := |asked|], broadcasts)
  {
    assert forall i | 0 <= i < |broadcasts| :: TookEffect(asked, broadcasts[i]) && broadcasts[i] < |asked|;
    assert forall a | a in feeds :: TookEffect(asked, feeds[a]) && feeds[a] < |asked|;
  }

  lemma SentIsNotTwice(feeds: map<Broadcaster, nat>, broadcasts: seq<nat>, b: Broadcaster)
    requires NoneTwice(feeds, broadcasts) && b in feeds
    ensures NoneTwice(feeds - {b}, broadcasts) && NoneTwice(feeds - {b}, broadcasts + [feeds[b]])
  {
  }

  lemma BroadcastKeepsOnce(s: Group, b: Broadcaster, reply: Reply)
    requires BroadcastOnce(s)
    ensures BroadcastOnce(BroadcastOne(s, b, reply))
  {
    if b in s.feeds {
      SentIsNotTwice(s.feeds, s.broadcasts, b);
      assert OnlyMoves(s.asked, s.feeds - {b}, s.broadcasts) && TookEffect(s.asked, s.feeds[b]);
      SentAreMoves(s.asked, s.feeds - {b}, s.broadcasts, s.feeds[b]);
    }
  }

  lemma SentAreMoves(asked: seq<Asked>, feeds: map<Broadcaster, nat>, broadcasts: seq<nat>, at: nat)
    requires OnlyMoves(asked, feeds, broadcasts) && TookEffect(asked, at)
    ensures OnlyMoves(asked, feeds, broadcasts + [at])
  {
    forall i | 0 <= i < |broadcasts + [at]|
      ensures TookEffect(asked, (broadcasts + [at])[i])
    {
      assert (broadcasts + [at])[i] == if i < |broadcasts| then broadcasts[i] else at;
    }
  }

  lemma BroadcastKeepsHandled(stream: seq<Entry>, s: Group, b: Broadcaster, reply: Reply)
    requires Conserved(stream, s) && AckedWereHandled(stream, s)
    ensures var s' := BroadcastOne(s, b, reply); Conserved(stream, s') && AckedWereHandled(stream, s')
  {
  }

  // Who owes a broadcast, step by step.

  lemma ReadMatches(stream: seq<Entry>, s: Group, c: ConsumerId, n: nat, reply: Reply)
    requires FeedsMatch(s)
    ensures FeedsMatch(ReadOne(stream, s, c, n, reply))
  {
  }

  lemma ClaimMatches(s: Group, c: ConsumerId, ids: seq<EntryId>, reply: Reply)
    requires FeedsMatch(s)
    ensures FeedsMatch(ClaimOne(s, c, ids, reply))
  {
  }

  lemma DropMatches(s: Group, c: ConsumerId)
    requires FeedsMatch(s)
    ensures FeedsMatch(Drop(s, c))
  {
  }

  lemma AckMatches(s: Group, c: ConsumerId, reply: Reply)
    requires FeedsMatch(s)
    ensures FeedsMatch(AckOne(s, c, reply))
  {
  }

  lemma BroadcastMatches(s: Group, b: Broadcaster, reply: Reply)
    requires FeedsMatch(s)
    ensures FeedsMatch(BroadcastOne(s, b, reply))
  {
  }

  lemma AppliedMatches(s: Group, i: EntryId, c: ConsumerId, e: StatusEvent, reply: Reply)
    requires FeedsMatch(s) && c in s.batches && s.batches[c].phase == Handling
    ensures FeedsMatch(AppliedBy(s, i, c, e, reply))
  {
  }

  lemma AcknowledgingMatches(s: Group, c: ConsumerId)
    requires FeedsMatch(s) && c in s.batches && s.batches[c].phase == Handling
    ensures FeedsMatch(SetPhase(s, c, Acknowledging))
  {
  }

  /** A step that asks nothing of a video and starts no broadcast. */
  lemma QuietStep(stream: seq<Entry>, rows: Rows, s: Group, s': Group)
    requires GroupInv(stream, rows, s) && Conserved(stream, s') && AckedWereHandled(stream, s') && FeedsMatch(s')
    requires s'.asked == s.asked && s'.broadcasts == s.broadcasts
    requires forall b | b in s'.feeds :: b in s.feeds && s'.feeds[b] == s.feeds[b]
    ensures GroupInv(stream, rows, s')
  {
  }

  lemma HandledAppend(asked: seq<Asked>, x: Asked, v: VideoId)
    ensures HandledOf(asked + [x], v) == if x.videoId == v then HandledOf(asked, v) + [x.request]
            else HandledOf(asked, v)
    ensures StatusAfter(asked + [x], v)
            == if x.videoId == v then Move(StatusAfter(asked, v), x.request) else StatusAfter(asked, v)
  {
    assert (asked + [x])[..|asked|] == asked;
    FinalAppend(PENDING, HandledOf(asked, v), x.request);
  }

  /** A request to a live video, in the table and in the history at once; it takes effect in both or in neither. */
  lemma AskingDecides(stream: seq<Entry>, rows: Rows, asked: seq<Asked>, x: Asked)
    requires StatusIsDecided(rows, asked) && AskedAreCaused(stream, asked) && Live(rows, x.videoId)
             && IsCaused(stream, x)
    ensures StatusIsDecided(Marked(rows, x.videoId, x.request), asked + [x]) && AskedAreCaused(stream, asked + [x])
    ensures TookEffect(asked + [x], |asked|) <==> Applicable(rows, x.videoId, x.request)
    ensures !Applicable(rows, x.videoId, x.request) ==> StatusIsDecided(rows, asked + [x])
  {
    var rows' := Marked(rows, x.videoId, x.request);
    forall v | v in rows
      ensures v in rows' && rows'[v].status == StatusAfter(asked + [x], v)
      ensures !Applicable(rows, x.videoId, x.request) ==> rows[v].status == rows'[v].status
    {
      HandledAppend(asked, x, v);
    }
    assert (asked + [x])[..|asked|] == asked;
  }

  lemma AppliedKeepsHandled(stream: seq<Entry>, s: Group, i: EntryId, c: ConsumerId, e: StatusEvent, reply: Reply)
    requires Conserved(stream, s) && AckedWereHandled(stream, s) && c in s.batches && i == s.batches[c].todo[0]
    requires i < |stream| && TookEffect(s.asked + [Asked(Delivery(i), e.videoId, e.request)], |s.asked|)
    ensures var s' := AppliedBy(s, i, c, e, reply); Conserved(stream, s') && AckedWereHandled(stream, s')
  {
    var x := Asked(Delivery(i), e.videoId, e.request);
    AskKeepsHandled(stream, s, x);
    JudgeKeepsHandled(stream, Ask(s, x), i, Applied(|s.asked|));
  }

  lemma AppliedKeepsBroadcasts(s: Group, i: EntryId, c: ConsumerId, e: StatusEvent, reply: Reply)
    requires BroadcastOnce(s) && c in s.batches
    requires TookEffect(s.asked + [Asked(Delivery(i), e.videoId, e.request)], |s.asked|)
    ensures BroadcastOnce(AppliedBy(s, i, c, e, reply))
  {
    CommitKeepsBroadcasts(Judge(s, i, Applied(|s.asked|)), Consumer(c), Asked(Delivery(i), e.videoId, e.request),
        reply);
  }

  lemma ApplyKeepsInv(stream: seq<Entry>, rows: Rows, s: Group, c: ConsumerId, reply: Reply)
    requires GroupInv(stream, rows, s) && c in s.batches && s.batches[c].phase == Handling
    requires s.batches[c].todo[0] < |stream|
    requires var e := stream[s.batches[c].todo[0]]; e.Known? && Applicable(rows, e.event.videoId, e.event.request)
    ensures var e := stream[s.batches[c].todo[0]].event;
            GroupInv(stream, Marked(rows, e.videoId, e.request), AppliedBy(s, s.batches[c].todo[0], c, e, reply))
  {
    var i := s.batches[c].todo[0];
    var e := stream[i].event;
    AskingDecides(stream, rows, s.asked, Asked(Delivery(i), e.videoId, e.request));
    AppliedKeepsHandled(stream, s, i, c, e, reply);
    AppliedKeepsBroadcasts(s, i, c, e, reply);
    AppliedMatches(s, i, c, e, reply);
    assert AppliedBy(s, i, c, e, reply).asked == s.asked + [Asked(Delivery(i), e.videoId, e.request)];
  }

  lemma RefusedKeepsHandled(stream: seq<Entry>, s: Group, i: EntryId, x: Asked)
    requires AckedWereHandled(stream, s) && i < |stream| && x.asker == Delivery(i)
             && !TookEffect(s.asked + [x], |s.asked|)
    ensures AckedWereHandled(stream, Ask(Judge(s, i, NotAllowed(|s.asked|)), x))
  {
    AskKeepsHandled(stream, s, x);
    JudgeKeepsHandled(stream, Ask(s, x), i, NotAllowed(|s.asked|));
    assert Ask(Judge(s, i, NotAllowed(|s.asked|)), x) == Judge(Ask(s, x), i, NotAllowed(|s.asked|));
  }

  lemma RefuseKeepsInv(stream: seq<Entry>, rows: Rows, s: Group, i: EntryId)
    requires GroupInv(stream, rows, s) && i < |stream|
    requires var e := stream[i]; e.Known? ==> !Applicable(rows, e.event.videoId, e.event.request)
    ensures GroupInv(stream, rows, RefusedBy(s, i, rows, stream[i])) && i in RefusedBy(s, i, rows, stream[i]).verdicts
  {
    var e := stream[i];
    if !e.Known? {
      JudgeKeepsHandled(stream, s, i, Unusable);
      QuietStep(stream, rows, s, Judge(s, i, Unusable));
    } else if !Live(rows, e.event.videoId) {
      JudgeKeepsHandled(stream, s, i, NoSuchVideo);
      QuietStep(stream, rows, s, Judge(s, i, NoSuchVideo));
    } else {
      var x := Asked(Delivery(i), e.event.videoId, e.event.request);
      AskingDecides(stream, rows, s.asked, x);
      AskKeepsBroadcasts(s, x);
      RefusedKeepsHandled(stream, s, i, x);
      assert RefusedBy(s, i, rows, e) == Ask(Judge(s, i, NotAllowed(|s.asked|)), x);
    }
  }

  lemma AcknowledgingKeepsInv(stream: seq<Entry>, rows: Rows, s: Group, c: ConsumerId)
    requires GroupInv(stream, rows, s) && c in s.batches && s.batches[c].phase == Handling
    requires s.batches[c].todo[0] in s.verdicts
    ensures GroupInv(stream, rows, SetPhase(s, c, Acknowledging))
  {
    AcknowledgingMatches(s, c);
    QuietStep(stream, rows, s, SetPhase(s, c, Acknowledging));
  }

  lemma DropKeepsInv(stream: seq<Entry>, rows: Rows, s: Group, c: ConsumerId)
    requires GroupInv(stream, rows, s)
    ensures GroupInv(stream, rows, Drop(s, c))
  {
    DropMatches(s, c);
    QuietStep(stream, rows, s, Drop(s, c));
  }

  lemma HandleKeepsInv(stream: seq<Entry>, rows: Rows, s: Group, c: ConsumerId, reply: Reply)
    requires GroupInv(stream, rows, s)
    ensures var (rows', s') := HandleOne(stream, rows, s, c, reply); GroupInv(stream, rows', s')
  {
    if AtHead(stream, s, c) {
      var i := s.batches[c].todo[0];
      var e := stream[i];
      if !reply.TookEffect() {
        DropKeepsInv(stream, rows, s, c);
      }
      if e.Known? && Applicable(rows, e.event.videoId, e.event.request) {
        ApplyKeepsInv(stream, rows, s, c, reply);
      } else if e.Known? && reply.Raised() {
        DropKeepsInv(stream, rows, s, c);
      } else {
        RefuseKeepsInv(stream, rows, s, i);
        AcknowledgingKeepsInv(stream, rows, RefusedBy(s, i, rows, e), c);
      }
    }
  }

  lemma CancelKeepsInv(stream: seq<Entry>, rows: Rows, s: Group, k: CallerId, v: VideoId, reply: Reply)
    requires GroupInv(stream, rows, s)
    ensures var (rows', s') := CancelOne(rows, s, k, v, reply); GroupInv(stream, rows', s')
  {
    if Applicable(rows, v, Failed) && reply.TookEffect() {
      var x := Asked(User, v, Failed);
      AskingDecides(stream, rows, s.asked, x);
      AskKeepsHandled(stream, s, x);
      CommitKeepsBroadcasts(s, Caller(k), x, reply);
    }
  }

  lemma ReadStep(stream: seq<Entry>, rows: Rows, s: Group, c: ConsumerId, n: nat, reply: Reply)
    requires GroupInv(stream, rows, s)
    ensures GroupInv(stream, rows, ReadOne(stream, s, c, n, reply))
  {
    ReadKeepsInv(stream, s, c, n, reply);
    ReadMatches(stream, s, c, n, reply);
    QuietStep(stream, rows, s, ReadOne(stream, s, c, n, reply));
  }

  lemma ClaimStep(stream: seq<Entry>, rows: Rows, s: Group, c: ConsumerId, ids: seq<EntryId>, reply: Reply)
    requires GroupInv(stream, rows, s)
    ensures GroupInv(stream, rows, ClaimOne(s, c, ids, reply))
  {
    ClaimKeepsInv(stream, s, c, ids, reply);
    ClaimMatches(s, c, ids, reply);
    QuietStep(stream, rows, s, ClaimOne(s, c, ids, reply));
  }

  lemma AckStep(stream: seq<Entry>, rows: Rows, s: Group, c: ConsumerId, reply: Reply)
    requires GroupInv(stream, rows, s)
    ensures GroupInv(stream, rows, AckOne(s, c, reply))
  {
    AckKeepsInv(stream, s, c, reply);
    AckMatches(s, c, reply);
    QuietStep(stream, rows, s, AckOne(s, c, reply));
  }

  lemma CrashStep(stream: seq<Entry>, rows: Rows, s: Group, c: ConsumerId, k: CallerId)
    requires GroupInv(stream, rows, s)
    ensures GroupInv(stream, rows, Drop(s, c)) && GroupInv(stream, rows, s.(feeds := s.feeds - {Caller(k)}))
  {
    DropKeepsInv(stream, rows, s, c);
    QuietStep(stream, rows, s, s.(feeds := s.feeds - {Caller(k)}));
  }

  lemma BroadcastStep(stream: seq<Entry>, rows: Rows, s: Group, b: Broadcaster, reply: Reply)
    requires GroupInv(stream, rows, s)
    ensures GroupInv(stream, rows, BroadcastOne(s, b, reply))
  {
    BroadcastKeepsOnce(s, b, reply);
    BroadcastKeepsHandled(stream, s, b, reply);
    BroadcastMatches(s, b, reply);
    assert BroadcastOne(s, b, reply).asked == s.asked;
  }

  lemma ConsumerStepKeepsInv(stream: seq<Entry>, rows: Rows, s: Group, step: ConsumerStep)
    requires GroupInv(stream, rows, s)
    ensures var (rows', s') := ConsumerNext(stream, rows, s, step); GroupInv(stream, rows', s')
  {
    match step {
      case ReadNew(c, n, reply) => ReadStep(stream, rows, s, c, n, reply);
      case ClaimStale(c, ids, reply) => ClaimStep(stream, rows, s, c, ids, reply);
      case HandleHead(c, reply) => HandleKeepsInv(stream, rows, s, c, reply);
      case Broadcast(b, reply) => BroadcastStep(stream, rows, s, b, reply);
      case AckHead(c, reply) => AckStep(stream, rows, s, c, reply);
      case CrashConsumer(c) => CrashStep(stream, rows, s, c, 0);
      case Cancel(k, v, reply) => CancelKeepsInv(stream, rows, s, k, v, reply);
      case CrashCaller(k) => CrashStep(stream, rows, s, 0, k);
    }
  }

  lemma RefusalJudges(s: Group, i: EntryId, rows: Rows, e: Entry, k: EntryId)
    ensures var s' := RefusedBy(s, i, rows, e);
            k in s'.verdicts && NoSuchVideo in s'.verdicts[k] ==>
              || (k in s.verdicts && NoSuchVideo in s.verdicts[k])
              || (k == i && e.Known? && !Live(rows, e.event.videoId))
  {
  }

  lemma ApplyingJudges(s: Group, i: EntryId, c: ConsumerId, e: StatusEvent, reply: Reply, k: EntryId)
    requires c in s.batches
    ensures var s' := AppliedBy(s, i, c, e, reply);
            k in s'.verdicts && NoSuchVideo in s'.verdicts[k] ==> k in s.verdicts && NoSuchVideo in s.verdicts[k]
  {
  }

  /** Only the handling of an entry passes a verdict: on that entry, and no such video only where none is live. */
  lemma HandlingJudges(stream: seq<Entry>, rows: Rows, s: Group, c: ConsumerId, reply: Reply, k: EntryId)
    ensures var s' := HandleOne(stream, rows, s, c, reply).1;
            k in s'.verdicts && NoSuchVideo in s'.verdicts[k] ==>
              || (k in s.verdicts && NoSuchVideo in s.verdicts[k])
              || (k < |stream| && stream[k].Known? && !Live(rows, stream[k].event.videoId))
  {
    if AtHead(stream, s, c) {
      var i := s.batches[c].todo[0];
      var e := stream[i];
      RefusalJudges(s, i, rows, e, k);
      if e.Known? {
        ApplyingJudges(s, i, c, e.event, reply, k);
      }
    }
  }

  lemma OthersDoNotJudge(stream: seq<Entry>, rows: Rows, s: Group, step: ConsumerStep)
    requires !step.HandleHead?
    ensures ConsumerNext(stream, rows, s, step).1.verdicts == s.verdicts
  {
  }

  lemma NewEntriesKeepInv(stream: seq<Entry>, stream': seq<Entry>, rows: Rows, s: Group)
    requires GroupInv(stream, rows, s) && stream <= stream'
    ensures GroupInv(stream', rows, s)
  {
  }

  /** New videos are PENDING, deletions touch no status. */
  lemma OtherRowsKeepInv(stream: seq<Entry>, rows: Rows, rows': Rows, s: Group)
    requires GroupInv(stream, rows, s) && rows.Keys <= rows'.Keys
    requires forall v | v in rows :: rows'[v].status == rows[v].status
    requires forall v | v in rows' && v !in rows :: rows'[v].status == PENDING
    ensures GroupInv(stream, rows', s)
  {
    forall v | v in rows' && v !in rows
      ensures StatusAfter(s.asked, v) == PENDING
    {
      NothingAsked(s.asked, v);
    }
  }

  lemma {:induction false} NothingAsked(asked: seq<Asked>, v: VideoId)
    requires forall i | 0 <= i < |asked| :: asked[i].videoId != v
    ensures HandledOf(asked, v) == []
    decreases |asked|
  {
    if asked != [] {
      NothingAsked(asked[..|asked| - 1], v);
    }
  }

  // ---- what the invariant means ----

  /** What was asked of a video later comes after what was asked of it before. */
  lemma {:induction false} HandledGrows(asked: seq<Asked>, v: VideoId, i: nat, j: nat) returns (more: seq<Request>)
    requires i <= j <= |asked|
    ensures HandledOf(asked[..j], v) == HandledOf(asked[..i], v) + more
    ensures StatusAfter(asked[..j], v) == Final(StatusAfter(asked[..i], v), more)
    decreases j
  {
    if i == j {
      more := [];
    } else {
      more := HandledGrows(asked, v, i, j - 1);
      var x := asked[j - 1];
      assert asked[..j] == asked[..j - 1] + [x];
      HandledAppend(asked[..j - 1], x, v);
      if x.videoId == v {
        more := more + [x.request];
      }
      FinalConcat(PENDING, HandledOf(asked[..i], v), more);
    }
  }

  lemma {:induction false} HandledWasAsked(asked: seq<Asked>, v: VideoId, r: Request) returns (i: nat)
    requires r in HandledOf(asked, v)
    ensures i < |asked| && asked[i].videoId == v && asked[i].request == r
    decreases |asked|
  {
    i := |asked| - 1;
    if asked[i].videoId != v || asked[i].request != r {
      i := HandledWasAsked(asked[..i], v, r);
    }
  }

  /** A user cancelled the video. */
  predicate Cancelled(s: Group, v: VideoId) {
    Asked(User, v, Failed) in s.asked
  }

  /** Whatever was asked of a video is an event on the stream, or a cancel. */
  lemma HandledIsCaused(stream: seq<Entry>, rows: Rows, s: Group, v: VideoId, r: Request)
    requires GroupInv(stream, rows, s) && r in HandledOf(s.asked, v)
    ensures Known(StatusEvent(r, v)) in stream || (r == Failed && Cancelled(s, v))
  {
    var i := HandledWasAsked(s.asked, v, r);
    assert IsCaused(stream, s.asked[i]) && s.asked[i] in s.asked;
  }

  /** The stored status is decided by the order of what was asked of the video, and the events (or the cancel)
      that lead there are all there. */
  lemma StatusWasAskedFor(stream: seq<Entry>, rows: Rows, s: Group, v: VideoId)
    requires GroupInv(stream, rows, s) && v in rows
    ensures var handled := HandledOf(s.asked, v);
            && (rows[v].status == DONE <==> CompletedInOrder(handled))
            && (rows[v].status == FAILED <==> !CompletedInOrder(handled) && Failed in handled)
            && (rows[v].status == PROCESSING <==>
               !CompletedInOrder(handled) && Failed !in handled && Started in handled)
    ensures rows[v].status == PROCESSING || rows[v].status == DONE ==> Known(StatusEvent(Started, v)) in stream
    ensures rows[v].status == DONE ==> Known(StatusEvent(Processed, v)) in stream
    ensures rows[v].status == FAILED ==> Known(StatusEvent(Failed, v)) in stream || Cancelled(s, v)
  {
    var handled := HandledOf(s.asked, v);
    FinalFromPending(handled);
    if rows[v].status == DONE {
      assert Started in handled && Processed in handled;
    }
    if Started in handled { HandledIsCaused(stream, rows, s, v, Started); }
    if Processed in handled { HandledIsCaused(stream, rows, s, v, Processed); }
    if Failed in handled { HandledIsCaused(stream, rows, s, v, Failed); }
  }

  /** A video's committed history is a path of the machine of at most two moves and ends in its stored status. */
  lemma CommittedHistoryIsPath(rows: Rows, asked: seq<Asked>, v: VideoId)
    requires StatusIsDecided(rows, asked) && v in rows
    ensures var h := History(PENDING, HandledOf(asked, v));
            && h[0] == PENDING && h[|h| - 1] == rows[v].status && |h| <= 3
            && (forall i | 0 <= i < |h| - 1 :: h[i + 1] in Allowed(h[i]))
  {
    HistoryIsPath(PENDING, HandledOf(asked, v));
  }

  /** The same request takes effect on a video at most once. */
  lemma NoMoveTwice(asked: seq<Asked>, i: nat, j: nat)
    requires i < j && TookEffect(asked, i) && TookEffect(asked, j) && asked[i].videoId == asked[j].videoId
    ensures asked[i].request != asked[j].request
  {
    var v, r := asked[i].videoId, asked[i].request;
    if asked[j].request == r {
      assert asked[..i + 1] == asked[..i] + [asked[i]];
      HandledAppend(asked[..i], asked[i], v);
      var more := HandledGrows(asked, v, i + 1, j);
      RedeliveryChangesNothing(StatusBefore(asked, i), r, more);
      MovesMove(StatusBefore(asked, j), r);
    }
  }

  /** An entry is an entry of one event. */
  lemma DeliveriesAgree(stream: seq<Entry>, asked: seq<Asked>, i: EntryId, m: nat, n: nat)
    requires AskedAreCaused(stream, asked) && m < |asked| && n < |asked|
             && asked[m].asker == asked[n].asker == Delivery(i)
    ensures asked[m] == asked[n]
  {
    assert IsCaused(stream, asked[m]) && IsCaused(stream, asked[n]);
  }

  /** However often an entry is delivered, it takes effect at most once. */
  lemma AppliedOnce(stream: seq<Entry>, rows: Rows, s: Group, i: EntryId, m: nat, n: nat)
    requires GroupInv(stream, rows, s) && i in s.verdicts && Applied(m) in s.verdicts[i] && Applied(n) in s.verdicts[i]
    ensures m == n
  {
    assert VerdictIsSound(stream, s.asked, i, Applied(m)) && VerdictIsSound(stream, s.asked, i, Applied(n));
    DeliveriesAgree(stream, s.asked, i, m, n);
    if m < n {
      NoMoveTwice(s.asked, m, n);
    } else if n < m {
      NoMoveTwice(s.asked, n, m);
    }
  }

  /** Exactly-once effect, over whatever deliveries led here. */
  lemma EffectsOnce(stream: seq<Entry>, rows: Rows, s: Group)
    requires GroupInv(stream, rows, s)
    ensures Distinct(s.broadcasts) && forall k | 0 <= k < |s.broadcasts| :: TookEffect(s.asked, s.broadcasts[k])
    ensures forall i, m, n | i in s.verdicts && Applied(m) in s.verdicts[i] && Applied(n) in s.verdicts[i] :: m == n
    ensures forall v | v in rows ::
              var h := History(PENDING, HandledOf(s.asked, v));
              && h[|h| - 1] == rows[v].status && |h| <= 3
              && forall k | 0 <= k < |h| - 1 :: h[k + 1] in Allowed(h[k])
  {
    forall i, m, n | i in s.verdicts && Applied(m) in s.verdicts[i] && Applied(n) in s.verdicts[i]
      ensures m == n
    {
      AppliedOnce(stream, rows, s, i, m, n);
    }
    forall v | v in rows
      ensures var h := History(PENDING, HandledOf(s.asked, v));
              && h[|h| - 1] == rows[v].status && |h| <= 3
              && forall k | 0 <= k < |h| - 1 :: h[k + 1] in Allowed(h[k])
    {
      CommittedHistoryIsPath(rows, s.asked, v);
    }
  }

  /** The consumer acknowledges every refused move as permanently inapplicable. It is, unless the move is
      processed and the video still PENDING: exactly then a later status would have allowed it. */
  lemma RefusalIsPermanentIff(status: VideoStatus, r: Request)
    requires Target(r) !in Allowed(status)
    ensures (forall rs: seq<Request> :: Target(r) !in Allowed(Final(status, rs))) <==>
            !(status == PENDING && r == Processed)
  {
    if status == PENDING && r == Processed {
      var later := [Started];
      assert later[1..] == [] && Final(status, later) == PROCESSING;
      assert Target(r) in Allowed(Final(status, later));
    } else {
      forall rs: seq<Request>
        ensures Target(r) !in Allowed(Final(status, rs))
      {
        RankGrows(status, rs);
      }
    }
  }

  /** A refused entry was refused by the status that its video had then, and was refused rightly ever after,
      unless it was processed on a PENDING video. */
  lemma RefusalStaysRight(stream: seq<Entry>, rows: Rows, s: Group, i: EntryId, at: nat, n: nat)
    requires GroupInv(stream, rows, s) && i in s.verdicts && NotAllowed(at) in s.verdicts[i] && at <= n <= |s.asked|
    ensures at < |s.asked| && i < |stream| && stream[i] == Known(StatusEvent(s.asked[at].request, s.asked[at].videoId))
    ensures var r, found := s.asked[at].request, StatusBefore(s.asked, at);
            && Target(r) !in Allowed(found)
            && (!(found == PENDING && r == Processed) ==>
               Target(r) !in Allowed(StatusAfter(s.asked[..n], s.asked[at].videoId)))
  {
    assert VerdictIsSound(stream, s.asked, i, NotAllowed(at));
    assert IsCaused(stream, s.asked[at]);
    var more := HandledGrows(s.asked, s.asked[at].videoId, at, n);
    RefusalIsPermanentIff(StatusBefore(s.asked, at), s.asked[at].request);
  }
}
