/** OutboxRelay: several relays drain the committed outbox into a stream, each drain row by row, and any
    await of any drain may fail. */
module OutboxRelay {
  import opened Wrappers
  import opened VideoAgg
  import opened Uploads
  import Keyset

  type RelayId = nat
  type Outbox = map<EventId, OutboxRow>

  /** A video_uploaded message: the row's id and its payload's video. */
  datatype UploadMsg = UploadMsg(eventId: EventId, videoId: VideoId)

  /** An open drain: the rows it locked, and how many of them it has published. */
  datatype Drain = Drain(rows: seq<EventId>, published: nat)

  /** `aborted` counts, per row, the copies published by drains that then rolled back. */
  datatype Relay = Relay(
    drains: map<RelayId, Drain>, sent: set<EventId>, stream: seq<UploadMsg>, aborted: multiset<EventId>)

  const IDLE := Relay(map[], {}, [], multiset{})

  datatype RelayStep =
    | ClaimRows(relay: RelayId, rows: seq<EventId>)
    | XAdd(relay: RelayId, reply: Reply)
    | MarkAndCommit(relay: RelayId, reply: Reply)
    | CrashRelay(relay: RelayId)

  function Message(outbox: Outbox, e: EventId): UploadMsg
    requires e in outbox
  {
    UploadMsg(e, outbox[e].videoId)
  }

  predicate Locked(r: Relay, e: EventId) {
    exists d :: d in r.drains && e in r.drains[d].rows
  }

  predicate Claimable(outbox: Outbox, r: Relay, e: EventId) {
    e in outbox && e !in r.sent && !Locked(r, e)
  }

  function Elements(rows: seq<EventId>): set<EventId> {
    set e | e in rows
  }

  predicate Distinct<T(==)>(s: seq<T>) {
    forall i, j | 0 <= i < j < |s| :: s[i] != s[j]
  }

  predicate Known(outbox: Outbox, rows: seq<EventId>) {
    forall i | 0 <= i < |rows| :: rows[i] in outbox
  }

  predicate OldestFirst(outbox: Outbox, rows: seq<EventId>)
    requires Known(outbox, rows)
  {
    forall i, j | 0 <= i < j < |rows| :: outbox[rows[i]].createdAt <= outbox[rows[j]].createdAt
  }

  /** What SELECT ... WHERE sent_at IS NULL ORDER BY created_at FOR UPDATE SKIP LOCKED LIMIT batch may
      return (rows with the same created_at come in any order). */
  predicate ValidClaim(outbox: Outbox, r: Relay, batch: Positive, rows: seq<EventId>) {
    && Distinct(rows) && |rows| <= batch
    && (forall i | 0 <= i < |rows| :: Claimable(outbox, r, rows[i]))
    && OldestFirst(outbox, rows)
    && (forall e | e in outbox && Claimable(outbox, r, e) && e !in rows ::
          |rows| == batch && forall x | x in rows :: outbox[x].createdAt <= outbox[e].createdAt)
  }

  function Abort(r: Relay, d: RelayId, published: nat): Relay
    requires d in r.drains && published <= |r.drains[d].rows|
  {
    r.(drains := r.drains - {d}, aborted := r.aborted + multiset(r.drains[d].rows[..published]))
  }

  /** xadd of the next claimed row. */
  function Publish(outbox: Outbox, r: Relay, d: RelayId, reply: Reply): Relay
    requires d in r.drains && r.drains[d].published < |r.drains[d].rows|
    requires r.drains[d].rows[r.drains[d].published] in outbox
  {
    var drain := r.drains[d];
    var out := if reply.TookEffect() then r.stream + [Message(outbox, drain.rows[drain.published])] else r.stream;
    if reply == Reply.Done then r.(stream := out, drains := r.drains[d := drain.(published := drain.published + 1)])
    else Abort(r, d, drain.published + if reply == Lost then 1 else 0).(stream := out)
  }

  /** UPDATE ... SET sent_at and the commit that releases the locks. */
  function Finish(r: Relay, d: RelayId, reply: Reply): Relay
    requires d in r.drains && r.drains[d].published == |r.drains[d].rows|
  {
    var rows := r.drains[d].rows;
    if reply.TookEffect() then r.(drains := r.drains - {d}, sent := r.sent + Elements(rows))
    else Abort(r, d, |rows|)
  }

  /** A step that is not enabled is no step; a claim that finds nothing returns 0 at once. */
  function RelayNext(batch: Positive, outbox: Outbox, r: Relay, s: RelayStep): Relay {
    match s
    case ClaimRows(d, rows) =>
      if d in r.drains || rows == [] || !ValidClaim(outbox, r, batch, rows) then r
      else Opened(r, d, rows)
    case XAdd(d, reply) =>
      if d in r.drains && r.drains[d].published < |r.drains[d].rows|
          && r.drains[d].rows[r.drains[d].published] in outbox
      then Publish(outbox, r, d, reply) else r
    case MarkAndCommit(d, reply) =>
      if d in r.drains && r.drains[d].published == |r.drains[d].rows| then Finish(r, d, reply) else r
    case CrashRelay(d) =>
      if d in r.drains && r.drains[d].published <= |r.drains[d].rows| then Abort(r, d, r.drains[d].published) else r
  }

  // ---- invariant ----

  predicate DrainsAreDisjoint(outbox: Outbox, r: Relay) {
    && (forall d | d in r.drains ::
          && Distinct(r.drains[d].rows) && r.drains[d].published <= |r.drains[d].rows|
          && forall e | e in r.drains[d].rows :: e in outbox && e !in r.sent)
    && (forall c, d | c in r.drains && d in r.drains && c != d :: forall e | e in r.drains[c].rows ::
       e !in r.drains[d].rows)
  }

  predicate StreamIsCommitted(outbox: Outbox, r: Relay) {
    && (forall m | m in r.stream :: m.eventId in outbox && m == Message(outbox, m.eventId))
    && (forall e | e in r.sent :: e in outbox)
  }

  /** The row has been published by the drain that holds it. */
  predicate InFlight(r: Relay, e: EventId) {
    exists d :: d in r.drains && r.drains[d].published <= |r.drains[d].rows|
        && e in r.drains[d].rows[..r.drains[d].published]
  }

  /** How often a row's message is on the stream. */
  function Copies(outbox: Outbox, r: Relay, e: EventId): nat
    requires e in outbox
  {
    multiset(r.stream)[Message(outbox, e)]
  }

  /** One copy for being sent, one per aborted drain that had published it, one for an open drain that has. */
  predicate Conserved(outbox: Outbox, r: Relay) {
    forall e | e in outbox ::
      Copies(outbox, r, e) == (if e in r.sent then 1 else 0) + r.aborted[e] + (if InFlight(r, e) then 1 else 0)
  }

  predicate RelayInv(outbox: Outbox, r: Relay) {
    DrainsAreDisjoint(outbox, r) && StreamIsCommitted(outbox, r) && Conserved(outbox, r)
      && (forall e | e in r.aborted :: e in outbox)
  }

  lemma DistinctPrefix(rows: seq<EventId>, n: nat, e: EventId)
    requires Distinct(rows) && n <= |rows|
    ensures multiset(rows[..n])[e] == if e in rows[..n] then 1 else 0
  {
    if n > 0 {
      DistinctPrefix(rows, n - 1, e);
      assert rows[..n] == rows[..n - 1] + [rows[n - 1]];
      assert rows[n - 1] !in rows[..n - 1];
    }
  }

  function Opened(r: Relay, d: RelayId, rows: seq<EventId>): Relay {
    r.(drains := r.drains[d := Drain(rows, 0)])
  }

  lemma ClaimIsDisjoint(batch: Positive, outbox: Outbox, r: Relay, d: RelayId, rows: seq<EventId>)
    requires DrainsAreDisjoint(outbox, r) && d !in r.drains && ValidClaim(outbox, r, batch, rows)
    ensures DrainsAreDisjoint(outbox, Opened(r, d, rows))
  {
    forall c, e | c in r.drains && e in rows
      ensures e !in r.drains[c].rows
    {
      assert Claimable(outbox, r, e);
    }
  }

  lemma ClaimInFlight(r: Relay, d: RelayId, rows: seq<EventId>, e: EventId)
    requires d !in r.drains
    ensures InFlight(Opened(r, d, rows), e) == InFlight(r, e)
  {
    var r' := Opened(r, d, rows);
    if InFlight(r, e) {
      var c :| c in r.drains && r.drains[c].published <= |r.drains[c].rows|
          && e in r.drains[c].rows[..r.drains[c].published];
      assert c in r'.drains && r'.drains[c] == r.drains[c];
    }
    assert rows[..0] == [];
  }

  lemma ClaimKeepsInv(batch: Positive, outbox: Outbox, r: Relay, d: RelayId, rows: seq<EventId>)
    requires RelayInv(outbox, r) && d !in r.drains && ValidClaim(outbox, r, batch, rows)
    ensures RelayInv(outbox, Opened(r, d, rows))
  {
    ClaimIsDisjoint(batch, outbox, r, d, rows);
    var r' := Opened(r, d, rows);
    forall e | e in outbox
      ensures Copies(outbox, r', e) == (if e in r'.sent then 1 else 0) + r'.aborted[e]
              + (if InFlight(r', e) then 1 else 0)
    {
      ClaimInFlight(r, d, rows, e);
    }
  }

  /** Whether a row is in flight once one drain is gone. */
  lemma InFlightWithout(outbox: Outbox, r: Relay, d: RelayId, e: EventId)
    requires DrainsAreDisjoint(outbox, r) && d in r.drains
    ensures InFlight(r.(drains := r.drains - {d}), e) == (InFlight(r, e)
            && e !in r.drains[d].rows[..r.drains[d].published])
    ensures e in r.drains[d].rows[..r.drains[d].published] ==> InFlight(r, e)
  {
    var r' := r.(drains := r.drains - {d});
    if InFlight(r, e) && e !in r.drains[d].rows[..r.drains[d].published] {
      var c :| c in r.drains && r.drains[c].published <= |r.drains[c].rows|
          && e in r.drains[c].rows[..r.drains[c].published];
      assert c in r'.drains && r'.drains[c] == r.drains[c];
    }
    if InFlight(r', e) {
      var c :| c in r'.drains && r'.drains[c].published <= |r'.drains[c].rows|
          && e in r'.drains[c].rows[..r'.drains[c].published];
      assert c in r.drains && r.drains[c] == r'.drains[c] && e in r.drains[c].rows;
    }
  }

  lemma AbortKeepsInv(outbox: Outbox, r: Relay, d: RelayId)
    requires RelayInv(outbox, r) && d in r.drains
    ensures RelayInv(outbox, Abort(r, d, r.drains[d].published))
  {
    var drain := r.drains[d];
    forall e | e in outbox
      ensures Copies(outbox, r, e) == (if e in r.sent then 1 else 0) + Abort(r, d, drain.published).aborted[e]
                                      + (if InFlight(Abort(r, d, drain.published), e) then 1 else 0)
    {
      InFlightWithout(outbox, r, d, e);
      DistinctPrefix(drain.rows, drain.published, e);
      assert InFlight(Abort(r, d, drain.published), e) == InFlight(r.(drains := r.drains - {d}), e);
    }
  }

  lemma XAddConserves(outbox: Outbox, r: Relay, d: RelayId)
    requires RelayInv(outbox, r) && d in r.drains && r.drains[d].published < |r.drains[d].rows|
    ensures r.drains[d].rows[r.drains[d].published] in outbox
    ensures Conserved(outbox, Publish(outbox, r, d, Reply.Done))
  {
    var x := r.drains[d].rows[r.drains[d].published];
    assert x in outbox;
    var r' := Publish(outbox, r, d, Reply.Done);
    forall e | e in outbox
      ensures Copies(outbox, r', e) == (if e in r'.sent then 1 else 0) + r'.aborted[e]
              + (if InFlight(r', e) then 1 else 0)
    {
      InFlightStep(outbox, r, d, e);
      assert InFlight(r', e) == (InFlight(r, e) || e == x);
      assert Copies(outbox, r', e) == Copies(outbox, r, e) + if e == x then 1 else 0;
    }
  }

  lemma XAddKeepsInv(outbox: Outbox, r: Relay, d: RelayId)
    requires RelayInv(outbox, r) && d in r.drains && r.drains[d].published < |r.drains[d].rows|
    ensures r.drains[d].rows[r.drains[d].published] in outbox
    ensures RelayInv(outbox, Publish(outbox, r, d, Reply.Done))
  {
    XAddConserves(outbox, r, d);
  }

  lemma InFlightStep(outbox: Outbox, r: Relay, d: RelayId, e: EventId)
    requires DrainsAreDisjoint(outbox, r) && d in r.drains && r.drains[d].published < |r.drains[d].rows|
    ensures var drain := r.drains[d];
            var x := drain.rows[drain.published];
            var r' := r.(drains := r.drains[d := drain.(published := drain.published + 1)]);
            && InFlight(r', e) == (InFlight(r, e) || e == x)
            && (e == x ==> !InFlight(r, e))
  {
    var drain := r.drains[d];
    var x := drain.rows[drain.published];
    var r' := r.(drains := r.drains[d := drain.(published := drain.published + 1)]);
    assert drain.rows[..drain.published + 1] == drain.rows[..drain.published] + [x];
    forall c | c in r.drains && r.drains[c].published <= |r.drains[c].rows|
      ensures x !in r.drains[c].rows[..r.drains[c].published]
    {
      if c == d {
        assert forall i | 0 <= i < drain.published :: drain.rows[i] != x;
      } else {
        assert x in r.drains[d].rows;
      }
    }
    if InFlight(r, e) {
      var c :| c in r.drains && r.drains[c].published <= |r.drains[c].rows|
          && e in r.drains[c].rows[..r.drains[c].published];
      assert c in r'.drains && e in r'.drains[c].rows[..r'.drains[c].published];
    }
    if e == x {
      assert d in r'.drains && e in r'.drains[d].rows[..r'.drains[d].published];
    }
    if InFlight(r', e) {
      var c :| c in r'.drains && r'.drains[c].published <= |r'.drains[c].rows|
          && e in r'.drains[c].rows[..r'.drains[c].published];
      assert c in r.drains && (c != d ==> r.drains[c] == r'.drains[c]);
    }
  }

  lemma SentKeepsInv(outbox: Outbox, r: Relay, d: RelayId)
    requires RelayInv(outbox, r) && d in r.drains && r.drains[d].published == |r.drains[d].rows|
    ensures RelayInv(outbox, Finish(r, d, Reply.Done))
  {
    var rows := r.drains[d].rows;
    assert rows[..|rows|] == rows;
    forall e | e in outbox
      ensures InFlight(Finish(r, d, Reply.Done), e) == (InFlight(r, e) && e !in rows)
      ensures e in rows ==> InFlight(r, e) && e !in r.sent
    {
      InFlightWithout(outbox, r, d, e);
      assert InFlight(Finish(r, d, Reply.Done), e) == InFlight(r.(drains := r.drains - {d}), e);
    }
  }

  lemma PublishKeepsInv(outbox: Outbox, r: Relay, d: RelayId, reply: Reply)
    requires RelayInv(outbox, r) && d in r.drains && r.drains[d].published < |r.drains[d].rows|
    ensures r.drains[d].rows[r.drains[d].published] in outbox
    ensures RelayInv(outbox, Publish(outbox, r, d, reply))
  {
    XAddKeepsInv(outbox, r, d);
    if reply == Refused {
      AbortKeepsInv(outbox, r, d);
      assert Publish(outbox, r, d, reply) == Abort(r, d, r.drains[d].published);
    } else if reply == Lost {
      LostIsPublishThenAbort(outbox, r, d);
      AbortKeepsInv(outbox, Publish(outbox, r, d, Reply.Done), d);
    }
  }

  lemma LostIsPublishThenAbort(outbox: Outbox, r: Relay, d: RelayId)
    requires d in r.drains && r.drains[d].published < |r.drains[d].rows|
    requires r.drains[d].rows[r.drains[d].published] in outbox
    ensures var done := Publish(outbox, r, d, Reply.Done);
            Publish(outbox, r, d, Lost) == Abort(done, d, done.drains[d].published)
  {
    assert Publish(outbox, r, d, Reply.Done).drains - {d} == r.drains - {d};
  }

  lemma FinishKeepsInv(outbox: Outbox, r: Relay, d: RelayId, reply: Reply)
    requires RelayInv(outbox, r) && d in r.drains && r.drains[d].published == |r.drains[d].rows|
    ensures RelayInv(outbox, Finish(r, d, reply))
  {
    if reply.TookEffect() {
      SentKeepsInv(outbox, r, d);
      assert Finish(r, d, reply) == Finish(r, d, Reply.Done);
    } else {
      AbortKeepsInv(outbox, r, d);
    }
  }

  lemma RelayStepKeepsInv(batch: Positive, outbox: Outbox, r: Relay, s: RelayStep)
    requires RelayInv(outbox, r)
    ensures RelayInv(outbox, RelayNext(batch, outbox, r, s))
  {
    var r' := RelayNext(batch, outbox, r, s);
    if r' != r {
      match s {
        case ClaimRows(d, rows) =>
          ClaimKeepsInv(batch, outbox, r, d, rows);
          assert r' == Opened(r, d, rows);
        case XAdd(d, reply) =>
          PublishKeepsInv(outbox, r, d, reply);
          assert r' == Publish(outbox, r, d, reply);
        case MarkAndCommit(d, reply) =>
          FinishKeepsInv(outbox, r, d, reply);
          assert r' == Finish(r, d, reply);
        case CrashRelay(d) =>
          AbortKeepsInv(outbox, r, d);
          assert r' == Abort(r, d, r.drains[d].published);
      }
    }
  }

  /** New rows may be committed at any time: nothing of them is on the stream yet. */
  lemma NewRowsKeepInv(outbox: Outbox, outbox': Outbox, r: Relay)
    requires RelayInv(outbox, r)
    requires forall e | e in outbox :: e in outbox' && outbox'[e] == outbox[e]
    ensures RelayInv(outbox', r)
  {
    forall e | e in outbox' && e !in outbox
      ensures Copies(outbox', r, e) == 0 && !InFlight(r, e) && r.aborted[e] == 0 && e !in r.sent
    {
      if Message(outbox', e) in r.stream {
        assert false;
      }
    }
  }

  // ---- the drain method ----

  datatype RelayError = DrainFailed

  class OutboxTable {
    var rows: Outbox
    var sent: set<EventId>

    constructor (rows: Outbox)
      ensures this.rows == rows && sent == {}
    {
      this.rows, sent := rows, {};
    }

    /** SELECT ... FOR UPDATE SKIP LOCKED LIMIT batch, past the rows that other drains hold. */
    method Claim(locked: set<EventId>, batch: Positive, reply: Reply) returns (r: Result<seq<EventId>, RelayError>)
      ensures reply.Raised() ==> r == Err(DrainFailed)
      ensures !reply.Raised() ==> r.Ok? && OldestUnsent(rows, sent, locked, batch, r.value)
    {
      if reply.Raised() {
        return Err(DrainFailed);
      }
      var claimed: seq<EventId> := [];
      var free := set e | e in rows && e !in sent && e !in locked;
      while |claimed| < batch && free != {}
        invariant |claimed| <= batch && Distinct(claimed)
        invariant forall e | e in claimed || e in free :: e in rows && e !in sent && e !in locked
        invariant forall e | e in rows && e !in sent && e !in locked :: e in claimed || e in free
        invariant forall e | e in free :: e !in claimed && forall x | x in claimed ::
                  rows[x].createdAt <= rows[e].createdAt
        invariant forall i, j | 0 <= i < j < |claimed| :: rows[claimed[i]].createdAt <= rows[claimed[j]].createdAt
        decreases batch - |claimed|
      {
        HasOldest(rows, free);
        var e :| e in free && forall x | x in free :: rows[e].createdAt <= rows[x].createdAt;
        free := free - {e};
        claimed := claimed + [e];
      }
      r := Ok(claimed);
    }
  }

  /** The claim query over the tables as they stand: distinct unsent rows that no one holds, the oldest first, up to
      the batch size, and none older left out. */
  predicate OldestUnsent(
      outbox: Outbox, sent: set<EventId>, locked: set<EventId>, batch: Positive, claimed: seq<EventId>) {
    && Distinct(claimed) && |claimed| <= batch && Known(outbox, claimed)
    && (forall i | 0 <= i < |claimed| :: claimed[i] !in sent && claimed[i] !in locked)
    && OldestFirst(outbox, claimed)
    && (forall e | e in outbox && e !in sent && e !in locked && e !in claimed ::
          |claimed| == batch && forall x | x in claimed :: outbox[x].createdAt <= outbox[e].createdAt)
  }

  lemma {:induction false} HasOldest(outbox: Outbox, free: set<EventId>)
    requires free != {} && forall e | e in free :: e in outbox
    ensures exists e :: e in free && forall x | x in free :: outbox[e].createdAt <= outbox[x].createdAt
    decreases |free|
  {
    var e :| e in free;
    var rest := free - {e};
    if rest == {} {
      assert free == {e};
    } else {
      HasOldest(outbox, rest);
      var o :| o in rest && forall x | x in rest :: outbox[o].createdAt <= outbox[x].createdAt;
      var least := if outbox[e].createdAt <= outbox[o].createdAt then e else o;
      assert forall x | x in free :: x == e || x in rest;
      assert least in free && forall x | x in free :: outbox[least].createdAt <= outbox[x].createdAt;
    }
  }

  /** The rows that open drains hold. */
  function Held(r: Relay): set<EventId> {
    set d, e | d in r.drains && e in r.drains[d].rows :: e
  }

  /** The query that a drain runs returns what the protocol lets its claim take. */
  lemma ClaimIsValid(batch: Positive, outbox: Outbox, r: Relay, rows: seq<EventId>)
    ensures OldestUnsent(outbox, r.sent, Held(r), batch, rows) <==> ValidClaim(outbox, r, batch, rows)
  {
    assert forall e :: e in Held(r) <==> Locked(r, e);
  }

  class UploadStream {
    var entries: seq<UploadMsg>

    constructor ()
      ensures entries == []
    {
      entries := [];
    }

    method XAdd(m: UploadMsg, reply: Reply) returns (r: Result<(), RelayError>)
      modifies this
      ensures entries == if reply.TookEffect() then old(entries) + [m] else old(entries)
      ensures r == if reply.Raised() then Err(DrainFailed) else Ok(())
    {
      if reply.TookEffect() {
        entries := entries + [m];
      }
      r := if reply.Raised() then Err(DrainFailed) else Ok(());
    }
  }

  function Messages(outbox: Outbox, rows: seq<EventId>): (ms: seq<UploadMsg>)
    requires Known(outbox, rows)
    ensures |ms| == |rows|
    ensures forall i | 0 <= i < |rows| :: ms[i] == Message(outbox, rows[i])
  {
    seq(|rows|, i requires 0 <= i < |rows| => Message(outbox, rows[i]))
  }

  /** How many xadds took effect, the first failing one included if only its reply was lost. */
  function Published(replies: seq<Reply>): (n: nat)
    ensures n <= |replies|
  {
    if replies == [] || replies[0] == Refused then 0
    else if replies[0] == Lost then 1
    else 1 + Published(replies[1..])
  }

  /** All before the last of them were answered, the last took effect, and the next one failed, if there is one. */
  lemma {:induction false} PublishedInWords(replies: seq<Reply>)
    ensures var n := Published(replies);
            && (forall i | 0 <= i < n - 1 :: replies[i] == Reply.Done) && (n > 0 ==> replies[n - 1] != Refused)
            && (n < |replies| ==> replies[n] == Refused || (n > 0 && replies[n - 1] == Lost))
            && (n > 0 && replies[n - 1] == Reply.Done && n < |replies| ==> replies[n] == Refused)
  {
    if replies != [] && replies[0] == Reply.Done {
      PublishedInWords(replies[1..]);
    }
  }

  predicate AllDone(replies: seq<Reply>) {
    forall i | 0 <= i < |replies| :: replies[i] == Reply.Done
  }

  class OutboxRelay {
    const table: OutboxTable
    const stream: UploadStream
    const batch: Positive

    constructor (table: OutboxTable, stream: UploadStream, batch: Positive)
      ensures this.table == table && this.stream == stream && this.batch == batch
    {
      this.table, this.stream, this.batch := table, stream, batch;
    }

    /** _drain_once, past the rows that other drains hold and given how each await ends. */
    method DrainOnce(locked: set<EventId>, claim: Reply, replies: seq<Reply>, commit: Reply)
      returns (r: Result<nat, RelayError>, ghost rows: seq<EventId>)
      requires |replies| == batch
      modifies table`sent, stream
      ensures claim.Raised() ==> rows == [] && r == Err(DrainFailed)
      ensures !claim.Raised() ==> OldestUnsent(table.rows, old(table.sent), locked, batch, rows)
      ensures |rows| <= batch && Known(table.rows, rows)
      ensures stream.entries == old(stream.entries) + Messages(table.rows, rows[..Published(replies[..|rows|])])
      ensures table.sent == if rows != [] && AllDone(replies[..|rows|]) && commit.TookEffect() then
              old(table.sent) + Elements(rows)
                            else old(table.sent)
      ensures !claim.Raised() ==>
                r == if rows == [] then Ok(0)
                     else if AllDone(replies[..|rows|]) && commit == Reply.Done then Ok(|rows|)
                     else Err(DrainFailed)
      ensures r.Ok? ==>
                && r.value == |rows| && stream.entries[..|old(stream.entries)|] == old(stream.entries)
                && |stream.entries| == |old(stream.entries)| + |rows|
                && (forall i | 0 <= i < |rows| ::
                      stream.entries[|old(stream.entries)| + i] == UploadMsg(rows[i], table.rows[rows[i]].videoId))
                && (forall e :: e in table.sent <==> e in old(table.sent) || e in rows)
    {
      var claimed := table.Claim(locked, batch, claim);
      if claimed.Err? {
        return Err(DrainFailed), [];
      }
      rows := claimed.value;
      if claimed.value == [] {
        return Ok(0), rows;
      }
      r := PublishAndMark(claimed.value, replies[..|claimed.value|], commit);
      if r.Ok? {
        PublishedAll(replies[..|rows|]);
      }
    }

    /** The rest of a drain that claimed some rows. */
    method PublishAndMark(rows: seq<EventId>, replies: seq<Reply>, commit: Reply) returns (r: Result<nat, RelayError>)
      requires |replies| == |rows| && Known(table.rows, rows)
      modifies table`sent, stream
      ensures stream.entries == old(stream.entries) + Messages(table.rows, rows[..Published(replies)])
      ensures table.sent == if AllDone(replies) && commit.TookEffect() then old(table.sent) + Elements(rows)
              else old(table.sent)
      ensures r == if AllDone(replies) && commit == Reply.Done then Ok(|rows|) else Err(DrainFailed)
    {
      for i := 0 to |rows|
        invariant AllDone(replies[..i])
        invariant stream.entries == old(stream.entries) + Messages(table.rows, rows[..i])
        invariant table.sent == old(table.sent)
      {
        var added := stream.XAdd(UploadMsg(rows[i], table.rows[rows[i]].videoId), replies[i]);
        PublishedAt(replies, i);
        assert rows[..i + 1] == rows[..i] + [rows[i]];
        assert Messages(table.rows, rows[..i + 1]) == Messages(table.rows, rows[..i]) + [Message(table.rows, rows[i])];
        if added.Err? {
          return Err(DrainFailed);
        }
      }
      assert replies[..|rows|] == replies;
      PublishedAll(replies);
      assert rows[..|rows|] == rows;
      if commit.TookEffect() {
        table.sent := table.sent + Elements(rows);
      }
      r := if commit.Raised() then Err(DrainFailed) else Ok(|rows|);
    }
  }

  lemma {:induction false} PublishedAll(replies: seq<Reply>)
    requires AllDone(replies)
    ensures Published(replies) == |replies|
  {
    if replies != [] {
      PublishedAll(replies[1..]);
    }
  }

  lemma {:induction false} PublishedAt(replies: seq<Reply>, i: nat)
    requires i < |replies| && AllDone(replies[..i])
    ensures replies[i].Raised() ==> Published(replies) == (if replies[i] == Lost then i + 1 else i) && !AllDone(replies)
    ensures !replies[i].Raised() ==> AllDone(replies[..i + 1])
  {
    if i > 0 {
      assert replies[0] == replies[..i][0];
      assert replies[1..][..i - 1] == replies[..i][1..];
      PublishedAt(replies[1..], i - 1);
    }
  }

  // ---- one drain in the protocol ----

  function RunRelay(batch: Positive, outbox: Outbox, r: Relay, steps: seq<RelayStep>): Relay
    decreases steps
  {
    if steps == [] then r else RunRelay(batch, outbox, RelayNext(batch, outbox, r, steps[0]), steps[1..])
  }

  function DrainSteps(d: RelayId, replies: seq<Reply>, commit: Reply): seq<RelayStep> {
    if replies == [] then [MarkAndCommit(d, commit)] else [XAdd(d, replies[0])] + DrainSteps(d, replies[1..], commit)
  }

  /** What the awaits of a drain from row `at` on do to the stream, the sent marks and the locks. */
  ghost predicate DrainEffect(
      outbox: Outbox, r: Relay, d: RelayId, at: nat, replies: seq<Reply>, commit: Reply, r': Relay)
    requires d in r.drains && at + |replies| == |r.drains[d].rows| && Known(outbox, r.drains[d].rows)
  {
    var rows := r.drains[d].rows;
    && r'.stream == r.stream + Messages(outbox, rows[at..at + Published(replies)])
    && r'.sent == (if AllDone(replies) && commit.TookEffect() then r.sent + Elements(rows) else r.sent)
    && r'.drains == r.drains - {d}
  }

  /** From a claim on, the steps of one drain do to the stream and the table what the method does. */
  lemma {:induction false} DrainIsSteps(
      batch: Positive, outbox: Outbox, r: Relay, d: RelayId, at: nat, replies: seq<Reply>, commit: Reply)
    requires d in r.drains && r.drains[d].published == at && at + |replies| == |r.drains[d].rows|
    requires Known(outbox, r.drains[d].rows)
    ensures DrainEffect(outbox, r, d, at, replies, commit, RunRelay(batch, outbox, r, DrainSteps(d, replies, commit)))
    decreases replies
  {
    if replies == [] {
      CommitOnly(batch, outbox, r, d, commit);
    } else if replies[0] == Reply.Done {
      var r1 := Publish(outbox, r, d, Reply.Done);
      DrainIsSteps(batch, outbox, r1, d, at + 1, replies[1..], commit);
      DoneXAdd(batch, outbox, r, d, at, replies, commit);
    } else {
      FailedXAddEffect(batch, outbox, r, d, at, replies, commit);
    }
  }

  lemma DoneXAdd(
      batch: Positive, outbox: Outbox, r: Relay, d: RelayId, at: nat, replies: seq<Reply>, commit: Reply)
    requires d in r.drains && r.drains[d].published == at && at + |replies| == |r.drains[d].rows|
    requires Known(outbox, r.drains[d].rows) && replies != [] && replies[0] == Reply.Done
    requires var r1 := Publish(outbox, r, d, Reply.Done);
             DrainEffect(outbox, r1, d, at + 1, replies[1..], commit,
                         RunRelay(batch, outbox, r1, DrainSteps(d, replies[1..], commit)))
    ensures DrainEffect(outbox, r, d, at, replies, commit, RunRelay(batch, outbox, r, DrainSteps(d, replies, commit)))
  {
    FirstXAdd(batch, outbox, r, d, replies, commit);
    PrependXAdd(outbox, r, d, at, replies, commit, RunRelay(batch, outbox, r, DrainSteps(d, replies, commit)));
  }

  lemma FailedXAddEffect(
      batch: Positive, outbox: Outbox, r: Relay, d: RelayId, at: nat, replies: seq<Reply>, commit: Reply)
    requires d in r.drains && r.drains[d].published == at && at + |replies| == |r.drains[d].rows|
    requires Known(outbox, r.drains[d].rows) && replies != [] && replies[0].Raised()
    ensures DrainEffect(outbox, r, d, at, replies, commit, RunRelay(batch, outbox, r, DrainSteps(d, replies, commit)))
  {
    FailedXAdd(batch, outbox, r, d, replies, commit);
  }

  lemma PrependXAdd(outbox: Outbox, r: Relay, d: RelayId, at: nat, replies: seq<Reply>, commit: Reply, r': Relay)
    requires d in r.drains && r.drains[d].published == at && at + |replies| == |r.drains[d].rows|
    requires Known(outbox, r.drains[d].rows) && replies != [] && replies[0] == Reply.Done
    requires DrainEffect(outbox, Publish(outbox, r, d, Reply.Done), d, at + 1, replies[1..], commit, r')
    ensures DrainEffect(outbox, r, d, at, replies, commit, r')
  {
    var rows, n := r.drains[d].rows, Published(replies[1..]);
    AllDoneCons(replies);
    MessagesFrom(outbox, rows, at, n);
    PublishOpens(outbox, r, d);
    AppendMessages(r.stream, Message(outbox, rows[at]), Messages(outbox, rows[at + 1..at + 1 + n]));
  }

  lemma AppendMessages(stream: seq<UploadMsg>, m: UploadMsg, tail: seq<UploadMsg>)
    ensures stream + ([m] + tail) == (stream + [m]) + tail
  {
  }

  lemma PublishOpens(outbox: Outbox, r: Relay, d: RelayId)
    requires d in r.drains && r.drains[d].published < |r.drains[d].rows|
             && r.drains[d].rows[r.drains[d].published] in outbox
    ensures var drain, r' := r.drains[d], Publish(outbox, r, d, Reply.Done);
            && r'.drains - {d} == r.drains - {d} && d in r'.drains && r'.drains[d].rows == drain.rows
            && r'.sent == r.sent && r'.stream == r.stream + [Message(outbox, drain.rows[drain.published])]
  {
  }

  lemma AllDoneCons(replies: seq<Reply>)
    requires replies != [] && replies[0] == Reply.Done
    ensures AllDone(replies) <==> AllDone(replies[1..])
    ensures Published(replies) == 1 + Published(replies[1..])
  {
    assert replies == [replies[0]] + replies[1..];
  }

  lemma CommitOnly(batch: Positive, outbox: Outbox, r: Relay, d: RelayId, commit: Reply)
    requires d in r.drains && r.drains[d].published == |r.drains[d].rows|
    ensures var r' := RunRelay(batch, outbox, r, DrainSteps(d, [], commit));
            && r'.stream == r.stream + [] && r'.drains == r.drains - {d}
            && r'.sent == if commit.TookEffect() then r.sent + Elements(r.drains[d].rows) else r.sent
  {
    assert RunRelay(batch, outbox, r, DrainSteps(d, [], commit)) == Finish(r, d, commit);
  }

  lemma FailedXAdd(batch: Positive, outbox: Outbox, r: Relay, d: RelayId, replies: seq<Reply>, commit: Reply)
    requires d in r.drains && replies != [] && replies[0].Raised()
    requires r.drains[d].published < |r.drains[d].rows| && Known(outbox, r.drains[d].rows)
    ensures var at := r.drains[d].published;
            var r' := RunRelay(batch, outbox, r, DrainSteps(d, replies, commit));
            && r'.stream == r.stream + Messages(outbox, r.drains[d].rows[at..at + Published(replies)])
            && r'.sent == r.sent && r'.drains == r.drains - {d}
            && !AllDone(replies)
  {
    var r1 := Publish(outbox, r, d, replies[0]);
    FirstXAdd(batch, outbox, r, d, replies, commit);
    ClosedDrain(batch, outbox, r1, d, replies[1..], commit);
    if replies[0] == Lost {
      MessagesFrom(outbox, r.drains[d].rows, r.drains[d].published, 0);
    }
  }

  lemma FirstXAdd(batch: Positive, outbox: Outbox, r: Relay, d: RelayId, replies: seq<Reply>, commit: Reply)
    requires d in r.drains && replies != [] && r.drains[d].published < |r.drains[d].rows|
             && Known(outbox, r.drains[d].rows)
    ensures RunRelay(batch, outbox, r, DrainSteps(d, replies, commit))
            == RunRelay(batch, outbox, Publish(outbox, r, d, replies[0]), DrainSteps(d, replies[1..], commit))
  {
    var steps := DrainSteps(d, replies, commit);
    assert steps[0] == XAdd(d, replies[0]) && steps[1..] == DrainSteps(d, replies[1..], commit);
  }

  lemma MessagesFrom(outbox: Outbox, rows: seq<EventId>, at: nat, n: nat)
    requires at + 1 + n <= |rows| && Known(outbox, rows)
    ensures Messages(outbox, rows[at..at + 1 + n]) == [Message(outbox, rows[at])]
            + Messages(outbox, rows[at + 1..at + 1 + n])
  {
  }

  lemma {:induction false} ClosedDrain(
      batch: Positive, outbox: Outbox, r: Relay, d: RelayId, replies: seq<Reply>, commit: Reply)
    requires d !in r.drains
    ensures RunRelay(batch, outbox, r, DrainSteps(d, replies, commit)) == r
    decreases replies
  {
    if replies != [] {
      assert DrainSteps(d, replies, commit)[1..] == DrainSteps(d, replies[1..], commit);
      ClosedDrain(batch, outbox, r, d, replies[1..], commit);
    }
  }

  // ---- a single relay without faults ----

  function Unsent(outbox: Outbox, r: Relay): set<EventId> {
    set e | e in outbox && e !in r.sent
  }

  /** The effect of a claim, its xadds and its commit when nothing fails. */
  function Drained(outbox: Outbox, r: Relay, rows: seq<EventId>): Relay
    requires Known(outbox, rows)
  {
    r.(stream := r.stream + Messages(outbox, rows), sent := r.sent + Elements(rows))
  }

  /** Successive nonempty claims of one relay, until a claim finds nothing. */
  ghost predicate DrainsUntilEmpty(batch: Positive, outbox: Outbox, r: Relay, claims: seq<seq<EventId>>)
    decreases claims
  {
    if claims == [] then Unsent(outbox, r) == {}
    else
      && claims[0] != [] && ValidClaim(outbox, r, batch, claims[0])
      && DrainsUntilEmpty(batch, outbox, Drained(outbox, r, claims[0]), claims[1..])
  }

  function Concat<T>(ss: seq<seq<T>>): seq<T> {
    if ss == [] then [] else ss[0] + Concat(ss[1..])
  }

  /** What one claim of a lone relay takes: distinct unsent rows, none newer than a row it leaves, and
      a full batch unless it leaves none. */
  lemma ClaimTakes(batch: Positive, outbox: Outbox, r: Relay, rows: seq<EventId>)
    requires r.drains == map[] && ValidClaim(outbox, r, batch, rows)
    ensures Known(outbox, rows)
    ensures var left := Unsent(outbox, Drained(outbox, r, rows));
            && (forall e :: e in Unsent(outbox, r) <==> e in rows || e in left)
            && (forall e | e in left :: e !in rows)
            && |Unsent(outbox, r)| == |rows| + |left|
            && (left != {} ==> |rows| == batch)
            && (forall i, e | 0 <= i < |rows| && e in left :: outbox[rows[i]].createdAt <= outbox[e].createdAt)
  {
    var left := Unsent(outbox, Drained(outbox, r, rows));
    var taken := Elements(rows);
    DistinctSize(rows);
    forall e | e in left
      ensures Claimable(outbox, r, e) && e !in rows
    {
      assert e in outbox && e !in r.sent;
    }
    forall e | e in rows
      ensures e in Unsent(outbox, r)
    {
      var i :| 0 <= i < |rows| && rows[i] == e;
      assert Claimable(outbox, r, rows[i]);
    }
    assert Unsent(outbox, r) == taken + left && taken !! left;
    assert |taken + left| == |taken| + |left|;
    forall i, e | 0 <= i < |rows| && e in left
      ensures outbox[rows[i]].createdAt <= outbox[e].createdAt
    {
      assert rows[i] in rows;
    }
  }

  lemma OneMoreBatch(n: nat, batch: Positive)
    requires n > 0
    ensures n * batch == (n - 1) * batch + batch
    ensures n > 1 ==> (n - 1) * batch == (n - 2) * batch + batch
  {
  }

  lemma {:induction false} FaultFreeBounds(batch: Positive, outbox: Outbox, r: Relay, claims: seq<seq<EventId>>)
    requires r.drains == map[] && DrainsUntilEmpty(batch, outbox, r, claims)
    ensures |Unsent(outbox, r)| <= |claims| * batch
    ensures claims != [] ==> (|claims| - 1) * batch < |Unsent(outbox, r)|
    decreases claims
  {
    if claims != [] {
      ClaimTakes(batch, outbox, r, claims[0]);
      FaultFreeBounds(batch, outbox, Drained(outbox, r, claims[0]), claims[1..]);
      OneMoreBatch(|claims|, batch);
    }
  }

  lemma {:induction false} FaultFreeOrder(batch: Positive, outbox: Outbox, r: Relay, claims: seq<seq<EventId>>)
    requires r.drains == map[] && DrainsUntilEmpty(batch, outbox, r, claims)
    ensures forall e :: e in Concat(claims) <==> e in Unsent(outbox, r)
    ensures Known(outbox, Concat(claims)) && OldestFirst(outbox, Concat(claims)) && Distinct(Concat(claims))
    decreases claims
  {
    if claims != [] {
      var rows, later := claims[0], Concat(claims[1..]);
      var r' := Drained(outbox, r, rows);
      ClaimTakes(batch, outbox, r, rows);
      FaultFreeOrder(batch, outbox, r', claims[1..]);
      assert forall i | 0 <= i < |later| :: later[i] in Unsent(outbox, r');
      InOrder(outbox, rows, later);
    }
  }

  lemma InOrder(outbox: Outbox, rows: seq<EventId>, later: seq<EventId>)
    requires Known(outbox, rows) && OldestFirst(outbox, rows) && Distinct(rows)
    requires Known(outbox, later) && OldestFirst(outbox, later) && Distinct(later)
    requires forall i, j | 0 <= i < |rows| && 0 <= j < |later| ::
               rows[i] != later[j] && outbox[rows[i]].createdAt <= outbox[later[j]].createdAt
    ensures Known(outbox, rows + later) && OldestFirst(outbox, rows + later) && Distinct(rows + later)
  {
  }

  lemma {:induction false} DistinctSize(rows: seq<EventId>)
    requires Distinct(rows)
    ensures |Elements(rows)| == |rows|
  {
    if rows != [] {
      var init, last := rows[..|rows| - 1], rows[|rows| - 1];
      DistinctSize(init);
      assert rows == init + [last];
      assert last !in init;
      assert Elements(rows) == Elements(init) + {last};
    }
  }

  /** The stream and the sent marks after the drains, one after the other. */
  ghost function RunDrains(batch: Positive, outbox: Outbox, r: Relay, claims: seq<seq<EventId>>): Relay
    requires DrainsUntilEmpty(batch, outbox, r, claims)
    decreases claims
  {
    if claims == [] then r else RunDrains(batch, outbox, Drained(outbox, r, claims[0]), claims[1..])
  }

  /** The oldest of some rows, up to a number of them. */
  lemma {:induction false} OldestFew(outbox: Outbox, free: set<EventId>, few: nat) returns (rows: seq<EventId>)
    requires forall e | e in free :: e in outbox
    ensures Distinct(rows) && |rows| <= few && Known(outbox, rows) && OldestFirst(outbox, rows)
    ensures forall e | e in rows :: e in free
    ensures forall e | e in free && e !in rows ::
              |rows| == few && forall x | x in rows :: outbox[x].createdAt <= outbox[e].createdAt
    decreases few
  {
    rows := [];
    if few > 0 && free != {} {
      HasOldest(outbox, free);
      var e :| e in free && forall x | x in free :: outbox[e].createdAt <= outbox[x].createdAt;
      var rest := OldestFew(outbox, free - {e}, few - 1);
      rows := [e] + rest;
    }
  }

  /** A lone relay always has a claim to make, and claims something while anything is unsent. */
  lemma HasClaim(batch: Positive, outbox: Outbox, r: Relay) returns (rows: seq<EventId>)
    requires r.drains == map[]
    ensures ValidClaim(outbox, r, batch, rows) && (Unsent(outbox, r) != {} ==> rows != [])
  {
    rows := OldestFew(outbox, Unsent(outbox, r), batch);
    forall i | 0 <= i < |rows| ensures Claimable(outbox, r, rows[i]) {
      assert rows[i] in rows;
    }
  }

  lemma {:induction false} FaultFreeDrainsExist(batch: Positive, outbox: Outbox, r: Relay)
    returns (claims: seq<seq<EventId>>)
    requires r.drains == map[]
    ensures DrainsUntilEmpty(batch, outbox, r, claims)
    decreases |Unsent(outbox, r)|
  {
    claims := [];
    if Unsent(outbox, r) != {} {
      var rows := HasClaim(batch, outbox, r);
      ClaimTakes(batch, outbox, r, rows);
      var rest := FaultFreeDrainsExist(batch, outbox, Drained(outbox, r, rows));
      claims := [rows] + rest;
    }
  }

  /** Drains that empty n unsent rows in ceil(n / batch) of them and put each on the stream once, oldest first. */
  ghost predicate EmptiesInOrder(batch: Positive, outbox: Outbox, r: Relay, claims: seq<seq<EventId>>)
    requires DrainsUntilEmpty(batch, outbox, r, claims)
  {
    var r' := RunDrains(batch, outbox, r, claims);
    && |claims| == (|Unsent(outbox, r)| + batch - 1) / batch
    && (forall e :: e in Concat(claims) <==> e in Unsent(outbox, r))
    && Known(outbox, Concat(claims)) && OldestFirst(outbox, Concat(claims)) && Distinct(Concat(claims))
    && r'.stream == r.stream + Messages(outbox, Concat(claims)) && Unsent(outbox, r') == {}
  }

  lemma DrainsEmptyInOrder(batch: Positive, outbox: Outbox, r: Relay, claims: seq<seq<EventId>>)
    requires r.drains == map[] && DrainsUntilEmpty(batch, outbox, r, claims)
    ensures EmptiesInOrder(batch, outbox, r, claims)
  {
    FaultFreeBounds(batch, outbox, r, claims);
    FaultFreeOrder(batch, outbox, r, claims);
    if claims != [] {
      CeilFromBounds(|Unsent(outbox, r)|, batch, |claims|);
    } else {
      CeilFromBounds(0, batch, 0);
    }
    DrainsPublish(batch, outbox, r, claims);
  }

  /** Without faults, whatever is in the outbox: a lone relay can drain until nothing is unsent, and however it does,
      it empties n rows in ceil(n / batch) drains and puts each on the stream once, oldest first. */
  lemma FaultFreeRelay(batch: Positive, outbox: Outbox, r: Relay)
    requires r.drains == map[]
    ensures exists claims :: DrainsUntilEmpty(batch, outbox, r, claims)
    ensures forall claims | DrainsUntilEmpty(batch, outbox, r, claims) :: EmptiesInOrder(batch, outbox, r, claims)
  {
    var some := FaultFreeDrainsExist(batch, outbox, r);
    forall claims | DrainsUntilEmpty(batch, outbox, r, claims)
      ensures EmptiesInOrder(batch, outbox, r, claims)
    {
      DrainsEmptyInOrder(batch, outbox, r, claims);
    }
  }

  lemma CeilFromBounds(n: nat, d: Positive, q: nat)
    requires (q - 1) * d < n <= q * d
    ensures (n + d - 1) / d == q
  {
    var m := n + d - 1;
    assert (q - 1) * d == q * d - d && (q + 1) * d == q * d + d;
    Keyset.QuotientFromBounds(m, d, q);
  }

  lemma {:induction false} DrainsPublish(batch: Positive, outbox: Outbox, r: Relay, claims: seq<seq<EventId>>)
    requires r.drains == map[] && DrainsUntilEmpty(batch, outbox, r, claims)
    ensures Known(outbox, Concat(claims))
    ensures RunDrains(batch, outbox, r, claims).stream == r.stream + Messages(outbox, Concat(claims))
    ensures Unsent(outbox, RunDrains(batch, outbox, r, claims)) == {}
    decreases claims
  {
    FaultFreeOrder(batch, outbox, r, claims);
    if claims != [] {
      DrainsPublish(batch, outbox, Drained(outbox, r, claims[0]), claims[1..]);
      assert Messages(outbox, Concat(claims)) == Messages(outbox, claims[0]) + Messages(outbox, Concat(claims[1..]));
    }
  }

  /** The fault-free drain is the run of the protocol's own steps. */
  lemma DrainedIsSteps(batch: Positive, outbox: Outbox, r: Relay, d: RelayId, rows: seq<EventId>)
    requires d !in r.drains && rows != [] && ValidClaim(outbox, r, batch, rows)
    ensures var done := seq(|rows|, _ => Reply.Done);
            var r' := RunRelay(batch, outbox, r, [ClaimRows(d, rows)] + DrainSteps(d, done, Reply.Done));
            r'.stream == Drained(outbox, r, rows).stream && r'.sent == Drained(outbox, r, rows).sent
                && r'.drains == r.drains
  {
    var done := seq(|rows|, _ => Reply.Done);
    var steps := [ClaimRows(d, rows)] + DrainSteps(d, done, Reply.Done);
    assert steps[1..] == DrainSteps(d, done, Reply.Done);
    DrainIsSteps(batch, outbox, Opened(r, d, rows), d, 0, done, Reply.Done);
    PublishedAll(done);
    assert rows[0..|rows|] == rows;
    assert Opened(r, d, rows).drains - {d} == r.drains;
  }
}
