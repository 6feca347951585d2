/** The Video aggregate and its status machine. */
module VideoAgg {
  import opened Wrappers
  import Canonical

  type VideoId = nat
  type Instant = int

  datatype VideoStatus = PENDING | PROCESSING | DONE | FAILED

  datatype VideoUploaded = VideoUploaded(videoId: VideoId, sourceKey: string, uploadedAt: Instant)

  datatype DomainError = EmptySourceKey | InvalidTransition(from: VideoStatus, to: VideoStatus)

  /** A video as it is stored, and as the idempotency key remembers it. */
  datatype Snapshot = Snapshot(
    id: VideoId, sourceKey: string, status: VideoStatus, uploadedAt: Instant, document: Canonical.Json)

  function Allowed(from: VideoStatus): set<VideoStatus> {
    match from
    case PENDING => {PROCESSING, FAILED}
    case PROCESSING => {DONE, FAILED}
    case DONE => {}
    case FAILED => {}
  }

  class Video {
    const id: VideoId
    const sourceKey: string
    const uploadedAt: Instant
    const document: Canonical.Json
    var status: VideoStatus
    var events: seq<VideoUploaded>

    function State(): Snapshot
      reads this
    {
      Snapshot(id, sourceKey, status, uploadedAt, document)
    }

    constructor Reconstitute(s: Snapshot)
      ensures State() == s && events == []
    {
      id, sourceKey, status, uploadedAt, document := s.id, s.sourceKey, s.status, s.uploadedAt, s.document;
      events := [];
    }

    static method Upload(id: VideoId, sourceKey: string, uploadedAt: Instant, document: Canonical.Json)
      returns (r: Result<Video, DomainError>)
      ensures sourceKey == "" ==> r == Err(EmptySourceKey)
      ensures sourceKey != "" ==>
                && r.Ok? && fresh(r.value)
                && r.value.State() == Snapshot(id, sourceKey, PENDING, uploadedAt, document)
                && r.value.events == [VideoUploaded(id, sourceKey, uploadedAt)]
    {
      if sourceKey == "" {
        return Err(EmptySourceKey);
      }
      var video := new Video.Reconstitute(Snapshot(id, sourceKey, PENDING, uploadedAt, document));
      video.events := video.events + [VideoUploaded(id, sourceKey, uploadedAt)];
      r := Ok(video);
    }

    method Transition(to: VideoStatus) returns (r: Result<(), DomainError>)
      modifies this`status
      ensures to in Allowed(old(status)) ==> r == Ok(()) && status == to
      ensures to !in Allowed(old(status)) ==> r == Err(InvalidTransition(old(status), to)) && status == old(status)
    {
      if to !in Allowed(status) {
        return Err(InvalidTransition(status, to));
      }
      status := to;
      r := Ok(());
    }

    method CollectEvents() returns (collected: seq<VideoUploaded>)
      modifies this`events
      ensures collected == old(events) && events == []
    {
      collected := events;
      events := [];
    }
  }

  // ---- the machine over any sequence of requests ----

  /** What a status event, or a cancel request, asks for. */
  datatype Request = Started | Processed | Failed

  function Target(r: Request): VideoStatus {
    match r
    case Started => PROCESSING
    case Processed => DONE
    case Failed => FAILED
  }

  /** The status after one request: moved, or unchanged when the move is not allowed. */
  function Move(s: VideoStatus, r: Request): VideoStatus {
    if Target(r) in Allowed(s) then Target(r) else s
  }

  /** The committed history of a video: its statuses in order, the first one included. */
  function History(s: VideoStatus, rs: seq<Request>): (h: seq<VideoStatus>)
    ensures h != [] && h[0] == s
    decreases rs
  {
    if rs == [] then [s]
    else if Target(rs[0]) in Allowed(s) then [s] + History(Target(rs[0]), rs[1..])
    else History(s, rs[1..])
  }

  function Final(s: VideoStatus, rs: seq<Request>): VideoStatus
    decreases rs
  {
    if rs == [] then s else Final(Move(s, rs[0]), rs[1..])
  }

  function Rank(s: VideoStatus): nat {
    match s case PENDING => 0 case PROCESSING => 1 case _ => 2
  }

  /** Every committed history is a path of the machine, ends in the current status and has at most two moves. */
  lemma {:induction false} HistoryIsPath(s: VideoStatus, rs: seq<Request>)
    ensures var h := History(s, rs);
            && (forall i | 0 <= i < |h| - 1 :: h[i + 1] in Allowed(h[i]))
            && h[|h| - 1] == Final(s, rs)
            && |h| <= 3 - Rank(s)
    decreases rs
  {
    if rs != [] {
      HistoryIsPath(Move(s, rs[0]), rs[1..]);
    }
  }

  /** A started before a processed, with no failure before that processed. */
  ghost predicate CompletedInOrder(rs: seq<Request>) {
    exists i, j :: 0 <= i < j < |rs| && rs[i] == Started && rs[j] == Processed
                   && forall k | 0 <= k < j :: rs[k] != Failed
  }

  /** A processed with no failure before it: what completion needs once the video is being processed. */
  ghost predicate CompletedNext(rs: seq<Request>) {
    exists j :: 0 <= j < |rs| && rs[j] == Processed && forall k | 0 <= k < j :: rs[k] != Failed
  }

  lemma {:induction false} FinalIsStable(s: VideoStatus, rs: seq<Request>)
    requires s == DONE || s == FAILED
    ensures Final(s, rs) == s
  {
    if rs != [] {
      FinalIsStable(s, rs[1..]);
    }
  }

  lemma CompletedNextStep(rs: seq<Request>)
    requires rs != []
    ensures CompletedNext(rs) <==> rs[0] == Processed || (rs[0] == Started && CompletedNext(rs[1..]))
  {
    var rest := rs[1..];
    if rs[0] != Failed && CompletedNext(rest) {
      var j :| 0 <= j < |rest| && rest[j] == Processed && forall k | 0 <= k < j :: rest[k] != Failed;
      assert rs[j + 1] == Processed && forall k | 1 <= k < j + 1 :: rs[k] == rest[k - 1];
    }
    if rs[0] == Started && CompletedNext(rs) {
      var j :| 0 <= j < |rs| && rs[j] == Processed && forall k | 0 <= k < j :: rs[k] != Failed;
      assert rest[j - 1] == Processed && forall k | 0 <= k < j - 1 :: rest[k] == rs[k + 1];
    }
  }

  lemma CompletedInOrderStep(rs: seq<Request>)
    requires rs != []
    ensures rs[0] == Started ==> (CompletedInOrder(rs) <==> CompletedNext(rs[1..]))
    ensures rs[0] == Processed ==> (CompletedInOrder(rs) <==> CompletedInOrder(rs[1..]))
    ensures rs[0] == Failed ==> !CompletedInOrder(rs)
  {
    var rest := rs[1..];
    if CompletedInOrder(rs) {
      var i, j :| 0 <= i < j < |rs| && rs[i] == Started && rs[j] == Processed
                  && forall k | 0 <= k < j :: rs[k] != Failed;
      assert rest[j - 1] == Processed && forall k | 0 <= k < j - 1 :: rest[k] == rs[k + 1];
      assert i > 0 ==> rest[i - 1] == Started;
    }
    if rs[0] == Started && CompletedNext(rest) {
      var j :| 0 <= j < |rest| && rest[j] == Processed && forall k | 0 <= k < j :: rest[k] != Failed;
      assert rs[0] == Started && rs[j + 1] == Processed && forall k | 1 <= k < j + 1 :: rs[k] == rest[k - 1];
    }
    if rs[0] == Processed && CompletedInOrder(rest) {
      var i, j :| 0 <= i < j < |rest| && rest[i] == Started && rest[j] == Processed
                  && forall k | 0 <= k < j :: rest[k] != Failed;
      assert rs[i + 1] == Started && rs[j + 1] == Processed && forall k | 1 <= k < j + 1 :: rs[k] == rest[k - 1];
    }
  }

  lemma {:induction false} FinalFromProcessing(rs: seq<Request>)
    ensures Final(PROCESSING, rs) == DONE <==> CompletedNext(rs)
    ensures Final(PROCESSING, rs) == FAILED ==> Failed in rs
    ensures Final(PROCESSING, rs) == PROCESSING ==> Failed !in rs
    ensures Final(PROCESSING, rs) != PENDING
  {
    if rs != [] {
      CompletedNextStep(rs);
      if rs[0] == Started {
        FinalFromProcessing(rs[1..]);
        assert rs == [Started] + rs[1..];
      } else {
        FinalIsStable(Target(rs[0]), rs[1..]);
      }
    }
  }

  /** The final status of an uploaded video, from the order of its events alone: whatever is
      duplicated, reordered or cancelled. */
  lemma {:induction false} FinalFromPending(rs: seq<Request>)
    ensures Final(PENDING, rs) == DONE <==> CompletedInOrder(rs)
    ensures Final(PENDING, rs) == FAILED <==> !CompletedInOrder(rs) && Failed in rs
    ensures Final(PENDING, rs) == PROCESSING <==> !CompletedInOrder(rs) && Failed !in rs && Started in rs
  {
    if rs != [] {
      CompletedInOrderStep(rs);
      assert rs == [rs[0]] + rs[1..];
      match rs[0] {
        case Started => FinalFromProcessing(rs[1..]);
        case Processed => FinalFromPending(rs[1..]);
        case Failed => FinalIsStable(FAILED, rs[1..]);
      }
    }
  }

  /** An event that took effect never takes effect again: its redelivery at any later time changes nothing. */
  lemma {:induction false} RedeliveryChangesNothing(s: VideoStatus, r: Request, between: seq<Request>)
    requires Target(r) in Allowed(s)
    ensures Move(Final(Move(s, r), between), r) == Final(Move(s, r), between)
  {
    RankGrows(Move(s, r), between);
    if Final(Move(s, r), between) == PROCESSING {
      assert Move(s, r) == PROCESSING;
    }
  }

  lemma {:induction false} RankGrows(s: VideoStatus, rs: seq<Request>)
    ensures Rank(s) <= Rank(Final(s, rs))
    ensures Rank(s) == Rank(Final(s, rs)) ==> s == Final(s, rs)
    decreases rs
  {
    if rs != [] {
      RankGrows(Move(s, rs[0]), rs[1..]);
    }
  }

  lemma {:induction false} FinalConcat(s: VideoStatus, first: seq<Request>, rest: seq<Request>)
    ensures Final(s, first + rest) == Final(Final(s, first), rest)
    decreases first
  {
    if first == [] {
      assert first + rest == rest;
    } else {
      assert (first + rest)[1..] == first[1..] + rest;
      FinalConcat(Move(s, first[0]), first[1..], rest);
    }
  }

  lemma FinalAppend(s: VideoStatus, rs: seq<Request>, r: Request)
    ensures Final(s, rs + [r]) == Move(Final(s, rs), r)
  {
    FinalConcat(s, rs, [r]);
    assert [r][1..] == [];
  }

  /** An allowed move is a change. */
  lemma MovesMove(s: VideoStatus, r: Request)
    requires Target(r) in Allowed(s)
    ensures Move(s, r) != s
  {
  }
}
