/** The videos table and the repository over it. */
module VideoTable {
  import opened Wrappers
  import opened VideoAgg
  import opened Keyset
  import Canonical

  datatype VideoRow = VideoRow(
    sourceKey: string, status: VideoStatus, uploadedAt: Instant, document: Canonical.Json, deleted: bool)

  type Rows = map<VideoId, VideoRow>

  function Visible(rows: Rows): set<Pos> {
    set id | id in rows && !rows[id].deleted :: Pos(rows[id].uploadedAt, id)
  }

  predicate Live(rows: Rows, id: VideoId) {
    id in rows && !rows[id].deleted
  }

  function Stored(rows: Rows, id: VideoId): Snapshot
    requires id in rows
  {
    Snapshot(id, rows[id].sourceKey, rows[id].status, rows[id].uploadedAt, rows[id].document)
  }

  datatype RepoOp = Save(v: Snapshot) | SoftDelete(id: VideoId)

  /** INSERT ... ON CONFLICT DO UPDATE SET status; UPDATE ... SET deleted_at WHERE deleted_at IS NULL. */
  function Apply(rows: Rows, op: RepoOp): Rows {
    match op
    case Save(v) =>
      if v.id in rows then rows[v.id := rows[v.id].(status := v.status)]
      else rows[v.id := VideoRow(v.sourceKey, v.status, v.uploadedAt, v.document, false)]
    case SoftDelete(id) =>
      if id in rows && !rows[id].deleted then rows[id := rows[id].(deleted := true)] else rows
  }

  /** A save inserts the video or moves the status of its row; a deletion marks its row. No other field and no other row
      changes. */
  lemma WritesInWords(rows: Rows, v: Snapshot)
    ensures var rows' := Apply(rows, RepoOp.Save(v));
            && rows' - {v.id} == rows - {v.id} && v.id in rows' && rows'[v.id].status == v.status
            && (v.id in rows ==> rows'[v.id] == rows[v.id].(status := v.status))
            && (v.id !in rows ==> Stored(rows', v.id) == v && !rows'[v.id].deleted)
    ensures var rows' := Apply(rows, RepoOp.SoftDelete(v.id));
            && rows' - {v.id} == rows - {v.id} && !Live(rows', v.id)
            && (v.id in rows <==> v.id in rows')
            && (v.id in rows ==> Stored(rows', v.id) == Stored(rows, v.id) && rows'[v.id].deleted)
  {
  }

  function ApplyAll(rows: Rows, ops: seq<RepoOp>): Rows
    decreases ops
  {
    if ops == [] then rows else ApplyAll(Apply(rows, ops[0]), ops[1..])
  }

  /** Load, check and save of a Mark*UC in one step; deleted or unknown videos and illegal moves change nothing. */
  function Marked(rows: Rows, id: VideoId, request: Request): Rows {
    if !Live(rows, id) then rows
    else Apply(rows, RepoOp.Save(Stored(rows, id).(status := Move(rows[id].status, request))))
  }

  // What a page is, instant by instant and id by id.

  predicate NewestFirst(page: seq<Pos>) {
    forall i, j | 0 <= i < j < |page| ::
      page[j].at < page[i].at || (page[j].at == page[i].at && page[j].id < page[i].id)
  }

  predicate BelowCursor(after: Option<Pos>, page: seq<Pos>) {
    after.Some? ==>
      forall i | 0 <= i < |page| ::
        page[i].at < after.value.at || (page[i].at == after.value.at && page[i].id < after.value.id)
  }

  /** A live video below the cursor that is not on the page is left for later ones: the page is full of newer ones. */
  ghost predicate NothingSkipped(rows: Rows, after: Option<Pos>, limit: nat, page: seq<Pos>) {
    forall id: VideoId | Live(rows, id) && BelowCursor(after, [Pos(rows[id].uploadedAt, id)])
                         && Pos(rows[id].uploadedAt, id) !in page ::
      |page| == limit && forall i | 0 <= i < |page| ::
        rows[id].uploadedAt < page[i].at || (rows[id].uploadedAt == page[i].at && id < page[i].id)
  }

  lemma PageInWords(rows: Rows, after: Option<Pos>, limit: nat, page: seq<Pos>)
    requires IsPage(Visible(rows), after, limit, page)
    ensures NewestFirst(page) && BelowCursor(after, page) && NothingSkipped(rows, after, limit, page)
  {
    forall i | 0 <= i < |page| && after.Some?
      ensures page[i].at < after.value.at || (page[i].at == after.value.at && page[i].id < after.value.id)
    {
      assert page[i] in page;
    }
    forall id: VideoId | Live(rows, id) && BelowCursor(after, [Pos(rows[id].uploadedAt, id)])
      ensures Pos(rows[id].uploadedAt, id) in Visible(rows) && Candidate(Pos(rows[id].uploadedAt, id), after)
    {
      assert [Pos(rows[id].uploadedAt, id)][0] == Pos(rows[id].uploadedAt, id);
    }
    assert forall i | 0 <= i < |page| :: page[i] in page;
  }

  class SqlVideoRepo {
    var rows: Rows

    constructor ()
      ensures rows == map[]
    {
      rows := map[];
    }

    method Save(video: Video)
      modifies this
      ensures rows == Apply(old(rows), RepoOp.Save(old(video.State())))
    {
      if video.id in rows {
        rows := rows[video.id := rows[video.id].(status := video.status)];
      } else {
        rows := rows[video.id := VideoRow(video.sourceKey, video.status, video.uploadedAt, video.document, false)];
      }
    }

    /** Soft-deleted rows are never returned. */
    method GetById(id: VideoId) returns (found: Option<Video>)
      ensures found.Some? <==> Live(rows, id)
      ensures found.Some? ==> fresh(found.value) && found.value.State() == Stored(rows, id) && found.value.events == []
    {
      if id !in rows || rows[id].deleted {
        return None;
      }
      var row := rows[id];
      var video := new Video.Reconstitute(Snapshot(id, row.sourceKey, row.status, row.uploadedAt, row.document));
      found := Some(video);
    }

    method SoftDelete(id: VideoId) returns (deleted: bool)
      modifies this
      ensures rows == Apply(old(rows), RepoOp.SoftDelete(id))
      ensures deleted <==> rows != old(rows)
    {
      deleted := id in rows && !rows[id].deleted;
      if deleted {
        assert rows[id := rows[id].(deleted := true)][id].deleted;
        rows := rows[id := rows[id].(deleted := true)];
      }
    }

    /** One page of videos, newest first, their positions, and the cursor that the facade issues for the next. */
    method ListPage(after: Option<Pos>, limit: nat)
      returns (videos: seq<Snapshot>, page: seq<Pos>, next: Option<Pos>)
      requires 1 <= limit
      ensures IsPage(Visible(rows), after, limit, page) && next == NextCursor(page, limit)
      ensures |videos| == |page|
      ensures forall i | 0 <= i < |page| ::
                && Live(rows, page[i].id) && videos[i] == Stored(rows, page[i].id)
                && page[i] == Pos(videos[i].uploadedAt, videos[i].id)
      ensures NewestFirst(page) && BelowCursor(after, page) && NothingSkipped(rows, after, limit, page)
      ensures next == if |page| == limit then Some(page[limit - 1]) else None
    {
      page := [];
      var left := set p | p in Visible(rows) && Candidate(p, after);
      while |page| < limit && left != {}
        invariant |page| <= limit && Descending(page)
        invariant forall p | p in page :: p in Visible(rows) && Candidate(p, after)
        invariant forall p | p in left :: p in Visible(rows) && Candidate(p, after) && forall q | q in page ::
                  Older(p, q)
        invariant forall p | p in Visible(rows) && Candidate(p, after) :: p in page || p in left
        decreases limit - |page|
      {
        var newest := Newest(left);
        left := left - {newest};
        page := page + [newest];
      }
      next := if |page| == limit then Some(page[|page| - 1]) else None;
      var table := rows;
      assert forall i | 0 <= i < |page| :: page[i] in page && page[i] in Visible(table);
      videos := seq(|page|, i requires 0 <= i < |page| && page[i].id in table => Stored(table, page[i].id));
      PageInWords(rows, after, limit, page);
    }
  }

  /** A row keeps its timestamp for ever: an upsert touches the status only, a delete the deletion mark. */
  lemma {:induction false} TimestampsNeverMove(rows: Rows, ops: seq<RepoOp>)
    ensures rows.Keys <= ApplyAll(rows, ops).Keys
    ensures forall id | id in rows ::
              && ApplyAll(rows, ops)[id].uploadedAt == rows[id].uploadedAt
              && (rows[id].deleted ==> ApplyAll(rows, ops)[id].deleted)
    decreases ops
  {
    if ops != [] {
      TimestampsNeverMove(Apply(rows, ops[0]), ops[1..]);
    }
  }

  /** Over a table that only the repository writes, no video is returned twice, even under another timestamp. */
  lemma WalkReturnsEachVideoOnce(
      tables: seq<Rows>, writes: seq<seq<RepoOp>>, after: Option<Pos>, limit: nat, pages: seq<seq<Pos>>)
    requires 0 < limit && |writes| == |tables|
    requires forall i | 0 < i < |tables| :: tables[i] == ApplyAll(tables[i - 1], writes[i])
    requires IsWalk(seq(|tables|, i requires 0 <= i < |tables| => Visible(tables[i])), after, limit, pages)
    ensures forall i, j | 0 <= i < j < |Flatten(pages)| :: Flatten(pages)[i].id != Flatten(pages)[j].id
  {
    var views := seq(|tables|, i requires 0 <= i < |tables| => Visible(tables[i]));
    WalkDescends(views, after, limit, pages);
    forall i, j | 0 <= i < j < |Flatten(pages)|
      ensures Flatten(pages)[i].id != Flatten(pages)[j].id
    {
      var p, q := Flatten(pages)[i], Flatten(pages)[j];
      var a := ReadFrom(views, after, limit, pages, p);
      var b := ReadFrom(views, after, limit, pages, q);
      if p.id == q.id {
        SameTimestamp(tables, writes, if a <= b then a else b, if a <= b then b else a, p.id);
      }
    }
  }

  lemma {:induction false} SameTimestamp(tables: seq<Rows>, writes: seq<seq<RepoOp>>, i: nat, j: nat, id: VideoId)
    requires i <= j < |tables| && |writes| == |tables|
    requires forall i | 0 < i < |tables| :: tables[i] == ApplyAll(tables[i - 1], writes[i])
    requires id in tables[i]
    ensures id in tables[j] && tables[j][id].uploadedAt == tables[i][id].uploadedAt
    decreases j - i
  {
    if i < j {
      TimestampsNeverMove(tables[i], writes[i + 1]);
      assert tables[i + 1] == ApplyAll(tables[i + 1 - 1], writes[i + 1]);
      SameTimestamp(tables, writes, i + 1, j, id);
    }
  }
}
