/** Keyset pages and the walk that follows their cursors while rows come and go. */
module Keyset {
  import opened Wrappers
  import opened VideoAgg

  /** The (timestamp, id) position of a row. */
  datatype Pos = Pos(at: Instant, id: VideoId)

  /** keyset_older_than: the row value (ts, id) is less than the cursor's. */
  predicate Older(p: Pos, after: Pos) {
    p.at < after.at || (p.at == after.at && p.id < after.id)
  }

  predicate Candidate(p: Pos, after: Option<Pos>) {
    after.Some? ==> Older(p, after.value)
  }

  /** ORDER BY ts DESC, id DESC with no ties. */
  predicate Descending(ps: seq<Pos>) {
    forall i, j | 0 <= i < j < |ps| :: Older(ps[j], ps[i])
  }

  /** What the database promises for one SELECT over the visible rows: the newest `limit` rows that
      are older than the cursor, newest first. */
  ghost predicate IsPage(visible: set<Pos>, after: Option<Pos>, limit: nat, page: seq<Pos>) {
    && |page| <= limit
    && Descending(page)
    && (forall p | p in page :: p in visible && Candidate(p, after))
    && (forall p | p in visible && Candidate(p, after) && p !in page ::
          |page| == limit && forall q | q in page :: Older(p, q))
  }

  /** MediaFacade.list_page: a next cursor only after a full page. */
  function NextCursor(page: seq<Pos>, limit: nat): Option<Pos>
    requires 0 < limit
  {
    if |page| == limit then Some(page[|page| - 1]) else None
  }

  ghost predicate IsNewest(m: Pos, s: set<Pos>) {
    m in s && forall p | p in s && p != m :: Older(p, m)
  }

  function Newest(s: set<Pos>): (m: Pos)
    requires s != {}
    ensures IsNewest(m, s)
  {
    NewestExists(s);
    var m :| m in s && forall p | p in s && p != m :: Older(p, m);
    m
  }

  lemma {:induction false} NewestExists(s: set<Pos>)
    requires s != {}
    ensures exists m :: IsNewest(m, s)
  {
    var x :| x in s;
    var rest := s - {x};
    if rest == {} {
      assert s == {x};
      assert IsNewest(x, s);
    } else {
      NewestExists(rest);
      var m :| IsNewest(m, rest);
      assert s == rest + {x} && m != x;
      if Older(x, m) {
        assert IsNewest(m, s);
      } else {
        assert Older(m, x);
        assert IsNewest(x, s);
      }
    }
  }

  // ---- the walk ----

  /** One page per entry of `views` (the visible rows when it is read), each following the previous
      cursor, until a short page. */
  ghost predicate IsWalk(views: seq<set<Pos>>, after: Option<Pos>, limit: nat, pages: seq<seq<Pos>>)
    requires 0 < limit
    decreases pages
  {
    && |pages| == |views|
    && (pages != [] ==>
          && IsPage(views[0], after, limit, pages[0])
          && (|pages| > 1 ==> NextCursor(pages[0], limit).Some?)
          && IsWalk(views[1..], NextCursor(pages[0], limit), limit, pages[1..]))
  }

  function Flatten<T>(ss: seq<seq<T>>): seq<T> {
    if ss == [] then [] else ss[0] + Flatten(ss[1..])
  }

  /** The walk has ended: its last page came without a cursor. */
  predicate Ended(pages: seq<seq<Pos>>, limit: nat)
    requires 0 < limit
  {
    pages != [] && NextCursor(pages[|pages| - 1], limit).None?
  }

  /** Whatever is inserted or deleted between pages, the rows come out strictly descending, so none twice. */
  lemma {:induction false} WalkDescends(views: seq<set<Pos>>, after: Option<Pos>, limit: nat, pages: seq<seq<Pos>>)
    requires 0 < limit && IsWalk(views, after, limit, pages)
    ensures Descending(Flatten(pages))
    ensures forall p | p in Flatten(pages) :: Candidate(p, after)
    ensures var rows := Flatten(pages);
            forall i, j | 0 <= i < j < |rows| ::
              rows[j].at < rows[i].at || (rows[j].at == rows[i].at && rows[j].id < rows[i].id)
    ensures after.Some? ==> forall p | p in Flatten(pages) ::
              p.at < after.value.at || (p.at == after.value.at && p.id < after.value.id)
    decreases pages
  {
    if pages != [] {
      var next := NextCursor(pages[0], limit);
      WalkDescends(views[1..], next, limit, pages[1..]);
      var page, more := pages[0], Flatten(pages[1..]);
      forall p, q | p in more && q in page
        ensures Older(p, q) && Candidate(p, after)
      {
        BeyondCursor(page, next, p, q, limit, pages[1..]);
        assert page[|page| - 1] in page;
      }
      if |pages| == 1 {
        assert Flatten(pages[1..]) == [];
      }
      assert page != [] || more == [];
    }
  }

  lemma BeyondCursor(page: seq<Pos>, next: Option<Pos>, p: Pos, q: Pos, limit: nat, rest: seq<seq<Pos>>)
    requires 0 < limit && Descending(page) && next == NextCursor(page, limit)
    requires rest != [] ==> next.Some?
    requires p in Flatten(rest) && Candidate(p, next) && q in page
    ensures Older(p, q)
  {
    assert rest != [];
  }

  /** A row that is visible at every page read is returned, once, by a walk that ended. */
  lemma {:induction false} WalkMissesNothing(
      views: seq<set<Pos>>, after: Option<Pos>, limit: nat, pages: seq<seq<Pos>>, p: Pos)
    requires 0 < limit && IsWalk(views, after, limit, pages) && Ended(pages, limit)
    requires (forall i | 0 <= i < |views| :: p in views[i]) && Candidate(p, after)
    ensures p in Flatten(pages)
    ensures forall i, j | 0 <= i < j < |Flatten(pages)| :: Flatten(pages)[i] != Flatten(pages)[j]
    decreases pages
  {
    WalkDescends(views, after, limit, pages);
    assert p in views[0];
    if p !in pages[0] {
      var next := NextCursor(pages[0], limit);
      assert next.Some?;
      assert pages[0][|pages[0]| - 1] in pages[0];
      WalkMissesNothing(views[1..], next, limit, pages[1..], p);
    }
  }

  /** With no writes, n matching rows take exactly floor(n / limit) + 1 pages. */
  lemma QuietWalkLength(visible: set<Pos>, after: Option<Pos>, limit: nat, pages: seq<seq<Pos>>)
    requires 0 < limit
    requires IsWalk(seq(|pages|, _ => visible), after, limit, pages) && Ended(pages, limit)
    ensures |pages| == |Matching(visible, after)| / limit + 1
  {
    QuietWalkBounds(visible, after, limit, pages);
    QuotientFromBounds(|Matching(visible, after)|, limit, |pages| - 1);
  }

  function Matching(visible: set<Pos>, after: Option<Pos>): set<Pos> {
    set p | p in visible && Candidate(p, after)
  }

  lemma {:induction false} QuietWalkBounds(visible: set<Pos>, after: Option<Pos>, limit: nat, pages: seq<seq<Pos>>)
    requires 0 < limit
    requires IsWalk(seq(|pages|, _ => visible), after, limit, pages) && Ended(pages, limit)
    ensures (|pages| - 1) * limit <= |Matching(visible, after)| < |pages| * limit
    decreases pages
  {
    var page := pages[0];
    RestOfPage(visible, after, limit, page);
    if |pages| > 1 {
      var next := NextCursor(page, limit);
      assert seq(|pages|, _ => visible)[1..] == seq(|pages| - 1, _ => visible);
      QuietWalkBounds(visible, next, limit, pages[1..]);
    }
  }

  /** What a page leaves for its cursor: everything it did not return; a short page leaves nothing. */
  lemma RestOfPage(visible: set<Pos>, after: Option<Pos>, limit: nat, page: seq<Pos>)
    requires 0 < limit && IsPage(visible, after, limit, page)
    ensures |page| < limit ==> |Matching(visible, after)| == |page|
    ensures |page| == limit ==> |Matching(visible, after)| == limit + |Matching(visible, NextCursor(page, limit))|
  {
    var matching := Matching(visible, after);
    var onPage := Elements(page);
    PageSize(page);
    if |page| < limit {
      assert matching == onPage;
    } else {
      var last := page[|page| - 1];
      assert last in page;
      var rest := Matching(visible, Some(last));
      forall p | p in visible
        ensures p in matching <==> p in onPage || p in rest
        ensures p in onPage ==> p !in rest
      {
        if p in page {
          LastIsOldest(page, p);
        }
      }
      assert matching == onPage + rest && onPage !! rest;
    }
  }

  lemma LastIsOldest(page: seq<Pos>, p: Pos)
    requires Descending(page) && p in page
    ensures !Older(p, page[|page| - 1])
  {
  }

  lemma {:induction false} PageSize(page: seq<Pos>)
    requires Descending(page)
    ensures |Elements(page)| == |page|
  {
    if page != [] {
      var init, last := page[..|page| - 1], page[|page| - 1];
      PageSize(init);
      assert page == init + [last];
      assert last !in init;
      assert Elements(page) == Elements(init) + {last};
    }
  }

  function Elements(page: seq<Pos>): set<Pos> {
    set p | p in page
  }

  lemma QuotientFromBounds(n: nat, d: nat, q: nat)
    requires 0 < d && q * d <= n < (q + 1) * d
    ensures n / d == q
  {
    if n / d < q {
      MulMonotone(n / d + 1, q, d);
    } else if q < n / d {
      MulMonotone(q + 1, n / d, d);
    }
  }

  lemma MulMonotone(a: nat, b: nat, d: nat)
    requires a <= b
    ensures a * d <= b * d
  {
  }

  /** Every returned row was visible at some page read. */
  lemma {:induction false} ReadFrom(
      views: seq<set<Pos>>, after: Option<Pos>, limit: nat, pages: seq<seq<Pos>>, p: Pos) returns (i: nat)
    requires 0 < limit && IsWalk(views, after, limit, pages) && p in Flatten(pages)
    ensures i < |views| && p in views[i]
    decreases pages
  {
    if p in pages[0] {
      i := 0;
    } else {
      i := ReadFrom(views[1..], NextCursor(pages[0], limit), limit, pages[1..], p);
      i := i + 1;
    }
  }
}
