/**
 Keyset pagination on (created_at, id), newest first: fetch one row more than the page holds, cut
 it off, and hand out a cursor to the last row kept. Walking the cursors reads the whole list.
 */
module Pagination {
  import opened Common
  import opened Cursor

  /** A row by its sort key; the rows of one listing are those the caller's filter admits. */
  datatype Row = Row(createdAt: Time, id: Id)

  /** SQL row comparison `(created_at, id) < (...)`. */
  predicate Less(r: Row, s: Row) {
    r.createdAt < s.createdAt || (r.createdAt == s.createdAt && r.id < s.id)
  }

  predicate Below(r: Row, after: Option<Row>) { after.None? || Less(r, after.value) }

  predicate Descending(q: seq<Row>) { forall i, j :: 0 <= i < j < |q| ==> Less(q[j], q[i]) }

  // ---- One page ----

  const DEFAULT_LIMIT := 25
  const MAX_LIMIT := 100

  function Wanted(requested: Option<Cents>): int { if requested.Some? then requested.value else DEFAULT_LIMIT }

  function Distance(x: int, y: int): int { if x < y then y - x else x - y }

  /** The allowed limit that is nearest to the wanted one. */
  function ClampLimit(requested: Option<Cents>): (limit: int)
    ensures 1 <= limit <= 100
    ensures requested.None? ==> limit == 25
    ensures forall x :: 1 <= x <= 100 ==> Distance(limit, Wanted(requested)) <= Distance(x, Wanted(requested))
  {
    var r := Wanted(requested);
    if r < 1 then 1 else if r > MAX_LIMIT then MAX_LIMIT else r
  }

  /** What the keyset query returns: the `n` greatest rows of `table` below `after`, in descending order. */
  predicate IsResult(q: seq<Row>, table: set<Row>, after: Option<Row>, n: nat) {
    && Descending(q) && |q| <= n
    && (forall r :: r in q ==> r in table && Below(r, after))
    && (forall r :: r in table && Below(r, after) && r !in q ==> |q| == n && forall x :: x in q ==> Less(r, x))
  }

  datatype Page = Page(data: seq<Row>, next: Option<string>)

  function PageOf(codec: Codec, rows: seq<Row>, limit: nat): Page
    requires limit >= 1
  {
    if |rows| > limit
    then Page(rows[..limit], Some(EncodeCursor(codec, rows[limit - 1].createdAt, rows[limit - 1].id)))
    else Page(rows, None)
  }

  /** The service's `list`, after its query has fetched `limit + 1` rows. */
  method List(codec: Codec, fetched: seq<Row>, requested: Option<Cents>) returns (page: Page)
    ensures page == PageOf(codec, fetched, ClampLimit(requested))
  {
    var limit := ClampLimit(requested);
    var rows := fetched;
    var next: Option<string> := None;
    if |rows| > limit {
      var last := rows[limit - 1];
      next := Some(EncodeCursor(codec, last.createdAt, last.id));
      rows := rows[..limit];
    }
    return Page(rows, next);
  }

  /** The position a client's cursor stands for; one that does not decode is no cursor at all. */
  function Position(codec: Codec, cursor: Option<string>): Option<Row> {
    if cursor.None? then None
    else match DecodeCursor(codec, cursor.value)
         case None => None
         case Some((t, id)) => Some(Row(t, id))
  }

  // ---- A walk ----

  /** One request of a walk: the table as it is then, the limit asked for, and the query's result. */
  datatype Visit = Visit(table: set<Row>, requested: Option<Cents>, rows: seq<Row>)

  function VisitPage(codec: Codec, v: Visit): Page { PageOf(codec, v.rows, ClampLimit(v.requested)) }

  /** Following `next` from `cursor`, so far: the last page may still hand out a cursor. */
  predicate IsWalk(codec: Codec, visits: seq<Visit>, cursor: Option<string>) {
    && visits != []
    && IsResult(visits[0].rows, visits[0].table, Position(codec, cursor), ClampLimit(visits[0].requested) + 1)
    && var next := VisitPage(codec, visits[0]).next;
    && (|visits| > 1 ==> next.Some? && IsWalk(codec, visits[1..], next))
  }

  /** The walk has come to the end: its last page hands out no cursor. */
  predicate IsFinished(codec: Codec, visits: seq<Visit>) {
    visits != [] && VisitPage(codec, visits[|visits| - 1]).next.None?
  }

  function Collected(codec: Codec, visits: seq<Visit>): seq<Row> {
    if visits == [] then [] else VisitPage(codec, visits[0]).data + Collected(codec, visits[1..])
  }

  /** The rows of `table` that are still to come after `after`. */
  function Rest(table: set<Row>, after: Option<Row>): set<Row> { set r | r in table && Below(r, after) }

  /** `q` is `rows`, newest first, without repeats. */
  ghost predicate Lists(q: seq<Row>, rows: set<Row>) {
    Descending(q) && forall r :: r in q <==> r in rows
  }

  /** One page lists what the query promised, and what remains lies below its last row. */
  lemma PageSplits(codec: Codec, v: Visit, table: set<Row>, after: Option<Row>)
    requires Lawful(codec) && IsResult(v.rows, v.table, after, ClampLimit(v.requested) + 1)
    requires Rest(v.table, after) == Rest(table, after)
    ensures var page := VisitPage(codec, v);
      && (page.next.None? ==> Lists(page.data, Rest(table, after)))
      && (page.next.Some? ==>
            && |page.data| == ClampLimit(v.requested)
            && Position(codec, page.next) == Some(page.data[|page.data| - 1])
            && page.data[|page.data| - 1] in table
            && Lists(page.data, Rest(table, after) - Rest(table, Position(codec, page.next)))
            && Rest(table, Position(codec, page.next)) <= Rest(table, after))
  {
    var page, limit := VisitPage(codec, v), ClampLimit(v.requested);
    if page.next.None? {
      forall r ensures r in page.data <==> r in Rest(table, after) {
        assert r in Rest(table, after) <==> r in Rest(v.table, after);
      }
    } else {
      var last := v.rows[limit - 1];
      CursorRoundTrip(codec, last.createdAt, last.id);
      assert last in v.rows;
      assert last in Rest(v.table, after);
      FullPage(v, limit, table, after);
    }
  }

  lemma FullPage(v: Visit, limit: nat, table: set<Row>, after: Option<Row>)
    requires 1 <= limit < |v.rows| && IsResult(v.rows, v.table, after, limit + 1)
    requires Rest(v.table, after) == Rest(table, after)
    ensures var data, last := v.rows[..limit], v.rows[limit - 1];
      && Lists(data, Rest(table, after) - Rest(table, Some(last)))
      && Rest(table, Some(last)) <= Rest(table, after)
  {
    var data, last := v.rows[..limit], v.rows[limit - 1];
    assert last in v.rows && Below(last, after);
    forall r ensures r in data <==> r in Rest(table, after) - Rest(table, Some(last)) {
      if r in data {
        var i :| 0 <= i < limit && v.rows[i] == r;
        assert r in v.rows && r in Rest(v.table, after);
        assert i == limit - 1 || Less(last, r);
      } else if r in Rest(v.table, after) {
        if r in v.rows {
          assert v.rows == data + v.rows[limit..];
          var i :| 0 <= i < |v.rows[limit..]| && v.rows[limit..][i] == r;
          assert v.rows[limit + i] == r;
        }
        assert Less(r, last);
        assert r in Rest(table, Some(last));
      }
    }
  }

  /** The pages of a walk may see rows that are newer than every row of `table`, and must see all of it. */
  predicate OnlyNewer(table: set<Row>, visits: seq<Visit>) {
    forall n :: 0 <= n < |visits| ==>
      table <= visits[n].table && forall r, t :: r in visits[n].table - table && t in table ==> Less(t, r)
  }

  lemma NewerDoNotDisturb(table: set<Row>, more: set<Row>, after: Row)
    requires table <= more && after in table && forall r, t :: r in more - table && t in table ==> Less(t, r)
    ensures Rest(more, Some(after)) == Rest(table, Some(after))
  {
    forall r | r in Rest(more, Some(after)) ensures r in Rest(table, Some(after)) {
      if r !in table {
        assert r in more - table;
        assert Less(after, r);
      }
    }
  }

  lemma ListsConcat(p: seq<Row>, q: seq<Row>, rows: set<Row>, low: set<Row>, left: set<Row>, last: Row)
    requires Lists(p, rows - low) && Lists(q, low - left) && left <= low <= rows && p != [] && p[|p| - 1] == last
    requires forall r :: r in low ==> Less(r, last)
    ensures Lists(p + q, rows - left)
  {
    forall i, j | 0 <= i < j < |p + q| ensures Less((p + q)[j], (p + q)[i]) {
      if i < |p| <= j {
        assert q[j - |p|] in q && Less(q[j - |p|], last);
        assert i == |p| - 1 || Less(last, p[i]);
      }
    }
    forall r ensures r in p + q <==> r in rows - left {
      assert r in p + q <==> r in p || r in q;
    }
  }

  /** The rows that a walk has yet to read. */
  function Left(codec: Codec, visits: seq<Visit>, table: set<Row>): set<Row>
    requires visits != []
  {
    var next := VisitPage(codec, visits[|visits| - 1]).next;
    if next.None? then {} else Rest(table, Position(codec, next))
  }

  lemma TailOnlyNewer(table: set<Row>, visits: seq<Visit>)
    requires OnlyNewer(table, visits) && visits != []
    ensures OnlyNewer(table, visits[1..])
  {
    var tail := visits[1..];
    forall n | 0 <= n < |tail|
      ensures table <= tail[n].table && forall r, t :: r in tail[n].table - table && t in table ==> Less(t, r)
    {
      assert tail[n] == visits[n + 1];
    }
  }

  /** A walk so far has read everything but what is left, at least one row a page while there is more. */
  lemma {:induction false} WalkLists(codec: Codec, visits: seq<Visit>, cursor: Option<string>, table: set<Row>)
    requires Lawful(codec) && IsWalk(codec, visits, cursor) && OnlyNewer(table, visits)
    requires Rest(visits[0].table, Position(codec, cursor)) == Rest(table, Position(codec, cursor))
    ensures Left(codec, visits, table) <= Rest(table, Position(codec, cursor))
    ensures Lists(Collected(codec, visits), Rest(table, Position(codec, cursor)) - Left(codec, visits, table))
    ensures |visits| <= |Collected(codec, visits)| + if IsFinished(codec, visits) then 1 else 0
    decreases |visits|
  {
    var v, tail := visits[0], visits[1..];
    var page, after := VisitPage(codec, v), Position(codec, cursor);
    PageSplits(codec, v, table, after);
    if |visits| == 1 {
      assert Collected(codec, tail) == [];
      assert Collected(codec, visits) == page.data;
      assert Rest(table, after) - {} == Rest(table, after);
    } else {
      var last, low := page.data[|page.data| - 1], Rest(table, Position(codec, page.next));
      TailOnlyNewer(table, visits);
      NewerDoNotDisturb(table, tail[0].table, last);
      WalkLists(codec, tail, page.next, table);
      assert tail[|tail| - 1] == visits[|visits| - 1];
      ListsConcat(page.data, Collected(codec, tail), Rest(table, after), low, Left(codec, visits, table), last);
    }
  }

  /**
   Walks end. However the limits are chosen, and whatever newer rows arrive meanwhile, a walk that
   still has a cursor in hand has made no more requests than there were rows at the first one; and
   whoever has a cursor gets an answer to it.
   */
  lemma WalkTerminates(codec: Codec, visits: seq<Visit>, table: set<Row>, requested: Option<Cents>)
    requires Lawful(codec) && IsWalk(codec, visits, None) && OnlyNewer(visits[0].table, visits)
    ensures |visits| <= |visits[0].table| + if IsFinished(codec, visits) then 1 else 0
    ensures !IsFinished(codec, visits) ==> exists rows :: IsWalk(codec, visits + [Visit(table, requested, rows)], None)
  {
    var first := visits[0].table;
    assert Rest(first, None) == first;
    WalkLists(codec, visits, None, first);
    ListIsComplete(Collected(codec, visits), first - Left(codec, visits, first));
    FewerRows(first - Left(codec, visits, first), first);
    if !IsFinished(codec, visits) {
      var next := VisitPage(codec, visits[|visits| - 1]).next;
      var rows := Newest(Rest(table, Position(codec, next)), ClampLimit(requested) + 1);
      NewestIsResult(table, Position(codec, next), ClampLimit(requested) + 1);
      WalkExtends(codec, visits, None, Visit(table, requested, rows));
    }
  }

  lemma FewerRows(p: set<Row>, q: set<Row>)
    requires p <= q
    ensures |p| <= |q|
  {
    assert q == p + (q - p);
  }

  lemma {:induction false} WalkExtends(codec: Codec, visits: seq<Visit>, cursor: Option<string>, v: Visit)
    requires IsWalk(codec, visits, cursor) && !IsFinished(codec, visits)
    requires var next := VisitPage(codec, visits[|visits| - 1]).next;
             IsResult(v.rows, v.table, Position(codec, next), ClampLimit(v.requested) + 1)
    ensures IsWalk(codec, visits + [v], cursor)
    decreases |visits|
  {
    var next := VisitPage(codec, visits[0]).next;
    assert (visits + [v])[1..] == visits[1..] + [v];
    if |visits| == 1 {
      assert visits[1..] + [v] == [v];
    } else {
      WalkExtends(codec, visits[1..], next, v);
    }
  }

  // ---- Every query has a result ----

  lemma NewestExists(rows: set<Row>)
    requires rows != {}
    ensures exists m :: m in rows && forall r :: r in rows ==> r == m || Less(r, m)
  {
    var x :| x in rows;
    if rows != {x} {
      NewestExists(rows - {x});
      var m :| m in rows - {x} && forall r :: r in rows - {x} ==> r == m || Less(r, m);
      var top := if Less(m, x) then x else m;
      forall r | r in rows ensures r == top || Less(r, top) {
        assert r == x || r in rows - {x};
      }
    }
  }

  /** The `n` newest of the rows, newest first. */
  ghost function Newest(rows: set<Row>, n: nat): seq<Row> {
    if n == 0 || rows == {} then []
    else
      NewestExists(rows);
      var m :| m in rows && forall r :: r in rows ==> r == m || Less(r, m);
      [m] + Newest(rows - {m}, n - 1)
  }

  lemma {:induction false} NewestLists(rows: set<Row>, n: nat)
    ensures var q := Newest(rows, n);
      && Descending(q) && |q| <= n && (forall r :: r in q ==> r in rows)
      && (forall r :: r in rows && r !in q ==> |q| == n && forall x :: x in q ==> Less(r, x))
    decreases n
  {
    var q := Newest(rows, n);
    if q != [] {
      var m, rest := q[0], q[1..];
      NewestLists(rows - {m}, n - 1);
      assert rest == Newest(rows - {m}, n - 1);
      forall r | r in rest ensures r in rows && Less(r, m) {
        assert r in rows - {m};
      }
      forall r | r in rows && r !in q ensures |q| == n && forall x :: x in q ==> Less(r, x) {
        assert r !in rest && r in rows - {m};
        assert forall x :: x in q ==> x == m || x in rest;
      }
      forall i, j | 0 <= i < j < |q| ensures Less(q[j], q[i]) {
        assert q[j] == rest[j - 1] && rest[j - 1] in rest;
        assert i > 0 ==> q[i] == rest[i - 1];
      }
    }
  }

  lemma NewestIsResult(table: set<Row>, after: Option<Row>, n: nat)
    ensures IsResult(Newest(Rest(table, after), n), table, after, n)
  {
    NewestLists(Rest(table, after), n);
    var q := Newest(Rest(table, after), n);
    forall r | r in table && Below(r, after) && r !in q ensures |q| == n && forall x :: x in q ==> Less(r, x) {
      assert r in Rest(table, after);
    }
  }

  // ---- What a finished walk has read ----

  /** By creation time, later rows first; at the same time, greater ids first. */
  predicate NewestFirst(q: seq<Row>) {
    forall i, j :: 0 <= i < j < |q| ==>
      q[j].createdAt < q[i].createdAt || (q[j].createdAt == q[i].createdAt && q[j].id < q[i].id)
  }

  /**
   Walking `next` to the end, with any limits, reads exactly the rows that were there at the first
   request, newest first, with no skip and no repeat; rows added meanwhile that are newer than these
   do not disturb it.
   */
  lemma WalkReadsTheList(codec: Codec, visits: seq<Visit>)
    requires Lawful(codec) && IsWalk(codec, visits, None) && OnlyNewer(visits[0].table, visits)
    ensures var read, first := Collected(codec, visits), visits[0].table;
      && NewestFirst(read) && Lists(read, first - Left(codec, visits, first))
      && (IsFinished(codec, visits) ==> Lists(read, first) && |read| == |first|)
  {
    var table := visits[0].table;
    assert Rest(table, None) == table;
    WalkLists(codec, visits, None, table);
    if IsFinished(codec, visits) {
      assert table - {} == table;
      ListIsComplete(Collected(codec, visits), table);
    }
  }

  // ---- Walks over a table that changes at will ----

  predicate InSome(r: Row, visits: seq<Visit>) { exists n :: 0 <= n < |visits| && r in visits[n].table }

  predicate InAll(r: Row, visits: seq<Visit>) { forall n :: 0 <= n < |visits| ==> r in visits[n].table }

  lemma InTail(r: Row, visits: seq<Visit>)
    requires visits != []
    ensures InSome(r, visits) <==> r in visits[0].table || InSome(r, visits[1..])
    ensures InAll(r, visits) <==> r in visits[0].table && InAll(r, visits[1..])
  {
    assert visits == [visits[0]] + visits[1..];
  }

  lemma DescendingConcat(p: seq<Row>, q: seq<Row>)
    requires Descending(p) && Descending(q) && p != [] && forall r :: r in q ==> Less(r, p[|p| - 1])
    ensures Descending(p + q)
  {
    forall i, j | 0 <= i < j < |p + q| ensures Less((p + q)[j], (p + q)[i]) {
      if i < |p| <= j {
        assert q[j - |p|] in q;
        assert i == |p| - 1 || Less(p[|p| - 1], p[i]);
      }
    }
  }

  /** `read` repeats nothing and holds nothing that was not there; if all was read, it holds what was always there. */
  ghost predicate Faithful(read: seq<Row>, visits: seq<Visit>, after: Option<Row>, all: bool) {
    && Descending(read)
    && (forall r :: r in read ==> Below(r, after) && InSome(r, visits))
    && (all ==> forall r :: InAll(r, visits) && Below(r, after) ==> r in read)
  }

  lemma FaithfulPage(data: seq<Row>, v: Visit, after: Option<Row>)
    requires Lists(data, Rest(v.table, after))
    ensures Faithful(data, [v], after, true)
  {
    forall r ensures (InSome(r, [v]) <==> r in v.table) && (InAll(r, [v]) <==> r in v.table) {
      InTail(r, [v]);
    }
  }

  lemma FaithfulConcat(data: seq<Row>, more: seq<Row>, visits: seq<Visit>, after: Option<Row>, all: bool)
    requires visits != [] && data != []
    requires var last, table := data[|data| - 1], visits[0].table;
      && last in table && Lists(data, Rest(table, after) - Rest(table, Some(last)))
      && Faithful(more, visits[1..], Some(last), all)
    ensures Faithful(data + more, visits, after, all)
  {
    var last := data[|data| - 1];
    DescendingConcat(data, more);
    assert last in data && Below(last, after);
    forall r | r in data + more ensures Below(r, after) && InSome(r, visits) {
      InTail(r, visits);
      assert r in data || (r in more && Less(r, last));
    }
    forall r | all && InAll(r, visits) && Below(r, after) ensures r in data + more {
      InTail(r, visits);
      assert r in Rest(visits[0].table, after);
      assert r in data || r in Rest(visits[0].table, Some(last));
    }
  }

  /**
   Rows may come and go between the pages, such as invoices that change state under a state filter.
   A walk still never repeats a row or reads one that was not there, and a finished walk has read
   every row that was there all along.
   */
  lemma {:induction false} WalkUnderChange(codec: Codec, visits: seq<Visit>, cursor: Option<string>)
    requires Lawful(codec) && IsWalk(codec, visits, cursor)
    ensures NewestFirst(Collected(codec, visits))
    ensures Faithful(Collected(codec, visits), visits, Position(codec, cursor), IsFinished(codec, visits))
    decreases |visits|
  {
    var v, tail := visits[0], visits[1..];
    var page, after := VisitPage(codec, v), Position(codec, cursor);
    PageSplits(codec, v, v.table, after);
    if page.next.None? {
      assert visits == [v] && Collected(codec, tail) == [] && Collected(codec, visits) == page.data;
      FaithfulPage(page.data, v, after);
    } else if |visits| == 1 {
      assert tail == [] && Collected(codec, tail) == [];
      FaithfulConcat(page.data, [], visits, after, false);
    } else {
      WalkUnderChange(codec, tail, page.next);
      FaithfulConcat(page.data, Collected(codec, tail), visits, after, IsFinished(codec, visits));
    }
  }

  lemma {:induction false} ListIsComplete(q: seq<Row>, rows: set<Row>)
    requires Lists(q, rows)
    ensures |q| == |rows|
    decreases |q|
  {
    if q == [] {
      assert rows == {};
    } else {
      var front, last := q[..|q| - 1], q[|q| - 1];
      assert last in q;
      forall r ensures r in front <==> r in rows - {last} {
        if r in front {
          var i :| 0 <= i < |front| && front[i] == r;
          assert q[i] == r && Less(last, r);
        }
        if r in rows && r != last {
          var i :| 0 <= i < |q| && q[i] == r;
          assert front[i] == r;
        }
      }
      ListIsComplete(front, rows - {last});
    }
  }

  /** There is only one such list: the walk's outcome does not depend on the limits. */
  lemma {:induction false} ListIsUnique(p: seq<Row>, q: seq<Row>, rows: set<Row>)
    requires Lists(p, rows) && Lists(q, rows)
    ensures p == q
  {
    ListIsComplete(p, rows);
    ListIsComplete(q, rows);
    if p != [] {
      HeadIsNewest(p, rows);
      HeadIsNewest(q, rows);
      TailLists(p, rows);
      TailLists(q, rows);
      ListIsUnique(p[1..], q[1..], rows - {p[0]});
      assert p == [p[0]] + p[1..] && q == [q[0]] + q[1..];
    }
  }

  lemma HeadIsNewest(q: seq<Row>, rows: set<Row>)
    requires Lists(q, rows) && q != []
    ensures q[0] in rows && forall r :: r in rows ==> r == q[0] || Less(r, q[0])
  {
    assert q[0] in q;
    forall r | r in rows ensures r == q[0] || Less(r, q[0]) {
      var i :| 0 <= i < |q| && q[i] == r;
    }
  }

  lemma TailLists(q: seq<Row>, rows: set<Row>)
    requires Lists(q, rows) && q != []
    ensures Lists(q[1..], rows - {q[0]})
  {
    forall r ensures r in q[1..] <==> r in rows - {q[0]} {
      if r in q[1..] {
        var i :| 0 <= i < |q[1..]| && q[1..][i] == r;
        assert q[i + 1] == r && Less(r, q[0]);
      }
      if r in rows && r != q[0] {
        var i :| 0 <= i < |q| && q[i] == r;
        assert q[1..][i - 1] == r;
      }
    }
  }
}
