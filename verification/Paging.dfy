/**
 Keyset pagination over append-only histories: attempts, events and evaluations are all read
 in the order of a timestamp and an id, page by page, while rows keep being added.
 */
module Paging {
  import opened Domain

  /** A history row, as far as paging sees it: ids are unique within a history. */
  datatype Row = Row(stamp: Time, id: nat)

  predicate Before(a: Row, b: Row) {
    a.stamp < b.stamp || (a.stamp == b.stamp && a.id < b.id)
  }

  ghost predicate UniqueIds(rows: set<Row>) {
    forall a, b :: a in rows && b in rows && a.id == b.id ==> a == b
  }

  ghost predicate Ascending(page: seq<Row>) {
    forall i, j :: 0 <= i < j < |page| ==> Before(page[i], page[j])
  }

  // ---------------------------------------------------------------------------------------
  // One page
  // ---------------------------------------------------------------------------------------

  /** The rows a statement selects: all, or those strictly after the anchor. */
  function After(rows: set<Row>, anchor: Option<Row>): set<Row> {
    set x | x in rows && (anchor.Some? ==> Before(anchor.value, x))
  }

  ghost predicate IsFirst(x: Row, rows: set<Row>) {
    x in rows && forall y :: y in rows && y != x ==> Before(x, y)
  }

  lemma {:induction false} FirstExists(rows: set<Row>)
    requires rows != {}
    ensures exists x :: IsFirst(x, rows)
    decreases |rows|
  {
    var any :| any in rows;
    var rest := rows - {any};
    if rest == {} {
      assert rows == {any};
      assert IsFirst(any, rows);
    } else {
      FirstExists(rest);
      var x :| IsFirst(x, rest);
      assert forall y :: y in rows ==> y == any || y in rest;
      if Before(any, x) {
        assert IsFirst(any, rows);
      } else {
        assert IsFirst(x, rows);
      }
    }
  }

  /** The first row of a non-empty selection. */
  ghost function First(rows: set<Row>): (x: Row)
    requires rows != {}
    ensures IsFirst(x, rows)
  {
    FirstExists(rows);
    var x :| IsFirst(x, rows);
    x
  }

  /** `order by stamp, id limit n`. */
  ghost function Take(rows: set<Row>, n: nat): seq<Row>
    decreases n
  {
    if n == 0 || rows == {} then [] else [First(rows)] + Take(rows - {First(rows)}, n - 1)
  }

  ghost predicate Covers(page: seq<Row>, rows: set<Row>) {
    forall x :: x in rows ==> x in page || (page != [] && Before(page[|page| - 1], x))
  }

  /** A page is an ascending selection of the rows, and every row it leaves out comes after it. */
  lemma {:induction false} TakeLaw(rows: set<Row>, n: nat)
    ensures Ascending(Take(rows, n))
    ensures forall x :: x in Take(rows, n) ==> x in rows
    ensures n > 0 ==> Covers(Take(rows, n), rows)
    ensures |Take(rows, n)| == Min(n, |rows|)
    decreases n
  {
    if n > 0 && rows != {} {
      var first := First(rows);
      var rest := rows - {first};
      TakeLaw(rest, n - 1);
      var tail := Take(rest, n - 1);
      assert Take(rows, n) == [first] + tail;
      assert |rest| == |rows| - 1;
      forall i | 0 <= i < |tail| ensures Before(first, tail[i]) {
        assert tail[i] in rest;
      }
      forall x | x in rows ensures x in Take(rows, n) || Before(Take(rows, n)[|Take(rows, n)| - 1], x) {
        if x != first {
          assert x in rest;
        }
      }
    }
  }

  datatype Reply = Page(rows: seq<Row>) | InvalidCursor

  function Clamp(limit: int): nat { if limit < 1 then 1 else if limit > 100 then 100 else limit }

  /** One read: an unknown cursor is an error, a known one selects what comes after its row. */
  ghost function Read(history: set<Row>, limit: int, cursor: Option<nat>): Reply
    requires UniqueIds(history)
  {
    if cursor.None? then Page(Take(history, Clamp(limit)))
    else if exists a :: a in history && a.id == cursor.value then
      var anchor :| anchor in history && anchor.id == cursor.value;
      Page(Take(After(history, Some(anchor)), Clamp(limit)))
    else InvalidCursor
  }

  /** The header rule: a full page names its last row, a short one ends the walk. */
  function NextCursor(page: seq<Row>, limit: int): Option<nat> {
    if |page| == limit && page != [] then Some(page[|page| - 1].id) else None
  }

  // ---------------------------------------------------------------------------------------
  // Walking a growing history
  // ---------------------------------------------------------------------------------------

  /** The histories that successive reads see: rows are only ever added. */
  ghost predicate Growing(histories: seq<set<Row>>) {
    && (forall i :: 0 <= i < |histories| ==> UniqueIds(histories[i]))
    && forall i, j :: 0 <= i <= j < |histories| ==> histories[i] <= histories[j]
  }

  datatype Walk = Walk(rows: seq<Row>, pages: nat, finished: bool, failed: bool)

  /** Reads page after page, each from the history as it is by then, until no cursor is returned. */
  ghost function Follow(histories: seq<set<Row>>, limit: int, cursor: Option<nat>): Walk
    requires Growing(histories)
    decreases |histories|
  {
    if histories == [] then Walk([], 0, false, false)
    else
      var reply := Read(histories[0], limit, cursor);
      if reply.InvalidCursor? then Walk([], 0, false, true)
      else
        var next := NextCursor(reply.rows, limit);
        if next.None? then Walk(reply.rows, 1, true, false)
        else
          var rest := Follow(histories[1..], limit, next);
          Walk(reply.rows + rest.rows, 1 + rest.pages, rest.finished, rest.failed)
  }

  /** The rows that a walk from `anchor` must bring: those of the first history that come after it. */
  ghost predicate Complete(walk: Walk, history: set<Row>, anchor: Option<Row>) {
    forall x :: x in After(history, anchor) ==> x in walk.rows
  }

  ghost predicate FromAnchor(rows: seq<Row>, anchor: Option<Row>) {
    anchor.Some? ==> forall i :: 0 <= i < |rows| ==> Before(anchor.value, rows[i])
  }

  lemma ReadLaw(history: set<Row>, limit: int, anchor: Option<Row>)
    requires UniqueIds(history) && 1 <= limit <= 100 && (anchor.Some? ==> anchor.value in history)
    ensures var cursor := if anchor.Some? then Some(anchor.value.id) else None;
            Read(history, limit, cursor) == Page(Take(After(history, anchor), limit))
  {
    if anchor.None? {
      assert After(history, anchor) == history;
    }
  }

  lemma AppendPages(page: seq<Row>, rest: seq<Row>, anchor: Option<Row>)
    requires Ascending(page) && Ascending(rest) && page != [] && FromAnchor(page, anchor)
    requires FromAnchor(rest, Some(page[|page| - 1]))
    ensures Ascending(page + rest) && FromAnchor(page + rest, anchor)
  {
  }

  /** The law of a walk that starts after a row it has already delivered. */
  lemma {:induction false} FollowFrom(histories: seq<set<Row>>, limit: int, anchor: Option<Row>)
    requires Growing(histories) && 1 <= limit <= 100
    requires anchor.Some? && histories != [] ==> anchor.value in histories[0]
    ensures var walk := Follow(histories, limit, if anchor.Some? then Some(anchor.value.id) else None);
            && !walk.failed
            && Ascending(walk.rows) && FromAnchor(walk.rows, anchor)
            && (walk.finished && histories != [] ==> Complete(walk, histories[0], anchor))
    decreases |histories|
  {
    if histories != [] {
      var selection := After(histories[0], anchor);
      var page := Take(selection, limit);
      ReadLaw(histories[0], limit, anchor);
      TakeLaw(selection, limit);
      forall i | 0 <= i < |page| ensures anchor.Some? ==> Before(anchor.value, page[i]) {
        assert page[i] in selection;
      }
      if NextCursor(page, limit).Some? {
        var last := page[|page| - 1];
        assert last in selection;
        if |histories| > 1 {
          assert histories[0] <= histories[1];
        }
        FollowFrom(histories[1..], limit, Some(last));
        var rest := Follow(histories[1..], limit, Some(last.id));
        AppendPages(page, rest.rows, anchor);
        if rest.finished {
          forall x | x in selection ensures x in page + rest.rows {
            if x !in page {
              assert x in After(histories[1], Some(last));
            }
          }
        }
      } else {
        assert |page| == |selection|;
        TakesAll(selection, limit);
      }
    }
  }

  /** A page shorter than its limit holds the whole selection. */
  lemma {:induction false} TakesAll(rows: set<Row>, n: nat)
    requires |rows| <= n
    ensures forall x :: x in rows ==> x in Take(rows, n)
    decreases n
  {
    if n > 0 && rows != {} {
      var first := First(rows);
      assert |rows - {first}| == |rows| - 1;
      TakesAll(rows - {first}, n - 1);
      forall x | x in rows ensures x in Take(rows, n) {
        if x != first {
          assert x in rows - {first};
        }
      }
    }
  }

  /**
   Following cursors to the end, while rows are being appended: the rows come in strictly
   increasing order, hence without duplicates, no cursor is ever refused, and every row that
   existed at the first read is among them.
   */
  lemma WalkIsComplete(histories: seq<set<Row>>, limit: int)
    requires Growing(histories) && 1 <= limit <= 100 && histories != []
    ensures var walk := Follow(histories, limit, None);
            && !walk.failed && Ascending(walk.rows)
            && (walk.finished ==> forall x :: x in histories[0] ==> x in walk.rows)
  {
    FollowFrom(histories, limit, None);
    assert After(histories[0], None) == histories[0];
  }

  // ---------------------------------------------------------------------------------------
  // Walking a history that stands still
  // ---------------------------------------------------------------------------------------

  ghost predicate Constant(histories: seq<set<Row>>, history: set<Row>) {
    forall i :: 0 <= i < |histories| ==> histories[i] == history
  }

  /** How many pages a walk over n rows takes. */
  function Pages(n: nat, limit: nat): nat
    requires limit >= 1
  {
    if n < limit then 1 else 1 + Pages(n - limit, limit)
  }

  lemma {:induction false} PagesIsQuotient(n: nat, limit: nat)
    requires limit >= 1
    ensures Pages(n, limit) == n / limit + 1
  {
    if n >= limit {
      PagesIsQuotient(n - limit, limit);
      QuotientStep(n, limit);
    }
  }

  lemma QuotientStep(n: int, limit: int)
    requires 1 <= limit <= n
    ensures n / limit == (n - limit) / limit + 1
  {
    var q, r := (n - limit) / limit, (n - limit) % limit;
    assert n - limit == limit * q + r;
    assert n == limit * (q + 1) + r;
    QuotientUnique(n, limit, n / limit, n % limit, q + 1, r);
  }

  lemma QuotientUnique(n: int, d: int, q: int, r: int, q': int, r': int)
    requires n == d * q + r == d * q' + r' && 0 <= r < d && 0 <= r' < d
    ensures q == q'
  {
    if q < q' {
      Scale(d, q + 1, q');
    } else if q' < q {
      Scale(d, q' + 1, q);
    }
  }

  lemma Scale(d: int, x: int, y: int)
    requires d >= 0 && x <= y
    ensures d * x <= d * y
  {
  }

  lemma AfterLast(history: set<Row>, anchor: Option<Row>, limit: nat)
    requires 1 <= limit <= |After(history, anchor)|
    ensures var page := Take(After(history, anchor), limit);
            && page != [] && |page| == limit
            && |After(history, Some(page[limit - 1]))| == |After(history, anchor)| - limit
  {
    var selection := After(history, anchor);
    var page := Take(selection, limit);
    TakeLaw(selection, limit);
    var last := page[limit - 1];
    assert last in selection;
    var taken := set x | x in page;
    AscendingDistinct(page);
    assert taken <= selection;
    forall i | 0 <= i < |page| ensures !Before(last, page[i]) {
      assert i < limit - 1 ==> Before(page[i], last);
    }
    assert anchor.Some? ==> Before(anchor.value, last);
    assert After(history, Some(last)) == selection - taken;
  }

  lemma {:induction false} AscendingDistinct(page: seq<Row>)
    requires Ascending(page)
    ensures |set x | x in page| == |page|
  {
    if page != [] {
      var n := |page| - 1;
      var init := page[..n];
      AscendingDistinct(init);
      assert forall i :: 0 <= i < n ==> Before(page[i], page[n]);
      assert page[n] !in init;
      assert (set x | x in page) == (set x | x in init) + {page[n]};
    }
  }

  lemma {:induction false} PagesFrom(histories: seq<set<Row>>, history: set<Row>, limit: int, anchor: Option<Row>)
    requires Growing(histories) && Constant(histories, history) && UniqueIds(history) && 1 <= limit <= 100
    requires anchor.Some? ==> anchor.value in history
    requires |histories| >= Pages(|After(history, anchor)|, limit)
    ensures var walk := Follow(histories, limit, if anchor.Some? then Some(anchor.value.id) else None);
            walk.finished && walk.pages == Pages(|After(history, anchor)|, limit) && |walk.rows| == |After(history, anchor)|
    decreases |histories|
  {
    var selection := After(history, anchor);
    var page := Take(selection, limit);
    assert histories[0] == history;
    ReadLaw(history, limit, anchor);
    TakeLaw(selection, limit);
    if |selection| >= limit {
      AfterLast(history, anchor, limit);
      var last := page[|page| - 1];
      assert last in selection;
      PagesFrom(histories[1..], history, limit, Some(last));
    }
  }

  /** On a history of n rows that does not change, the walk ends after floor(n / limit) + 1 pages. */
  lemma PageCount(histories: seq<set<Row>>, history: set<Row>, limit: int)
    requires Growing(histories) && Constant(histories, history) && UniqueIds(history) && 1 <= limit <= 100
    requires |histories| > |history| / limit
    ensures var walk := Follow(histories, limit, None);
            walk.finished && walk.pages == |history| / limit + 1 && |walk.rows| == |history|
  {
    assert After(history, None) == history;
    PagesIsQuotient(|history|, limit);
    PagesFrom(histories, history, limit, None);
  }
}
