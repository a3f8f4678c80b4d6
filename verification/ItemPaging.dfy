/**
 Keyset paging over an append-only event log: one page of response items, the numeric cursor that
 resumes after it, and what a client collects by following cursors while the log goes on growing.
 */
module ItemPaging {
  import opened Options
  import Decimals

  /** An event row, as far as listing reads it; `num` is the bigint sequence number. */
  datatype Row = Row(num: nat, turn: Option<string>, response: bool, payload: string, createdAt: int)

  datatype Item = Item(turn: string, id: string, ordinal: nat, createdAt: int, payload: string)

  datatype Page = Page(items: seq<Item>, next: Option<string>)

  datatype Direction = Asc | Desc

  datatype Filter = Filter(turn: Option<string>, afterOrdinal: Option<nat>)

  datatype Error = InvalidCursor | ThreadNotFound

  /** Rows of one thread in order of number; the column holds signed 64-bit numbers. */
  predicate Ascending(rows: seq<Row>) {
    rows != [] ==>
    && rows[0].num <= Decimals.MAX_INT64
    && (forall r | r in rows[1..] :: rows[0].num < r.num)
    && Ascending(rows[1..])
  }

  lemma {:induction false} AscendingParts(a: seq<Row>, b: seq<Row>)
    requires Ascending(a + b)
    ensures Ascending(a) && Ascending(b) && forall x, y | x in a && y in b :: x.num < y.num
  {
    if a == [] {
      assert a + b == b;
    } else {
      assert (a + b)[1..] == a[1..] + b;
      AscendingParts(a[1..], b);
    }
  }

  // ---------------------------------------------------------------- the query

  function NormalizePageSize(n: int): (size: nat)
    ensures 1 <= size <= 200
  {
    if n <= 0 then 25 else if n > 200 then 200 else n
  }

  /** 25 by default, at most 200, and else what was asked for. */
  lemma PageSizes(n: int)
    ensures NormalizePageSize(n) == if n < 1 then 25 else if n < 200 then n else 200
  {
  }

  function OrdinalToSeq(ord: nat): int { if ord > Decimals.MAX_INT64 then Decimals.MAX_INT64 else ord }

  function SeqCursor(c: Option<string>): Result<Option<int>, Error> {
    if c.None? || c.value == "" then Ok(None)
    else match Decimals.ParseInt64(c.value)
         case None => Err(InvalidCursor)
         case Some(v) => Ok(Some(v))
  }

  predicate Wanted(r: Row, f: Filter) {
    && r.response
    && (f.turn.None? || r.turn == f.turn)
    && (f.afterOrdinal.None? || r.num > OrdinalToSeq(f.afterOrdinal.value))
  }

  predicate Beyond(r: Row, dir: Direction, from: Option<int>) {
    from.None? || (if dir == Asc then r.num > from.value else r.num < from.value)
  }

  /** The rows a query is about, in order of number. */
  function Selected(rows: seq<Row>, f: Filter, dir: Direction, from: Option<int>): seq<Row> {
    if rows == [] then []
    else (if Wanted(rows[0], f) && Beyond(rows[0], dir, from) then [rows[0]] else []) + Selected(rows[1..], f, dir, from)
  }

  function Reversed<T>(s: seq<T>): (r: seq<T>)
    ensures |r| == |s| && forall k | 0 <= k < |s| :: r[k] == s[|s| - 1 - k]
  {
    seq(|s|, k requires 0 <= k < |s| => s[|s| - 1 - k])
  }

  function InOrder<T>(s: seq<T>, dir: Direction): (r: seq<T>)
    ensures |r| == |s|
  {
    if dir == Asc then s else Reversed(s)
  }

  function Limit(rows: seq<Row>, n: nat): seq<Row> { if |rows| <= n then rows else rows[..n] }

  function ItemOf(r: Row): Item {
    Item(if r.turn.None? then "" else r.turn.value, Decimals.Print(r.num), r.num, r.createdAt, r.payload)
  }

  function ItemsOf(rows: seq<Row>): (items: seq<Item>)
    ensures |items| == |rows| && forall k | 0 <= k < |rows| :: items[k] == ItemOf(rows[k])
  {
    seq(|rows|, k requires 0 <= k < |rows| => ItemOf(rows[k]))
  }

  /** A page is the first `size` of the rows; there is a cursor, at its last row, exactly if there are more. */
  function PageOf(rows: seq<Row>, size: nat): Page
    requires size > 0
  {
    if |rows| <= size then Page(ItemsOf(rows), None)
    else Page(ItemsOf(rows[..size]), Some(Decimals.Print(rows[size - 1].num)))
  }

  /** What a page shows of its rows, in their order, and where its cursor stands. */
  lemma PageShows(rows: seq<Row>, size: nat, k: nat)
    requires size > 0 && k < |PageOf(rows, size).items|
    ensures
      var page := PageOf(rows, size);
      && |page.items| == (if |rows| < size then |rows| else size)
      && page.items[k].ordinal == rows[k].num && page.items[k].payload == rows[k].payload
      && page.items[k].createdAt == rows[k].createdAt
      && page.items[k].turn == (if rows[k].turn == None then "" else rows[k].turn.value)
      && Decimals.DigitsValue(page.items[k].id) == Some(rows[k].num)
      && (page.next != None <==> |rows| > size)
      && (page.next != None ==> Decimals.DigitsValue(page.next.value) == Some(page.items[size - 1].ordinal))
  {
    Decimals.PrintedValue(rows[k].num);
    if |rows| > size { Decimals.PrintedValue(rows[size - 1].num); }
  }

  /** A cursor is nothing or a signed 64-bit number; anything else is refused. */
  lemma CursorsRead(n: nat)
    ensures SeqCursor(None) == Ok(None) && SeqCursor(Some("")) == Ok(None)
    ensures SeqCursor(Some(Decimals.Print(n))) == if n <= Decimals.MAX_INT64 then Ok(Some(n)) else Err(InvalidCursor)
  {
    Decimals.ParseSigned(n);
  }

  /** The loop over at most one row more than a page. */
  method ScanItemPage(rows: seq<Row>, size: nat) returns (page: Page)
    requires size > 0
    ensures page == PageOf(rows, size)
  {
    var items: seq<Item> := [];
    var next: Option<string> := None;
    var lastNum := 0;
    var k := 0;
    while k < |rows|
      invariant k <= |rows| && k <= size && next == None
      invariant items == ItemsOf(rows[..k])
      invariant k > 0 ==> lastNum == rows[k - 1].num
    {
      if |items| == size {
        next := Some(Decimals.Print(lastNum));
        break;
      }
      items := items + [ItemOf(rows[k])];
      lastNum := rows[k].num;
      assert rows[..k + 1] == rows[..k] + [rows[k]];
      k := k + 1;
    }
    assert k == |rows| ==> rows[..k] == rows;
    page := Page(items, next);
  }

  /** What one call returns; the thread row is read after the cursor is. */
  function Listed(rows: seq<Row>, known: bool, f: Filter, dir: Direction, pageSize: int, cursor: Option<string>): Result<Page, Error> {
    match SeqCursor(cursor)
    case Err(e) => Err(e)
    case Ok(from) =>
      if !known then Err(ThreadNotFound)
      else Ok(PageOf(InOrder(Selected(rows, f, dir, from), dir), NormalizePageSize(pageSize)))
  }

  method ListItems(rows: seq<Row>, known: bool, f: Filter, dir: Direction, pageSize: int, cursor: Option<string>)
    returns (r: Result<Page, Error>)
    ensures r == Listed(rows, known, f, dir, pageSize, cursor)
  {
    var size := NormalizePageSize(pageSize);
    var from := SeqCursor(cursor);
    if from.Err? {
      return Err(from.error);
    }
    if !known {
      return Err(ThreadNotFound);
    }
    var all := InOrder(Selected(rows, f, dir, from.value), dir);
    LimitLosesNothing(all, size);
    var page := ScanItemPage(Limit(all, size + 1), size);
    return Ok(page);
  }

  /** One row more than a page is enough to know whether there is a next one. */
  lemma LimitLosesNothing(rows: seq<Row>, size: nat)
    requires size > 0
    ensures PageOf(Limit(rows, size + 1), size) == PageOf(rows, size)
  {
  }

  // ---------------------------------------------------------------- selecting

  lemma SelectedCons(rows: seq<Row>, f: Filter, dir: Direction, from: Option<int>)
    requires rows != []
    ensures
      var rest := Selected(rows[1..], f, dir, from);
      Selected(rows, f, dir, from) == if Wanted(rows[0], f) && Beyond(rows[0], dir, from) then [rows[0]] + rest else rest
  {
  }

  lemma ConsSlices<T>(x: T, s: seq<T>, k: nat)
    requires 0 < k <= |s|
    ensures ([x] + s)[k] == s[k - 1] && ([x] + s)[k + 1..] == s[k..] && ([x] + s)[..k] == [x] + s[..k - 1]
  {
  }

  lemma {:induction false} SelectedIsFilter(rows: seq<Row>, f: Filter, dir: Direction, from: Option<int>)
    ensures forall r :: r in Selected(rows, f, dir, from) <==> r in rows && Wanted(r, f) && Beyond(r, dir, from)
    ensures forall r | r in rows ::
      r in Selected(rows, f, dir, from) <==>
        && r.response
        && (f.turn == None || r.turn == Some(f.turn.value))
        && (f.afterOrdinal == None
            || (if f.afterOrdinal.value < 9223372036854775807 then f.afterOrdinal.value else 9223372036854775807) < r.num)
        && (from == None || (dir == Asc && from.value < r.num) || (dir == Desc && r.num < from.value))
  {
    if rows != [] {
      SelectedIsFilter(rows[1..], f, dir, from);
    }
  }

  lemma {:induction false} SelectedAppend(rows: seq<Row>, more: seq<Row>, f: Filter, dir: Direction, from: Option<int>)
    ensures Selected(rows + more, f, dir, from) == Selected(rows, f, dir, from) + Selected(more, f, dir, from)
  {
    if rows == [] {
      assert rows + more == more;
    } else {
      assert (rows + more)[1..] == rows[1..] + more;
      SelectedAppend(rows[1..], more, f, dir, from);
    }
  }

  /** If every row is beyond both or short of both cursors, they select the same. */
  lemma {:induction false} SameSelection(rows: seq<Row>, f: Filter, dir: Direction, a: Option<int>, b: Option<int>)
    requires forall r | r in rows && Wanted(r, f) :: Beyond(r, dir, a) <==> Beyond(r, dir, b)
    ensures Selected(rows, f, dir, a) == Selected(rows, f, dir, b)
  {
    if rows != [] {
      SameSelection(rows[1..], f, dir, a, b);
    }
  }

  /** The cursor at the first selected row. */
  lemma ResumeAtHead(rows: seq<Row>, f: Filter, dir: Direction, from: Option<int>)
    requires Ascending(rows) && rows != [] && Wanted(rows[0], f) && Beyond(rows[0], dir, from)
    ensures Selected(rows, f, dir, Some(rows[0].num)) == if dir == Asc then Selected(rows[1..], f, dir, from) else []
  {
    SelectedCons(rows, f, dir, Some(rows[0].num));
    if dir == Asc {
      SameSelection(rows[1..], f, dir, from, Some(rows[0].num));
    } else {
      NoneSelected(rows[1..], f, Desc, Some(rows[0].num));
    }
  }

  /** The cursor at a later selected row, when the first row is selected or not. */
  lemma ResumeInTail(rows: seq<Row>, f: Filter, dir: Direction, from: Option<int>, c: Row)
    requires Ascending(rows) && rows != [] && c in Selected(rows[1..], f, dir, from)
    ensures
      var rest := Selected(rows[1..], f, dir, Some(c.num));
      Selected(rows, f, dir, Some(c.num)) ==
        if dir == Desc && Wanted(rows[0], f) && Beyond(rows[0], dir, from) then [rows[0]] + rest else rest
  {
    SelectedIsFilter(rows[1..], f, dir, from);
    SelectedCons(rows, f, dir, Some(c.num));
  }

  /** A cursor at a selected row selects the rows after it, or descending the rows before it. */
  lemma {:induction false} Resume(rows: seq<Row>, f: Filter, dir: Direction, from: Option<int>, k: nat)
    requires Ascending(rows) && k < |Selected(rows, f, dir, from)|
    ensures
      var s := Selected(rows, f, dir, from);
      Selected(rows, f, dir, Some(s[k].num)) == if dir == Asc then s[k + 1..] else s[..k]
  {
    var tail := Selected(rows[1..], f, dir, from);
    SelectedCons(rows, f, dir, from);
    if Wanted(rows[0], f) && Beyond(rows[0], dir, from) {
      if k == 0 {
        ResumeAtHead(rows, f, dir, from);
        assert ([rows[0]] + tail)[1..] == tail;
      } else {
        ConsSlices(rows[0], tail, k);
        Resume(rows[1..], f, dir, from, k - 1);
        ResumeInTail(rows, f, dir, from, tail[k - 1]);
      }
    } else {
      Resume(rows[1..], f, dir, from, k);
      ResumeInTail(rows, f, dir, from, tail[k]);
    }
  }

  lemma {:induction false} NoneSelected(rows: seq<Row>, f: Filter, dir: Direction, from: Option<int>)
    requires forall r | r in rows :: !Wanted(r, f) || !Beyond(r, dir, from)
    ensures Selected(rows, f, dir, from) == []
  {
    if rows != [] { NoneSelected(rows[1..], f, dir, from); }
  }

  // ---------------------------------------------------------------- following cursors

  datatype Walked = Walked(items: seq<Item>, pages: nat, done: bool)

  /** The client: one page from each log as it stands at that call, until there is no cursor. */
  function Walk(logs: seq<seq<Row>>, f: Filter, dir: Direction, pageSize: int, cursor: Option<string>): (w: Walked)
    ensures w.pages <= |logs| && (w.done ==> w.pages > 0)
  {
    if logs == [] then Walked([], 0, false)
    else match Listed(logs[0], true, f, dir, pageSize, cursor)
         case Err(_) => Walked([], 0, false)
         case Ok(page) =>
           if page.next.None? then Walked(page.items, 1, true)
           else
             var w := Walk(logs[1..], f, dir, pageSize, page.next);
             Walked(page.items + w.items, w.pages + 1, w.done)
  }

  /** The same walk with the cursor as the number it stands for. */
  function WalkFrom(logs: seq<seq<Row>>, f: Filter, dir: Direction, size: nat, from: Option<int>): (w: Walked)
    requires size > 0
    ensures w.pages <= |logs| && (logs != [] ==> w.pages > 0)
  {
    if logs == [] then Walked([], 0, false)
    else
      var rows := InOrder(Selected(logs[0], f, dir, from), dir);
      if |rows| <= size then Walked(ItemsOf(rows), 1, true)
      else
        var w := WalkFrom(logs[1..], f, dir, size, Some(rows[size - 1].num));
        Walked(ItemsOf(rows[..size]) + w.items, w.pages + 1, w.done)
  }

  /** Between calls the log only grows. */
  predicate Grows(logs: seq<seq<Row>>) {
    logs != [] ==> Ascending(logs[0]) && (|logs| > 1 ==> logs[0] <= logs[1]) && Grows(logs[1..])
  }

  lemma {:induction false} GrowsTo(logs: seq<seq<Row>>, k: nat)
    requires Grows(logs) && k < |logs|
    ensures logs[0] <= logs[k] && Ascending(logs[k])
  {
    if k > 0 { GrowsTo(logs[1..], k - 1); }
  }

  lemma GrowsOn(logs: seq<seq<Row>>)
    requires Grows(logs) && |logs| > 1
    ensures Ascending(logs[1]) && logs[0] <= logs[1] && Grows(logs[1..])
  {
  }

  lemma CursorReadsBack(n: nat)
    requires n <= Decimals.MAX_INT64
    ensures SeqCursor(Some(Decimals.Print(n))) == Ok(Some(n))
  {
    Decimals.ParsePrinted(n);
  }

  lemma {:induction false} AscendingBounded(rows: seq<Row>)
    requires Ascending(rows)
    ensures forall r | r in rows :: r.num <= Decimals.MAX_INT64
  {
    if rows != [] { AscendingBounded(rows[1..]); }
  }

  lemma {:induction false} WalkOnePage(logs: seq<seq<Row>>, f: Filter, dir: Direction, pageSize: int, cursor: Option<string>, from: Option<int>)
    requires logs != [] && SeqCursor(cursor) == Ok(from)
    ensures
      var rows := InOrder(Selected(logs[0], f, dir, from), dir);
      var size := NormalizePageSize(pageSize);
      Walk(logs, f, dir, pageSize, cursor) ==
        if |rows| <= size then Walked(ItemsOf(rows), 1, true)
        else
          var w := Walk(logs[1..], f, dir, pageSize, Some(Decimals.Print(rows[size - 1].num)));
          Walked(ItemsOf(rows[..size]) + w.items, w.pages + 1, w.done)
  {
    hide Selected, SeqCursor, ItemOf, InOrder;
  }

  lemma CursorOfRow(rows: seq<Row>, f: Filter, dir: Direction, from: Option<int>, row: Row)
    requires Ascending(rows) && row in InOrder(Selected(rows, f, dir, from), dir)
    ensures SeqCursor(Some(Decimals.Print(row.num))) == Ok(Some(row.num))
  {
    SelectedIsFilter(rows, f, dir, from);
    AscendingBounded(rows);
    CursorReadsBack(row.num);
  }

  /** No cursor string is lost or misread on the way. */
  lemma {:induction false} WalkIsWalkFrom(logs: seq<seq<Row>>, f: Filter, dir: Direction, pageSize: int, cursor: Option<string>, from: Option<int>)
    requires Grows(logs) && SeqCursor(cursor) == Ok(from)
    ensures Walk(logs, f, dir, pageSize, cursor) == WalkFrom(logs, f, dir, NormalizePageSize(pageSize), from)
    decreases |logs|
  {
    hide Selected, Ascending, SeqCursor, ItemOf, InOrder, NormalizePageSize, Beyond, Wanted;
    if logs != [] {
      var size := NormalizePageSize(pageSize);
      var rows := InOrder(Selected(logs[0], f, dir, from), dir);
      WalkOnePage(logs, f, dir, pageSize, cursor, from);
      if |rows| > size {
        var row := rows[size - 1];
        CursorOfRow(logs[0], f, dir, from, row);
        WalkIsWalkFrom(logs[1..], f, dir, pageSize, Some(Decimals.Print(row.num)), Some(row.num));
      }
    }
  }

  /** What was collected is the start of the items of some rows, and all of them once the walk is done. */
  predicate Collected(w: Walked, rows: seq<Row>) {
    w.items <= ItemsOf(rows) && (w.done ==> w.items == ItemsOf(rows))
  }

  lemma PageBefore(page: seq<Row>, w: Walked, rest: seq<Row>)
    requires Collected(w, rest)
    ensures Collected(Walked(ItemsOf(page) + w.items, w.pages + 1, w.done), page + rest)
  {
  }

  lemma CutAppended(a: seq<Row>, b: seq<Row>, k: nat)
    requires 0 < k <= |a|
    ensures (a + b)[k - 1] == a[k - 1] && a + b == a[..k] + (a + b)[k..]
  {
  }

  /** A page of an ascending query, then the cursor, on a log that has grown. */
  lemma {:induction false} AscendingPage(was: seq<Row>, now: seq<Row>, f: Filter, from: Option<int>, size: nat)
    requires Ascending(now) && was <= now && size > 0
    requires |Selected(was, f, Asc, from)| > size
    ensures
      var page := Selected(was, f, Asc, from)[..size];
      Selected(now, f, Asc, from) == page + Selected(now, f, Asc, Some(page[size - 1].num))
  {
    var s := Selected(was, f, Asc, from);
    assert now == was + now[|was|..];
    SelectedAppend(was, now[|was|..], f, Asc, from);
    Resume(now, f, Asc, from, size - 1);
    CutAppended(s, Selected(now[|was|..], f, Asc, from), size);
  }

  /** One page more in front of a walk that ends at some log. */
  lemma {:induction false} AscendingStep(logs: seq<seq<Row>>, log: seq<Row>, f: Filter, size: nat, from: Option<int>)
    requires logs != [] && size > 0 && Ascending(log) && logs[0] <= log
    requires |Selected(logs[0], f, Asc, from)| > size
    requires
      var next := Some(Selected(logs[0], f, Asc, from)[size - 1].num);
      Collected(WalkFrom(logs[1..], f, Asc, size, next), Selected(log, f, Asc, next))
    ensures Collected(WalkFrom(logs, f, Asc, size, from), Selected(log, f, Asc, from))
  {
    var s := Selected(logs[0], f, Asc, from);
    var next := Some(s[size - 1].num);
    AscendingPage(logs[0], log, f, from, size);
    PageBefore(s[..size], WalkFrom(logs[1..], f, Asc, size, next), Selected(log, f, Asc, next));
  }

  lemma {:induction false} AscendingWalkFrom(logs: seq<seq<Row>>, f: Filter, size: nat, from: Option<int>)
    requires Grows(logs) && logs != [] && size > 0
    ensures
      var w := WalkFrom(logs, f, Asc, size, from);
      Collected(w, Selected(logs[w.pages - 1], f, Asc, from))
    decreases |logs|
  {
    var s := Selected(logs[0], f, Asc, from);
    if |s| > size {
      var next := Some(s[size - 1].num);
      var pages := WalkFrom(logs[1..], f, Asc, size, next).pages;
      GrowsTo(logs, pages);
      if |logs| > 1 {
        AscendingWalkFrom(logs[1..], f, size, next);
        assert logs[1..][pages - 1] == logs[pages];
      }
      AscendingStep(logs, logs[pages], f, size, from);
    }
  }

  /**
   Ascending: what has been collected is the start of the matching items of the log last read, each once
   and in order, and all of them when there is no cursor any more.
   */
  lemma AscendingWalk(logs: seq<seq<Row>>, f: Filter, pageSize: int, cursor: Option<string>)
    requires Grows(logs) && logs != [] && SeqCursor(cursor).Ok?
    ensures
      var w := Walk(logs, f, Asc, pageSize, cursor);
      && 0 < w.pages <= |logs|
      && var matching := ItemsOf(Selected(logs[w.pages - 1], f, Asc, SeqCursor(cursor).value));
         w.items <= matching && (w.done ==> w.items == matching)
  {
    WalkIsWalkFrom(logs, f, Asc, pageSize, cursor, SeqCursor(cursor).value);
    AscendingWalkFrom(logs, f, NormalizePageSize(pageSize), SeqCursor(cursor).value);
  }

  /** The next page of a descending query reads from a log that has grown what the old one still had. */
  lemma {:induction false} DescendingPage(was: seq<Row>, now: seq<Row>, f: Filter, from: Option<int>, k: nat)
    requires Ascending(now) && was <= now && k < |Selected(was, f, Desc, from)|
    ensures var s := Selected(was, f, Desc, from); Selected(now, f, Desc, Some(s[k].num)) == s[..k]
  {
    var s := Selected(was, f, Desc, from);
    var more := now[|was|..];
    assert now == was + more;
    AscendingParts(was, more);
    SelectedIsFilter(was, f, Desc, from);
    assert s[k] in s;
    NoneSelected(more, f, Desc, Some(s[k].num));
    SelectedAppend(was, more, f, Desc, Some(s[k].num));
    Resume(was, f, Desc, from, k);
  }

  lemma ReversedSplit(s: seq<Row>, k: nat)
    requires k <= |s|
    ensures Reversed(s) == Reversed(s)[..|s| - k] + Reversed(s[..k])
  {
  }

  /** One page of a descending walk. */
  lemma {:induction false} DescendingUnfolds(logs: seq<seq<Row>>, f: Filter, size: nat, from: Option<int>, s: seq<Row>, w: Walked)
    requires logs != [] && s == Selected(logs[0], f, Desc, from) && 0 < size < |s|
    requires w == WalkFrom(logs[1..], f, Desc, size, Some(s[|s| - size].num))
    ensures WalkFrom(logs, f, Desc, size, from) == Walked(ItemsOf(Reversed(s)[..size]) + w.items, w.pages + 1, w.done)
  {
    hide Selected;
    assert Reversed(s)[size - 1] == s[|s| - size];
  }

  /** One page more in front of a walk through what the page left. */
  lemma {:induction false} DescendingStep(logs: seq<seq<Row>>, f: Filter, size: nat, from: Option<int>, s: seq<Row>, w: Walked)
    requires logs != [] && s == Selected(logs[0], f, Desc, from) && 0 < size < |s|
    requires w == WalkFrom(logs[1..], f, Desc, size, Some(s[|s| - size].num))
    requires Collected(w, Reversed(s[..|s| - size]))
    ensures Collected(WalkFrom(logs, f, Desc, size, from), Reversed(s))
  {
    hide Selected, Collected, WalkFrom;
    DescendingUnfolds(logs, f, size, from, s, w);
    ReversedSplit(s, |s| - size);
    PageBefore(Reversed(s)[..size], w, Reversed(s[..|s| - size]));
  }

  lemma {:induction false} LastDescendingPage(logs: seq<seq<Row>>, f: Filter, size: nat, from: Option<int>, s: seq<Row>)
    requires logs != [] && s == Selected(logs[0], f, Desc, from) && |s| <= size && 0 < size
    ensures Collected(WalkFrom(logs, f, Desc, size, from), Reversed(s))
  {
    hide Selected;
  }

  lemma NoMorePages(f: Filter, size: nat, from: Option<int>, s: seq<Row>)
    requires 0 < size
    ensures Collected(WalkFrom([], f, Desc, size, from), Reversed(s))
  {
  }

  lemma {:induction false} DescendingWalkFrom(logs: seq<seq<Row>>, f: Filter, size: nat, from: Option<int>)
    requires Grows(logs) && logs != [] && size > 0
    ensures Collected(WalkFrom(logs, f, Desc, size, from), Reversed(Selected(logs[0], f, Desc, from)))
    decreases |logs|
  {
    hide Selected, ItemOf, Grows, Ascending, WalkFrom, Collected;
    var s := Selected(logs[0], f, Desc, from);
    if |s| <= size {
      LastDescendingPage(logs, f, size, from, s);
    } else {
      var next := Some(s[|s| - size].num);
      if |logs| > 1 {
        GrowsOn(logs);
        DescendingPage(logs[0], logs[1], f, from, |s| - size);
        DescendingWalkFrom(logs[1..], f, size, next);
        assert Selected(logs[1..][0], f, Desc, next) == s[..|s| - size];
      } else {
        NoMorePages(f, size, next, s[..|s| - size]);
        assert logs[1..] == [];
      }
      DescendingStep(logs, f, size, from, s, WalkFrom(logs[1..], f, Desc, size, next));
    }
  }

  /** Descending: exactly the matching items of the first log read, newest first, however the log grows. */
  lemma DescendingWalk(logs: seq<seq<Row>>, f: Filter, pageSize: int, cursor: Option<string>)
    requires Grows(logs) && logs != [] && SeqCursor(cursor).Ok?
    ensures
      var w := Walk(logs, f, Desc, pageSize, cursor);
      var matching := ItemsOf(Reversed(Selected(logs[0], f, Desc, SeqCursor(cursor).value)));
      w.items <= matching && (w.done ==> w.items == matching)
  {
    WalkIsWalkFrom(logs, f, Desc, pageSize, cursor, SeqCursor(cursor).value);
    DescendingWalkFrom(logs, f, NormalizePageSize(pageSize), SeqCursor(cursor).value);
  }

  function Repeat(log: seq<Row>, n: nat): (logs: seq<seq<Row>>)
    ensures |logs| == n && forall i | 0 <= i < n :: logs[i] == log
  {
    if n == 0 then [] else [log] + Repeat(log, n - 1)
  }

  lemma {:induction false} RepeatGrows(log: seq<Row>, n: nat)
    requires Ascending(log)
    ensures Grows(Repeat(log, n))
  {
    if n > 0 { RepeatGrows(log, n - 1); }
  }

  lemma OnePageLess(n: nat, size: nat, left: nat)
    requires size < left <= n * size
    ensures n > 1 && left - size <= (n - 1) * size
  {
  }

  lemma RestIsShorter(log: seq<Row>, f: Filter, dir: Direction, from: Option<int>, size: nat)
    requires Ascending(log) && 0 < size < |Selected(log, f, dir, from)|
    ensures
      var s := Selected(log, f, dir, from);
      |Selected(log, f, dir, Some(InOrder(s, dir)[size - 1].num))| == |s| - size
  {
    var s := Selected(log, f, dir, from);
    Resume(log, f, dir, from, if dir == Asc then size - 1 else |s| - size);
  }

  lemma {:induction false} WalkFromEnds(log: seq<Row>, n: nat, f: Filter, dir: Direction, size: nat, from: Option<int>)
    requires Ascending(log) && size > 0 && n > 0
    requires |Selected(log, f, dir, from)| <= n * size
    ensures WalkFrom(Repeat(log, n), f, dir, size, from).done
  {
    var s := Selected(log, f, dir, from);
    if |s| > size {
      OnePageLess(n, size, |s|);
      RestIsShorter(log, f, dir, from, size);
      WalkFromEnds(log, n - 1, f, dir, size, Some(InOrder(s, dir)[size - 1].num));
    }
  }

  /** While the log stands still a walk ends, needing no more than one page for every `size` matching rows. */
  lemma WalkEnds(log: seq<Row>, n: nat, f: Filter, dir: Direction, pageSize: int, cursor: Option<string>)
    requires Ascending(log) && SeqCursor(cursor).Ok? && n > 0
    requires |Selected(log, f, dir, SeqCursor(cursor).value)| <= n * NormalizePageSize(pageSize)
    ensures Walk(Repeat(log, n), f, dir, pageSize, cursor).done
  {
    RepeatGrows(log, n);
    WalkIsWalkFrom(Repeat(log, n), f, dir, pageSize, cursor, SeqCursor(cursor).value);
    WalkFromEnds(log, n, f, dir, NormalizePageSize(pageSize), SeqCursor(cursor).value);
  }
}
