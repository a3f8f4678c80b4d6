/**
 The event stream of a thread: how items are encoded, numbered and written in one transaction,
 how stored events are read, and what a replay of the history gets back.
 */
module EventLog {
  import opened Options

  type ThreadId = nat

  datatype Kind = SessionMeta | TurnContext | ResponseItem | Compacted | EventMsg | OtherKind

  /**
   An event message: its variant name, whether the protocol library knows the variant, the `type`
   field inside its raw form if there is one, and its turn id if that has the form of a UUID.
   */
  datatype Msg = Msg(name: string, known: bool, rawType: Option<string>, turn: Option<string>)

  /** `size` is the length of the serialized item. */
  datatype Item = Item(kind: Kind, msg: Option<Msg>, content: string, size: nat)

  datatype Ref = Ref(thread: ThreadId, num: nat)

  datatype Body = Whole(item: Item) | Summary(kind: Kind, bytes: nat, eventType: string, ref: Ref)

  datatype Stored = Stored(num: nat, turn: Option<string>, eventType: string, body: Body, ref: Option<Ref>)

  datatype LogError = EventUnknown | ThreadNotFound

  // ---------------------------------------------------------------- encoding

  predicate RuntimeEvent(m: Msg) {
    (m.name == "approval_requested" || m.name == "approval_denied") && m.rawType == Some(m.name)
  }

  function EventTypeOf(item: Item): Result<string, LogError> {
    match item.kind
    case SessionMeta => Ok("session_meta")
    case TurnContext => Ok("turn_context")
    case ResponseItem => Ok("response_item")
    case Compacted => Ok("compacted_item")
    case EventMsg =>
      if item.msg.None? || item.msg.value.name == "" then Err(EventUnknown)
      else if !item.msg.value.known && !RuntimeEvent(item.msg.value) then Err(EventUnknown)
      else Ok(item.msg.value.name)
    case OtherKind => Err(EventUnknown)
  }

  /** The names under which the table stores the kinds of items; an event message goes by its own. */
  lemma StoredNames(item: Item)
    ensures item.kind == SessionMeta ==> EventTypeOf(item) == Ok("session_meta")
    ensures item.kind == TurnContext ==> EventTypeOf(item) == Ok("turn_context")
    ensures item.kind == ResponseItem ==> EventTypeOf(item) == Ok("response_item")
    ensures item.kind == Compacted ==> EventTypeOf(item) == Ok("compacted_item")
    ensures item.kind == OtherKind ==> EventTypeOf(item) == Err(EventUnknown)
    ensures item.kind == EventMsg && item.msg == None ==> EventTypeOf(item) == Err(EventUnknown)
    ensures item.kind == EventMsg && item.msg != None ==>
      var m := item.msg.value;
      EventTypeOf(item) ==
        if m.name != ""
           && (m.known || (m.name in ["approval_requested", "approval_denied"] && m.rawType == Some(m.name)))
        then Ok(m.name) else Err(EventUnknown)
  {
  }

  predicate Known(item: Item) { EventTypeOf(item).Ok? }

  function TurnIdOf(item: Item): Option<string> {
    if item.kind.EventMsg? && item.msg.Some? then item.msg.value.turn else None
  }

  function Encode(t: ThreadId, num: nat, item: Item, limit: nat): Result<Stored, LogError> {
    match EventTypeOf(item)
    case Err(e) => Err(e)
    case Ok(eventType) =>
      if item.size > limit
      then Ok(Stored(num, TurnIdOf(item), eventType, Summary(item.kind, item.size, eventType, Ref(t, num)), Some(Ref(t, num))))
      else Ok(Stored(num, TurnIdOf(item), eventType, Whole(item), None))
  }

  /** A row has the number, the name and, for event messages, the turn; its body is whole up to the limit. */
  lemma StoredAs(t: ThreadId, num: nat, item: Item, limit: nat)
    requires EventTypeOf(item).Ok?
    ensures Encode(t, num, item, limit).Ok?
    ensures
      var ev := Encode(t, num, item, limit).value;
      var turn := if item.kind == EventMsg && item.msg != None then item.msg.value.turn else None;
      ev == if item.size <= limit then Stored(num, turn, EventTypeOf(item).value, Whole(item), None)
            else Stored(num, turn, EventTypeOf(item).value,
                        Summary(item.kind, item.size, EventTypeOf(item).value, Ref(t, num)), Some(Ref(t, num)))
  {
  }

  /** The rows for `items` when the first of them gets number `num`. */
  function Encoded(t: ThreadId, num: nat, items: seq<Item>, limit: nat): (r: seq<Stored>)
    requires forall k | 0 <= k < |items| :: Known(items[k])
    ensures |r| == |items|
  {
    seq(|items|, k requires 0 <= k < |items| => assert Known(items[k]); Encode(t, num + k, items[k], limit).value)
  }

  // ---------------------------------------------------------------- replay

  datatype Replayed = Original(item: Item) | Placeholder(ref: Ref)

  /** What the history gives for one stored row: itself, a placeholder, or nothing. */
  function Decode(ev: Stored): Option<Replayed> {
    if ev.ref.Some? then
      if ev.eventType == "response_item" then Some(Placeholder(ev.ref.value)) else None
    else match ev.body
         case Whole(item) => Some(Original(item))
         case Summary(_, _, _, _) => None
  }

  function DecodeAll(events: seq<Stored>): seq<Replayed> {
    if events == [] then []
    else
      var rest := DecodeAll(events[..|events| - 1]);
      match Decode(events[|events| - 1])
      case None => rest
      case Some(r) => rest + [r]
  }

  /** The loop that builds the history. */
  method DecodeRolloutItems(events: seq<Stored>) returns (items: seq<Replayed>)
    ensures items == DecodeAll(events)
  {
    items := [];
    for k := 0 to |events|
      invariant items == DecodeAll(events[..k])
    {
      assert events[..k + 1][..k] == events[..k];
      var ev := events[k];
      if ev.ref.Some? {
        if ev.eventType == "response_item" { items := items + [Placeholder(ev.ref.value)]; }
        continue;
      }
      if ev.body.Whole? { items := items + [Original(ev.body.item)]; }
    }
    assert events[..|events|] == events;
  }

  /** Stored under the name of a response item: one of those, or an event message that goes by that name. */
  predicate CountsAsResponse(item: Item) {
    item.kind == ResponseItem || (item.kind == EventMsg && item.msg != None && item.msg.value.name == "response_item")
  }

  /** What a replay owes for `items`: everything within the limit, a placeholder for oversized responses. */
  function Owed(t: ThreadId, num: nat, items: seq<Item>, limit: nat): seq<Replayed> {
    if items == [] then []
    else
      var last := |items| - 1;
      Owed(t, num, items[..last], limit)
      + (if items[last].size <= limit then [Original(items[last])]
         else if CountsAsResponse(items[last]) then [Placeholder(Ref(t, num + last))]
         else [])
  }

  /** Encoding and then replaying gives back every item in order, up to the truncation rule. */
  lemma {:induction false} ReplayRoundTrip(t: ThreadId, num: nat, items: seq<Item>, limit: nat)
    requires forall k | 0 <= k < |items| :: Known(items[k])
    ensures DecodeAll(Encoded(t, num, items, limit)) == Owed(t, num, items, limit)
  {
    hide EventTypeOf, TurnIdOf;
    if items != [] {
      var last := |items| - 1;
      var rows := Encoded(t, num, items, limit);
      ReplayRoundTrip(t, num, items[..last], limit);
      assert rows[..last] == Encoded(t, num, items[..last], limit);
      RowReplays(t, num + last, items[last], limit);
    }
  }

  /** One stored row replayed. */
  lemma RowReplays(t: ThreadId, num: nat, item: Item, limit: nat)
    requires Known(item)
    ensures Decode(Encode(t, num, item, limit).value) ==
      if item.size <= limit then Some(Original(item))
      else if CountsAsResponse(item) then Some(Placeholder(Ref(t, num)))
      else None
  {
  }

  // ---------------------------------------------------------------- the stream of one thread

  function LogOf(table: map<nat, Stored>, last: nat): (r: seq<Stored>)
    requires forall n | 1 <= n <= last :: n in table
    ensures |r| == last
  {
    seq(last, k requires 0 <= k < last => table[k + 1])
  }

  /** The thread's row and its rows of the event table, keyed by sequence number. */
  class ThreadLog {
    const thread: ThreadId
    const limit: nat
    var deleted: bool
    var lastSeq: nat
    var table: map<nat, Stored>

    /** The sequence numbers are exactly 1..lastSeq. */
    ghost predicate Valid() reads this {
      && (forall n :: n in table <==> 1 <= n <= lastSeq)
      && (forall n | n in table :: table[n].num == n)
    }

    ghost function Log(): (r: seq<Stored>)
      requires Valid()
      reads this
      ensures |r| == lastSeq
    {
      LogOf(table, lastSeq)
    }

    constructor (thread: ThreadId, limit: nat)
      ensures Valid() && !deleted && Log() == [] && this.thread == thread && this.limit == limit
    {
      this.thread := thread;
      this.limit := limit;
      deleted, lastSeq, table := false, 0, map[];
    }

    /** The number of events so far, which is the number of the last one. */
    method CurrentSeq() returns (r: Result<nat, LogError>)
      requires Valid()
      ensures r.Err? <==> deleted
      ensures r.Err? ==> r.error == ThreadNotFound
      ensures r.Ok? ==> r.value == |Log()| && (r.value > 0 ==> Log()[r.value - 1].num == r.value)
    {
      r := if deleted then Err(ThreadNotFound) else Ok(lastSeq);
    }

    /**
     One transaction. Either every item is appended, in order, with the next numbers, or nothing
     changes: a deleted thread and an unknown event are refused before anything is written.
     */
    method Append(items: seq<Item>) returns (r: Result<nat, LogError>)
      requires Valid()
      modifies this`lastSeq, this`table
      ensures Valid()
      ensures r.Ok? <==> !deleted && forall k | 0 <= k < |items| :: Known(items[k])
      ensures r.Err? ==> r.error == (if deleted then ThreadNotFound else EventUnknown)
      ensures r.Err? ==> table == old(table) && lastSeq == old(lastSeq)
      ensures r.Ok? ==> r.value == lastSeq
      ensures Log() == if deleted then old(Log()) else After(thread, limit, old(Log()), items)
    {
      if |items| == 0 {
        r := CurrentSeq();
        assert old(Log()) + Encoded(thread, old(lastSeq) + 1, items, limit) == Log();
        return;
      }
      if deleted {
        return Err(ThreadNotFound);
      }
      var encoded := EncodeBatch(lastSeq, items);
      if encoded.Err? {
        return Err(encoded.error);
      }
      ghost var was, before := table, lastSeq;
      WriteBatch(encoded.value);
      assert LogOf(table, lastSeq) == LogOf(was, before) + Encoded(thread, before + 1, items, limit);
      return Ok(lastSeq);
    }

    /** Numbers and encodes the items; stops at the first unknown one. */
    method EncodeBatch(last: nat, items: seq<Item>) returns (r: Result<seq<Stored>, LogError>)
      ensures r.Ok? <==> forall k | 0 <= k < |items| :: Known(items[k])
      ensures r.Ok? ==> r.value == Encoded(thread, last + 1, items, limit)
      ensures r.Err? ==> r.error == EventUnknown
    {
      var num := last;
      var batch: seq<Stored> := [];
      for k := 0 to |items|
        invariant num == last + k && |batch| == k
        invariant forall j | 0 <= j < k :: Known(items[j]) && batch[j] == Encode(thread, last + 1 + j, items[j], limit).value
      {
        num := num + 1;
        var ev := Encode(thread, num, items[k], limit);
        if ev.Err? {
          assert !Known(items[k]);
          return Err(ev.error);
        }
        batch := batch + [ev.value];
      }
      return Ok(batch);
    }

    /** Inserts the rows and moves `last_seq` past them. */
    method WriteBatch(batch: seq<Stored>)
      requires Valid() && forall j | 0 <= j < |batch| :: batch[j].num == lastSeq + 1 + j
      modifies this`lastSeq, this`table
      ensures Valid() && lastSeq == old(lastSeq) + |batch|
      ensures forall n | 1 <= n <= old(lastSeq) :: table[n] == old(table)[n]
      ensures forall j | 0 <= j < |batch| :: table[old(lastSeq) + 1 + j] == batch[j]
    {
      var rows := table;
      for k := 0 to |batch|
        invariant forall n :: n in rows <==> 1 <= n <= lastSeq + k
        invariant forall n | n in rows :: rows[n].num == n
        invariant forall n | 1 <= n <= lastSeq :: rows[n] == table[n]
        invariant forall j | 0 <= j < k :: rows[lastSeq + 1 + j] == batch[j]
      {
        rows := rows[batch[k].num := batch[k]];
      }
      table, lastSeq := rows, lastSeq + |batch|;
    }

    /** Rows with `seq >= from` in order of seq, at most `max` of them when `max` is positive. */
    method LoadEvents(from: int, max: int) returns (rows: seq<Stored>)
      requires Valid()
      ensures IsLoad(table, from, max, rows)
    {
      rows := [];
      var first := if from < 1 then 1 else from;
      while first + |rows| <= lastSeq && (max <= 0 || |rows| < max)
        invariant |rows| > 0 ==> first + |rows| <= lastSeq + 1
        invariant max > 0 ==> |rows| <= max
        invariant forall k | 0 <= k < |rows| :: rows[k] == table[first + k]
        decreases lastSeq - |rows|
      {
        rows := rows + [table[first + |rows|]];
      }
      BlockIsLoad(table, lastSeq, from, first, max, rows);
    }
  }

  // ---------------------------------------------------------------- whole histories

  predicate AllKnown(items: seq<Item>) {
    forall k | 0 <= k < |items| :: Known(items[k])
  }

  /** The stream after one batch. */
  function After(t: ThreadId, limit: nat, log: seq<Stored>, items: seq<Item>): seq<Stored> {
    if AllKnown(items) then log + Encoded(t, |log| + 1, items, limit) else log
  }

  /** The stream after the batches, in the order the row lock lets their transactions commit. */
  function AfterAll(t: ThreadId, limit: nat, batches: seq<seq<Item>>): seq<Stored> {
    if batches == [] then []
    else After(t, limit, AfterAll(t, limit, batches[..|batches| - 1]), batches[|batches| - 1])
  }

  /** The items of the batches that are entirely known, one after the other. */
  function Accepted(batches: seq<seq<Item>>): (r: seq<Item>)
    ensures AllKnown(r)
  {
    if batches == [] then []
    else
      var last := batches[|batches| - 1];
      Accepted(batches[..|batches| - 1]) + (if AllKnown(last) then last else [])
  }

  /**
   Whatever batches concurrent writers commit, in whatever order: the stream is the encoding of the
   accepted items, each whole batch or nothing, numbered 1, 2, 3 and so on without a gap.
   */
  lemma {:induction false} HistoryIsAcceptedItems(t: ThreadId, limit: nat, batches: seq<seq<Item>>)
    ensures AfterAll(t, limit, batches) == Encoded(t, 1, Accepted(batches), limit)
    ensures forall k | 0 <= k < |AfterAll(t, limit, batches)| :: AfterAll(t, limit, batches)[k].num == k + 1
  {
    if batches != [] {
      var prefix, last := batches[..|batches| - 1], batches[|batches| - 1];
      HistoryIsAcceptedItems(t, limit, prefix);
      if AllKnown(last) {
        assert Encoded(t, 1, Accepted(prefix) + last, limit)
            == Encoded(t, 1, Accepted(prefix), limit) + Encoded(t, |Accepted(prefix)| + 1, last, limit);
      } else {
        assert Accepted(batches) == Accepted(prefix);
      }
    }
    forall k | 0 <= k < |Accepted(batches)| ensures Encoded(t, 1, Accepted(batches), limit)[k].num == k + 1 {
      assert Known(Accepted(batches)[k]);
    }
  }

  // ---------------------------------------------------------------- reading any table

  ghost predicate Increasing(rows: seq<Stored>) {
    forall j, k | 0 <= j < k < |rows| :: rows[j].num < rows[k].num
  }

  ghost predicate HasNum(rows: seq<Stored>, m: int) { exists k :: 0 <= k < |rows| && rows[k].num == m }

  /** The result of the read query, on any table: gaps or not. */
  ghost predicate IsLoad(table: map<nat, Stored>, from: int, max: int, rows: seq<Stored>) {
    && Increasing(rows)
    && (forall k | 0 <= k < |rows| :: from <= rows[k].num && rows[k].num in table && table[rows[k].num] == rows[k])
    && (max > 0 ==> |rows| <= max)
    && (forall m | m in table && from <= m ::
          HasNum(rows, m) || (max > 0 && |rows| == max && rows[|rows| - 1].num < m))
  }

  ghost predicate Contiguous(table: map<nat, Stored>, last: nat) {
    && (forall n :: n in table <==> 1 <= n <= last)
    && (forall n | n in table :: table[n].num == n)
  }

  lemma BlockIsLoad(table: map<nat, Stored>, last: nat, from: int, first: nat, max: int, rows: seq<Stored>)
    requires Contiguous(table, last) && first == if from < 1 then 1 else from
    requires |rows| > 0 ==> first + |rows| <= last + 1
    requires forall k | 0 <= k < |rows| :: rows[k] == table[first + k]
    requires max > 0 ==> |rows| <= max
    requires first + |rows| > last || (max > 0 && |rows| == max)
    ensures IsLoad(table, from, max, rows)
  {
    assert forall k | 0 <= k < |rows| :: rows[k].num == first + k;
    forall m | m in table && from <= m ensures HasNum(rows, m) || (max > 0 && |rows| == max && rows[|rows| - 1].num < m) {
      if m < first + |rows| {
        assert rows[m - first].num == m;
      }
    }
  }

  /** On a contiguous table a load is a block of consecutive rows that starts where it was asked to. */
  lemma LoadOfContiguous(table: map<nat, Stored>, last: nat, from: nat, max: nat, rows: seq<Stored>)
    requires Contiguous(table, last) && IsLoad(table, from, max, rows) && from >= 1 && max > 0
    ensures |rows| == if from > last then 0 else if last - from + 1 < max then last - from + 1 else max
    ensures forall k | 0 <= k < |rows| :: from + k <= last && rows[k] == table[from + k]
  {
    LoadBlock(table, last, from, max, rows, |rows|);
    LoadStops(table, last, from, max, rows);
    forall k | 0 <= k < |rows| ensures from + k <= last && rows[k] == table[from + k] {
      assert rows[k].num in table;
    }
    assert |rows| > 0 ==> rows[|rows| - 1].num <= last;
  }

  /** Only the limit or the end of the log ends a block. */
  lemma LoadStops(table: map<nat, Stored>, last: nat, from: nat, max: nat, rows: seq<Stored>)
    requires Contiguous(table, last) && IsLoad(table, from, max, rows) && from >= 1 && max > 0
    ensures |rows| == max || from + |rows| > last
  {
    LoadBlock(table, last, from, max, rows, |rows|);
    assert !HasNum(rows, from + |rows|);
    assert from + |rows| in table <==> from + |rows| <= last;
  }

  lemma {:induction false} LoadBlock(table: map<nat, Stored>, last: nat, from: nat, max: nat, rows: seq<Stored>, n: nat)
    requires Contiguous(table, last) && IsLoad(table, from, max, rows) && from >= 1 && max > 0 && n <= |rows|
    ensures forall k | 0 <= k < n :: rows[k].num == from + k
  {
    if n > 0 {
      LoadBlock(table, last, from, max, rows, n - 1);
      var m := from + n - 1;
      var x := rows[n - 1];
      AtLeast(rows, n - 1, |rows| - 1);
      if n > 1 {
        AtLeast(rows, n - 2, n - 1);
      }
      assert rows[n - 1].num in table && m <= x.num;
      assert m in table;
      var k :| 0 <= k < |rows| && rows[k].num == m;
      assert k >= n - 1;
      AtLeast(rows, n - 1, k);
    }
  }

  /**
   The tail moves on by the number of rows it read. On any table that lands just after the last row
   read exactly when those rows had no gap from where the tail stood; with a gap the last row read
   is at or past the new position, so it will be read again.
   */
  lemma CountAdvanceIff(rows: seq<Stored>, next: nat)
    requires rows != [] && Increasing(rows) && next <= rows[0].num
    ensures next + |rows| == rows[|rows| - 1].num + 1 <==> forall k | 0 <= k < |rows| :: rows[k].num == next + k
    ensures next + |rows| != rows[|rows| - 1].num + 1 ==> rows[|rows| - 1].num >= next + |rows|
  {
    AtLeast(rows, 0, |rows| - 1);
    forall k | 0 <= k < |rows|
      ensures next + k <= rows[k].num <= rows[|rows| - 1].num - (|rows| - 1 - k)
    {
      AtLeast(rows, 0, k);
      AtLeast(rows, k, |rows| - 1);
    }
  }

  lemma {:induction false} AtLeast(rows: seq<Stored>, j: nat, k: nat)
    requires j <= k < |rows| && Increasing(rows)
    ensures rows[k].num >= rows[j].num + (k - j)
    decreases k
  {
    if k > j { AtLeast(rows, j, k - 1); }
  }
}
