/**
 Listing items over the log as it is written: a response item is stored without a turn id, so filtering
 the listing by turn finds none of them.
 */
module ItemListing {
  import opened Options
  import EventLog
  import opened ItemPaging

  /** An event row as the listing reads it; payload and time are what the table holds beside. */
  function RowOf(ev: EventLog.Stored, view: EventLog.Stored -> string, at: nat -> int): Row {
    Row(ev.num, ev.turn, ev.eventType == "response_item", view(ev), at(ev.num))
  }

  function RowsOf(log: seq<EventLog.Stored>, view: EventLog.Stored -> string, at: nat -> int): (rows: seq<Row>)
    ensures |rows| == |log| && forall k | 0 <= k < |log| :: rows[k] == RowOf(log[k], view, at)
  {
    seq(|log|, k requires 0 <= k < |log| => RowOf(log[k], view, at))
  }

  /** An event message whose own name is that of a response item, with a turn id. */
  predicate NamedLikeAnItem(item: EventLog.Item, turn: string) {
    && item.kind.EventMsg? && item.msg.Some? && item.msg.value.name == "response_item"
    && item.msg.value.turn == Some(turn)
  }

  lemma EncodedWithTurn(t: EventLog.ThreadId, num: nat, item: EventLog.Item, limit: nat, turn: string)
    requires EventLog.Known(item)
    ensures
      var ev := EventLog.Encode(t, num, item, limit).value;
      ev.eventType == "response_item" && ev.turn == Some(turn) <==> NamedLikeAnItem(item, turn)
  {
  }

  /**
   On the rows of any log, a listing by turn finds something if and only if some event message has the name
   of a response item and that turn's id: never a response item itself.
   */
  lemma ListingByTurnIff(t: EventLog.ThreadId, num: nat, items: seq<EventLog.Item>, limit: nat,
                         view: EventLog.Stored -> string, at: nat -> int, turn: string, dir: Direction)
    requires forall k | 0 <= k < |items| :: EventLog.Known(items[k])
    ensures
      var rows := RowsOf(EventLog.Encoded(t, num, items, limit), view, at);
      Selected(rows, Filter(Some(turn), None), dir, None) != [] <==> exists k :: 0 <= k < |items| && NamedLikeAnItem(items[k], turn)
  {
    var log := EventLog.Encoded(t, num, items, limit);
    var rows := RowsOf(log, view, at);
    var f := Filter(Some(turn), None);
    SelectedIsFilter(rows, f, dir, None);
    forall k | 0 <= k < |items| ensures Wanted(rows[k], f) <==> NamedLikeAnItem(items[k], turn) {
      EncodedWithTurn(t, num + k, items[k], limit, turn);
    }
    var s := Selected(rows, f, dir, None);
    if s != [] {
      assert s[0] in s;
      var k :| 0 <= k < |rows| && rows[k] == s[0];
      assert NamedLikeAnItem(items[k], turn);
    }
    if k :| 0 <= k < |items| && NamedLikeAnItem(items[k], turn) {
      assert rows[k] in s;
    }
  }

  /** With any cursor and ordinal as well, a listing by turn is empty when no message is named like an item. */
  lemma ListingByTurnIsEmpty(t: EventLog.ThreadId, num: nat, items: seq<EventLog.Item>, limit: nat,
                             view: EventLog.Stored -> string, at: nat -> int, f: Filter, dir: Direction, from: Option<int>)
    requires f.turn.Some? && forall k | 0 <= k < |items| :: EventLog.Known(items[k])
    requires forall k | 0 <= k < |items| :: !NamedLikeAnItem(items[k], f.turn.value)
    ensures Selected(RowsOf(EventLog.Encoded(t, num, items, limit), view, at), f, dir, from) == []
  {
    var rows := RowsOf(EventLog.Encoded(t, num, items, limit), view, at);
    forall k | 0 <= k < |items| ensures !Wanted(rows[k], f) {
      EncodedWithTurn(t, num + k, items[k], limit, f.turn.value);
    }
    NoneSelected(rows, f, dir, from);
  }
}
