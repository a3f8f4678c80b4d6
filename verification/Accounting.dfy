/**
 From a meter's records to the ledger: whatever is posted, how often and in what order, the ledger counts
 every acceptable record that was posted once, with its own tokens.
 */
module Accounting {
  import opened Meter

  function StatusName(s: Status): string {
    match s
    case StatusOk => "ok"
    case UpstreamError => "upstream_error"
    case QuotaRejected => "quota_rejected"
    case Aborted => "aborted"
  }

  /** `agentOk` says of a record whether its agent id, if it has one, is well-formed. */
  function RequestOf(r: Rec, agentOk: bool): Request {
    Request(r.tenant, r.key, r.model, StatusName(r.status), r.tokens, agentOk)
  }

  /** The requests that arrive, as indices into the records, repeated and reordered at will. */
  function Ledger(records: seq<Rec>, agentOk: nat -> bool, posts: seq<nat>): Rows
    requires forall k | 0 <= k < |posts| :: posts[k] < |records|
  {
    if posts == [] then map[]
    else
      var i := posts[|posts| - 1];
      Accepted(Ledger(records, agentOk, posts[..|posts| - 1]), RequestOf(records[i], agentOk(i)))
  }

  predicate Counts(records: seq<Rec>, agentOk: nat -> bool, i: nat) {
    i < |records| && Acceptable(RequestOf(records[i], agentOk(i)))
  }

  /** The records posted at least once that the endpoint accepts. */
  function Posted(records: seq<Rec>, agentOk: nat -> bool, posts: seq<nat>): set<nat> {
    set i | i in posts && Counts(records, agentOk, i)
  }

  function RowOf(r: Rec): (string, string) { (r.tenant, r.key) }

  ghost function Total(rows: Rows): int
    decreases |rows|
  {
    if rows == map[] then 0 else var k :| k in rows; rows[k].tokens.total + Total(rows - {k})
  }

  ghost function Tokens(records: seq<Rec>, s: set<nat>): int
    requires forall i | i in s :: i < |records|
    decreases |s|
  {
    if s == {} then 0 else var i :| i in s; records[i].tokens.total + Tokens(records, s - {i})
  }

  lemma {:induction false} TotalWithout(rows: Rows, k: (string, string))
    requires k in rows
    ensures Total(rows) == rows[k].tokens.total + Total(rows - {k})
    decreases |rows|
  {
    var j :| j in rows && Total(rows) == rows[j].tokens.total + Total(rows - {j});
    if j != k {
      TotalWithout(rows - {j}, k);
      TotalWithout(rows - {k}, j);
      assert (rows - {j}) - {k} == (rows - {k}) - {j};
    }
  }

  lemma {:induction false} TokensWithout(records: seq<Rec>, s: set<nat>, k: nat)
    requires k in s && forall i | i in s :: i < |records|
    ensures Tokens(records, s) == records[k].tokens.total + Tokens(records, s - {k})
    decreases |s|
  {
    var j :| j in s && Tokens(records, s) == records[j].tokens.total + Tokens(records, s - {j});
    if j != k {
      TokensWithout(records, s - {j}, k);
      TokensWithout(records, s - {k}, j);
      assert (s - {j}) - {k} == (s - {k}) - {j};
    }
  }

  function EntryOf(r: Rec): Entry { Entry(r.model, StatusName(r.status), r.tokens) }

  function KeysOf(records: seq<Rec>, s: set<nat>): set<(string, string)>
    requires forall i | i in s :: i < |records|
  {
    set i | i in s :: RowOf(records[i])
  }

  lemma KeysGrow(records: seq<Rec>, s: set<nat>, i: nat)
    requires i < |records| && forall j | j in s :: j < |records|
    ensures KeysOf(records, s + {i}) == KeysOf(records, s) + {RowOf(records[i])}
  {
    hide RowOf;
    assert i in s + {i};
    forall k | k in KeysOf(records, s) ensures k in KeysOf(records, s + {i}) {
      var j :| j in s && RowOf(records[j]) == k;
      assert j in s + {i};
    }
  }

  lemma NewKey(records: seq<Rec>, s: set<nat>, i: nat)
    requires i < |records| && (forall j | j in s :: j < |records|) && forall j | j in s :: records[j].key != records[i].key
    ensures RowOf(records[i]) !in KeysOf(records, s)
    ensures forall j | j in s :: RowOf(records[j]) != RowOf(records[i])
  {
  }

  /** The rows are those of the records in `s`, one each, with the same tokens in sum. */
  ghost predicate IsLedgerOf(rows: Rows, records: seq<Rec>, s: set<nat>)
    requires forall i | i in s :: i < |records|
  {
    && rows.Keys == KeysOf(records, s)
    && (forall i | i in s :: RowOf(records[i]) in rows && rows[RowOf(records[i])] == EntryOf(records[i]))
    && |rows| == |s| && Total(rows) == Tokens(records, s)
  }

  lemma OneMoreRecord(rows: Rows, records: seq<Rec>, s: set<nat>, i: nat)
    requires i < |records| && i !in s && (forall j | j in s :: j < |records|) && IsLedgerOf(rows, records, s)
    requires forall j | j in s :: records[j].key != records[i].key
    ensures RowOf(records[i]) !in rows
    ensures IsLedgerOf(rows[RowOf(records[i]) := EntryOf(records[i])], records, s + {i})
  {
    hide Total, Tokens, EntryOf, RowOf, KeysOf;
    var k := RowOf(records[i]);
    var rows' := rows[k := EntryOf(records[i])];
    NewKey(records, s, i);
    KeysGrow(records, s, i);
    assert rows'.Keys == rows.Keys + {k};
    assert |s + {i}| == |s| + 1 && |rows.Keys + {k}| == |rows.Keys| + 1;
    SizeOfKeys(rows);
    SizeOfKeys(rows');
    OneMoreTotal(rows, records, s, i);
  }

  lemma SizeOfKeys(rows: Rows)
    ensures |rows| == |rows.Keys|
  {
  }

  lemma OneMoreTotal(rows: Rows, records: seq<Rec>, s: set<nat>, i: nat)
    requires i < |records| && i !in s && (forall j | j in s :: j < |records|) && RowOf(records[i]) !in rows
    ensures Total(rows[RowOf(records[i]) := EntryOf(records[i])]) == Total(rows) + records[i].tokens.total
    ensures Tokens(records, s + {i}) == Tokens(records, s) + records[i].tokens.total
  {
    var k := RowOf(records[i]);
    TotalWithout(rows[k := EntryOf(records[i])], k);
    TokensWithout(records, s + {i}, i);
    assert rows[k := EntryOf(records[i])] - {k} == rows && (s + {i}) - {i} == s;
  }

  /** Exactly one row for each acceptable record posted, however often it was, and their tokens in sum. */
  lemma {:induction false} LedgerIsExact(records: seq<Rec>, agentOk: nat -> bool, posts: seq<nat>)
    requires forall k | 0 <= k < |posts| :: posts[k] < |records|
    requires forall i, j | 0 <= i < j < |records| :: records[i].key != records[j].key
    ensures IsLedgerOf(Ledger(records, agentOk, posts), records, Posted(records, agentOk, posts))
  {
    hide Total, Tokens, IsLedgerOf;
    if posts == [] {
      NothingPosted(records, agentOk);
    } else {
      var front := posts[..|posts| - 1];
      var i := posts[|posts| - 1];
      LedgerIsExact(records, agentOk, front);
      assert posts == front + [i];
      OnePost(records, agentOk, Ledger(records, agentOk, front), Posted(records, agentOk, front), i);
      assert Posted(records, agentOk, posts) == With(records, agentOk, Posted(records, agentOk, front), i);
    }
  }

  lemma NothingPosted(records: seq<Rec>, agentOk: nat -> bool)
    ensures IsLedgerOf(Ledger(records, agentOk, []), records, Posted(records, agentOk, []))
  {
  }

  function With(records: seq<Rec>, agentOk: nat -> bool, s: set<nat>, i: nat): set<nat> {
    if Counts(records, agentOk, i) then s + {i} else s
  }

  lemma OnePost(records: seq<Rec>, agentOk: nat -> bool, rows: Rows, s: set<nat>, i: nat)
    requires i < |records| && (forall j | j in s :: j < |records|) && IsLedgerOf(rows, records, s)
    requires forall j | j in s && j != i :: records[j].key != records[i].key
    ensures forall j | j in With(records, agentOk, s, i) :: j < |records|
    ensures IsLedgerOf(Accepted(rows, RequestOf(records[i], agentOk(i))), records, With(records, agentOk, s, i))
  {
    hide Acceptable, StatusName, Total, Tokens, KeysOf;
    if Counts(records, agentOk, i) {
      if i in s {
        assert s + {i} == s;
      } else {
        OneMoreRecord(rows, records, s, i);
      }
    }
  }

  /** What a meter records is acceptable whatever came of the call, if its parts are. */
  lemma RecordsAreAcceptable(m: Meter, i: nat)
    requires m.Valid() && i < |m.records|
    requires m.records[i].tenant != "" && m.records[i].model != ""
    requires var t := m.records[i].tokens; t.prompt >= 0 && t.completion >= 0 && t.total >= 0
    ensures Acceptable(RequestOf(m.records[i], true))
  {
    var n := m.owner[i];
    assert EndsIn(m.keyOf[n], n);
    assert m.records[i].key != "";
  }

  /** The four outcomes of a call under the names the endpoint knows, with everything else as recorded. */
  lemma RequestNamesStatus(r: Rec, agentOk: bool)
    ensures RequestOf(r, agentOk) ==
      Request(r.tenant, r.key, r.model,
              if r.status == StatusOk then "ok" else if r.status == UpstreamError then "upstream_error"
              else if r.status == QuotaRejected then "quota_rejected" else "aborted",
              r.tokens, agentOk)
  {
  }

  /**
   The same for what a meter has recorded, whose keys never coincide. A posted record has its row with its own
   model, outcome and tokens whatever the outcome was, there are no other rows, and the sums agree.
   */
  lemma LedgerCountsEachCallOnce(m: Meter, agentOk: nat -> bool, posts: seq<nat>)
    requires m.Valid() && forall k | 0 <= k < |posts| :: posts[k] < |m.records|
    ensures IsLedgerOf(Ledger(m.records, agentOk, posts), m.records, Posted(m.records, agentOk, posts))
    ensures
      var rows := Ledger(m.records, agentOk, posts);
      && |rows| == |Posted(m.records, agentOk, posts)|
      && Total(rows) == Tokens(m.records, Posted(m.records, agentOk, posts))
      && (forall k | k in rows :: exists i :: i in posts && k == (m.records[i].tenant, m.records[i].key))
    ensures forall i | i in posts && agentOk(i) && m.records[i].tenant != "" && m.records[i].model != ""
                       && m.records[i].tokens.prompt >= 0 && m.records[i].tokens.completion >= 0 && m.records[i].tokens.total >= 0 ::
      var r, rows := m.records[i], Ledger(m.records, agentOk, posts);
      (r.tenant, r.key) in rows && rows[(r.tenant, r.key)] == Entry(r.model, StatusName(r.status), r.tokens)
  {
    forall i, j | 0 <= i < j < |m.records| ensures m.records[i].key != m.records[j].key {
      m.RecordsAreDistinct(i, j);
    }
    LedgerIsExact(m.records, agentOk, posts);
    forall i | i in posts && agentOk(i) && m.records[i].tenant != "" && m.records[i].model != ""
               && m.records[i].tokens.prompt >= 0 && m.records[i].tokens.completion >= 0 && m.records[i].tokens.total >= 0
      ensures i in Posted(m.records, agentOk, posts)
    {
      RecordsAreAcceptable(m, i);
    }
    LedgerInFull(Ledger(m.records, agentOk, posts), m.records, Posted(m.records, agentOk, posts));
  }

  lemma LedgerInFull(rows: Rows, records: seq<Rec>, s: set<nat>)
    requires (forall i | i in s :: i < |records|) && IsLedgerOf(rows, records, s)
    ensures |rows| == |s| && Total(rows) == Tokens(records, s)
    ensures forall k | k in rows :: exists i :: i in s && k == (records[i].tenant, records[i].key)
    ensures forall i | i in s ::
      var r := records[i]; (r.tenant, r.key) in rows && rows[(r.tenant, r.key)] == Entry(r.model, StatusName(r.status), r.tokens)
  {
  }
}
