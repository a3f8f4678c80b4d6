/**
 Accounting of LLM calls: the meter that makes one record per call, the idempotency keys it issues,
 the client that retries a record, and the ledger that ignores what it already has.
 */
module Meter {
  import opened Options
  import opened Decimals
  import Usage

  // ---------------------------------------------------------------- keys

  function PrintSigned(n: int): string {
    if n < 0 then "-" + Print(-n) else Print(n)
  }

  function KeyPrefix(trace: string, nonce: string, nanos: int): string {
    if trace == "" then "notrace-" + nonce + "-" + PrintSigned(nanos) else trace + "-" + nonce
  }

  function IdemKey(trace: string, nonce: string, nanos: int, n: nat): string {
    KeyPrefix(trace, nonce, nanos) + "-" + Print(n)
  }

  /** What follows the last dash. */
  function AfterLastDash(s: string): string {
    if s == [] || s[|s| - 1] == '-' then [] else AfterLastDash(s[..|s| - 1]) + [s[|s| - 1]]
  }

  lemma {:induction false} SuffixAfterDash(p: string, d: string)
    requires '-' !in d
    ensures AfterLastDash(p + "-" + d) == d
  {
    var s := p + "-" + d;
    if d == [] {
      assert s[|s| - 1] == '-';
    } else {
      var d' := d[..|d| - 1];
      assert s[..|s| - 1] == p + "-" + d' && s[|s| - 1] == d[|d| - 1];
      SuffixAfterDash(p, d');
    }
  }

  /** Keys of different calls differ as strings, whatever the traces, the nonce and the clock are. */
  lemma KeysAreDistinct(t1: string, t2: string, nonce: string, ns1: int, ns2: int, m: nat, n: nat)
    requires IdemKey(t1, nonce, ns1, m) == IdemKey(t2, nonce, ns2, n)
    ensures m == n
  {
    SuffixAfterDash(KeyPrefix(t1, nonce, ns1), Print(m));
    SuffixAfterDash(KeyPrefix(t2, nonce, ns2), Print(n));
    PrintInjective(m, n);
  }

  lemma LastDashSplits(p: string, d: string, q: string, e: string)
    requires p + "-" + d == q + "-" + e && '-' !in d && '-' !in e
    ensures p == q && d == e
  {
    SuffixAfterDash(p, d);
    SuffixAfterDash(q, e);
    assert p == (p + "-" + d)[..|p|] && q == (q + "-" + e)[..|q|];
  }

  /** A key without a trace, cut at its last two dashes. */
  function ClockPrefix(nonce: string, nanos: int): string {
    "notrace-" + nonce + if nanos < 0 then "-" else ""
  }

  lemma KeyInThree(trace: string, nonce: string, nanos: int, n: nat)
    ensures IdemKey(trace, nonce, nanos, n)
         == (if trace == "" then ClockPrefix(nonce, nanos) + "-" + Print(Magnitude(nanos)) else trace + "-" + nonce)
            + "-" + Print(n)
  {
  }

  function Magnitude(n: int): nat { if n < 0 then -n else n }

  lemma ClockPrefixInjective(m1: string, ns1: int, m2: string, ns2: int)
    requires '-' !in m1 && '-' !in m2 && ClockPrefix(m1, ns1) == ClockPrefix(m2, ns2) && Magnitude(ns1) == Magnitude(ns2)
    ensures m1 == m2 && ns1 == ns2
  {
    var p, q := ClockPrefix(m1, ns1), ClockPrefix(m2, ns2);
    assert p[8..] == (if ns1 < 0 then m1 + "-" else m1) && q[8..] == (if ns2 < 0 then m2 + "-" else m2);
    assert ns1 < 0 ==> p[|p| - 1] == '-';
    assert ns2 < 0 ==> q[|q| - 1] == '-';
    assert ns1 < 0 && ns2 < 0 ==> m1 == p[8..][..|p| - 9] && m2 == q[8..][..|q| - 9];
    assert ns1 >= 0 && m1 != "" ==> m1[|m1| - 1] == p[|p| - 1];
    assert ns2 >= 0 && m2 != "" ==> m2[|m2| - 1] == q[|q| - 1];
  }

  /**
   Two calls of any two meters whose nonces have no dash have the same key exactly if their numbers agree and
   so do nonce and trace, or nonce and clock if neither has a trace; a call with a trace and one without agree
   only if the trace spells the other's prefix and the nonce its clock.
   */
  lemma KeysAreEqualIff(t1: string, nonce1: string, ns1: int, m: nat, t2: string, nonce2: string, ns2: int, n: nat)
    requires '-' !in nonce1 && '-' !in nonce2
    ensures IdemKey(t1, nonce1, ns1, m) == IdemKey(t2, nonce2, ns2, n) <==>
      && m == n
      && if t1 != "" && t2 != "" then nonce1 == nonce2 && t1 == t2
         else if t1 != "" then t1 == ClockPrefix(nonce2, ns2) && nonce1 == Print(Magnitude(ns2))
         else if t2 != "" then t2 == ClockPrefix(nonce1, ns1) && nonce2 == Print(Magnitude(ns1))
         else nonce1 == nonce2 && ns1 == ns2
  {
    KeyInThree(t1, nonce1, ns1, m);
    KeyInThree(t2, nonce2, ns2, n);
    if IdemKey(t1, nonce1, ns1, m) == IdemKey(t2, nonce2, ns2, n) {
      var p1, d1 := if t1 == "" then ClockPrefix(nonce1, ns1) else t1, if t1 == "" then Print(Magnitude(ns1)) else nonce1;
      var p2, d2 := if t2 == "" then ClockPrefix(nonce2, ns2) else t2, if t2 == "" then Print(Magnitude(ns2)) else nonce2;
      LastDashSplits(p1 + "-" + d1, Print(m), p2 + "-" + d2, Print(n));
      PrintInjective(m, n);
      LastDashSplits(p1, d1, p2, d2);
      if t1 == "" && t2 == "" {
        PrintInjective(Magnitude(ns1), Magnitude(ns2));
        ClockPrefixInjective(nonce1, ns1, nonce2, ns2);
      }
    }
  }

  /** So the nonces keep the keys of two replicas apart, for two calls with a trace and for two without. */
  lemma KeysOfTwoMetersDiffer(t1: string, nonce1: string, ns1: int, m: nat, t2: string, nonce2: string, ns2: int, n: nat)
    requires '-' !in nonce1 && '-' !in nonce2 && nonce1 != nonce2
    requires t1 == "" <==> t2 == ""
    ensures IdemKey(t1, nonce1, ns1, m) != IdemKey(t2, nonce2, ns2, n)
  {
    KeysAreEqualIff(t1, nonce1, ns1, m, t2, nonce2, ns2, n);
  }

  // ---------------------------------------------------------------- the meter

  datatype Status = StatusOk | UpstreamError | QuotaRejected | Aborted

  datatype Gate = Pass | Exceeded | Unavailable

  /** `tokens` is what the body of a plain response carries, `badModel` whether its text says "Invalid model name". */
  datatype Upstream =
    | TransportError
    | Http(code: nat, badModel: bool)
    | Stream
    | BodyError
    | Plain(tokens: Option<Usage.Tokens>)

  datatype CallError = TenantMissing | QuotaExceeded | UpstreamFailed | UpstreamTimeout | ModelUnknown

  datatype Outcome = Failed(error: CallError) | Answered | Streaming(call: nat)

  datatype Rec = Rec(key: string, tenant: string, model: string, status: Status, tokens: Usage.Tokens)

  datatype Call = Call(tenant: Option<string>, trace: string, model: string, nanos: int)

  /** A call past the tenant check whose outcome is still open. */
  datatype OpenCall = OpenCall(key: string, tenant: string, model: string)

  function ErrorOf(u: Upstream): CallError {
    match u
    case Http(code, badModel) =>
      if code == 400 && badModel then ModelUnknown
      else if code == 504 || code == 408 then UpstreamTimeout
      else UpstreamFailed
    case _ => UpstreamFailed
  }

  /** What the caller of a failed call is told: a full answer code by code, and one error for all the rest. */
  lemma ErrorsTold(code: nat)
    ensures ErrorOf(Http(400, true)) == ModelUnknown && ErrorOf(Http(400, false)) == UpstreamFailed
    ensures forall bad :: ErrorOf(Http(408, bad)) == ErrorOf(Http(504, bad)) == UpstreamTimeout
    ensures forall bad | code !in {400, 408, 504} :: ErrorOf(Http(code, bad)) == UpstreamFailed
    ensures ErrorOf(TransportError) == ErrorOf(BodyError) == UpstreamFailed
  {
  }

  /** A key issued for call `n`: a prefix, a dash, and the number. */
  ghost predicate EndsIn(key: string, n: nat) { exists p: string :: key == p + "-" + Print(n) }

  class Meter {
    const nonce: string
    var seqNo: nat
    var gateFailures: nat
    var open: map<nat, OpenCall>
    var records: seq<Rec>
    ghost var keyOf: map<nat, string>
    ghost var owner: seq<nat>

    /**
     The calls issued are 1..seqNo. Each is open or has exactly one record, never both; and the record
     carries the key that was issued for it.
     */
    ghost predicate Valid() reads this {
      && (forall n :: n in keyOf <==> 1 <= n <= seqNo)
      && (forall n | n in keyOf :: EndsIn(keyOf[n], n))
      && |owner| == |records|
      && (forall i, j | 0 <= i < j < |owner| :: owner[i] != owner[j])
      && (forall n :: 1 <= n <= seqNo <==> (n in open || n in owner))
      && (forall n | n in open :: n !in owner && open[n].key == keyOf[n])
      && (forall i | 0 <= i < |owner| :: owner[i] in keyOf && records[i].key == keyOf[owner[i]])
    }

    constructor (nonce: string)
      ensures Valid() && records == [] && open == map[] && seqNo == 0 && gateFailures == 0 && this.nonce == nonce
    {
      this.nonce := nonce;
      seqNo, gateFailures, open, records, keyOf, owner := 0, 0, map[], [], map[], [];
    }

    /** Two records never share a key. */
    lemma RecordsAreDistinct(i: nat, j: nat)
      requires Valid() && i < j < |records|
      ensures records[i].key != records[j].key
    {
      var m, n := owner[i], owner[j];
      assert EndsIn(keyOf[m], m) && EndsIn(keyOf[n], n);
      var p: string :| keyOf[m] == p + "-" + Print(m);
      var q: string :| keyOf[n] == q + "-" + Print(n);
      SuffixAfterDash(p, Print(m));
      SuffixAfterDash(q, Print(n));
      if Print(m) == Print(n) { PrintInjective(m, n); }
    }

    /** Takes the next number and issues the key. */
    method Begin(c: Call) returns (n: nat)
      requires Valid() && c.tenant.Some?
      modifies this`seqNo, this`open, this`keyOf
      ensures Valid() && n == seqNo == old(seqNo) + 1
      ensures n !in old(open) && open == old(open)[n := OpenCall(IdemKey(c.trace, nonce, c.nanos, n), c.tenant.value, c.model)]
      ensures keyOf == old(keyOf)[n := IdemKey(c.trace, nonce, c.nanos, n)]
    {
      seqNo := seqNo + 1;
      n := seqNo;
      var key := IdemKey(c.trace, nonce, c.nanos, n);
      assert EndsIn(key, n) by {
        assert key == KeyPrefix(c.trace, nonce, c.nanos) + "-" + Print(n);
      }
      assert n !in owner;
      keyOf := keyOf[n := key];
      open := open[n := OpenCall(key, c.tenant.value, c.model)];
    }

    /** Makes the one record of an open call. */
    method Settle(n: nat, status: Status, tokens: Usage.Tokens)
      requires Valid() && n in open
      modifies this`open, this`records, this`owner
      ensures Valid() && open == old(open) - {n}
      ensures owner == old(owner) + [n]
      ensures records == old(records) + [Rec(old(open)[n].key, old(open)[n].tenant, old(open)[n].model, status, tokens)]
    {
      var oc := open[n];
      records := records + [Rec(oc.key, oc.tenant, oc.model, status, tokens)];
      owner := owner + [n];
      open := open - {n};
    }

    /**
     One call. Without a tenant nothing happens and nothing leaves the process; otherwise a number is taken
     and, unless the response is a stream, exactly one record is made before returning.
     */
    method RoundTrip(c: Call, gate: Gate, upstream: Upstream) returns (out: Outcome)
      requires Valid()
      requires upstream.Http? ==> upstream.code >= 400
      modifies this
      ensures Valid()
      ensures c.tenant.None? ==>
        out == Failed(TenantMissing) && seqNo == old(seqNo) && records == old(records) && open == old(open)
      ensures c.tenant.Some? ==> seqNo == old(seqNo) + 1
      ensures gateFailures == old(gateFailures) + (if c.tenant.Some? && gate.Unavailable? then 1 else 0)
      ensures c.tenant.Some? && (gate.Exceeded? || !upstream.Stream?) ==>
        && open == old(open)
        && records == old(records) + [Rec(IdemKey(c.trace, nonce, c.nanos, seqNo), c.tenant.value, c.model,
             if gate.Exceeded? then QuotaRejected else if upstream.Plain? then StatusOk else UpstreamError,
             if !gate.Exceeded? && upstream.Plain? && upstream.tokens.Some? then upstream.tokens.value else Usage.Tokens(0, 0, 0))]
        && out == (if gate.Exceeded? then Failed(QuotaExceeded)
                   else if upstream.Plain? then Answered
                   else Failed(ErrorOf(upstream)))
      ensures c.tenant.Some? && !gate.Exceeded? && upstream.Stream? ==>
        && out == Streaming(seqNo) && records == old(records)
        && open == old(open)[seqNo := OpenCall(IdemKey(c.trace, nonce, c.nanos, seqNo), c.tenant.value, c.model)]
    {
      hide IdemKey, EndsIn;
      if c.tenant.None? {
        return Failed(TenantMissing);
      }
      var n := Begin(c);
      assert open - {n} == old(open);
      if gate.Exceeded? {
        Settle(n, QuotaRejected, Usage.NO_TOKENS);
        return Failed(QuotaExceeded);
      }
      if gate.Unavailable? {
        gateFailures := gateFailures + 1;
      }
      out := Forward(n, upstream);
    }

    /** Sends an open call upstream; every path but a stream settles it. */
    method Forward(n: nat, upstream: Upstream) returns (out: Outcome)
      requires Valid() && n in open
      modifies this`open, this`records, this`owner
      ensures Valid()
      ensures upstream.Stream? ==> out == Streaming(n) && open == old(open) && records == old(records)
      ensures !upstream.Stream? ==>
        && open == old(open) - {n}
        && records == old(records) + [Rec(old(open)[n].key, old(open)[n].tenant, old(open)[n].model,
             if upstream.Plain? then StatusOk else UpstreamError,
             if upstream.Plain? && upstream.tokens.Some? then upstream.tokens.value else Usage.Tokens(0, 0, 0))]
        && out == if upstream.Plain? then Answered else Failed(ErrorOf(upstream))
    {
      match upstream {
        case TransportError =>
          Settle(n, UpstreamError, Usage.NO_TOKENS);
          out := Failed(UpstreamFailed);
        case Http(code, badModel) =>
          out := Failed(if code == 400 && badModel then ModelUnknown
                        else if code == 504 || code == 408 then UpstreamTimeout else UpstreamFailed);
          Settle(n, UpstreamError, Usage.NO_TOKENS);
        case Stream =>
          out := Streaming(n);
        case BodyError =>
          Settle(n, UpstreamError, Usage.NO_TOKENS);
          out := Failed(UpstreamFailed);
        case Plain(tokens) =>
          Settle(n, StatusOk, if tokens.Some? then tokens.value else Usage.NO_TOKENS);
          out := Answered;
      }
    }

    /** The `done` callback of a stream: its usage if the last frame came, else one aborted call of no tokens. */
    method StreamDone(n: nat, result: Usage.Scan, complete: bool)
      requires Valid() && n in open
      modifies this`open, this`records, this`owner
      ensures Valid() && open == old(open) - {n}
      ensures records == old(records) + [Rec(old(open)[n].key, old(open)[n].tenant, old(open)[n].model,
                if complete then StatusOk else Aborted, if complete then result.usage else Usage.Tokens(0, 0, 0))]
    {
      var status, tokens := StatusOk, result.usage;
      if !complete {
        status, tokens := Aborted, Usage.NO_TOKENS;
      }
      Settle(n, status, tokens);
    }
  }

  // ---------------------------------------------------------------- the ledger and the retrying client

  /** `agentOk`: no agent id, or one with the form of a UUID. */
  datatype Request = Request(tenant: string, key: string, model: string, status: string, tokens: Usage.Tokens, agentOk: bool)

  datatype Entry = Entry(model: string, status: string, tokens: Usage.Tokens)

  type Rows = map<(string, string), Entry>

  predicate Acceptable(r: Request) {
    && r.tenant != "" && r.key != "" && r.model != ""
    && (r.status == "ok" || r.status == "upstream_error" || r.status == "quota_rejected" || r.status == "aborted")
    && r.tokens.prompt >= 0 && r.tokens.completion >= 0 && r.tokens.total >= 0
    && r.agentOk
  }

  /** INSERT ... ON CONFLICT DO NOTHING. */
  function InsertOrIgnore(rows: Rows, r: Request): Rows {
    if (r.tenant, r.key) in rows then rows else rows[(r.tenant, r.key) := Entry(r.model, r.status, r.tokens)]
  }

  /** What one request leaves in the ledger. */
  function Accepted(rows: Rows, r: Request): Rows {
    if Acceptable(r) then InsertOrIgnore(rows, r) else rows
  }

  /** Inserting again, at any later time, changes nothing. */
  lemma InsertIsIdempotent(rows: Rows, r: Request, others: seq<Request>)
    ensures InsertOrIgnore(InsertAll(InsertOrIgnore(rows, r), others), r) == InsertAll(InsertOrIgnore(rows, r), others)
  {
  }

  function InsertAll(rows: Rows, rs: seq<Request>): Rows {
    if rs == [] then rows else InsertOrIgnore(InsertAll(rows, rs[..|rs| - 1]), rs[|rs| - 1])
  }

  /** A row in the ledger stays as it is, and a key gets a row exactly when it had one or some request names it. */
  lemma {:induction false} InsertAllKeeps(rows: Rows, rs: seq<Request>, k: (string, string))
    ensures k in InsertAll(rows, rs) <==> k in rows || exists i :: 0 <= i < |rs| && (rs[i].tenant, rs[i].key) == k
    ensures k in rows ==> InsertAll(rows, rs)[k] == rows[k]
  {
    if rs != [] {
      var prefix := rs[..|rs| - 1];
      InsertAllKeeps(rows, prefix, k);
      assert forall i | 0 <= i < |prefix| :: prefix[i] == rs[i];
    }
  }

  /** What happens to one POST: answered, lost on the way there, lost on the way back, or a server error. */
  datatype Net = Delivered | LostRequest | LostReply | ServerError

  predicate Arrives(n: Net) { n.Delivered? || n.LostReply? }

  class Console {
    var rows: Rows
    ghost var posts: nat

    constructor ()
      ensures rows == map[] && posts == 0
    {
      rows, posts := map[], 0;
    }

    /** The usage endpoint: 202 and insert-or-ignore, or 400 and nothing. */
    method Handle(r: Request) returns (status: nat)
      modifies this`rows
      ensures status == if Acceptable(r) then 202 else 400
      ensures rows == Accepted(old(rows), r)
      ensures status == 202 <==>
        && r.tenant != "" && r.key != "" && r.model != "" && r.agentOk
        && (r.status == "ok" || r.status == "upstream_error" || r.status == "quota_rejected" || r.status == "aborted")
        && r.tokens.prompt >= 0 && r.tokens.completion >= 0 && r.tokens.total >= 0
      ensures status == 400 || status == 202
      ensures rows == if status == 202 && (r.tenant, r.key) !in old(rows)
                      then old(rows)[(r.tenant, r.key) := Entry(r.model, r.status, r.tokens)] else old(rows)
    {
      if r.tenant == "" || r.key == "" || r.model == "" {
        return 400;
      }
      if r.status !in ["ok", "upstream_error", "quota_rejected", "aborted"] {
        return 400;
      }
      if r.tokens.prompt < 0 || r.tokens.completion < 0 || r.tokens.total < 0 || !r.agentOk {
        return 400;
      }
      if (r.tenant, r.key) !in rows {
        rows := rows[(r.tenant, r.key) := Entry(r.model, r.status, r.tokens)];
      }
      return 202;
    }

    /** One POST under the network's decision; None is a transport error on the caller's side. */
    method Post(r: Request, net: Net) returns (status: Option<nat>)
      modifies this
      ensures posts == old(posts) + 1
      ensures status == match net
                        case Delivered => Some(if Acceptable(r) then 202 else 400)
                        case ServerError => Some(500)
                        case _ => None
      ensures rows == if net == Delivered || net == LostReply then Accepted(old(rows), r) else old(rows)
    {
      posts := posts + 1;
      match net {
        case Delivered =>
          var st := Handle(r);
          status := Some(st);
        case LostReply =>
          var _ := Handle(r);
          status := None;
        case LostRequest => status := None;
        case ServerError => status := Some(500);
      }
    }

    /**
     Records one call with up to `retries` retries. Success means the ledger has it; whatever the network
     does, the ledger ends with at most the one row of this key, and has it exactly if some attempt that
     was made got through.
     */
    method Record(r: Request, retries: nat, net: nat -> Net) returns (ok: bool)
      modifies this
      ensures ok <==> Acceptable(r) && exists a: nat :: a <= retries && net(a).Delivered?
      ensures rows == if Acceptable(r) && exists a: nat :: a <= retries && (net(a) == Delivered || net(a) == LostReply)
                      then InsertOrIgnore(old(rows), r) else old(rows)
      ensures old(posts) < posts <= old(posts) + retries + 1
      ensures forall a: nat | a < posts - old(posts) - 1 :: !net(a).Delivered?
      ensures net(posts - old(posts) - 1).Delivered? || posts == old(posts) + retries + 1
    {
      var attempt := 0;
      while attempt <= retries
        invariant attempt <= retries + 1 && posts == old(posts) + attempt
        invariant forall a: nat | a < attempt :: !net(a).Delivered?
        invariant rows == if Acceptable(r) && exists a: nat :: a < attempt && Arrives(net(a))
                          then InsertOrIgnore(old(rows), r) else old(rows)
      {
        var st := Post(r, net(attempt));
        if st.Some? && st.value == 202 {
          assert net(attempt).Delivered? && Arrives(net(attempt));
          return true;
        }
        if st.Some? && 400 <= st.value < 500 {
          return false;
        }
        assert Arrives(net(attempt)) ==> exists a: nat :: a < attempt + 1 && Arrives(net(a));
        attempt := attempt + 1;
      }
      return false;
    }
  }
}
