/**
 The per-tenant cap on concurrent turns of one pod: the counter map as a value, and the class
 that changes it in place. A limit of zero or less means "no limit", and then nothing is counted.
 */
module Limiter {

  type Tenant = nat
  type Counters = map<Tenant, nat>

  function Count(cur: Counters, tn: Tenant): nat {
    if tn in cur then cur[tn] else 0
  }

  predicate Admits(max: int, cur: Counters, tn: Tenant) {
    max <= 0 || Count(cur, tn) < max
  }

  function Taken(max: int, cur: Counters, tn: Tenant): Counters {
    if max <= 0 || !Admits(max, cur, tn) then cur else cur[tn := Count(cur, tn) + 1]
  }

  function GivenBack(max: int, cur: Counters, tn: Tenant): Counters {
    if max <= 0 then cur
    else if Count(cur, tn) <= 1 then cur - {tn}
    else cur[tn := cur[tn] - 1]
  }

  /** An admitted acquire and a release undo each other; no other tenant's count moves. */
  lemma AcquireReleaseCancel(max: int, cur: Counters, tn: Tenant)
    requires forall k | k in cur :: cur[k] > 0
    ensures Admits(max, cur, tn) ==> GivenBack(max, Taken(max, cur, tn), tn) == cur
    ensures forall k | k != tn ::
      Count(Taken(max, cur, tn), k) == Count(cur, k) == Count(GivenBack(max, cur, tn), k)
  {
  }

  class TenantLimiter {
    const max: int
    var cur: Counters

    /** Entries are removed when they reach zero, and no counter passes a positive limit. */
    ghost predicate Valid() reads this {
      forall k | k in cur :: 0 < cur[k] <= max
    }

    constructor (max: int)
      ensures Valid() && this.max == max && cur == map[]
    {
      this.max := max;
      cur := map[];
    }

    method TryAcquire(tn: Tenant) returns (ok: bool)
      requires Valid()
      modifies this
      ensures Valid()
      ensures ok == Admits(max, old(cur), tn)
      ensures ok <==> max <= 0 || (if tn in old(cur) then old(cur)[tn] else 0) < max
      ensures cur == Taken(max, old(cur), tn)
      ensures cur == if ok && max > 0 then old(cur)[tn := (if tn in old(cur) then old(cur)[tn] else 0) + 1] else old(cur)
    {
      if max <= 0 {
        return true;
      }
      var c := if tn in cur then cur[tn] else 0;
      if c >= max {
        return false;
      }
      cur := cur[tn := c + 1];
      return true;
    }

    method Release(tn: Tenant)
      requires Valid()
      modifies this
      ensures Valid()
      ensures cur == GivenBack(max, old(cur), tn)
      ensures cur == if max <= 0 || tn !in old(cur) then old(cur)
                     else if old(cur)[tn] > 1 then old(cur)[tn := old(cur)[tn] - 1]
                     else old(cur) - {tn}
    {
      if max <= 0 {
        return;
      }
      if tn in cur && cur[tn] > 0 {
        cur := cur[tn := cur[tn] - 1];
      }
      if tn !in cur || cur[tn] == 0 {
        cur := cur - {tn};
      }
    }

    method InFlight(tn: Tenant) returns (n: nat)
      ensures n == Count(cur, tn)
    {
      n := if tn in cur then cur[tn] else 0;
    }
  }
}
