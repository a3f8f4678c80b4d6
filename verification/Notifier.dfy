/** The in-pod broadcast "this thread's stream has something new": channels of capacity one. */
module Notifier {

  /** Whether a wake-up is buffered after a Notify: an earlier one stays, and a subscriber has one now. */
  function Woken(full: bool, subscribed: bool): bool { full || subscribed }

  /** A channel of capacity one; `full` while a wake-up is buffered. */
  class Chan {
    var full: bool

    constructor ()
      ensures !full
    {
      full := false;
    }
  }

  class Notifier {
    var subs: map<string, set<Chan>>

    /** No key is kept without a subscriber. */
    ghost predicate Valid() reads this {
      forall k | k in subs :: subs[k] != {}
    }

    function SubsOf(key: string): set<Chan> reads this {
      if key in subs then subs[key] else {}
    }

    constructor ()
      ensures Valid() && subs == map[]
    {
      subs := map[];
    }

    method Subscribe(key: string) returns (ch: Chan)
      requires Valid()
      modifies this
      ensures Valid() && fresh(ch) && !ch.full
      ensures subs == old(subs)[key := old(SubsOf(key)) + {ch}]
    {
      ch := new Chan();
      if key !in subs {
        subs := subs[key := {}];
      }
      subs := subs[key := subs[key] + {ch}];
    }

    method Unsubscribe(key: string, ch: Chan)
      requires Valid()
      modifies this
      ensures Valid()
      ensures SubsOf(key) == old(SubsOf(key)) - {ch}
      ensures forall k | k != key :: SubsOf(k) == old(SubsOf(k))
    {
      if key in subs {
        subs := subs[key := subs[key] - {ch}];
      }
      if key !in subs || subs[key] == {} {
        subs := subs - {key};
      }
    }

    /** Wakes every subscriber of `key`, dropping the signal where one is already buffered. */
    method Notify(key: string)
      modifies SubsOf(key)
      ensures forall ch | ch in SubsOf(key) :: ch.full
      ensures forall k, ch | k in subs && ch in subs[k] :: ch.full == Woken(old(ch.full), ch in SubsOf(key))
    {
      var todo := if key in subs then subs[key] else {};
      while todo != {}
        invariant todo <= SubsOf(key)
        invariant forall ch | ch in todo :: ch.full == old(ch.full)
        invariant forall ch | ch in SubsOf(key) && ch !in todo :: ch.full
      {
        var ch :| ch in todo;
        if !ch.full {
          ch.full := true;
        }
        todo := todo - {ch};
      }
    }
  }
}
