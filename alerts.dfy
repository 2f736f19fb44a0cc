/**
 * The warnings one notification round produces: every registered
 * threshold strictly above the new Celsius temperature warns once per
 * registration. Stated over the multiset of warned thresholds, so nothing
 * here depends on the order in which observers are notified.
 */
module Alerts {

  /** The thresholds, in list order, that warn at temperature `t`. */
  function Warned(thresholds: seq<real>, t: real): (r: seq<real>)
    ensures |r| <= |thresholds|
    ensures forall x :: x in r ==> x in thresholds && t < x
  {
    if thresholds == [] then []
    else (if t < thresholds[0] then [thresholds[0]] else []) + Warned(thresholds[1..], t)
  }

  /** Each threshold above `t` warns exactly as often as it is registered; none other warns. */
  lemma {:induction false} WarnedCount(thresholds: seq<real>, t: real, x: real)
    ensures multiset(Warned(thresholds, t))[x] == if t < x then multiset(thresholds)[x] else 0
  {
    if thresholds != [] {
      WarnedCount(thresholds[1..], t, x);
      assert thresholds == [thresholds[0]] + thresholds[1..];
    }
  }

  /** Lists holding the same thresholds in any order produce the same warnings. */
  lemma WarnedIgnoresOrder(ts1: seq<real>, ts2: seq<real>, t: real)
    requires multiset(ts1) == multiset(ts2)
    ensures multiset(Warned(ts1, t)) == multiset(Warned(ts2, t))
  {
    forall x ensures multiset(Warned(ts1, t))[x] == multiset(Warned(ts2, t))[x] {
      WarnedCount(ts1, t, x);
      WarnedCount(ts2, t, x);
    }
  }

  /** A colder reading warns at least for every threshold a warmer one does. */
  lemma {:induction false} WarnedAntitone(thresholds: seq<real>, t1: real, t2: real)
    requires t1 <= t2
    ensures multiset(Warned(thresholds, t2)) <= multiset(Warned(thresholds, t1))
  {
    forall x ensures multiset(Warned(thresholds, t2))[x] <= multiset(Warned(thresholds, t1))[x] {
      WarnedCount(thresholds, t1, x);
      WarnedCount(thresholds, t2, x);
    }
  }

  /** Registering one more threshold adds its own warning, if any, and changes no other. */
  lemma {:induction false} WarnedAppend(thresholds: seq<real>, x: real, t: real)
    ensures Warned(thresholds + [x], t) == Warned(thresholds, t) + (if t < x then [x] else [])
  {
    if thresholds != [] {
      assert (thresholds + [x])[1..] == thresholds[1..] + [x];
      WarnedAppend(thresholds[1..], x, t);
    }
  }
}
