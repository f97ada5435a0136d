/**
 * The listener lists the workflow engine and the approval store keep: `subscribe`
 * appends a callback, the returned unsubscribe function filters it out, and a
 * notification calls every subscribed callback, in order, with the current data.
 * Callbacks are modelled by numbers, and a call by the delivery it records.
 */
module Listeners {

  /** One call of a subscribed listener, with the data it receives. */
  datatype Delivery<T> = Delivery(listener: nat, data: T)

  /** One notification: every listener, in subscription order, receives the same data. */
  function Notifications<T>(listeners: seq<nat>, data: T): (r: seq<Delivery<T>>)
    ensures |r| == |listeners|
    ensures forall i :: 0 <= i < |listeners| ==> r[i] == Delivery(listeners[i], data)
  {
    seq(|listeners|, i requires 0 <= i < |listeners| => Delivery(listeners[i], data))
  }

  /** `listeners.filter(l => l !== callback)`. */
  function Without(s: seq<nat>, x: nat): (r: seq<nat>)
    ensures x !in r
    ensures forall y :: y != x ==> (y in r <==> y in s)
    ensures |r| <= |s|
    decreases |s|
  {
    if s == [] then [] else (if s[0] == x then [] else [s[0]]) + Without(s[1..], x)
  }

  /** Unsubscribing keeps the other listeners in their subscription order. */
  lemma {:induction false} WithoutAppend(a: seq<nat>, b: seq<nat>, x: nat)
    ensures Without(a + b, x) == Without(a, x) + Without(b, x)
    decreases |a|
  {
    if a != [] {
      assert (a + b)[1..] == a[1..] + b;
      WithoutAppend(a[1..], b, x);
    } else {
      assert a + b == b;
    }
  }

  /** Unsubscribing a callback that was never subscribed changes nothing. */
  lemma {:induction false} WithoutAbsent(s: seq<nat>, x: nat)
    requires x !in s
    ensures Without(s, x) == s
    decreases |s|
  {
    if s != [] {
      WithoutAbsent(s[1..], x);
      assert s == [s[0]] + s[1..];
    }
  }
}
