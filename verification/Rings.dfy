/** Rings: pointers that wrap around, and the window of slots between them. */
module Rings {

  /** `mod_incr`. */
  function ModIncr(x: nat, n: nat): (r: nat)
    requires x < n
    ensures r < n
  {
    if x + 1 == n then 0 else x + 1
  }

  /** It is the remainder that the source computes. */
  lemma ModIncrIs(x: nat, n: nat)
    requires x < n
    ensures ModIncr(x, n) == (x + 1) % n
  {
  }

  /** Slot i of the window that starts at p. */
  function Idx(p: nat, i: nat, n: nat): (r: nat)
    requires p < n && i <= n
    ensures r < n
  {
    if p + i < n then p + i else p + i - n
  }

  /** The k slots from p on. */
  function Window<T>(a: seq<T>, p: nat, k: nat): (r: seq<T>)
    requires p < |a| && k <= |a|
    ensures |r| == k && forall i :: 0 <= i < k ==> r[i] == a[Idx(p, i, |a|)]
  {
    seq(k, i requires 0 <= i < k => a[Idx(p, i, |a|)])
  }

  /** Writing the slot behind the window and taking it in appends to the window. */
  lemma WindowPush<T>(a: seq<T>, p: nat, k: nat, x: T)
    requires p < |a| && k < |a|
    ensures var q := Idx(p, k, |a|);
            && Window(a[q := x], p, k + 1) == Window(a, p, k) + [x]
            && Idx(p, k + 1, |a|) == ModIncr(q, |a|)
  {
  }

  /** Moving the start of the window on drops its first slot. */
  lemma WindowPop<T>(a: seq<T>, p: nat, k: nat)
    requires p < |a| && 0 < k <= |a|
    ensures Window(a, ModIncr(p, |a|), k - 1) == Window(a, p, k)[1..]
    ensures Idx(ModIncr(p, |a|), k - 1, |a|) == Idx(p, k, |a|)
    ensures Window(a, p, k)[0] == a[p]
  {
  }

  lemma WindowSetFirst<T>(a: seq<T>, p: nat, k: nat, x: T)
    requires p < |a| && 0 < k <= |a|
    ensures Window(a[p := x], p, k) == [x] + Window(a, p, k)[1..]
  {
  }
}
