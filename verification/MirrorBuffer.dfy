/**
  A mirror of a remote machine's receive buffer: the sizes of the messages sent to it, oldest
  first. Removing n from it frees every message that is covered whole, and the number of
  messages freed is the number of credits gained.
*/
module MirrorBuffer {
  import opened Rings

  function Total(s: seq<nat>): nat {
    if s == [] then 0 else s[0] + Total(s[1..])
  }

  /** What is left after removing n, and how many whole entries went. */
  function Removed(s: seq<nat>, n: nat): (seq<nat>, nat) {
    if n == 0 || s == [] then (s, 0)
    else if s[0] <= n then
      var (rest, k) := Removed(s[1..], n - s[0]);
      (rest, k + 1)
    else ([s[0] - n] + s[1..], 0)
  }

  /** The n removed is what is missing, and everything else stays in order. */
  lemma {:induction false} RemovedConserves(s: seq<nat>, n: nat)
    requires n <= Total(s)
    ensures var (rest, k) := Removed(s, n);
            && Total(rest) == Total(s) - n
            && |rest| == |s| - k
            && (rest != [] ==> rest[1..] == s[k + 1..] && rest[0] <= s[k])
  {
    if n > 0 && s[0] <= n {
      RemovedConserves(s[1..], n - s[0]);
    }
  }

  /** The credits: all leading entries whose running total is at most n. */
  lemma {:induction false} RemovedCountsWhole(s: seq<nat>, n: nat)
    requires n <= Total(s) && forall i :: 0 <= i < |s| ==> s[i] > 0
    ensures var k := Removed(s, n).1;
            && k <= |s| && Total(s[..k]) <= n
            && (k < |s| ==> n < Total(s[..k + 1]))
  {
    if n > 0 && s[0] <= n {
      RemovedCountsWhole(s[1..], n - s[0]);
      var k := Removed(s, n).1;
      assert s[..k][1..] == s[1..][..k - 1];
      if k < |s| { assert s[..k + 1][1..] == s[1..][..k]; }
    } else {
      assert s != [] ==> s[..1][1..] == [];
    }
  }

  /** Removing a and then b is removing a + b, in what is left and in the credits gained. */
  lemma {:induction false} RemovedTwice(s: seq<nat>, a: nat, b: nat)
    requires a + b <= Total(s)
    ensures var (rest, k) := Removed(s, a);
            var (rest', k') := Removed(rest, b);
            Removed(s, a + b) == (rest', k + k')
  {
    if a > 0 && s[0] <= a {
      RemovedTwice(s[1..], a - s[0], b);
    } else if a > 0 {
      assert ([s[0] - a] + s[1..])[1..] == s[1..];
    }
  }

  class Mirror {
    const fifo: array<nat>
    var pushPtr: nat
    var pullPtr: nat
    var capacity: nat

    ghost predicate Valid()
      reads this
    {
      && fifo.Length > 0 && pushPtr < fifo.Length && pullPtr < fifo.Length
      && capacity <= fifo.Length && pushPtr == Idx(pullPtr, capacity, fifo.Length)
    }

    /** The sizes that have not been removed, oldest first. */
    ghost function Contents(): seq<nat>
      requires Valid()
      reads this, fifo
    {
      Window(fifo[..], pullPtr, capacity)
    }

    constructor (n: nat)
      requires n > 0
      ensures Valid() && Contents() == [] && fifo.Length == n && fresh(fifo)
    {
      fifo := new nat[n];
      pushPtr, pullPtr, capacity := 0, 0, 0;
    }

    /**
      `add_to_the_mirrored_buffer` for one mirror. With room, the size goes behind the others;
      in a full mirror, which there can be while machines are missing, it replaces the oldest.
    */
    method Add(x: nat)
      requires Valid()
      modifies this`pushPtr, this`capacity, fifo
      ensures fifo[..] == old(fifo[..])[old(pushPtr) := x]
      ensures pushPtr == ModIncr(old(pushPtr), fifo.Length) && capacity == old(capacity) + 1
      ensures old(capacity) < fifo.Length ==> Valid() && Contents() == old(Contents()) + [x]
      ensures old(capacity) == fifo.Length ==> fifo[pullPtr] == x
    {
      if capacity < fifo.Length { WindowPush(fifo[..], pullPtr, capacity, x); }
      fifo[pushPtr] := x;
      pushPtr := ModIncr(pushPtr, fifo.Length);
      capacity := capacity + 1;
    }

    /** Drops the oldest entry. */
    method DropFirst()
      requires Valid() && capacity > 0
      modifies this`pullPtr, this`capacity
      ensures Valid() && Contents() == old(Contents())[1..]
    {
      WindowPop(fifo[..], pullPtr, capacity);
      pullPtr := ModIncr(pullPtr, fifo.Length);
      capacity := capacity - 1;
    }

    /** Takes part of the oldest entry. */
    method Shrink(n: nat)
      requires Valid() && capacity > 0 && n < fifo[pullPtr]
      modifies fifo
      ensures Valid() && old(Contents())[0] > n && Contents() == [old(Contents())[0] - n] + old(Contents())[1..]
    {
      WindowSetFirst(fifo[..], pullPtr, capacity, fifo[pullPtr] - n);
      fifo[pullPtr] := fifo[pullPtr] - n;
    }

    /** `remove_from_the_mirrored_buffer`. */
    method Remove(removeNum: nat) returns (newCredits: nat)
      requires Valid() && removeNum <= Total(Contents())
      modifies this`pullPtr, this`capacity, fifo
      ensures Valid() && Contents() == Removed(old(Contents()), removeNum).0
      ensures newCredits == Removed(old(Contents()), removeNum).1
    {
      var left: nat := removeNum;
      newCredits := 0;
      ghost var target := Removed(Contents(), removeNum);
      RemovedConserves(Contents(), removeNum);
      while left > 0
        invariant Valid() && left <= Total(Contents())
        invariant Removed(Contents(), left).0 == target.0 && newCredits + Removed(Contents(), left).1 == target.1
        decreases capacity, left
      {
        assert Contents()[0] == fifo[pullPtr];
        if fifo[pullPtr] <= left {
          left := left - fifo[pullPtr];
          DropFirst();
          newCredits := newCredits + 1;
        } else {
          Shrink(left);
          left := 0;
        }
      }
    }
  }
}
