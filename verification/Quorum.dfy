/**
  The quorum of a worker: which remote machines it sends to, and the order in which one
  posted list of work requests reaches them. Machines have ids 0 to M - 1; the remote ids
  leave out the worker's own machine and close the gap.
*/
module Quorum {
  import opened Common
  import opened Division

  /** `mid_to_rmid`. */
  function Rmid(me: nat, m: nat): int {
    if m < me then m else m - 1
  }

  /** `rmid_to_mid`. */
  function Mid(me: nat, r: nat): nat {
    if r < me then r else r + 1
  }

  lemma IdsAreInverse(me: nat, m: nat, r: nat)
    requires m != me
    ensures Rmid(me, m) >= 0 && Mid(me, Rmid(me, m)) == m
    ensures Mid(me, r) != me && Rmid(me, Mid(me, r)) == r
  {
  }

  /* --------------------------- Active and missing lists --------------------------- */

  /** The positions of `sv` that hold `want`, in increasing order. */
  function Where(sv: seq<bool>, want: bool): seq<nat> {
    if sv == [] then []
    else Where(sv[..|sv| - 1], want) + if sv[|sv| - 1] == want then [|sv| - 1] else []
  }

  /** r is increasing and lists only positions of `sv` that hold `want`. */
  ghost predicate Lists(r: seq<nat>, sv: seq<bool>, want: bool) {
    && (forall i :: 0 <= i < |r| ==> r[i] < |sv| && sv[r[i]] == want)
    && (forall i, j :: 0 <= i < j < |r| ==> r[i] < r[j])
  }

  lemma {:induction false} WhereIsSound(sv: seq<bool>, want: bool)
    ensures Lists(Where(sv, want), sv, want)
  {
    if sv != [] {
      var init := sv[..|sv| - 1];
      WhereIsSound(init, want);
      ListsSnoc(Where(init, want), init, sv[|sv| - 1], want);
      assert sv == init + [sv[|sv| - 1]];
    }
  }

  lemma ListsSnoc(r: seq<nat>, sv: seq<bool>, b: bool, want: bool)
    requires Lists(r, sv, want)
    ensures Lists(r + if b == want then [|sv|] else [], sv + [b], want)
  {
  }

  lemma {:induction false} WhereIsComplete(sv: seq<bool>, want: bool, k: nat)
    requires k < |sv| && sv[k] == want
    ensures k in Where(sv, want)
  {
    if k < |sv| - 1 { WhereIsComplete(sv[..|sv| - 1], want, k); }
  }

  /** Machine ids instead of remote ids. */
  function Mids(me: nat, rms: seq<nat>): (r: seq<nat>)
    ensures |r| == |rms| && forall i :: 0 <= i < |r| ==> r[i] == Mid(me, rms[i])
  {
    seq(|rms|, i requires 0 <= i < |rms| => Mid(me, rms[i]))
  }

  /** A machine is on the list exactly when it is remote and its entry of `sv` says so. */
  lemma OnList(me: nat, sv: seq<bool>, want: bool, m: nat)
    ensures m in Mids(me, Where(sv, want)) <==> m != me && Rmid(me, m) < |sv| && sv[Rmid(me, m)] == want
  {
    var w := Where(sv, want);
    var l := Mids(me, w);
    WhereIsSound(sv, want);
    if m in l {
      var i :| 0 <= i < |l| && l[i] == m;
      IdsAreInverse(me, if m == me then m + 1 else m, w[i]);
    }
    if m != me && Rmid(me, m) < |sv| && sv[Rmid(me, m)] == want {
      IdsAreInverse(me, m, 0);
      WhereIsComplete(sv, want, Rmid(me, m));
      var i :| 0 <= i < |w| && w[i] == Rmid(me, m);
      assert l[i] == m;
    }
  }

  /** Both lists are sorted, and every remote machine is on exactly one of them. */
  lemma ListsPartition(me: nat, sv: seq<bool>, m: nat)
    requires m <= |sv|
    ensures var a, d := Mids(me, Where(sv, true)), Mids(me, Where(sv, false));
            && (forall i, j :: 0 <= i < j < |a| ==> a[i] < a[j])
            && (forall i, j :: 0 <= i < j < |d| ==> d[i] < d[j])
            && (m == me ==> m !in a && m !in d)
            && (m != me && me <= |sv| ==> (m in a <==> m !in d))
  {
    WhereIsSound(sv, true);
    WhereIsSound(sv, false);
    OnList(me, sv, true, m);
    OnList(me, sv, false, m);
  }

  lemma {:induction false} WhereLengths(sv: seq<bool>)
    ensures |Where(sv, true)| + |Where(sv, false)| == |sv|
  {
    if sv != [] { WhereLengths(sv[..|sv| - 1]); }
  }

  lemma WhereSnoc(sv: seq<bool>, b: bool, want: bool)
    ensures Where(sv + [b], want) == Where(sv, want) + if b == want then [|sv|] else []
  {
    assert (sv + [b])[..|sv|] == sv;
  }

  function Without(l: seq<nat>, i: nat): seq<nat>
    requires i < |l|
  {
    l[..i] + l[i + 1..]
  }

  lemma WithoutAppend(v: seq<nat>, i: nat, tail: seq<nat>)
    requires i < |v|
    ensures Without(v + tail, i) == Without(v, i) + tail
  {
  }

  lemma ReviveSnoc(init: seq<bool>, b: bool, i: nat)
    requires i < |Where(init, false)| && Where(init, false)[i] < |init|
    requires Where(init[Where(init, false)[i] := true], false) == Without(Where(init, false), i)
    ensures i < |Where(init + [b], false)| && Where(init + [b], false)[i] < |init + [b]|
    ensures Where((init + [b])[Where(init + [b], false)[i] := true], false)
            == Without(Where(init + [b], false), i)
  {
    var v := Where(init, false);
    var x := v[i];
    WhereIsSound(init, false);
    WhereSnoc(init, b, false);
    WhereSnoc(init[x := true], b, false);
    WithoutAppend(v, i, if b then [] else [|init|]);
    assert (init + [b])[x := true] == init[x := true] + [b];
  }

  lemma ReviveLast(init: seq<bool>)
    ensures Where(init + [false], false) == Where(init, false) + [|init|]
    ensures Where((init + [false])[|init| := true], false) == Where(init, false)
  {
    WhereSnoc(init, false, false);
    WhereSnoc(init, true, false);
    assert (init + [false])[|init| := true] == init + [true];
  }

  /** Reviving the i-th missing machine removes just it from the missing list. */
  lemma {:induction false} ReviveRemoves(sv: seq<bool>, i: nat)
    requires i < |Where(sv, false)|
    ensures Where(sv, false)[i] < |sv|
    ensures Where(sv[Where(sv, false)[i] := true], false) == Without(Where(sv, false), i)
  {
    var init, b := sv[..|sv| - 1], sv[|sv| - 1];
    assert sv == init + [b];
    WhereSnoc(init, b, false);
    if i < |Where(init, false)| {
      ReviveRemoves(init, i);
      ReviveSnoc(init, b, i);
    } else {
      ReviveLast(init);
    }
  }

  lemma MidsWithout(me: nat, w: seq<nat>, i: nat)
    requires i < |w|
    ensures Mids(me, Without(w, i)) == Without(Mids(me, w), i)
  {
  }

  /* --------------------------- The revival pass --------------------------- */

  /**
    What one pass over the missing list leaves missing. Reviving a machine shortens the list
    while the index still moves on, so the machine behind a revived one is skipped.
  */
  function Kept(missing: seq<nat>, ready: set<nat>): seq<nat> {
    if missing == [] then []
    else if missing[0] !in ready then [missing[0]] + Kept(missing[1..], ready)
    else if |missing| == 1 then []
    else [missing[1]] + Kept(missing[2..], ready)
  }

  /** A pass revives the i-th missing machine if it is ready and the one before it was not revived. */
  predicate RevivedAt(missing: seq<nat>, ready: set<nat>, i: nat)
    requires i < |missing|
  {
    missing[i] in ready && (i > 0 ==> !RevivedAt(missing, ready, i - 1))
  }

  lemma {:induction false} RevivedBehind(missing: seq<nat>, ready: set<nat>, k: nat, i: nat)
    requires 0 < k <= i < |missing| && !RevivedAt(missing, ready, k - 1)
    ensures RevivedAt(missing[k..], ready, i - k) <==> RevivedAt(missing, ready, i)
  {
    if i > k { RevivedBehind(missing, ready, k, i - 1); }
  }

  lemma {:induction false} KeptAreMissing(missing: seq<nat>, ready: set<nat>, m: nat)
    requires m in Kept(missing, ready)
    ensures m in missing
  {
    if missing[0] !in ready {
      if m != missing[0] { KeptAreMissing(missing[1..], ready, m); }
    } else if m != missing[1] {
      KeptAreMissing(missing[2..], ready, m);
    }
  }

  /** What a pass leaves missing are exactly the machines that it does not revive. */
  lemma {:induction false} KeptAreNotRevived(missing: seq<nat>, ready: set<nat>, i: nat)
    requires Distinct(missing) && i < |missing|
    ensures missing[i] in Kept(missing, ready) <==> !RevivedAt(missing, ready, i)
  {
    var k := if missing[0] in ready && |missing| > 1 then 2 else 1;
    if i >= k {
      var rest := missing[k..];
      assert Distinct(rest) by { assert forall j :: 0 <= j < |rest| ==> rest[j] == missing[j + k]; }
      RevivedBehind(missing, ready, k, i);
      KeptAreNotRevived(rest, ready, i - k);
    } else if missing[i] in Kept(missing[k..], ready) {
      KeptAreMissing(missing[k..], ready, missing[i]);
    }
  }

  /** What a pass that has come to index i of the list will leave missing. */
  function PassedTo(missing: seq<nat>, ready: set<nat>, i: nat): seq<nat> {
    if i < |missing| then missing[..i] + Kept(missing[i..], ready) else missing
  }

  /** One iteration of the pass: either way the index moves on by one. */
  lemma KeptStep(missing: seq<nat>, ready: set<nat>, i: nat)
    requires i < |missing|
    ensures missing[i] !in ready ==> PassedTo(missing, ready, i) == PassedTo(missing, ready, i + 1)
    ensures missing[i] in ready ==> PassedTo(missing, ready, i) == PassedTo(Without(missing, i), ready, i + 1)
  {
    var tail := missing[i..];
    if missing[i] !in ready {
      assert tail[1..] == missing[i + 1..];
      assert missing[..i + 1] == missing[..i] + [missing[i]];
      assert Kept(tail, ready) == [missing[i]] + Kept(missing[i + 1..], ready);
      assert PassedTo(missing, ready, i) == missing[..i + 1] + Kept(missing[i + 1..], ready);
      if i + 1 == |missing| { assert Kept(missing[i + 1..], ready) == []; }
    } else {
      var rest := Without(missing, i);
      if i + 1 < |missing| {
        assert tail[2..] == missing[i + 2..] == rest[i + 1..];
        assert rest[..i + 1] == missing[..i] + [missing[i + 1]];
      }
    }
  }

  /** No two neighbours of the missing list are both ready. */
  predicate NoReadyNeighbours(missing: seq<nat>, ready: set<nat>) {
    forall i :: 0 <= i < |missing| - 1 ==> !(missing[i] in ready && missing[i + 1] in ready)
  }

  predicate Disjoint(missing: seq<nat>, ready: set<nat>) {
    forall i :: 0 <= i < |missing| ==> missing[i] !in ready
  }

  lemma {:induction false} NeighboursOfTail(missing: seq<nat>, ready: set<nat>, k: nat)
    requires k <= |missing|
    ensures NoReadyNeighbours(missing, ready) ==> NoReadyNeighbours(missing[k..], ready)
    ensures NoReadyNeighbours(missing[k..], ready) && k > 0
            && (forall i :: 0 <= i < k && i + 1 < |missing| ==> !(missing[i] in ready && missing[i + 1] in ready))
            ==> NoReadyNeighbours(missing, ready)
  {
    var t := missing[k..];
    if NoReadyNeighbours(missing, ready) {
      forall i | 0 <= i < |t| - 1 ensures !(t[i] in ready && t[i + 1] in ready) {
        assert t[i] == missing[k + i] && t[i + 1] == missing[k + i + 1];
      }
    }
    if NoReadyNeighbours(t, ready) && (forall i :: 0 <= i < k && i + 1 < |missing| ==>
         !(missing[i] in ready && missing[i + 1] in ready)) {
      forall i | 0 <= i < |missing| - 1 ensures !(missing[i] in ready && missing[i + 1] in ready) {
        if i >= k { assert t[i - k] == missing[i] && t[i - k + 1] == missing[i + 1]; }
      }
    }
  }

  /** One pass revives every ready machine exactly when no two neighbours are both ready. */
  lemma {:induction false} AllReadyAreRevived(missing: seq<nat>, ready: set<nat>)
    ensures Disjoint(Kept(missing, ready), ready) <==> NoReadyNeighbours(missing, ready)
    decreases |missing|
  {
    var kept := Kept(missing, ready);
    if |missing| <= 1 {
      if missing != [] && missing[0] !in ready { assert Kept(missing[1..], ready) == []; }
    } else if missing[0] !in ready {
      AllReadyAreRevived(missing[1..], ready);
      NeighboursOfTail(missing, ready, 1);
      var rest := Kept(missing[1..], ready);
      assert kept == [missing[0]] + rest;
      assert forall i :: 0 <= i < |rest| ==> kept[i + 1] == rest[i];
      assert Disjoint(kept, ready) <==> Disjoint(rest, ready);
    } else {
      AllReadyAreRevived(missing[2..], ready);
      NeighboursOfTail(missing, ready, 2);
      var rest := Kept(missing[2..], ready);
      assert kept == [missing[1]] + rest;
      assert kept[0] == missing[1];
      assert forall i :: 0 <= i < |rest| ==> kept[i + 1] == rest[i];
    }
  }

  /** Two ready neighbours: the second one stays missing after the pass. */
  lemma ReadyMachineIsSkipped()
    ensures Kept([1, 2], {1, 2}) == [2]
  {
    assert Kept([1, 2][2..], {1, 2}) == [];
  }

  /* --------------------------- Work requests --------------------------- */

  /** The first work request of broadcast j. */
  function Base(rem: nat, j: nat): nat {
    Times(j, rem)
  }

  /** The work request of broadcast j for remote machine r. */
  function Wr(rem: nat, j: nat, r: nat): nat {
    Base(rem, j) + r
  }

  lemma WrInjective(rem: nat, j: nat, r: nat, k: nat, q: nat)
    requires r < rem && q < rem
    ensures Wr(rem, j, r) == Wr(rem, k, q) <==> j == k && r == q
  {
    if j < k { TimesGap(j, k, rem); } else if k < j { TimesGap(k, j, rem); }
  }

  /** Within every broadcast, each active machine's request leads to the next active one's. */
  ghost predicate LinksOk(next: seq<int>, rem: nat, batch: nat, active: seq<nat>) {
    && |next| == Base(rem, batch)
    && (forall i :: 0 <= i < |active| ==> active[i] < rem)
    && forall j, i :: 0 <= j < batch && 0 <= i < |active| - 1 ==> LinkOk(next, rem, active, j, i)
  }

  ghost predicate LinkOk(next: seq<int>, rem: nat, active: seq<nat>, j: nat, i: nat)
    requires i < |active| - 1
  {
    Leads(next, rem, j, active[i], active[i + 1])
  }

  /** In broadcast j, the request for machine a leads to the one for machine b. */
  ghost predicate Leads(next: seq<int>, rem: nat, j: nat, a: nat, b: nat) {
    Wr(rem, j, a) < |next| && next[Wr(rem, j, a)] == Wr(rem, j, b)
  }

  /** The first n broadcasts also lead from one to the next, and the last one ends. */
  ghost predicate BatchOk(next: seq<int>, rem: nat, batch: nat, active: seq<nat>, n: nat) {
    && LinksOk(next, rem, batch, active) && 0 < n <= batch && |active| > 0
    && JoinsOk(next, rem, active, n)
    && Wr(rem, n - 1, active[|active| - 1]) < |next|
    && next[Wr(rem, n - 1, active[|active| - 1])] == NO_WR
  }

  ghost predicate JoinsOk(next: seq<int>, rem: nat, active: seq<nat>, n: nat)
    requires |active| > 0
  {
    forall j {:trigger JoinOk(next, rem, active, j)} :: 0 <= j < n - 1 ==> JoinOk(next, rem, active, j)
  }

  ghost predicate JoinOk(next: seq<int>, rem: nat, active: seq<nat>, j: nat)
    requires |active| > 0
  {
    var w := Wr(rem, j, active[|active| - 1]);
    w < |next| && next[w] == Wr(rem, j + 1, active[0])
  }

  /** Broadcasts j to n - 1, each to all active machines in order, from machine i of j on. */
  function Order(rem: nat, active: seq<nat>, n: nat, j: nat, i: nat): seq<int>
    requires i < |active|
    decreases n - j, |active| - i
  {
    if j >= n then []
    else
      [Wr(rem, j, active[i])]
      + if i + 1 < |active| then Order(rem, active, n, j, i + 1) else Order(rem, active, n, j + 1, 0)
  }

  /** The request posted after that of broadcast j for the i-th active machine. */
  function After(rem: nat, active: seq<nat>, n: nat, j: nat, i: nat): int
    requires i < |active|
  {
    if i + 1 < |active| then Wr(rem, j, active[i + 1]) else if j + 1 < n then Wr(rem, j + 1, active[0]) else NO_WR
  }

  ghost predicate Follows(next: seq<int>, rem: nat, active: seq<nat>, n: nat, j: nat, i: nat)
    requires i < |active|
  {
    var w := Wr(rem, j, active[i]);
    w < |next| && next[w] == After(rem, active, n, j, i)
  }

  ghost predicate AllFollow(next: seq<int>, rem: nat, active: seq<nat>, n: nat) {
    forall j, i {:trigger Follows(next, rem, active, n, j, i)} :: 0 <= j < n && 0 <= i < |active| ==>
      Follows(next, rem, active, n, j, i)
  }

  lemma BatchFollows(next: seq<int>, rem: nat, batch: nat, active: seq<nat>, n: nat)
    requires BatchOk(next, rem, batch, active, n)
    ensures AllFollow(next, rem, active, n)
  {
    forall j, i | 0 <= j < n && 0 <= i < |active| ensures Follows(next, rem, active, n, j, i) {
      if i + 1 < |active| {
        assert LinkOk(next, rem, active, j, i);
      } else if j + 1 < n {
        assert JoinOk(next, rem, active, j);
      }
    }
  }

  /** Posting one more request brings the rest of the order. */
  lemma OrderStep(posted: seq<int>, rem: nat, active: seq<nat>, n: nat, j: nat, i: nat)
    requires i < |active| && j < n
    ensures posted + Order(rem, active, n, j, i)
            == posted + [Wr(rem, j, active[i])]
               + if i + 1 < |active| then Order(rem, active, n, j, i + 1) else Order(rem, active, n, j + 1, 0)
  {
  }

  ghost predicate ActiveOk(active: seq<nat>, rem: nat) {
    && (forall k :: 0 <= k < |active| ==> active[k] < rem)
    && (forall k, l :: 0 <= k < l < |active| ==> active[k] < active[l])
  }

  /** Requests are visited in increasing order, so none is visited twice. */
  lemma {:induction false} OrderAscends(rem: nat, active: seq<nat>, n: nat, j: nat, i: nat)
    requires i < |active| && ActiveOk(active, rem)
    ensures var o := Order(rem, active, n, j, i);
            Ascending(o) && (forall k :: 0 <= k < |o| ==> o[k] >= Wr(rem, j, active[i]))
    decreases n - j, |active| - i
  {
    if j < n {
      if i + 1 < |active| {
        OrderAscends(rem, active, n, j, i + 1);
      } else {
        OrderAscends(rem, active, n, j + 1, 0);
      }
    }
  }

  /** Request w is that of some broadcast below n to some active machine. */
  ghost predicate IsRequest(rem: nat, active: seq<nat>, n: nat, w: int) {
    exists k: nat, l: nat :: k < n && l < |active| && w == Wr(rem, k, active[l])
  }

  /** Only requests of the batch to active machines are visited. */
  lemma {:induction false} OrderIsSound(rem: nat, active: seq<nat>, n: nat, j: nat, i: nat, w: int)
    requires i < |active| && w in Order(rem, active, n, j, i)
    ensures IsRequest(rem, active, n, w)
    decreases n - j, |active| - i
  {
    if w != Wr(rem, j, active[i]) {
      if i + 1 < |active| {
        OrderIsSound(rem, active, n, j, i + 1, w);
      } else {
        OrderIsSound(rem, active, n, j + 1, 0, w);
      }
    }
  }

  /** Every request of the batch to an active machine is visited. */
  lemma {:induction false} OrderIsComplete(rem: nat, active: seq<nat>, n: nat, j: nat, i: nat, k: nat, l: nat)
    requires i < |active| && k < n && l < |active| && (k > j || (k == j && l >= i))
    ensures Wr(rem, k, active[l]) in Order(rem, active, n, j, i)
    decreases n - j, |active| - i
  {
    if !(k == j && l == i) {
      if i + 1 < |active| {
        OrderIsComplete(rem, active, n, j, i + 1, k, l);
      } else {
        OrderIsComplete(rem, active, n, j + 1, 0, k, l);
      }
    }
  }

  /**
    The order of a batch of n broadcasts has exactly the requests (j, r) with j below n and r
    active, each once, in lexicographic order.
  */
  lemma OrderIsExact(rem: nat, active: seq<nat>, n: nat, w: int)
    requires |active| > 0 && ActiveOk(active, rem)
    ensures var o := Order(rem, active, n, 0, 0);
            Ascending(o) && (w in o <==> IsRequest(rem, active, n, w))
  {
    OrderAscends(rem, active, n, 0, 0);
    if w in Order(rem, active, n, 0, 0) { OrderIsSound(rem, active, n, 0, 0, w); }
    if IsRequest(rem, active, n, w) {
      var k: nat, l: nat :| k < n && l < |active| && w == Wr(rem, k, active[l]);
      OrderIsComplete(rem, active, n, 0, 0, k, l);
    }
  }
}
