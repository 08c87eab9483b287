/**
  A worker's broadcasts: the quorum lists it keeps, the credits it checks, the links of its
  work requests, and the batches it posts. Everything is updated in place.
*/
module Broadcasts {
  import opened Common
  import opened Division
  import opened Quorum

  /** Writing a link that no active machine but the last one uses keeps the others. */
  lemma OtherLink(next: seq<int>, rem: nat, batch: nat, active: seq<nat>, j: nat, r: nat, v: int)
    requires LinksOk(next, rem, batch, active) && ActiveOk(active, rem) && j < batch && r < rem
    requires forall i :: 0 <= i < |active| - 1 ==> active[i] != r
    ensures Wr(rem, j, r) < |next| && LinksOk(next[Wr(rem, j, r) := v], rem, batch, active)
  {
    TimesGap(j, batch, rem);
    var next' := next[Wr(rem, j, r) := v];
    forall k, i | 0 <= k < batch && 0 <= i < |active| - 1 ensures LinkOk(next', rem, active, k, i) {
      assert LinkOk(next, rem, active, k, i);
      WrInjective(rem, j, r, k, active[i]);
    }
  }

  /** The same for the joins from one broadcast of the batch to the next. */
  lemma NewJoin(next: seq<int>, rem: nat, batch: nat, active: seq<nat>, n: nat)
    requires LinksOk(next, rem, batch, active) && ActiveOk(active, rem) && |active| > 0
    requires 0 < n < batch && JoinsOk(next, rem, active, n)
    ensures var w, v := Wr(rem, n - 1, active[|active| - 1]), Wr(rem, n, active[0]);
            w < |next| && LinksOk(next[w := v], rem, batch, active) && JoinsOk(next[w := v], rem, active, n + 1)
  {
    var last := active[|active| - 1];
    var w, v := Wr(rem, n - 1, last), Wr(rem, n, active[0]);
    OtherLink(next, rem, batch, active, n - 1, last, v);
    var next' := next[w := v];
    forall j | 0 <= j < n ensures JoinOk(next', rem, active, j) {
      if j < n - 1 { assert JoinOk(next, rem, active, j); }
      WrInjective(rem, j, last, n - 1, last);
    }
  }

  /** Ending the batch after its last request keeps everything before. */
  lemma EndBatch(next: seq<int>, rem: nat, batch: nat, active: seq<nat>, n: nat)
    requires LinksOk(next, rem, batch, active) && ActiveOk(active, rem) && |active| > 0
    requires 0 < n <= batch && JoinsOk(next, rem, active, n)
    ensures var w := Wr(rem, n - 1, active[|active| - 1]);
            w < |next| && BatchOk(next[w := NO_WR], rem, batch, active, n)
  {
    var last := active[|active| - 1];
    var w := Wr(rem, n - 1, last);
    OtherLink(next, rem, batch, active, n - 1, last, NO_WR);
    var next' := next[w := NO_WR];
    forall j | 0 <= j < n - 1 ensures JoinOk(next', rem, active, j) {
      assert JoinOk(next, rem, active, j);
      WrInjective(rem, j, last, n - 1, last);
    }
  }

  /** A new active machine i, linked from the last one in every broadcast, extends the list. */
  lemma LinksExtend(next: seq<int>, rem: nat, batch: nat, active: seq<nat>, last: nat, i: nat)
    requires LinksOk(next, rem, batch, active) && i < rem
    requires |active| > 0 ==> last == active[|active| - 1]
    requires |active| > 0 ==> forall j :: 0 <= j < batch ==> Leads(next, rem, j, last, i)
    ensures LinksOk(next, rem, batch, active + [i])
  {
    var active' := active + [i];
    forall j, k | 0 <= j < batch && 0 <= k < |active'| - 1 ensures LinkOk(next, rem, active', j, k) {
      if k < |active| - 1 {
        assert LinkOk(next, rem, active, j, k);
      } else {
        assert Leads(next, rem, j, last, i);
      }
    }
  }

  /** Credits are 16-bit. */
  type uint16 = n: nat | n <= 65535

  /** Which remote machines have at least `min` credits, by remote id. */
  function Funded(credits: seq<uint16>, me: nat, n: nat, min: nat): seq<bool>
    requires n < |credits|
  {
    if n == 0 then [] else Funded(credits, me, n - 1, min) + [credits[Mid(me, n - 1)] >= min]
  }

  lemma {:induction false} FundedAt(credits: seq<uint16>, me: nat, n: nat, min: nat, r: nat)
    requires r < n < |credits|
    ensures |Funded(credits, me, n, min)| == n
    ensures Funded(credits, me, n, min)[r] <==> credits[Mid(me, r)] >= min
  {
    if n > 1 { FundedAt(credits, me, n - 1, min, if r < n - 1 then r else 0); }
  }

  /** The credits of machine m. */
  function At(c: seq<uint16>, m: nat): nat {
    if m < |c| then c[m] else 0
  }

  /** Some machine on the list has too few credits. */
  ghost predicate Lacking(active: seq<nat>, c: seq<uint16>, min: nat) {
    exists m :: m in active && At(c, m) < min
  }

  /** `avail` is the least number of credits of a machine on the list. */
  ghost predicate Least(active: seq<nat>, c: seq<uint16>, avail: nat) {
    && (forall m :: m in active ==> avail <= At(c, m))
    && (exists m :: m in active && At(c, m) == avail)
  }

  /** c' is c with n credits less for each machine on the list. */
  ghost predicate Spent(active: seq<nat>, c: seq<uint16>, n: nat, c': seq<uint16>) {
    |c'| == |c| && forall m: nat :: m < |c| ==> c'[m] == c[m] - if m in active then n else 0
  }

  /** What is posted for `sent` broadcasts: full batches, and the rest if any. */
  function Batches(rem: nat, active: seq<nat>, batch: nat, sent: nat): seq<seq<int>>
    requires |active| > 0 && batch > 0
  {
    if sent == 0 then []
    else
      var n := if sent < batch then sent else batch;
      [Order(rem, active, n, 0, 0)] + Batches(rem, active, batch, sent - n)
  }

  /** All batches but the last are full, and the last has the rest. */
  lemma {:induction false} BatchesAreFull(rem: nat, active: seq<nat>, batch: nat, sent: nat, i: nat)
    requires |active| > 0 && batch > 0
    ensures var all, rest := Batches(rem, active, batch, sent), Rem(sent, batch);
            && |all| == Quot(sent, batch) + (if rest == 0 then 0 else 1)
            && (i < |all| ==>
                  all[i] == Order(rem, active, if i < Quot(sent, batch) then batch else rest, 0, 0))
  {
    if sent > batch || sent == batch {
      BatchesAreFull(rem, active, batch, sent - batch, if i > 0 then i - 1 else 0);
    } else {
      assert Batches(rem, active, batch, 0) == [];
    }
  }

  /* --------------------------- What a machine pays for --------------------------- */

  /** Request w sends to remote machine r. */
  ghost predicate SendsTo(rem: nat, r: nat, w: int) {
    exists j: nat :: w == Wr(rem, j, r)
  }

  lemma SendsToOne(rem: nat, r: nat, j: nat, a: nat)
    requires r < rem && a < rem
    ensures SendsTo(rem, r, Wr(rem, j, a)) <==> r == a
  {
    forall k: nat ensures Wr(rem, j, a) == Wr(rem, k, r) <==> j == k && a == r {
      WrInjective(rem, j, a, k, r);
    }
  }

  /** How many of the posted requests send to remote machine r. */
  ghost function CountTo(rem: nat, r: nat, o: seq<int>): nat {
    if o == [] then 0 else (if SendsTo(rem, r, o[0]) then 1 else 0) + CountTo(rem, r, o[1..])
  }

  lemma {:induction false} CountInOrder(rem: nat, active: seq<nat>, n: nat, j: nat, i: nat, r: nat)
    requires i < |active| && ActiveOk(active, rem) && r < rem && j <= n
    ensures CountTo(rem, r, Order(rem, active, n, j, i))
            == if j == n || r !in active then 0 else if r in active[i..] then n - j else n - j - 1
    decreases n - j, |active| - i
  {
    if j < n {
      var o := Order(rem, active, n, j, i);
      SendsToOne(rem, r, j, active[i]);
      assert active[i..] == [active[i]] + active[i + 1..];
      if i + 1 < |active| {
        CountInOrder(rem, active, n, j, i + 1, r);
        assert o[1..] == Order(rem, active, n, j, i + 1);
      } else {
        CountInOrder(rem, active, n, j + 1, 0, r);
        assert o[1..] == Order(rem, active, n, j + 1, 0);
        assert active[0..] == active;
      }
    }
  }

  ghost function CountInAll(rem: nat, r: nat, posted: seq<seq<int>>): nat {
    if posted == [] then 0 else CountTo(rem, r, posted[0]) + CountInAll(rem, r, posted[1..])
  }

  /** Each active machine is sent exactly as many messages as it pays credits; others none. */
  lemma {:induction false} OneRequestPerCredit(rem: nat, active: seq<nat>, batch: nat, sent: nat, r: nat)
    requires |active| > 0 && batch > 0 && ActiveOk(active, rem) && r < rem
    ensures CountInAll(rem, r, Batches(rem, active, batch, sent)) == if r in active then sent else 0
  {
    if sent > 0 {
      var n := if sent < batch then sent else batch;
      CountInOrder(rem, active, n, 0, 0, r);
      assert active[0..] == active;
      OneRequestPerCredit(rem, active, batch, sent - n, r);
      assert Batches(rem, active, batch, sent)[1..] == Batches(rem, active, batch, sent - n);
    }
  }

  /* --------------------------- The start --------------------------- */

  /** The request of broadcast j for machine r leads to that for the next machine. */
  ghost predicate Steps(next: seq<int>, rem: nat, j: nat, r: nat) {
    Leads(next, rem, j, r, r + 1)
  }

  /** Every broadcast links all remote machines in order. */
  ghost predicate AllChained(next: seq<int>, rem: nat, batch: nat) {
    && |next| == Base(rem, batch)
    && forall j, r :: 0 <= j < batch && 0 <= r < rem - 1 ==> Steps(next, rem, j, r)
  }

  lemma {:induction false} WhereAll(sv: seq<bool>)
    requires forall i :: 0 <= i < |sv| ==> sv[i]
    ensures |Where(sv, true)| == |sv| && Where(sv, false) == []
    ensures forall i :: 0 <= i < |sv| ==> Where(sv, true)[i] == i
  {
    if sv != [] { WhereAll(sv[..|sv| - 1]); }
  }

  lemma AllChainedIsLinked(next: seq<int>, rem: nat, batch: nat, active: seq<nat>)
    requires AllChained(next, rem, batch)
    requires |active| == rem && forall i :: 0 <= i < rem ==> active[i] == i
    ensures LinksOk(next, rem, batch, active)
  {
    forall j, i | 0 <= j < batch && 0 <= i < |active| - 1 ensures LinkOk(next, rem, active, j, i) {
      assert Steps(next, rem, j, i);
    }
  }

  ghost predicate ChainedUpTo(next: seq<int>, rem: nat, br: nat, i: nat) {
    forall j, r :: 0 <= j && 0 <= r < rem - 1 && (j < br || (j == br && r < i)) ==> Steps(next, rem, j, r)
  }

  lemma ChainOne(next: seq<int>, rem: nat, br: nat, i: nat, v: int)
    requires ChainedUpTo(next, rem, br, i) && i < rem && Wr(rem, br, i) < |next|
    requires i < rem - 1 ==> v == Wr(rem, br, i + 1)
    ensures ChainedUpTo(next[Wr(rem, br, i) := v], rem, br, i + 1)
  {
    var next' := next[Wr(rem, br, i) := v];
    forall j, r | 0 <= j && 0 <= r < rem - 1 && (j < br || (j == br && r < i + 1)) ensures Steps(next', rem, j, r) {
      WrInjective(rem, br, i, j, r);
      if !(j == br && r == i) { assert Steps(next, rem, j, r); }
    }
  }

  /** `init_ctx_send_wrs` for a broadcast queue pair. */
  method InitSendWrs(wr: array<int>, rem: nat, batch: nat)
    requires wr.Length == Base(rem, batch)
    modifies wr
    ensures AllChained(wr[..], rem, batch)
  {
    for br := 0 to batch
      invariant ChainedUpTo(wr[..], rem, br, 0)
    {
      TimesGap(br, batch, rem);
      for i := 0 to rem
        invariant ChainedUpTo(wr[..], rem, br, i)
      {
        ghost var before := wr[..];
        TimesIs(br, rem);
        var w := br * rem + i;
        ChainOne(before, rem, br, i, if i == rem - 1 then NO_WR else w + 1);
        wr[w] := if i == rem - 1 then NO_WR else w + 1;
        assert wr[..] == before[Wr(rem, br, i) := if i == rem - 1 then NO_WR else w + 1];
      }
      NextBroadcast(wr[..], rem, br);
    }
  }

  lemma NextBroadcast(next: seq<int>, rem: nat, br: nat)
    requires ChainedUpTo(next, rem, br, rem)
    ensures ChainedUpTo(next, rem, br + 1, 0)
  {
  }

  class Worker {
    const me: nat
    const rem: nat           // REM_MACH_NUM
    const batch: nat         // MAX_BCAST_BATCH
    const quorum: nat        // REMOTE_QUORUM
    const timeout: nat       // CREDIT_TIMEOUT
    const missingIds: array<nat>
    const activeIds: array<nat>
    const sendVector: array<bool>
    const creditPtrs: seq<array<uint16>>  // one array for each broadcast queue pair
    const targets: seq<uint16>
    const sendWrs: seq<array<int>>        // the `next` links of its work requests
    var missingNum: nat
    var activeNum: nat
    var firstRm: int
    var lastRm: int
    var timeOutCnt: seq<nat>

    /** `ctx_set_up_q_info`: all remote machines are active. */
    constructor (me: nat, rem: nat, batch: nat, quorum: nat, timeout: nat,
                 creditPtrs: seq<array<uint16>>, targets: seq<uint16>, sendWrs: seq<array<int>>)
      requires 0 < rem && me <= rem && 0 < batch && 0 < quorum
      requires |targets| == |creditPtrs| == |sendWrs|
      requires forall t :: 0 <= t < |creditPtrs| ==> creditPtrs[t].Length == rem + 1
      requires forall t, u :: 0 <= t < u < |creditPtrs| ==> creditPtrs[t] != creditPtrs[u]
      requires forall w :: 0 <= w < |sendWrs| ==> AllChained(sendWrs[w][..], rem, batch)
      requires forall v, w :: 0 <= v < w < |sendWrs| ==> sendWrs[v] != sendWrs[w]
      ensures Valid() && sendVector[..] == seq(rem, i => true)
      ensures this.me == me && this.rem == rem && this.batch == batch && this.quorum == quorum
      ensures this.creditPtrs == creditPtrs && this.targets == targets && this.sendWrs == sendWrs
      ensures fresh(missingIds) && fresh(activeIds) && fresh(sendVector)
    {
      this.me, this.rem, this.batch, this.quorum, this.timeout := me, rem, batch, quorum, timeout;
      this.creditPtrs, this.targets, this.sendWrs := creditPtrs, targets, sendWrs;
      missingNum, activeNum, firstRm, lastRm := 0, rem, 0, rem - 1;
      timeOutCnt := seq(|creditPtrs|, i => 0);
      missingIds := new nat[rem];
      activeIds := new nat[rem];
      sendVector := new bool[rem];
      new;
      FillLists();
      StartIsLinked();
    }

    lemma StartIsLinked()
      requires Shape() && sendVector[..] == seq(rem, i => true)
      requires forall w :: 0 <= w < |sendWrs| ==> AllChained(sendWrs[w][..], rem, batch)
      ensures AllLinksOk()
    {
      WhereAll(sendVector[..]);
      forall w | 0 <= w < |sendWrs| ensures LinksOk(sendWrs[w][..], rem, batch, Active()) {
        AllChainedIsLinked(sendWrs[w][..], rem, batch, Active());
      }
    }

    method FillLists()
      requires Shape() && missingNum == 0 && activeNum == rem && firstRm == 0 && lastRm == rem - 1
      modifies activeIds, sendVector
      ensures ListsOk() && sendVector[..] == seq(rem, i => true)
    {
      for i := 0 to rem
        invariant forall k :: 0 <= k < i ==> sendVector[k] && activeIds[k] == Mid(me, k)
      {
        activeIds[i] := if i < me then i else i + 1;
        sendVector[i] := true;
      }
      WhereAll(sendVector[..]);
    }

    ghost function Active(): seq<nat>
      reads sendVector
    {
      Where(sendVector[..], true)
    }

    ghost function Missing(): seq<nat>
      reads sendVector
    {
      Where(sendVector[..], false)
    }

    /** The shape of the worker: sizes, and arrays that do not overlap. */
    ghost predicate Shape() {
      && 0 < rem && me <= rem && 0 < batch && 0 < quorum
      && missingIds.Length == rem && activeIds.Length == rem && sendVector.Length == rem
      && missingIds != activeIds
      && |targets| == |creditPtrs| == |sendWrs|
      && (forall t :: 0 <= t < |creditPtrs| ==> creditPtrs[t].Length == rem + 1)
      && (forall t, u :: 0 <= t < u < |creditPtrs| ==> creditPtrs[t] != creditPtrs[u])
      && (forall w :: 0 <= w < |sendWrs| ==> sendWrs[w].Length == Base(rem, batch))
      && (forall v, w :: 0 <= v < w < |sendWrs| ==> sendWrs[v] != sendWrs[w])
    }

    /** The lists say what the send vector says. */
    ghost predicate ListsOk()
      requires Shape()
      reads this, missingIds, activeIds, sendVector
    {
      && missingNum <= rem && activeNum <= rem
      && activeIds[..activeNum] == Mids(me, Active())
      && missingIds[..missingNum] == Mids(me, Missing())
      && (activeNum > 0 ==> firstRm == Active()[0] && lastRm == Active()[|Active()| - 1])
    }

    ghost predicate AllLinksOk()
      reads sendVector, sendWrs
    {
      forall w :: 0 <= w < |sendWrs| ==> LinksOk(sendWrs[w][..], rem, batch, Active())
    }

    ghost predicate Valid()
      reads this, missingIds, activeIds, sendVector, sendWrs
    {
      Shape() && ListsOk() && AllLinksOk() && |timeOutCnt| == |creditPtrs|
    }

    /** The lists cover remote machines 0 to p - 1. */
    ghost predicate ListsUpTo(p: nat)
      requires Shape() && p <= rem
      reads this, missingIds, activeIds, sendVector
    {
      && activeNum + missingNum == p
      && activeIds[..activeNum] == Mids(me, Where(sendVector[..p], true))
      && missingIds[..missingNum] == Mids(me, Where(sendVector[..p], false))
    }

    /** Puts remote machine r on the list that the send vector says. */
    method ListMachine(r: nat, m: nat)
      requires Shape() && r < rem && m == Mid(me, r) && ListsUpTo(r)
      modifies this`missingNum, this`activeNum, missingIds, activeIds
      ensures ListsUpTo(r + 1) && sendVector[..] == old(sendVector[..])
    {
      WhereSnoc(sendVector[..r], sendVector[r], true);
      WhereSnoc(sendVector[..r], sendVector[r], false);
      assert sendVector[..r + 1] == sendVector[..r] + [sendVector[r]];
      if !sendVector[r] {
        missingIds[missingNum] := m;
        missingNum := missingNum + 1;
      } else {
        activeIds[activeNum] := m;
        activeNum := activeNum + 1;
      }
    }

    /** Remote machines 0 to p - 1 are listed by whether they have enough credits. */
    ghost predicate Judged(p: nat, cs: seq<uint16>, min: nat)
      requires Shape() && p <= rem && |cs| == rem + 1
      reads this, missingIds, activeIds, sendVector
    {
      ListsUpTo(p) && sendVector[..p] == Funded(cs, me, p, min)
    }

    /** Machine m, listed next, is active if it has enough credits. */
    method Judge(m: nat, credits: array<uint16>, min: uint16)
      requires Shape() && m != me && m <= rem && credits.Length == rem + 1
      requires Judged(Rmid(me, m), credits[..], min)
      modifies this`missingNum, this`activeNum, missingIds, activeIds, sendVector
      ensures Judged(Rmid(me, m) + 1, credits[..], min)
    {
      var rm := Rmid(me, m);
      IdsAreInverse(me, m, 0);
      ghost var before := sendVector[..rm];
      sendVector[rm] := credits[m] >= min;
      assert sendVector[..rm] == before;
      ListMachine(rm, m);
      assert sendVector[..rm + 1] == sendVector[..rm] + [sendVector[rm]];
    }

    /** All remote machines are listed. */
    method FinishLists()
      requires Shape() && ListsUpTo(rem)
      modifies this`firstRm, this`lastRm
      ensures ListsOk()
    {
      assert sendVector[..rem] == sendVector[..];
      SetEnds();
    }

    /** How many remote machines have ids below i. */
    ghost function Before(i: nat): nat {
      if i > me then i - 1 else i
    }

    method JudgeUnlessMe(i: nat, credits: array<uint16>, min: uint16)
      requires Shape() && i <= rem && credits.Length == rem + 1 && Judged(Before(i), credits[..], min)
      modifies this`missingNum, this`activeNum, missingIds, activeIds, sendVector
      ensures Judged(Before(i + 1), credits[..], min)
    {
      if i != me { Judge(i, credits, min); }
    }

    method JudgeAll(credits: array<uint16>, min: uint16)
      requires Shape() && credits.Length == rem + 1 && missingNum == 0 && activeNum == 0
      modifies this`missingNum, this`activeNum, missingIds, activeIds, sendVector
      ensures Judged(rem, credits[..], min)
    {
      for i := 0 to rem + 1
        invariant Judged(Before(i), credits[..], min)
      {
        JudgeUnlessMe(i, credits, min);
      }
    }

    /** On a timeout: the active machines are those with enough credits. */
    method UpdateQInfo(q: nat, min: uint16)
      requires Shape() && q < |creditPtrs|
      modifies this`missingNum, this`activeNum, this`firstRm, this`lastRm, missingIds, activeIds, sendVector
      ensures ListsOk() && sendVector[..] == Funded(creditPtrs[q][..], me, rem, min)
    {
      missingNum, activeNum := 0, 0;
      JudgeAll(creditPtrs[q], min);
      FinishLists();
    }

    /** The extremes of the active list, as remote ids. */
    method SetEnds()
      requires Shape() && activeNum <= rem && activeIds[..activeNum] == Mids(me, Active())
      modifies this`firstRm, this`lastRm
      ensures activeNum > 0 ==> firstRm == Active()[0] && lastRm == Active()[|Active()| - 1]
    {
      firstRm := Rmid(me, activeIds[0]);
      if activeNum > 0 {
        lastRm := Rmid(me, activeIds[activeNum - 1]);
        assert activeIds[..activeNum][0] == activeIds[0];
        assert activeIds[..activeNum][activeNum - 1] == activeIds[activeNum - 1];
      }
    }

    /** Brings back the i-th missing machine; the rest is rebuilt from the send vector. */
    method ReviveMachine(i: nat)
      requires Shape() && ListsOk() && i < missingNum
      modifies this`missingNum, this`activeNum, this`firstRm, this`lastRm, missingIds, activeIds, sendVector
      ensures ListsOk() && Missing() == Without(old(Missing()), i)
    {
      assert missingIds[..missingNum][i] == Mid(me, Missing()[i]);
      ReviveRemoves(sendVector[..], i);
      var rm := Rmid(me, missingIds[i]);
      sendVector[rm] := true;
      assert sendVector[..] == old(sendVector[..])[rm := true];
      missingNum, activeNum := 0, 0;
      for r := 0 to rem
        invariant ListsUpTo(r)
        invariant sendVector[..] == old(sendVector[..])[rm := true]
      {
        ListMachine(r, Mid(me, r));
      }
      FinishLists();
    }

    /** Relinks the requests of one array so that they skip the missing machines. */
    method UpdateBcastWrLinks(wr: array<int>)
      requires Shape() && wr.Length == Base(rem, batch)
      modifies wr
      ensures LinksOk(wr[..], rem, batch, Active())
    {
      var prev, avail := 0, 0;
      for i := 0 to rem
        invariant avail == |Where(sendVector[..i], true)|
        invariant avail > 0 ==> prev == Where(sendVector[..i], true)[avail - 1]
        invariant LinksOk(wr[..], rem, batch, Where(sendVector[..i], true))
      {
        ghost var active := Where(sendVector[..i], true);
        WhereSnoc(sendVector[..i], sendVector[i], true);
        assert sendVector[..i + 1] == sendVector[..i] + [sendVector[i]];
        assert Where(sendVector[..i + 1], true) == if sendVector[i] then active + [i] else active;
        WhereIsSound(sendVector[..i], true);
        ClearFirst(wr, active, i);
        if sendVector[i] {
          LinkFrom(wr, active, avail > 0, prev, i);
          avail := avail + 1;
          prev := i;
        }
      }
      assert sendVector[..rem] == sendVector[..];
    }

    method ClearFirst(wr: array<int>, ghost active: seq<nat>, i: nat)
      requires Shape() && i < rem && LinksOk(wr[..], rem, batch, active)
      requires ActiveOk(active, rem) && i !in active
      modifies wr
      ensures LinksOk(wr[..], rem, batch, active)
    {
      OtherLink(wr[..], rem, batch, active, 0, i, NO_WR);
      ghost var before := wr[..];
      wr[i] := NO_WR;
      assert wr[..] == before[Wr(rem, 0, i) := NO_WR];
    }

    /** In every broadcast, the request for machine `prev`, if any, leads to that for machine i. */
    method LinkFrom(wr: array<int>, ghost active: seq<nat>, some: bool, prev: nat, i: nat)
      requires Shape() && i < rem && (some <==> |active| > 0)
      requires some ==> active[|active| - 1] == prev < i
      requires ActiveOk(active, rem) && LinksOk(wr[..], rem, batch, active)
      modifies wr
      ensures LinksOk(wr[..], rem, batch, active + [i])
    {
      if some {
        for j := 0 to batch
          invariant LinksOk(wr[..], rem, batch, active)
          invariant forall k :: 0 <= k < j ==> Leads(wr[..], rem, k, prev, i)
        {
          TimesIs(j, rem);
          OtherLink(wr[..], rem, batch, active, j, prev, Wr(rem, j, i));
          ghost var before := wr[..];
          wr[rem * j + prev] := rem * j + i;
          assert wr[..] == before[Wr(rem, j, prev) := Wr(rem, j, i)];
          forall k | 0 <= k <= j ensures Leads(wr[..], rem, k, prev, i) {
            if k < j { assert Leads(before, rem, k, prev, i); }
            WrInjective(rem, k, prev, j, prev);
          }
        }
      }
      LinksExtend(wr[..], rem, batch, active, prev, i);
    }

    method UpdateAllLinks()
      requires Shape()
      modifies sendWrs
      ensures AllLinksOk()
    {
      for w := 0 to |sendWrs|
        invariant forall v :: 0 <= v < w ==> LinksOk(sendWrs[v][..], rem, batch, Active())
      {
        UpdateBcastWrLinks(sendWrs[w]);
      }
    }

    /** Whether machine m has all the credits it started with, on every broadcast queue. */
    predicate ReadyAt(m: nat)
      requires Shape() && m <= rem
      reads creditPtrs
    {
      forall t :: 0 <= t < |creditPtrs| ==> creditPtrs[t][m] == targets[t]
    }

    ghost function Ready(): set<nat>
      requires Shape()
      reads creditPtrs
    {
      set m: nat | m <= rem && ReadyAt(m)
    }

    /** `all_q_info_targets_are_reached`. */
    method AllTargetsReached(i: nat) returns (reached: bool)
      requires Shape() && i < missingNum <= rem && missingIds[i] <= rem
      ensures reached <==> missingIds[i] in Ready()
      ensures reached <==> forall t :: 0 <= t < |creditPtrs| ==> creditPtrs[t][missingIds[i]] == targets[t]
    {
      for t := 0 to |creditPtrs|
        invariant forall u :: 0 <= u < t ==> creditPtrs[u][missingIds[i]] == targets[u]
      {
        if creditPtrs[t][missingIds[i]] != targets[t] {
          return false;
        }
      }
      return true;
    }

    /** Revives one machine and relinks every work-request array. */
    method ReviveAt(i: nat)
      requires Valid() && i < missingNum
      modifies this`missingNum, this`activeNum, this`firstRm, this`lastRm, missingIds, activeIds, sendVector
      modifies sendWrs
      ensures Valid() && missingIds[..missingNum] == Without(old(missingIds[..missingNum]), i)
    {
      MidsWithout(me, Missing(), i);
      ReviveMachine(i);
      UpdateAllLinks();
    }

    /** One iteration of the pass over the missing machines. */
    method ReviveStep(i: nat, ghost ready: set<nat>)
      requires Valid() && i < missingNum && ready == Ready()
      modifies this`missingNum, this`activeNum, this`firstRm, this`lastRm, missingIds, activeIds, sendVector
      modifies sendWrs
      ensures Valid() && ready == Ready()
      ensures missingIds[..missingNum]
              == if old(missingIds[i]) in ready then Without(old(missingIds[..missingNum]), i)
                 else old(missingIds[..missingNum])
    {
      MissingInRange(i);
      var reached := AllTargetsReached(i);
      if reached { ReviveAt(i); }
    }

    /** One pass over the missing machines, reviving those that have all their credits. */
    method ReviveReady()
      requires Valid()
      modifies this`missingNum, this`activeNum, this`firstRm, this`lastRm, missingIds, activeIds, sendVector
      modifies sendWrs
      ensures Valid() && missingIds[..missingNum] == Kept(old(missingIds[..missingNum]), Ready())
    {
      var i := 0;
      ghost var ready := Ready();
      while i < missingNum
        invariant Valid() && ready == Ready()
        invariant PassedTo(missingIds[..missingNum], ready, i) == Kept(old(missingIds[..missingNum]), ready)
        decreases rem + 1 - i
      {
        ghost var missing := missingIds[..missingNum];
        KeptStep(missing, ready, i);
        assert missing[i] == missingIds[i];
        ReviveStep(i, ready);
        i := i + 1;
      }
    }

    /* --------------------------- Credits --------------------------- */

    ghost function Credits(q: nat): seq<uint16>
      requires q < |creditPtrs|
      reads creditPtrs
    {
      creditPtrs[q][..]
    }

    ghost function ActiveIds(): seq<nat>
      requires Shape() && activeNum <= rem
      reads this, activeIds
    {
      activeIds[..activeNum]
    }

    ghost function MissingIds(): seq<nat>
      requires Shape() && missingNum <= rem
      reads this, missingIds
    {
      missingIds[..missingNum]
    }

    /**
      The quorum lists are sorted, every remote machine is on the one that the send vector says,
      and the ends are the extremes of the active list.
    */
    lemma QuorumIsSound(m: nat)
      requires Valid() && m <= rem
      ensures activeNum + missingNum == rem
      ensures forall i, j :: 0 <= i < j < activeNum ==> ActiveIds()[i] < ActiveIds()[j]
      ensures forall i, j :: 0 <= i < j < missingNum ==> MissingIds()[i] < MissingIds()[j]
      ensures m in ActiveIds() <==> m != me && sendVector[Rmid(me, m)]
      ensures m in MissingIds() <==> m != me && !sendVector[Rmid(me, m)]
      ensures activeNum > 0 ==> firstRm == Rmid(me, ActiveIds()[0]) && lastRm == Rmid(me, ActiveIds()[activeNum - 1])
    {
      WhereLengths(sendVector[..]);
      ListsPartition(me, sendVector[..], m);
      OnList(me, sendVector[..], true, m);
      OnList(me, sendVector[..], false, m);
    }

    /** The counts after one more round without credits on queue pair q. */
    ghost function OneMoreTimeOut(cnts: seq<nat>, q: nat): seq<nat>
      requires q < |cnts|
    {
      cnts[q := if cnts[q] + 1 == timeout then 0 else cnts[q] + 1]
    }

    /** The send vector after a round without credits that `cnt` others have preceded. */
    ghost function AfterTimeOut(sv: seq<bool>, cnt: nat, credits: seq<uint16>, min: nat): seq<bool>
      requires Shape() && |credits| == rem + 1
    {
      if cnt + 1 == timeout then Funded(credits, me, rem, min) else sv
    }

    /** The counts after k rounds without credits on queue pair q. */
    ghost function TimeOuts(cnts: seq<nat>, q: nat, k: nat): (r: seq<nat>)
      requires q < |cnts|
      ensures |r| == |cnts|
    {
      if k == 0 then cnts else OneMoreTimeOut(TimeOuts(cnts, q, k - 1), q)
    }

    /**
      From a count of 0, the first timeout - 1 rounds without credits are only counted. The next
      one rebuilds the send vector from the credits, and the count starts again.
    */
    lemma {:induction false} TimesOutOnTime(cnts: seq<nat>, sv: seq<bool>, credits: seq<uint16>, q: nat, min: nat, k: nat)
      requires Shape() && q < |cnts| && cnts[q] == 0 && k <= timeout && timeout > 0 && |credits| == rem + 1
      ensures TimeOuts(cnts, q, k) == cnts[q := if k == timeout then 0 else k]
      ensures k < timeout ==>
                AfterTimeOut(sv, TimeOuts(cnts, q, k)[q], credits, min)
                == if k == timeout - 1 then Funded(credits, me, rem, min) else sv
    {
      if k > 0 { TimesOutOnTime(cnts, sv, credits, q, min, k - 1); }
    }

    /** Some active machine lacks credits: after enough such rounds, it is taken to have failed. */
    method CountTimeOut(q: nat, min: uint16)
      requires Valid() && q < |creditPtrs|
      modifies this`missingNum, this`activeNum, this`firstRm, this`lastRm, missingIds, activeIds, sendVector
      modifies this`timeOutCnt, sendWrs
      ensures Valid() && timeOutCnt == OneMoreTimeOut(old(timeOutCnt), q)
      ensures sendVector[..] == AfterTimeOut(old(sendVector[..]), old(timeOutCnt[q]), Credits(q), min)
    {
      timeOutCnt := timeOutCnt[q := timeOutCnt[q] + 1];
      if timeOutCnt[q] == timeout {
        UpdateQInfo(q, min);
        UpdateAllLinks();
        timeOutCnt := timeOutCnt[q := 0];
      }
    }

    method ReviveIfMissing()
      requires Valid()
      modifies this`missingNum, this`activeNum, this`firstRm, this`lastRm, missingIds, activeIds, sendVector
      modifies sendWrs
      ensures Valid() && MissingIds() == Kept(old(MissingIds()), Ready())
    {
      if missingNum > 0 { ReviveReady(); }
    }

    /** The least number of credits of an active machine. */
    method LeastCredits(q: nat) returns (avail: uint16)
      requires Shape() && ListsOk() && activeNum > 0 && q < |creditPtrs|
      ensures Least(ActiveIds(), Credits(q), avail)
    {
      avail := 65535;
      for i := 0 to activeNum
        invariant forall m :: m in activeIds[..i] ==> avail <= At(Credits(q), m)
        invariant if i == 0 then avail == 65535 else exists m :: m in activeIds[..i] && At(Credits(q), m) == avail
      {
        ActiveInRange(i);
        assert activeIds[..i + 1] == activeIds[..i] + [activeIds[i]];
        assert At(Credits(q), activeIds[i]) == creditPtrs[q][activeIds[i]];
        if creditPtrs[q][activeIds[i]] < avail {
          avail := creditPtrs[q][activeIds[i]];
        } else if i == 0 {
          assert At(Credits(q), activeIds[0]) == avail;
        }
      }
    }

    /** Whether some active machine has too few credits. */
    method FindLacking(q: nat, min: uint16) returns (lacking: bool)
      requires Shape() && ListsOk() && q < |creditPtrs|
      ensures lacking <==> Lacking(ActiveIds(), Credits(q), min)
    {
      for i := 0 to activeNum
        invariant !Lacking(activeIds[..i], Credits(q), min)
      {
        ActiveInRange(i);
        assert activeIds[..i + 1] == activeIds[..i] + [activeIds[i]];
        assert At(Credits(q), activeIds[i]) == creditPtrs[q][activeIds[i]];
        if creditPtrs[q][activeIds[i]] < min {
          assert activeIds[i] in ActiveIds();
          return true;
        }
      }
      return false;
    }

    /** The second part of `check_bcast_credits`: no active machine lacks credits. */
    method CountAvailable(q: nat) returns (ok: bool, avail: uint16)
      requires Valid() && q < |creditPtrs|
      modifies this`missingNum, this`activeNum, this`firstRm, this`lastRm, missingIds, activeIds, sendVector
      modifies this`timeOutCnt, sendWrs
      ensures Valid() && timeOutCnt == old(timeOutCnt)[q := 0] && MissingIds() == Kept(old(MissingIds()), old(Ready()))
      ensures ok <==> activeNum >= quorum
      ensures if ok then Least(ActiveIds(), Credits(q), avail) else avail == 0
    {
      ok, avail := false, 0;
      timeOutCnt := timeOutCnt[q := 0];
      ReviveIfMissing();
      if activeNum < quorum { return; }
      ok := true;
      avail := LeastCredits(q);
    }

    /**
      `check_bcast_credits`. If some active machine lacks credits there is nothing to send now,
      and after enough such rounds the quorum is rebuilt. Otherwise ready machines are revived,
      and sending may go on if a remote quorum is active.
    */
    method CheckBcastCredits(q: nat, min: uint16) returns (ok: bool, avail: uint16)
      requires Valid() && q < |creditPtrs|
      modifies this`missingNum, this`activeNum, this`firstRm, this`lastRm, missingIds, activeIds, sendVector
      modifies this`timeOutCnt, sendWrs
      ensures Valid() && Credits(q) == old(Credits(q))
      ensures ok <==> !old(Lacking(ActiveIds(), Credits(q), min)) && activeNum >= quorum
      ensures if ok then Least(ActiveIds(), Credits(q), avail) else avail == 0
      ensures !old(Lacking(ActiveIds(), Credits(q), min)) ==>
                timeOutCnt == old(timeOutCnt)[q := 0] && MissingIds() == Kept(old(MissingIds()), old(Ready()))
      ensures old(Lacking(ActiveIds(), Credits(q), min)) ==>
                && timeOutCnt == OneMoreTimeOut(old(timeOutCnt), q)
                && sendVector[..] == AfterTimeOut(old(sendVector[..]), old(timeOutCnt[q]), old(Credits(q)), min)
    {
      ok, avail := false, 0;
      var lacking := FindLacking(q, min);
      if lacking {
        CountTimeOut(q, min);
        return;
      }
      ok, avail := CountAvailable(q);
    }

    /** `decrease_credits`. */
    method DecreaseCredits(q: nat, n: nat)
      requires Shape() && ListsOk() && q < |creditPtrs|
      requires forall m :: m in ActiveIds() ==> n <= At(Credits(q), m)
      modifies creditPtrs[q]
      ensures Spent(ActiveIds(), old(Credits(q)), n, Credits(q))
    {
      ghost var before := Credits(q);
      var credits: array<uint16> := creditPtrs[q];
      for i := 0 to activeNum
        invariant Spent(activeIds[..i], before, n, credits[..])
      {
        var m := activeIds[i];
        ActiveInRange(i);
        ActiveDistinct(i);
        assert m in ActiveIds() && At(before, m) == credits[m];
        credits[m] := credits[m] - n;
        assert activeIds[..i + 1] == activeIds[..i] + [m];
      }
    }

    lemma ActiveDistinct(i: nat)
      requires Shape() && ListsOk() && i < activeNum
      ensures activeIds[i] !in activeIds[..i]
    {
      WhereIsSound(sendVector[..], true);
      forall k | 0 <= k < i ensures activeIds[k] != activeIds[i] {
        assert activeIds[..activeNum][k] == Mid(me, Active()[k]);
        assert activeIds[..activeNum][i] == Mid(me, Active()[i]);
      }
    }

    /* --------------------------- Posting --------------------------- */

    /** The first n broadcasts of the next batch have been formed. */
    ghost predicate Formed(q: nat, n: nat)
      requires Shape() && q < |sendWrs|
      reads sendVector, sendWrs[q]
    {
      && n <= batch && |Active()| > 0
      && LinksOk(sendWrs[q][..], rem, batch, Active())
      && (n > 0 ==> JoinsOk(sendWrs[q][..], rem, Active(), n))
    }

    /** `get_last_message_of_bcast`, for the br-th broadcast of a batch. */
    method LastMessage(br: nat) returns (w: int)
      requires br > 0 && lastRm >= 0
      ensures w == Wr(rem, br - 1, lastRm)
    {
      TimesIs(br - 1, rem);
      w := (br - 1) * rem + lastRm;
    }

    /** `get_first_message_of_next_bcast`. */
    method FirstOfNext(br: nat) returns (w: int)
      requires firstRm >= 0
      ensures w == Wr(rem, br, firstRm)
    {
      TimesIs(br, rem);
      w := br * rem + firstRm;
    }

    method SetLink(wr: array<int>, w: int, v: int)
      requires 0 <= w < wr.Length
      modifies wr
      ensures wr[..] == old(wr[..])[w := v]
    {
      wr[w] := v;
    }

    /** `form_bcast_links`: the broadcast before leads to this one. */
    method FormLinks(q: nat, br: nat)
      requires Shape() && ListsOk() && q < |sendWrs| && br < batch && Formed(q, br)
      modifies sendWrs[q]
      ensures Formed(q, br + 1)
    {
      WhereIsSound(sendVector[..], true);
      if br > 0 {
        NewJoin(sendWrs[q][..], rem, batch, Active(), br);
        var last := LastMessage(br);
        var first := FirstOfNext(br);
        SetLink(sendWrs[q], last, first);
      }
    }

    method EndLinks(q: nat, n: nat)
      requires Shape() && ListsOk() && q < |sendWrs| && n > 0 && Formed(q, n)
      modifies sendWrs[q]
      ensures BatchOk(sendWrs[q][..], rem, batch, Active(), n)
    {
      WhereIsSound(sendVector[..], true);
      EndBatch(sendWrs[q][..], rem, batch, Active(), n);
      var last := LastMessage(n);
      SetLink(sendWrs[q], last, NO_WR);
    }

    /** Ends the batch and posts it: the queue pair takes the requests that the links reach. */
    method PostBatch(q: nat, n: nat) returns (posted: seq<int>)
      requires Shape() && ListsOk() && q < |sendWrs| && n > 0 && Formed(q, n)
      modifies sendWrs[q]
      ensures posted == Order(rem, Active(), n, 0, 0) && Formed(q, 0)
    {
      EndLinks(q, n);
      WhereIsSound(sendVector[..], true);
      BatchFollows(sendWrs[q][..], rem, batch, Active(), n);
      posted := PostSend(sendWrs[q], firstRm, Active(), n);
    }

    /** `ibv_post_send`: takes requests from w on until the list ends. */
    method PostSend(wr: array<int>, first: int, ghost active: seq<nat>, n: nat) returns (posted: seq<int>)
      requires |active| > 0 && n > 0 && AllFollow(wr[..], rem, active, n) && first == Wr(rem, 0, active[0])
      ensures posted == Order(rem, active, n, 0, 0)
    {
      posted := [];
      var w := first;
      ghost var j, i, all := 0, 0, Order(rem, active, n, 0, 0);
      while w != NO_WR
        invariant j <= n && i < |active|
        invariant w == if j < n then Wr(rem, j, active[i]) else NO_WR
        invariant posted + Order(rem, active, n, j, i) == all
        decreases n - j, |active| - i
      {
        assert Follows(wr[..], rem, active, n, j, i);
        OrderStep(posted, rem, active, n, j, i);
        posted := posted + [w];
        w := wr[w];
        if i + 1 < |active| { i := i + 1; } else { i, j := 0, j + 1; }
      }
    }

    /** After `sent` of n broadcasts: all but the last `br` have been posted. */
    ghost predicate Sending(q: nat, n: nat, sent: nat, br: nat, posted: seq<seq<int>>)
      requires Shape() && q < |sendWrs|
      reads sendVector, sendWrs[q]
    {
      && br <= sent <= n && br < batch && Formed(q, br)
      && posted + Batches(rem, Active(), batch, n - (sent - br)) == Batches(rem, Active(), batch, n)
    }

    /** Posting n more broadcasts as one batch. */
    lemma OneMore(posted: seq<seq<int>>, active: seq<nat>, n: nat, left: nat)
      requires |active| > 0 && 0 < n <= left && (n == batch || n == left < batch)
      ensures posted + Batches(rem, active, batch, left)
              == posted + [Order(rem, active, n, 0, 0)] + Batches(rem, active, batch, left - n)
    {
    }

    /** One iteration: forms the next broadcast, and posts the batch if it is full. */
    method SendOne(q: nat, ghost n: nat, ghost sent: nat, br: nat, posted: seq<seq<int>>)
      returns (br': nat, posted': seq<seq<int>>)
      requires Shape() && ListsOk() && q < |sendWrs| && sent < n && Sending(q, n, sent, br, posted)
      modifies sendWrs[q]
      ensures Sending(q, n, sent + 1, br', posted')
    {
      FormLinks(q, br);
      br', posted' := br + 1, posted;
      if br' == batch {
        OneMore(posted, Active(), batch, n - (sent - br));
        var p := PostBatch(q, br');
        br', posted' := 0, posted + [p];
      }
    }

    /** The loop of `ctx_send_broadcasts`. */
    method SendUpTo(q: nat, n: nat) returns (posted: seq<seq<int>>)
      requires Shape() && ListsOk() && q < |sendWrs| && Formed(q, 0)
      modifies sendWrs[q]
      ensures posted == Batches(rem, Active(), batch, n) && Formed(q, 0)
    {
      posted := [];
      var sent, br := 0, 0;
      while sent < n
        invariant Sending(q, n, sent, br, posted)
      {
        br, posted := SendOne(q, n, sent, br, posted);
        sent := sent + 1;
      }
      if br > 0 {
        OneMore(posted, Active(), br, br);
        var p := PostBatch(q, br);
        posted := posted + [p];
      }
    }

    /** Sends n broadcasts, which each active machine can pay for and then does. */
    method SendAndPay(q: nat, n: nat) returns (posted: seq<seq<int>>)
      requires Valid() && q < |creditPtrs| && activeNum > 0
      requires forall m :: m in ActiveIds() ==> n <= At(Credits(q), m)
      modifies sendWrs, creditPtrs[q]
      ensures Valid() && posted == Batches(rem, Active(), batch, n)
      ensures Spent(ActiveIds(), old(Credits(q)), n, Credits(q))
    {
      posted := SendUpTo(q, n);
      if n > 0 { DecreaseCredits(q, n); }
    }

    /**
      `ctx_send_broadcasts`: with `pending` messages in the send fifo, as many as the credits
      of all active machines allow are posted, and each active machine pays for every one.
      Nothing is sent if some active machine had no credit, which counts towards the timeout,
      or if too few machines are active after ready ones have been revived.
    */
    method SendBroadcasts(q: nat, pending: nat) returns (sent: nat, ghost avail: nat, posted: seq<seq<int>>)
      requires Valid() && q < |creditPtrs|
      modifies this`missingNum, this`activeNum, this`firstRm, this`lastRm, missingIds, activeIds, sendVector
      modifies this`timeOutCnt, sendWrs, creditPtrs[q]
      ensures Valid() && Spent(ActiveIds(), old(Credits(q)), sent, Credits(q))
      ensures pending == 0 ==> sent == 0 && timeOutCnt == old(timeOutCnt) && sendVector[..] == old(sendVector[..])
      ensures pending > 0 && old(Lacking(ActiveIds(), Credits(q), 1)) ==>
                && sent == 0 && timeOutCnt == OneMoreTimeOut(old(timeOutCnt), q)
                && sendVector[..] == AfterTimeOut(old(sendVector[..]), old(timeOutCnt[q]), old(Credits(q)), 1)
      ensures pending > 0 && !old(Lacking(ActiveIds(), Credits(q), 1)) ==>
                && timeOutCnt == old(timeOutCnt)[q := 0] && MissingIds() == Kept(old(MissingIds()), old(Ready()))
                && if activeNum < quorum then sent == 0
                   else Least(ActiveIds(), old(Credits(q)), avail) && sent == if pending < avail then pending else avail
      ensures sent > 0 ==> posted == Batches(rem, Active(), batch, sent)
      ensures sent == 0 ==> posted == []
    {
      sent, avail, posted := 0, 0, [];
      if pending == 0 { return; }
      var ok, available := CheckBcastCredits(q, 1);
      avail := available;
      if !ok { return; }
      sent := if pending < available then pending else available;
      posted := SendAndPay(q, sent);
    }

    lemma MissingInRange(i: nat)
      requires Shape() && ListsOk() && i < missingNum
      ensures missingIds[i] <= rem
    {
      WhereIsSound(sendVector[..], false);
      assert missingIds[..missingNum][i] == Mid(me, Missing()[i]);
    }

    lemma ActiveInRange(i: nat)
      requires Shape() && ListsOk() && i < activeNum
      ensures activeIds[i] <= rem
    {
      WhereIsSound(sendVector[..], true);
      assert activeIds[..activeNum][i] == Mid(me, Active()[i]);
    }
  }
}
