/**
  Selective signalling: only some send requests ask for a completion, and a worker waits for
  one completion now and then, so that the send queue never fills up. A completion confirms
  the request that asked for it and all earlier ones.
*/
module Signalling {

  import opened Division

  /* --------------------------- Unicasts --------------------------- */

  /**
    The send queue of a unicast queue pair: requests formed and posted, the requests that ask
    for a completion, and the completions waited for.
  */
  datatype Unicasts = Unicasts(tx: nat, posted: nat, marks: seq<nat>, polls: nat)

  /** `MIN_SS_BATCH`, or two more than the work requests. */
  function UniBatch(wrNum: nat): nat {
    if wrNum + 2 > 127 then wrNum + 2 else 127
  }

  function UniDepth(wrNum: nat): nat {
    2 * UniBatch(wrNum) + 3
  }

  /** All requests up to the last completion are confirmed. */
  function UniUnconfirmed(u: Unicasts): int {
    u.posted - if 0 < u.polls <= |u.marks| then u.marks[u.polls - 1] + 1 else 0
  }

  /** Every ss-th request asks for a completion, and every batch but the current is posted. */
  ghost predicate UniInv(u: Unicasts, ss: nat) {
    && ss >= 2 && u.posted <= u.tx && u.polls == Quot(u.tx, ss)
    && |u.marks| == u.polls + (if Rem(u.tx, ss) == 0 then 0 else 1)
    && forall k {:trigger u.marks[k]} :: 0 <= k < |u.marks| ==> u.marks[k] == Times(k, ss)
  }

  /** `selective_signaling_for_unicast`, for one more request. */
  function FormUni(u: Unicasts, ss: nat): Unicasts
    requires ss > 0
  {
    u.(marks := if Rem(u.tx, ss) == 0 then u.marks + [u.tx] else u.marks,
       polls := if Rem(u.tx, ss) == ss - 1 then u.polls + 1 else u.polls, tx := u.tx + 1)
  }

  /** It keeps which requests ask for completions, and only waits for one of a posted request. */
  lemma FormUniKeeps(u: Unicasts, ss: nat)
    requires UniInv(u, ss) && u.tx + 2 < u.posted + ss
    ensures UniInv(FormUni(u, ss), ss)
    ensures Rem(u.tx, ss) == ss - 1 ==> u.polls < |u.marks| && u.marks[u.polls] < u.posted
  {
    QuotRemSucc(u.tx, ss);
    Divided(u.tx, ss);
  }

  class UnicastQueue {
    const wrNum: nat
    const ss: nat
    var tx: nat
    ghost var posted: nat
    ghost var marks: seq<nat>
    ghost var polls: nat

    ghost function View(): Unicasts
      reads this
    {
      Unicasts(tx, posted, marks, polls)
    }

    ghost predicate Valid()
      reads this
    {
      ss == UniBatch(wrNum) && UniInv(View(), ss) && tx <= posted + wrNum
    }

    constructor (wrNum: nat)
      ensures Valid() && View() == Unicasts(0, 0, [], 0) && this.wrNum == wrNum
    {
      this.wrNum := wrNum;
      ss := if wrNum + 2 > 127 then wrNum + 2 else 127;
      tx, posted, marks, polls := 0, 0, [], 0;
    }

    /** Waits for the next completion; its request must have been posted. */
    ghost method PollCompletion()
      requires polls < |marks| && marks[polls] < posted
      modifies this`polls
      ensures polls == old(polls) + 1
    {
      polls := polls + 1;
    }

    /** `selective_signaling_for_unicast`, for one more request of the batch being formed. */
    method Signal() returns (flagged: bool)
      requires Valid() && tx < posted + wrNum
      modifies this`tx, this`marks, this`polls
      ensures Valid() && tx == old(tx) + 1 && posted == old(posted)
      ensures flagged <==> Rem(old(tx), ss) == 0
      ensures marks == old(marks) + if flagged then [old(tx)] else []
    {
      FormUniKeeps(View(), ss);
      var r := Mod(tx, ss);
      flagged := r == 0;
      if flagged { marks := marks + [tx]; }
      if r == ss - 1 { PollCompletion(); }
      tx := tx + 1;
    }

    /** Posts what has been formed. The queue has room for it. */
    method Post()
      requires Valid()
      modifies this`posted
      ensures Valid() && posted == tx
      ensures UniUnconfirmed(View()) <= 2 * ss - 2 < UniDepth(wrNum)
    {
      posted := tx;
      UniBound(View(), ss);
    }

    /** A batch of n requests, at most one for each work request. */
    method SendBatch(n: nat)
      requires Valid() && posted == tx && n <= wrNum
      modifies this
      ensures Valid() && posted == tx == old(tx) + n
      ensures UniUnconfirmed(View()) <= 2 * ss - 2 < UniDepth(wrNum)
    {
      for i := 0 to n
        invariant Valid() && posted == old(tx) && tx == posted + i
      {
        var _ := Signal();
      }
      Post();
    }
  }

  lemma UniBound(u: Unicasts, ss: nat)
    requires UniInv(u, ss) && u.posted == u.tx
    ensures UniUnconfirmed(u) <= 2 * ss - 2
  {
    var n := Quot(u.tx, ss);
    Divided(u.tx, ss);
    if n > 0 { assert u.marks[n - 1] == Times(n - 1, ss); }
  }

  /* --------------------------- Broadcasts --------------------------- */

  /** `MAX_BCAST_BATCH`. */
  const BATCH: nat := 4

  /** `ss_batch` and `send_q_depth` for R recipients. */
  function SsBatch(R: nat): (ss: nat)
    requires R > 0
    ensures ss >= BATCH + 2
  {
    if 127 / R > BATCH + 2 then 127 / R else BATCH + 2
  }

  function Depth(R: nat): nat
    requires R > 0
  {
    2 * SsBatch(R) * R + 10
  }

  /** A request that asks for a completion: the first one, `at`, of the batch from broadcast `head` on. */
  datatype Mark = Mark(head: nat, at: nat)

  /**
    The send queue of a broadcast queue pair: broadcasts formed, those before the batch being
    formed, messages posted, requests that ask for a completion, completions waited for.
  */
  datatype Queue = Queue(tx: nat, base: nat, msgs: nat, marks: seq<Mark>, polls: nat)

  /** A posted batch: n broadcasts, each to a machines. */
  datatype Batch = Batch(n: nat, a: nat)

  predicate Allowed(R: nat, b: Batch) {
    0 < b.n <= BATCH && 0 < b.a <= R
  }

  /** The signalling part of `form_bcast_links`: the flag goes on the first message of the batch. */
  function Form(q: Queue, ss: nat): Queue
    requires ss > 0
  {
    var q1 := if Rem(q.tx, ss) == 0 then q.(marks := q.marks + [Mark(q.base, q.msgs)]) else q;
    var q2 := q1.(tx := q1.tx + 1);
    if Rem(q2.tx, ss) == ss - 1 then q2.(polls := q2.polls + 1) else q2
  }

  /** Whether forming one more broadcast waits for a completion, and of which request. */
  predicate Waits(q: Queue, ss: nat)
    requires ss > 0
  {
    Rem(q.tx + 1, ss) == ss - 1
  }

  predicate WaitEnds(q: Queue) {
    q.polls < |q.marks| && q.marks[q.polls].at < q.msgs
  }

  function FormAll(q: Queue, ss: nat, n: nat): Queue
    requires ss > 0
  {
    if n == 0 then q else Form(FormAll(q, ss, n - 1), ss)
  }

  function PostAll(q: Queue, a: nat): Queue
    requires q.base <= q.tx
  {
    q.(base := q.tx, msgs := q.msgs + Times(q.tx - q.base, a))
  }

  function Unconfirmed(q: Queue): int {
    q.msgs - if 0 < q.polls <= |q.marks| then q.marks[q.polls - 1].at + 1 else 0
  }

  /** Mark k is for broadcast k * ss, in a batch that starts at most three before it. */
  ghost predicate MarkOk(q: Queue, R: nat, ss: nat, k: nat)
    requires k < |q.marks|
  {
    var m := q.marks[k];
    && m.head <= Times(k, ss) < m.head + BATCH && m.head <= q.base && m.at <= q.msgs
    && q.base - m.head <= q.msgs - m.at <= Times(q.base - m.head, R)
  }

  ghost predicate Inv(q: Queue, R: nat, ss: nat) {
    && ss >= BATCH + 2 && R > 0 && q.base <= q.tx <= q.base + BATCH
    && q.polls == Quot(q.tx + 1, ss)
    && |q.marks| == Quot(q.tx, ss) + (if Rem(q.tx, ss) == 0 then 0 else 1)
    && q.base <= q.msgs <= Times(q.base, R)
    && forall k {:trigger MarkOk(q, R, ss, k)} :: 0 <= k < |q.marks| ==> MarkOk(q, R, ss, k)
  }

  /** Forming a broadcast keeps the invariant, and never waits for a request not yet posted. */
  lemma FormKeeps(q: Queue, R: nat, ss: nat)
    requires Inv(q, R, ss) && q.tx < q.base + BATCH
    ensures Inv(Form(q, ss), R, ss)
    ensures Waits(q, ss) ==> WaitEnds(q)
  {
    QuotRemSucc(q.tx, ss);
    QuotRemSucc(q.tx + 1, ss);
    var q' := Form(q, ss);
    var n := Quot(q.tx, ss);
    Divided(q.tx, ss);
    forall k | 0 <= k < |q'.marks| ensures MarkOk(q', R, ss, k) {
      if k < |q.marks| { assert MarkOk(q, R, ss, k); }
    }
    if Waits(q, ss) {
      assert Rem(q.tx, ss) == ss - 2 && q.polls == n;
      assert MarkOk(q, R, ss, n);
    }
  }

  /** The last completion waited for confirms all but a bounded number of messages. */
  lemma BoundHolds(q: Queue, R: nat, ss: nat)
    requires Inv(q, R, ss) && q.base == q.tx
    ensures Unconfirmed(q) <= Times(2 * ss + 1, R) - 1
  {
    var n := Quot(q.tx + 1, ss);
    Divided(q.tx + 1, ss);
    QuotRemSucc(q.tx, ss);
    if n > 0 {
      assert MarkOk(q, R, ss, n - 1);
      var head := q.marks[n - 1].head;
      assert q.tx - head <= 2 * ss + 1;
      TimesMonotone(q.tx - head, 2 * ss + 1, R);
    } else {
      TimesMonotone(q.tx, 2 * ss, R);
    }
  }

  lemma TimesMonotone(j: nat, k: nat, d: nat)
    requires j <= k
    ensures Times(j, d) <= Times(k, d)
  {
    TimesAdd(j, k - j, d);
  }

  /** Posting the batch keeps the invariant. */
  lemma PostKeeps(q: Queue, R: nat, ss: nat, a: nat)
    requires Inv(q, R, ss) && 0 < a <= R
    ensures Inv(PostAll(q, a), R, ss)
  {
    var q' := PostAll(q, a);
    var n := q.tx - q.base;
    TimesGrows(n, a, R);
    TimesAdd(q.base, n, R);
    TimesGrows(n, 1, a);
    forall k | 0 <= k < |q'.marks| ensures MarkOk(q', R, ss, k) {
      assert MarkOk(q, R, ss, k);
      TimesAdd(q.base - q.marks[k].head, n, R);
    }
  }

  lemma {:induction false} FormAllKeeps(q: Queue, R: nat, ss: nat, n: nat)
    requires Inv(q, R, ss) && q.base == q.tx && n <= BATCH
    ensures var q' := FormAll(q, ss, n);
            Inv(q', R, ss) && q'.tx == q.tx + n && q'.base == q.base && q'.msgs == q.msgs
  {
    if n > 0 {
      FormAllKeeps(q, R, ss, n - 1);
      FormKeeps(FormAll(q, ss, n - 1), R, ss);
    }
  }

  /* --------------------------- Whole runs --------------------------- */

  const EMPTY := Queue(0, 0, 0, [], 0)

  ghost predicate AllAllowed(R: nat, bs: seq<Batch>) {
    forall i :: 0 <= i < |bs| ==> Allowed(R, bs[i])
  }

  /** Forms and posts one batch after the other. */
  function Run(q: Queue, ss: nat, bs: seq<Batch>): Queue
    requires ss > 0
  {
    if bs == [] then q
    else
      var b, before := bs[|bs| - 1], Run(q, ss, bs[..|bs| - 1]);
      var formed := FormAll(before, ss, b.n);
      if formed.base <= formed.tx then PostAll(formed, b.a) else formed
  }

  lemma {:induction false} RunKeeps(q: Queue, R: nat, ss: nat, bs: seq<Batch>)
    requires Inv(q, R, ss) && q.base == q.tx && AllAllowed(R, bs)
    ensures var q' := Run(q, ss, bs); Inv(q', R, ss) && q'.base == q'.tx
  {
    if bs != [] {
      RunKeeps(q, R, ss, bs[..|bs| - 1]);
      var b, before := bs[|bs| - 1], Run(q, ss, bs[..|bs| - 1]);
      FormAllKeeps(before, R, ss, b.n);
      PostKeeps(FormAll(before, ss, b.n), R, ss, b.a);
    }
  }

  lemma EmptyHolds(R: nat, ss: nat)
    requires R > 0 && ss >= BATCH + 2
    ensures Inv(EMPTY, R, ss)
  {
  }

  /**
    In every run, a worker only ever waits for a completion of a request it has posted, while
    it forms the n-th broadcast of its next batch.
  */
  lemma NeverWaitsForever(R: nat, ss: nat, bs: seq<Batch>, n: nat)
    requires R > 0 && ss >= BATCH + 2 && AllAllowed(R, bs) && n < BATCH
    ensures var q := FormAll(Run(EMPTY, ss, bs), ss, n);
            Waits(q, ss) ==> WaitEnds(q)
  {
    EmptyHolds(R, ss);
    RunKeeps(EMPTY, R, ss, bs);
    FormAllKeeps(Run(EMPTY, ss, bs), R, ss, n);
    FormKeeps(FormAll(Run(EMPTY, ss, bs), ss, n), R, ss);
  }

  /* --------------------------- The depth of the send queue --------------------------- */

  /** All messages went to R machines, and the requests of q still stand. */
  ghost predicate FullAfter(q: Queue, q': Queue, R: nat, n: nat) {
    q'.base == q'.tx == q.tx + n && q'.msgs == Times(q'.tx, R) && q.marks <= q'.marks
  }

  lemma {:induction false} FormAppends(q: Queue, ss: nat, n: nat)
    requires ss > 0
    ensures q.marks <= FormAll(q, ss, n).marks
    ensures FormAll(q, ss, n).(marks := q.marks, polls := q.polls) == q.(tx := q.tx + n)
  {
    if n > 0 { FormAppends(q, ss, n - 1); }
  }

  lemma BatchFull(q: Queue, R: nat, ss: nat, n: nat)
    requires ss > 0 && q.base == q.tx && q.msgs == Times(q.tx, R)
    ensures FullAfter(q, Run(q, ss, [Batch(n, R)]), R, n)
  {
    FormAppends(q, ss, n);
    TimesAdd(q.tx, n, R);
    assert Run(q, ss, [Batch(n, R)][..0]) == q;
  }

  lemma {:induction false} RunOn(q: Queue, ss: nat, first: seq<Batch>, bs: seq<Batch>)
    requires ss > 0
    ensures Run(q, ss, first + bs) == Run(Run(q, ss, first), ss, bs)
  {
    if bs == [] {
      assert first + bs == first;
    } else {
      RunOn(q, ss, first, bs[..|bs| - 1]);
      assert (first + bs)[..|first + bs| - 1] == first + bs[..|bs| - 1];
    }
  }

  function Singles(n: nat, R: nat): seq<Batch> {
    if n == 0 then [] else Singles(n - 1, R) + [Batch(1, R)]
  }

  lemma {:induction false} SinglesFull(q: Queue, R: nat, ss: nat, n: nat)
    requires ss > 0 && R > 0 && q.base == q.tx && q.msgs == Times(q.tx, R)
    ensures AllAllowed(R, Singles(n, R)) && FullAfter(q, Run(q, ss, Singles(n, R)), R, n)
  {
    if n > 0 {
      SinglesFull(q, R, ss, n - 1);
      BatchFull(Run(q, ss, Singles(n - 1, R)), R, ss, 1);
      RunOn(q, ss, Singles(n - 1, R), [Batch(1, R)]);
    }
  }

  /** A batch that ends with broadcast ss: its first request asks for the second completion. */
  lemma LateMark(q: Queue, R: nat, ss: nat)
    requires Inv(q, R, ss) && q.base == q.tx == ss - 3
    ensures var q' := FormAll(q, ss, BATCH); |q'.marks| == 2 && q'.marks[1] == Mark(q.tx, q.msgs)
  {
    FormAllKeeps(q, R, ss, 3);
    var q3 := FormAll(q, ss, 3);
    QuotRemAre(ss, ss, 1, 0);
    assert FormAll(q, ss, BATCH) == Form(q3, ss);
  }

  function Worst(R: nat, ss: nat): seq<Batch>
    requires ss >= BATCH + 2
  {
    Singles(ss - 3, R) + [Batch(BATCH, R)] + Singles(2 * ss - 3, R)
  }

  /** After the batch that ends with broadcast ss. */
  lemma WorstStart(R: nat, ss: nat)
    requires R > 0 && ss >= BATCH + 2
    ensures var q := Run(EMPTY, ss, Singles(ss - 3, R) + [Batch(BATCH, R)]);
            && AllAllowed(R, Singles(ss - 3, R))
            && q.base == q.tx == ss + 1 && q.msgs == Times(q.tx, R)
            && |q.marks| == 2 && q.marks[1] == Mark(ss - 3, Times(ss - 3, R))
  {
    var first := Singles(ss - 3, R);
    EmptyHolds(R, ss);
    SinglesFull(EMPTY, R, ss, ss - 3);
    RunKeeps(EMPTY, R, ss, first);
    var q1 := Run(EMPTY, ss, first);
    LateMark(q1, R, ss);
    BatchFull(q1, R, ss, BATCH);
    RunOn(EMPTY, ss, first, [Batch(BATCH, R)]);
    assert [Batch(BATCH, R)][..0] == [];
  }

  /** The bound is reached. */
  lemma WorstRun(R: nat, ss: nat)
    requires R > 0 && ss >= BATCH + 2
    ensures AllAllowed(R, Worst(R, ss))
    ensures Unconfirmed(Run(EMPTY, ss, Worst(R, ss))) == Times(2 * ss + 1, R) - 1
  {
    var start, last := Singles(ss - 3, R) + [Batch(BATCH, R)], Singles(2 * ss - 3, R);
    WorstStart(R, ss);
    var q2, q3 := Run(EMPTY, ss, start), Run(EMPTY, ss, Worst(R, ss));
    SinglesFull(q2, R, ss, 2 * ss - 3);
    RunOn(EMPTY, ss, start, last);
    assert AllAllowed(R, Worst(R, ss));
    WorstPolls(R, ss);
    assert q3.marks[1] == q2.marks[1];
    TimesAdd(ss - 3, 2 * ss + 1, R);
  }

  lemma WorstPolls(R: nat, ss: nat)
    requires R > 0 && ss >= BATCH + 2 && AllAllowed(R, Worst(R, ss))
    requires Run(EMPTY, ss, Worst(R, ss)).tx == 3 * ss - 2
    ensures Run(EMPTY, ss, Worst(R, ss)).polls == 2
  {
    EmptyHolds(R, ss);
    RunKeeps(EMPTY, R, ss, Worst(R, ss));
    assert Times(2, ss) == Times(1, ss) + ss == ss + ss;
    QuotRemAre(3 * ss - 1, ss, 2, ss - 1);
  }

  lemma DepthIs(R: nat)
    requires R > 0
    ensures Times(2 * SsBatch(R) + 1, R) - 1 == Depth(R) + R - 11
  {
    var ss := SsBatch(R);
    TimesIs(2 * ss + 1, R);
    assert Times(2 * ss + 1, R) == 2 * ss * R + R;
  }

  lemma DepthBound(q: Queue, R: nat)
    requires R > 0 && Inv(q, R, SsBatch(R)) && q.base == q.tx
    ensures R <= 11 ==> Unconfirmed(q) <= Depth(R)
  {
    BoundHolds(q, R, SsBatch(R));
    DepthIs(R);
  }

  /**
    The send queue is deep enough for every run of broadcasts in batches of up to BATCH
    exactly when there are at most eleven recipients.
  */
  lemma DepthSuffices(R: nat)
    requires R > 0
    ensures (forall bs :: AllAllowed(R, bs) ==> Unconfirmed(Run(EMPTY, SsBatch(R), bs)) <= Depth(R)) <==> R <= 11
  {
    var ss := SsBatch(R);
    EmptyHolds(R, ss);
    if R <= 11 {
      forall bs | AllAllowed(R, bs) ensures Unconfirmed(Run(EMPTY, ss, bs)) <= Depth(R) {
        RunKeeps(EMPTY, R, ss, bs);
        DepthBound(Run(EMPTY, ss, bs), R);
      }
    } else {
      DepthIs(R);
      WorstRun(R, ss);
    }
  }

  class BroadcastQueue {
    const R: nat
    const ss: nat
    var brTx: nat
    ghost var q: Queue

    ghost predicate Valid()
      reads this
    {
      R > 0 && ss == SsBatch(R) && q.tx == brTx && Inv(q, R, ss)
    }

    constructor (R: nat)
      requires R > 0
      ensures Valid() && this.R == R && q == EMPTY
    {
      this.R := R;
      ss := if 127 / R > BATCH + 2 then 127 / R else BATCH + 2;
      brTx, q := 0, EMPTY;
      EmptyHolds(R, SsBatch(R));
    }

    /** Waits for the next completion; its request must have been posted. */
    ghost method PollCompletion()
      requires WaitEnds(q)
      modifies this`q
      ensures q == old(q).(polls := old(q.polls) + 1)
    {
      q := q.(polls := q.polls + 1);
    }

    /** The counting part of `form_bcast_links`, for one more broadcast of the batch. */
    method FormBcast() returns (flagged: bool)
      requires Valid() && q.tx < q.base + BATCH
      modifies this
      ensures Valid() && q == Form(old(q), ss) && (flagged <==> Rem(old(brTx), ss) == 0)
    {
      FormKeeps(q, R, ss);
      var r := Mod(brTx, ss);
      flagged := r == 0;
      if flagged { q := q.(marks := q.marks + [Mark(q.base, q.msgs)]); }
      brTx := brTx + 1;
      q := q.(tx := brTx);
      r := Mod(brTx, ss);
      if r == ss - 1 { PollCompletion(); }
    }

    /** Posts the batch, to `active` machines each. With up to eleven recipients it fits. */
    method Post(active: nat)
      requires Valid() && 0 < active <= R
      modifies this`q
      ensures Valid() && q == PostAll(old(q), active) && (R <= 11 ==> Unconfirmed(q) <= Depth(R))
    {
      PostKeeps(q, R, ss, active);
      q := PostAll(q, active);
      DepthBound(q, R);
    }
  }
}
