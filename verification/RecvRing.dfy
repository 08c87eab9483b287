/**
  The receive ring of a queue pair: receives are posted that name the slots of a buffer in
  turn, the hardware fills posted receives in order, and the worker handles the messages from
  a pull pointer that only moves when a message is handled. A handler may refuse a message,
  and then it is offered again at the next poll. Arrivals interleave with everything.
*/
module RecvRing {
  import opened Rings

  /**
    `posted` is posted_recvs; `completed` and `polled` are those of the poll going on, if
    `polling`; `kept` is completed_but_not_polled. The rest is history: the slots named by
    receives, the messages arrived, how many of them the completion queue has shown, the
    messages handled, and the slots they were read from.
  */
  datatype Ring<M> = Ring(
    buf: seq<M>, pushPtr: nat, posted: nat, pullPtr: nat, kept: nat,
    polling: bool, completed: nat, polled: nat,
    named: seq<nat>, arrived: seq<M>, shown: nat, handled: seq<M>, readFrom: seq<nat>)

  /** A poll is shown at most n new completions. */
  datatype Step<M> = Post | Arrive(m: M) | BeginPoll(n: nat) | HandleOne | EndPoll

  predicate Shaped<M>(g: Ring<M>) {
    |g.buf| > 0 && g.pushPtr < |g.buf| && g.pullPtr < |g.buf|
  }

  /* --------------------------- Steps --------------------------- */

  /** One receive of `post_recvs_with_recv_info`, while fewer than wr are posted. */
  function PostStep<M>(g: Ring<M>, wr: nat): Ring<M>
    requires Shaped(g)
  {
    if g.polling || g.posted >= wr then g
    else
      g.(named := g.named + [g.pushPtr], pushPtr := ModIncr(g.pushPtr, |g.buf|), posted := g.posted + 1)
  }

  /** The hardware puts the message where the next posted receive says; without one it is dropped. */
  function ArriveStep<M>(g: Ring<M>, m: M): Ring<M>
    requires Shaped(g)
  {
    if |g.arrived| >= |g.named| || g.named[|g.arrived|] >= |g.buf| then g
    else g.(buf := g.buf[g.named[|g.arrived|] := m], arrived := g.arrived + [m])
  }

  /** `find_how_many_messages_can_be_polled`: new completions, and those kept from before. */
  function BeginPollStep<M>(g: Ring<M>, n: nat): Ring<M>
    requires Shaped(g)
  {
    if g.polling || g.shown + n > |g.arrived| then g
    else g.(polling := true, shown := g.shown + n, completed := n + g.kept, polled := 0, kept := 0)
  }

  /** The handler accepts the message at the pull pointer. */
  function HandleStep<M>(g: Ring<M>): Ring<M>
    requires Shaped(g)
  {
    if !g.polling || g.polled >= g.completed then g
    else
      g.(handled := g.handled + [g.buf[g.pullPtr]], readFrom := g.readFrom + [g.pullPtr],
         pullPtr := ModIncr(g.pullPtr, |g.buf|), polled := g.polled + 1)
  }

  /** The poll ends: all messages are handled, or the handler refused one. */
  function EndPollStep<M>(g: Ring<M>): Ring<M>
    requires Shaped(g)
  {
    if !g.polling || g.polled > g.completed || g.polled > g.posted then g
    else g.(polling := false, kept := g.completed - g.polled, posted := g.posted - g.polled)
  }

  function Next<M>(g: Ring<M>, wr: nat, s: Step<M>): (g': Ring<M>)
    requires Shaped(g)
    ensures Shaped(g')
  {
    match s
    case Post => PostStep(g, wr)
    case Arrive(m) => ArriveStep(g, m)
    case BeginPoll(n) => BeginPollStep(g, n)
    case HandleOne => HandleStep(g)
    case EndPoll => EndPollStep(g)
  }

  function Init<M>(buf: seq<M>): Ring<M> {
    Ring(buf, 0, 0, 0, 0, false, 0, 0, [], [], 0, [], [])
  }

  function Run<M>(g: Ring<M>, wr: nat, steps: seq<Step<M>>): (g': Ring<M>)
    requires Shaped(g)
    ensures Shaped(g')
  {
    if steps == [] then g else Next(Run(g, wr, steps[..|steps| - 1]), wr, steps[|steps| - 1])
  }

  /* --------------------------- The invariant --------------------------- */

  /** The receive at distance i from the first unhandled one, and its message if it has arrived. */
  ghost predicate ReceiveOk<M>(g: Ring<M>, i: nat)
    requires Shaped(g) && i < |g.named| - |g.handled| <= |g.buf|
  {
    var s, k := Idx(g.pullPtr, i, |g.buf|), |g.handled| + i;
    g.named[k] == s && (k < |g.arrived| ==> g.buf[s] == g.arrived[k])
  }

  /** Receives posted and not handled; `posted` lags behind while a poll goes on. */
  ghost predicate CountsOk<M>(g: Ring<M>, wr: nat) {
    && wr <= |g.buf| && |g.handled| <= g.shown <= |g.arrived| <= |g.named|
    && (if g.polling then g.kept == 0 && g.shown == |g.handled| + g.completed - g.polled && g.polled <= g.completed
        else g.shown == |g.handled| + g.kept)
    && g.posted == |g.named| - |g.handled| + (if g.polling then g.polled else 0)
    && g.posted <= wr
  }

  ghost predicate Inv<M>(g: Ring<M>, wr: nat) {
    && Shaped(g) && CountsOk(g, wr)
    && g.pushPtr == Idx(g.pullPtr, |g.named| - |g.handled|, |g.buf|)
    && (forall i {:trigger ReceiveOk(g, i)} :: 0 <= i < |g.named| - |g.handled| ==> ReceiveOk(g, i))
    && g.handled <= g.arrived && g.readFrom <= g.named && |g.readFrom| == |g.handled|
  }

  lemma PostKeeps<M>(g: Ring<M>, wr: nat)
    requires Inv(g, wr)
    ensures Inv(PostStep(g, wr), wr)
  {
    var g' := PostStep(g, wr);
    forall i | 0 <= i < |g'.named| - |g'.handled| ensures ReceiveOk(g', i) {
      if i < |g.named| - |g.handled| { assert ReceiveOk(g, i); }
    }
  }

  lemma ArriveKeeps<M>(g: Ring<M>, wr: nat, m: M)
    requires Inv(g, wr)
    ensures Inv(ArriveStep(g, m), wr)
  {
    var g' := ArriveStep(g, m);
    if g' != g {
      assert ReceiveOk(g, |g.arrived| - |g.handled|);
      forall i | 0 <= i < |g'.named| - |g'.handled| ensures ReceiveOk(g', i) {
        assert ReceiveOk(g, i);
      }
    }
  }

  lemma BeginPollKeeps<M>(g: Ring<M>, wr: nat, n: nat)
    requires Inv(g, wr)
    ensures Inv(BeginPollStep(g, n), wr)
  {
    var g' := BeginPollStep(g, n);
    forall i | 0 <= i < |g'.named| - |g'.handled| ensures ReceiveOk(g', i) {
      assert ReceiveOk(g, i);
    }
  }

  lemma HandleKeeps<M>(g: Ring<M>, wr: nat)
    requires Inv(g, wr)
    ensures Inv(HandleStep(g), wr)
  {
    var g' := HandleStep(g);
    if g' != g {
      assert ReceiveOk(g, 0);
      forall i | 0 <= i < |g'.named| - |g'.handled| ensures ReceiveOk(g', i) {
        assert ReceiveOk(g, i + 1);
      }
    }
  }

  lemma EndPollKeeps<M>(g: Ring<M>, wr: nat)
    requires Inv(g, wr)
    ensures Inv(EndPollStep(g), wr)
    ensures g.polling ==> !EndPollStep(g).polling
  {
    var g' := EndPollStep(g);
    forall i | 0 <= i < |g'.named| - |g'.handled| ensures ReceiveOk(g', i) {
      assert ReceiveOk(g, i);
    }
  }

  lemma {:induction false} RunKeepsInv<M>(g: Ring<M>, wr: nat, steps: seq<Step<M>>)
    requires Inv(g, wr)
    ensures Inv(Run(g, wr, steps), wr)
  {
    if steps != [] {
      RunKeepsInv(g, wr, steps[..|steps| - 1]);
      var before := Run(g, wr, steps[..|steps| - 1]);
      match steps[|steps| - 1]
      case Post => PostKeeps(before, wr);
      case Arrive(m) => ArriveKeeps(before, wr, m);
      case BeginPoll(n) => BeginPollKeeps(before, wr, n);
      case HandleOne => HandleKeeps(before, wr);
      case EndPoll => EndPollKeeps(before, wr);
    }
  }

  /* --------------------------- Theorems --------------------------- */

  /**
    In every run, messages are handled in order of arrival without a gap or a repeat, and the
    k-th one is read from the slot that the k-th receive named.
  */
  lemma HandledInOrder<M>(buf: seq<M>, wr: nat, steps: seq<Step<M>>)
    requires 0 < wr <= |buf|
    ensures var g := Run(Init(buf), wr, steps);
            g.handled <= g.arrived && g.readFrom <= g.named && |g.readFrom| == |g.handled|
  {
    RunKeepsInv(Init(buf), wr, steps);
  }

  /** In every run, a new receive never names a slot that an unhandled one names. */
  lemma NeverReposted<M>(buf: seq<M>, wr: nat, steps: seq<Step<M>>, k: nat)
    requires 0 < wr <= |buf|
    requires var g := Run(Init(buf), wr, steps);
             !g.polling && g.posted < wr && |g.handled| <= k < |g.named|
    ensures var g := Run(Init(buf), wr, steps); g.pushPtr != g.named[k]
  {
    RunKeepsInv(Init(buf), wr, steps);
    var g := Run(Init(buf), wr, steps);
    KeepsBuf(Init(buf), wr, steps);
    assert ReceiveOk(g, k - |g.handled|);
  }

  lemma {:induction false} KeepsBuf<M>(g: Ring<M>, wr: nat, steps: seq<Step<M>>)
    requires Shaped(g)
    ensures |Run(g, wr, steps).buf| == |g.buf|
  {
    if steps != [] { KeepsBuf(g, wr, steps[..|steps| - 1]); }
  }

  /** In every run, what the completion queue has not shown, and what was kept, is within wr. */
  lemma CompletionsFit<M>(buf: seq<M>, wr: nat, steps: seq<Step<M>>)
    requires 0 < wr <= |buf|
    ensures var g := Run(Init(buf), wr, steps);
            && g.shown <= |g.arrived| && |g.handled| <= |g.arrived|
            && |g.arrived| - g.shown + (if g.polling then g.completed else g.kept) <= wr
  {
    RunKeepsInv(Init(buf), wr, steps);
  }

  /* --------------------------- The queue pair --------------------------- */

  class QueuePair<M> {
    const wr: nat            // recv_wr_num
    const buf: array<M>
    var pushPtr: nat
    var posted: nat
    var pullPtr: nat
    var kept: nat
    ghost var polling: bool
    var completed: nat
    var polled: nat
    /** The device's side: the slots named by receives, and the messages that came. */
    var named: seq<nat>
    var arrived: seq<M>
    ghost var shown: nat
    ghost var handled: seq<M>
    ghost var readFrom: seq<nat>

    ghost function View(): Ring<M>
      reads this, buf
    {
      Ring(buf[..], pushPtr, posted, pullPtr, kept, polling, completed, polled,
           named, arrived, shown, handled, readFrom)
    }

    ghost predicate Valid()
      reads this, buf
    {
      Inv(View(), wr) && !polling
    }

    constructor (wr: nat, slots: nat, m: M)
      requires 0 < wr <= slots
      ensures Valid() && this.wr == wr && buf.Length == slots && View() == Init(buf[..]) && fresh(buf)
    {
      this.wr := wr;
      buf := new M[slots](i => m);
      pushPtr, posted, pullPtr, kept := 0, 0, 0, 0;
      polling, completed, polled, shown := false, 0, 0, 0;
      named, arrived, handled, readFrom := [], [], [], [];
    }

    method PostOne()
      requires Valid() && posted < wr
      modifies this`pushPtr, this`posted, this`named
      ensures Valid() && View() == PostStep(old(View()), wr)
    {
      PostKeeps(View(), wr);
      named := named + [pushPtr];
      pushPtr := ModIncr(pushPtr, buf.Length);
      posted := posted + 1;
    }

    /** `ctx_refill_recvs`: afterwards wr receives are posted. */
    method Refill()
      requires Valid()
      modifies this`pushPtr, this`posted, this`named
      ensures Valid() && posted == wr
      ensures old(named) <= named && |named| == |old(named)| + (wr - old(posted))
    {
      while posted < wr
        invariant Valid() && old(named) <= named && |named| == |old(named)| + (posted - old(posted))
        invariant old(posted) <= posted <= wr && handled == old(handled)
      {
        PostOne();
      }
    }

    /** A message arrives; there is a receive for it. */
    method Arrival(m: M)
      requires Valid() && |arrived| < |named|
      modifies this`arrived, buf
      ensures Valid() && View() == ArriveStep(old(View()), m) && arrived == old(arrived) + [m]
    {
      ArriveKeeps(View(), wr, m);
      assert ReceiveOk(View(), |arrived| - |handled|);
      buf[named[|arrived|]] := m;
      arrived := arrived + [m];
    }

    /** The handler takes the message at the pull pointer. */
    method Handle() returns (m: M)
      requires Inv(View(), wr) && polling && polled < completed
      modifies this`handled, this`readFrom, this`pullPtr, this`polled
      ensures Inv(View(), wr) && View() == HandleStep(old(View())) && m == arrived[|old(handled)|]
    {
      HandleKeeps(View(), wr);
      m := buf[pullPtr];
      assert ReceiveOk(View(), 0);
      handled := handled + [m];
      readFrom := readFrom + [pullPtr];
      pullPtr := ModIncr(pullPtr, buf.Length);
      polled := polled + 1;
    }

    /** `find_how_many_messages_can_be_polled`, shown n new completions. */
    method StartPoll(n: nat)
      requires Valid() && shown + n <= |arrived|
      modifies this`polling, this`shown, this`completed, this`polled, this`kept
      ensures Inv(View(), wr) && View() == BeginPollStep(old(View()), n)
    {
      BeginPollKeeps(View(), wr, n);
      polling, shown, completed, polled, kept := true, shown + n, n + kept, 0, 0;
    }

    /** The polling loop: the handler refuses after `accept` messages. */
    method HandleSome(accept: nat) returns (got: seq<M>)
      requires Inv(View(), wr) && polling && polled == 0
      modifies this`handled, this`readFrom, this`pullPtr, this`polled
      ensures Inv(View(), wr) && handled == old(handled) + got
      ensures |got| == polled == if accept < completed then accept else completed
    {
      got := [];
      while polled < completed
        invariant Inv(View(), wr) && |got| == polled <= accept && polled <= completed
        invariant handled == old(handled) + got
      {
        if polled == accept { break; }
        var m := Handle();
        got := got + [m];
      }
    }

    method FinishPoll()
      requires Inv(View(), wr) && polling
      modifies this`polling, this`kept, this`posted
      ensures Valid() && View() == EndPollStep(old(View()))
      ensures kept == completed - polled && posted == old(posted) - polled
    {
      EndPollKeeps(View(), wr);
      kept := completed - polled;
      posted := posted - polled;
      polling := false;
    }

    /**
      `ctx_poll_incoming_messages`, shown n new completions: the handler gets the messages in
      order of arrival, those it refused before first, until it refuses after `accept` of them.
    */
    method Poll(n: nat, accept: nat) returns (got: seq<M>)
      requires Valid() && shown + n <= |arrived|
      modifies this`polling, this`shown, this`completed, this`polled, this`kept, this`posted
      modifies this`handled, this`readFrom, this`pullPtr
      ensures Valid() && n <= wr && shown == old(shown) + n
      ensures handled == old(handled) + got
      ensures |got| == if accept < n + old(kept) then accept else n + old(kept)
      ensures kept == n + old(kept) - |got| && posted == old(posted) - |got|
    {
      StartPoll(n);
      got := HandleSome(accept);
      FinishPoll();
    }
  }
}
