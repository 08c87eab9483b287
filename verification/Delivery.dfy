/**
  How the two views of a broadcast meet: a worker takes the credits of all its batches at the
  end, while in the network each batch pays when it is posted. Both come to the same.
*/
module Delivery {
  import opened Broadcasts
  import opened Credits
  import opened CreditsTheorems
  import opened Quorum

  ghost predicate Agrees(c: Config, st: State, me: nat, credits: seq<uint16>, r: nat)
    requires Shaped(c, st) && me < c.n && |credits| == c.n && r < c.n
  {
    credits[r] == st.to[r][me].credits
  }

  /** The credits that worker `me` keeps in its array are those of the network. */
  ghost predicate Keeps(c: Config, st: State, me: nat, credits: seq<uint16>) {
    && Shaped(c, st) && me < c.n && |credits| == c.n
    && forall r {:trigger Agrees(c, st, me, credits, r)} :: 0 <= r < c.n && r != me ==> Agrees(c, st, me, credits, r)
  }

  ghost predicate CanPay(c: Config, me: nat, active: seq<nat>, credits: seq<uint16>, n: nat) {
    |credits| == c.n && forall m :: m in active ==> m < c.n && m != me && n <= credits[m]
  }

  function Machines(active: seq<nat>): set<nat> {
    set m | m in active
  }

  /** The network's steps for `sent` broadcasts, one for each posted batch. */
  function BatchSteps(me: nat, active: seq<nat>, batch: nat, sent: nat): seq<Step>
    requires batch > 0
  {
    if sent == 0 then []
    else
      var n := if sent < batch then sent else batch;
      [Broadcast(me, Machines(active), n)] + BatchSteps(me, active, batch, sent - n)
  }

  /** There is one step for each batch that the worker posts, of as many broadcasts as the batch has. */
  lemma {:induction false} StepsAreBatches(me: nat, rem: nat, active: seq<nat>, batch: nat, sent: nat, i: nat)
    requires batch > 0 && |active| > 0
    ensures var steps, batches := BatchSteps(me, Mids(me, active), batch, sent), Batches(rem, active, batch, sent);
            && |steps| == |batches|
            && (i < |steps| ==>
                  && steps[i].Broadcast? && steps[i] == Broadcast(me, Machines(Mids(me, active)), steps[i].k)
                  && batches[i] == Order(rem, active, steps[i].k, 0, 0))
    decreases sent
  {
    if sent > 0 {
      var n := if sent < batch then sent else batch;
      StepsAreBatches(me, rem, active, batch, sent - n, if i > 0 then i - 1 else 0);
    }
  }

  /** Each batch can be sent when it comes, and they lead to st'. */
  ghost predicate Posts(c: Config, st: State, me: nat, active: seq<nat>, batch: nat, sent: nat, st': State)
    requires Shaped(c, st) && batch > 0
    decreases sent
  {
    if sent == 0 then st' == st
    else
      var n := if sent < batch then sent else batch;
      && CanSend(c, st, me, Machines(active), n)
      && Posts(c, Next(c, st, Broadcast(me, Machines(active), n)), me, active, batch, sent - n, st')
  }

  lemma PostsFirst(c: Config, st: State, me: nat, active: seq<nat>, batch: nat, sent: nat, st': State)
    requires Shaped(c, st) && batch > 0 && sent > 0 && Posts(c, st, me, active, batch, sent, st')
    ensures var n := if sent < batch then sent else batch;
            Posts(c, Next(c, st, Broadcast(me, Machines(active), n)), me, active, batch, sent - n, st')
  {
  }

  lemma RunFirst(c: Config, st: State, me: nat, active: seq<nat>, batch: nat, sent: nat)
    requires Shaped(c, st) && batch > 0 && sent > 0
    ensures var n := if sent < batch then sent else batch;
            Run(c, st, BatchSteps(me, active, batch, sent))
            == Run(c, Next(c, st, Broadcast(me, Machines(active), n)), BatchSteps(me, active, batch, sent - n))
  {
    var n := if sent < batch then sent else batch;
    RunOn(c, st, Broadcast(me, Machines(active), n), BatchSteps(me, active, batch, sent - n));
  }

  lemma {:induction false} PostsIsRun(c: Config, st: State, me: nat, active: seq<nat>, batch: nat, sent: nat, st': State)
    requires Shaped(c, st) && batch > 0 && Posts(c, st, me, active, batch, sent, st')
    ensures Run(c, st, BatchSteps(me, active, batch, sent)) == st'
    decreases sent
  {
    if sent > 0 {
      var n := if sent < batch then sent else batch;
      PostsFirst(c, st, me, active, batch, sent, st');
      var st1 := Next(c, st, Broadcast(me, Machines(active), n));
      PostsIsRun(c, st1, me, active, batch, sent - n, st');
      RunFirst(c, st, me, active, batch, sent);
    }
  }

  /** Every active machine has n credits from the sender. */
  ghost predicate Affords(c: Config, st: State, me: nat, active: seq<nat>, n: nat)
    requires Shaped(c, st) && me < c.n
  {
    forall m {:trigger m in active} :: m in active ==> m < c.n && m != me && n <= st.to[m][me].credits
  }

  lemma AffordsOne(c: Config, st: State, me: nat, active: seq<nat>, n: nat, k: nat)
    requires Shaped(c, st) && me < c.n && Affords(c, st, me, active, n + k)
    ensures CanSend(c, st, me, Machines(active), n)
    ensures Affords(c, Next(c, st, Broadcast(me, Machines(active), n)), me, active, k)
  {
  }

  lemma PostsMore(c: Config, st: State, me: nat, active: seq<nat>, batch: nat, sent: nat, st': State)
    requires Shaped(c, st) && batch > 0 && sent > 0
    requires var n := if sent < batch then sent else batch;
             && CanSend(c, st, me, Machines(active), n)
             && Posts(c, Next(c, st, Broadcast(me, Machines(active), n)), me, active, batch, sent - n, st')
    ensures Posts(c, st, me, active, batch, sent, st')
  {
  }

  /** Sending within the least active credits is enabled batch by batch. */
  lemma {:induction false} BatchesCanBeSent(c: Config, st: State, me: nat, active: seq<nat>, batch: nat, sent: nat)
      returns (st': State)
    requires Shaped(c, st) && me < c.n && batch > 0 && Affords(c, st, me, active, sent)
    ensures Posts(c, st, me, active, batch, sent, st')
    decreases sent
  {
    st' := st;
    if sent > 0 {
      var n := if sent < batch then sent else batch;
      AffordsOne(c, st, me, active, n, sent - n);
      st' := BatchesCanBeSent(c, Next(c, st, Broadcast(me, Machines(active), n)), me, active, batch, sent - n);
      PostsMore(c, st, me, active, batch, sent, st');
    }
  }

  /** Together the batches cost each active machine a credit for each broadcast, which is then on its way. */
  lemma {:induction false} PostsPay(c: Config, st: State, me: nat, active: seq<nat>, batch: nat, sent: nat,
                                    st': State, r: nat)
    requires Shaped(c, st) && batch > 0 && Posts(c, st, me, active, batch, sent, st') && me < c.n && r < c.n
    ensures Shaped(c, st') && st'.to[r][me].flight == st.to[r][me].flight + if r in active then sent else 0
    ensures st'.to[r][me].credits == st.to[r][me].credits - if r in active then sent else 0
    decreases sent
  {
    if sent > 0 {
      var n := if sent < batch then sent else batch;
      PostsPay(c, Next(c, st, Broadcast(me, Machines(active), n)), me, active, batch, sent - n, st', r);
    }
  }

  /**
    What a worker sends is a run of the network, of one enabled step for each batch. It puts the
    messages on their way and leaves the credits that the worker has after paying once for all.
  */
  lemma SendingPaysOnce(c: Config, st: State, me: nat, active: seq<nat>, batch: nat,
                        credits: seq<uint16>, sent: nat, credits': seq<uint16>, r: nat)
    requires batch > 0 && Keeps(c, st, me, credits) && CanPay(c, me, active, credits, sent) && r < c.n
    requires Spent(active, credits, sent, credits')
    ensures var st' := Run(c, st, BatchSteps(me, active, batch, sent));
            && Posts(c, st, me, active, batch, sent, st') && Keeps(c, st', me, credits')
            && st'.to[r][me].flight == st.to[r][me].flight + if r in active then sent else 0
  {
    forall m | m in active ensures m < c.n && m != me && sent <= st.to[m][me].credits {
      assert Agrees(c, st, me, credits, m);
    }
    var st' := BatchesCanBeSent(c, st, me, active, batch, sent);
    PostsIsRun(c, st, me, active, batch, sent, st');
    PostsPay(c, st, me, active, batch, sent, st', r);
    forall q | 0 <= q < c.n && q != me ensures Agrees(c, st', me, credits', q) {
      assert Agrees(c, st, me, credits, q);
      PostsPay(c, st, me, active, batch, sent, st', q);
    }
  }
}
