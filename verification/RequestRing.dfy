/**
  The request array of one client session: a ring that the client pushes requests into and
  pulls completed ones from, and whose requests a worker picks up in order and completes in
  any order. Client and worker interleave, one access to a slot's state per step.
*/
module RequestRing {
  import opened Common
  import opened Rings

  datatype SlotState = Invalid | Active | InProgress | Completed

  /**
    `slots` and `reqs` are shared; then the client's pointers and counters, and the worker's
    pointer. The rest is history: the ticket of the request in each slot, the requests issued
    and picked up, and the tickets completed. The first ticket is 0.
  */
  datatype Ring<R> = Ring(
    slots: seq<SlotState>, reqs: seq<R>,
    cltPush: nat, cltPull: nat, lastPushed: nat, lastPulled: nat, wrkrPull: nat,
    tickets: seq<nat>, issued: seq<R>, picked: seq<R>, done: set<nat>)

  datatype Step<R> = Push(req: R) | Poll | PickUp | Complete(slot: nat)

  predicate Shaped<R>(g: Ring<R>) {
    && |g.slots| > 0 && |g.reqs| == |g.tickets| == |g.slots|
    && g.cltPush < |g.slots| && g.cltPull < |g.slots| && g.wrkrPull < |g.slots|
  }

  /* --------------------------- Steps --------------------------- */

  /** The client issues a request, if the next slot is free. */
  function PushStep<R>(g: Ring<R>, req: R): Ring<R>
    requires Shaped(g)
  {
    if g.slots[g.cltPush] != Invalid then g
    else
      g.(slots := g.slots[g.cltPush := Active], reqs := g.reqs[g.cltPush := req],
         tickets := g.tickets[g.cltPush := g.lastPushed], issued := g.issued + [req],
         cltPush := ModIncr(g.cltPush, |g.slots|), lastPushed := g.lastPushed + 1)
  }

  /** The client pulls the oldest request if it is complete: one call pulls at most one. */
  function PollStep<R>(g: Ring<R>): Ring<R>
    requires Shaped(g)
  {
    if g.slots[g.cltPull] != Completed then g
    else
      g.(slots := g.slots[g.cltPull := Invalid],
         cltPull := ModIncr(g.cltPull, |g.slots|), lastPulled := g.lastPulled + 1)
  }

  /** The worker picks up the next request. */
  function PickUpStep<R>(g: Ring<R>): Ring<R>
    requires Shaped(g)
  {
    if g.slots[g.wrkrPull] != Active then g
    else
      g.(slots := g.slots[g.wrkrPull := InProgress], picked := g.picked + [g.reqs[g.wrkrPull]],
         wrkrPull := ModIncr(g.wrkrPull, |g.slots|))
  }

  /** The worker completes the request in some slot it has picked up. */
  function CompleteStep<R>(g: Ring<R>, s: nat): Ring<R>
    requires Shaped(g)
  {
    if s >= |g.slots| || g.slots[s] != InProgress then g
    else g.(slots := g.slots[s := Completed], done := g.done + {g.tickets[s]})
  }

  function Next<R>(g: Ring<R>, s: Step<R>): (g': Ring<R>)
    requires Shaped(g)
    ensures Shaped(g')
  {
    match s
    case Push(req) => PushStep(g, req)
    case Poll => PollStep(g)
    case PickUp => PickUpStep(g)
    case Complete(slot) => CompleteStep(g, slot)
  }

  function Init<R>(n: nat, reqs: seq<R>): Ring<R>
    requires n > 0 && |reqs| == n
  {
    Ring(seq(n, i => Invalid), reqs, 0, 0, 0, 0, 0, seq(n, i => 0), [], [], {})
  }

  function Run<R>(g: Ring<R>, steps: seq<Step<R>>): (g': Ring<R>)
    requires Shaped(g)
    ensures Shaped(g')
  {
    if steps == [] then g else Next(Run(g, steps[..|steps| - 1]), steps[|steps| - 1])
  }

  /* --------------------------- The invariant --------------------------- */

  /** The slot at distance i from the pull pointer, with ticket lastPulled + i if it is in use. */
  ghost predicate SlotOk<R>(g: Ring<R>, i: nat)
    requires Shaped(g) && i < |g.slots|
  {
    var s, t := Idx(g.cltPull, i, |g.slots|), g.lastPulled + i;
    if t < g.lastPushed then
      && t < |g.issued| && g.reqs[s] == g.issued[t] && g.tickets[s] == t
      && (t in g.done <==> g.slots[s] == Completed)
      && g.slots[s] == if t >= |g.picked| then Active else if t in g.done then Completed else InProgress
    else g.slots[s] == Invalid && t !in g.done
  }

  ghost predicate AllSlotsOk<R>(g: Ring<R>)
    requires Shaped(g)
  {
    forall i {:trigger SlotOk(g, i)} :: 0 <= i < |g.slots| ==> SlotOk(g, i)
  }

  /** All requests pulled are complete, and no ticket not yet issued is. */
  ghost predicate DoneOk<R>(g: Ring<R>) {
    && (forall t: nat :: t < g.lastPulled ==> t in g.done)
    && (forall t: nat :: t in g.done ==> t < |g.picked|)
  }

  ghost predicate Inv<R>(g: Ring<R>) {
    && Shaped(g) && AllSlotsOk(g) && DoneOk(g)
    && |g.issued| == g.lastPushed && g.picked <= g.issued
    && g.lastPulled <= |g.picked| && g.lastPushed <= g.lastPulled + |g.slots|
    && g.cltPush == Idx(g.cltPull, g.lastPushed - g.lastPulled, |g.slots|)
    && g.wrkrPull == Idx(g.cltPull, |g.picked| - g.lastPulled, |g.slots|)
  }

  /* --------------------------- Proofs --------------------------- */

  lemma PushSlot<R>(g: Ring<R>, req: R, i: nat)
    requires Inv(g) && i < |g.slots|
    ensures SlotOk(PushStep(g, req), i)
  {
    var k := g.lastPushed - g.lastPulled;
    assert SlotOk(g, if k < |g.slots| then k else 0);
    assert SlotOk(g, i);
  }

  lemma PushKeeps<R>(g: Ring<R>, req: R)
    requires Inv(g)
    ensures Inv(PushStep(g, req))
  {
    var k := g.lastPushed - g.lastPulled;
    assert SlotOk(g, if k < |g.slots| then k else 0);
    forall i | 0 <= i < |g.slots| ensures SlotOk(PushStep(g, req), i) { PushSlot(g, req, i); }
  }

  lemma PollSlot<R>(g: Ring<R>, i: nat)
    requires Inv(g) && i < |g.slots|
    ensures SlotOk(PollStep(g), i)
  {
    assert SlotOk(g, 0) && SlotOk(g, i);
    assert SlotOk(g, if i + 1 < |g.slots| then i + 1 else 0);
  }

  lemma PollKeeps<R>(g: Ring<R>)
    requires Inv(g)
    ensures Inv(PollStep(g))
  {
    assert SlotOk(g, 0);
    forall i | 0 <= i < |g.slots| ensures SlotOk(PollStep(g), i) { PollSlot(g, i); }
  }

  lemma PickUpSlot<R>(g: Ring<R>, i: nat)
    requires Inv(g) && i < |g.slots|
    ensures SlotOk(PickUpStep(g), i)
  {
    var k := |g.picked| - g.lastPulled;
    assert SlotOk(g, if k < |g.slots| then k else 0);
    assert SlotOk(g, i);
  }

  lemma PickUpKeeps<R>(g: Ring<R>)
    requires Inv(g)
    ensures Inv(PickUpStep(g))
  {
    var k := |g.picked| - g.lastPulled;
    assert SlotOk(g, if k < |g.slots| then k else 0);
    forall i | 0 <= i < |g.slots| ensures SlotOk(PickUpStep(g), i) { PickUpSlot(g, i); }
  }

  /** The distance of slot s from the pull pointer. */
  function Distance(p: nat, s: nat, n: nat): (i: nat)
    requires p < n && s < n
    ensures i < n && Idx(p, i, n) == s
  {
    if s >= p then s - p else s + n - p
  }

  lemma CompleteSlot<R>(g: Ring<R>, s: nat, i: nat)
    requires Inv(g) && i < |g.slots|
    ensures SlotOk(CompleteStep(g, s), i)
  {
    if s < |g.slots| { assert SlotOk(g, Distance(g.cltPull, s, |g.slots|)); }
    assert SlotOk(g, i);
  }

  lemma CompleteKeeps<R>(g: Ring<R>, s: nat)
    requires Inv(g)
    ensures Inv(CompleteStep(g, s))
  {
    if s < |g.slots| { assert SlotOk(g, Distance(g.cltPull, s, |g.slots|)); }
    forall i | 0 <= i < |g.slots| ensures SlotOk(CompleteStep(g, s), i) { CompleteSlot(g, s, i); }
  }

  lemma {:induction false} RunKeepsInv<R>(g: Ring<R>, steps: seq<Step<R>>)
    requires Inv(g)
    ensures Inv(Run(g, steps))
  {
    if steps != [] {
      RunKeepsInv(g, steps[..|steps| - 1]);
      var before := Run(g, steps[..|steps| - 1]);
      match steps[|steps| - 1]
      case Push(req) => PushKeeps(before, req);
      case Poll => PollKeeps(before);
      case PickUp => PickUpKeeps(before);
      case Complete(slot) => CompleteKeeps(before, slot);
    }
  }

  lemma InitHolds<R>(n: nat, reqs: seq<R>)
    requires n > 0 && |reqs| == n
    ensures Inv(Init(n, reqs))
  {
    var g := Init(n, reqs);
    forall i | 0 <= i < n ensures SlotOk(g, i) {
    }
  }

  /* --------------------------- Theorems --------------------------- */

  /** In every run, requests are picked up once each, in the order they were issued. */
  lemma PickedInIssueOrder<R>(n: nat, reqs: seq<R>, steps: seq<Step<R>>)
    requires n > 0 && |reqs| == n
    ensures var g := Run(Init(n, reqs), steps); g.picked <= g.issued && |g.issued| == g.lastPushed
  {
    InitHolds(n, reqs);
    RunKeepsInv(Init(n, reqs), steps);
  }

  /** In every run, the next slot is taken exactly when the ring is full. */
  lemma TakenMeansFull<R>(n: nat, reqs: seq<R>, steps: seq<Step<R>>)
    requires n > 0 && |reqs| == n
    ensures var g := Run(Init(n, reqs), steps);
            && g.lastPulled <= g.lastPushed <= g.lastPulled + n
            && (g.slots[g.cltPush] != Invalid <==> g.lastPushed - g.lastPulled == n)
            && (g.cltPush == g.cltPull <==> g.lastPushed == g.lastPulled || g.lastPushed - g.lastPulled == n)
  {
    InitHolds(n, reqs);
    RunKeepsInv(Init(n, reqs), steps);
    SlotsKept(Init(n, reqs), steps);
    NextIsFree(Run(Init(n, reqs), steps));
  }

  /** The next slot is free unless the ring is full, and then it is the oldest request's. */
  lemma NextIsFree<R>(g: Ring<R>)
    requires Inv(g)
    ensures g.slots[g.cltPush] == Invalid <==> g.lastPushed - g.lastPulled < |g.slots|
  {
    var k := g.lastPushed - g.lastPulled;
    assert SlotOk(g, if k < |g.slots| then k else 0);
  }

  lemma {:induction false} SlotsKept<R>(g: Ring<R>, steps: seq<Step<R>>)
    requires Shaped(g)
    ensures |Run(g, steps).slots| == |g.slots|
  {
    if steps != [] { SlotsKept(g, steps[..|steps| - 1]); }
  }

  /** In every run, the active slots are the cyclic range from the worker's pointer to the client's. */
  lemma ActiveIsOneRange<R>(n: nat, reqs: seq<R>, steps: seq<Step<R>>, i: nat)
    requires n > 0 && |reqs| == n && i < n
    ensures var g := Run(Init(n, reqs), steps);
            && |g.slots| == n && g.lastPulled <= |g.picked| <= g.lastPulled + n
            && g.wrkrPull == Idx(g.cltPull, |g.picked| - g.lastPulled, n)
            && (g.slots[Idx(g.cltPull, i, n)] == Active
                <==> |g.picked| <= g.lastPulled + i < g.lastPushed)
  {
    InitHolds(n, reqs);
    RunKeepsInv(Init(n, reqs), steps);
    SlotsKept(Init(n, reqs), steps);
    ActiveMeansUnpicked(Run(Init(n, reqs), steps), i);
  }

  lemma ActiveMeansUnpicked<R>(g: Ring<R>, i: nat)
    requires Inv(g) && i < |g.slots|
    ensures g.slots[Idx(g.cltPull, i, |g.slots|)] == Active <==> |g.picked| <= g.lastPulled + i < g.lastPushed
  {
    assert SlotOk(g, i);
  }

  /**
    In every run, once the client has pulled as many requests as a ticket says, the request
    with that ticket and all earlier ones are complete.
  */
  lemma PolledMeansComplete<R>(n: nat, reqs: seq<R>, steps: seq<Step<R>>, target: nat, t: nat)
    requires n > 0 && |reqs| == n && t < target
    requires Run(Init(n, reqs), steps).lastPulled >= target
    ensures t in Run(Init(n, reqs), steps).done
  {
    InitHolds(n, reqs);
    RunKeepsInv(Init(n, reqs), steps);
  }

  /* --------------------------- How much one poll pulls --------------------------- */

  /** A step that the worker makes. */
  predicate OfWorker<R>(s: Step<R>) {
    s.PickUp? || s.Complete?
  }

  /** The worker neither takes nor frees a slot, and leaves what the client keeps alone. */
  lemma WorkerLeavesClient<R>(g: Ring<R>, s: Step<R>)
    requires Inv(g) && OfWorker(s)
    ensures var g' := Next(g, s);
            && Inv(g') && |g'.slots| == |g.slots|
            && g'.cltPush == g.cltPush && g'.cltPull == g.cltPull
            && g'.lastPushed == g.lastPushed && g'.lastPulled == g.lastPulled && g'.issued == g.issued
            && forall i :: 0 <= i < |g.slots| ==> (g'.slots[i] == Invalid <==> g.slots[i] == Invalid)
  {
    match s
    case PickUp => PickUpKeeps(g);
    case Complete(slot) => CompleteKeeps(g, slot);
  }

  predicate FrontIs<R>(g: Ring<R>, state: SlotState)
    requires Shaped(g)
  {
    g.slots[g.cltPull] == state
  }

  /** The oldest request is not complete before the first k of these steps have been made. */
  ghost predicate Waits<R>(g: Ring<R>, steps: seq<Step<R>>, k: nat)
    requires Shaped(g) && k <= |steps|
  {
    forall i {:trigger Run(g, steps[..i])} :: 0 <= i < k ==> !FrontIs(Run(g, steps[..i]), Completed)
  }

  lemma WaitsOn<R>(g: Ring<R>, steps: seq<Step<R>>, k: nat)
    requires Shaped(g) && k < |steps| && Waits(g, steps, k) && !FrontIs(Run(g, steps[..k]), Completed)
    ensures Waits(g, steps, k + 1) && Run(g, steps[..k + 1]) == Next(Run(g, steps[..k]), steps[k])
  {
    assert steps[..k + 1][..k] == steps[..k];
  }

  lemma {:induction false} WorkerRunLeavesClient<R>(g: Ring<R>, steps: seq<Step<R>>)
    requires Inv(g) && forall i :: 0 <= i < |steps| ==> OfWorker(steps[i])
    ensures var g' := Run(g, steps);
            && Inv(g') && |g'.slots| == |g.slots|
            && g'.cltPush == g.cltPush && g'.cltPull == g.cltPull
            && g'.lastPushed == g.lastPushed && g'.lastPulled == g.lastPulled && g'.issued == g.issued
            && forall i :: 0 <= i < |g.slots| ==> (g'.slots[i] == Invalid <==> g.slots[i] == Invalid)
  {
    if steps != [] {
      WorkerRunLeavesClient(g, steps[..|steps| - 1]);
      WorkerLeavesClient(Run(g, steps[..|steps| - 1]), steps[|steps| - 1]);
    }
  }

  /** Whatever the worker does meanwhile, the slot that a poll has freed stays free. */
  lemma FreedStaysFree<R>(g: Ring<R>, steps: seq<Step<R>>)
    requires Inv(g) && FrontIs(g, Completed) && forall i :: 0 <= i < |steps| ==> OfWorker(steps[i])
    ensures var g' := Run(PollStep(g), steps);
            |g'.slots| == |g.slots| && g'.slots[g.cltPull] == Invalid && g'.lastPulled == g.lastPulled + 1
  {
    PollKeeps(g);
    WorkerRunLeavesClient(PollStep(g), steps);
  }

  /** On a full ring, a poll frees the next slot exactly if the oldest request is complete. */
  lemma PollFreesPushSlot<R>(g: Ring<R>)
    requires Inv(g) && g.slots[g.cltPush] != Invalid
    ensures g.cltPush == g.cltPull && g.lastPushed - g.lastPulled == |g.slots|
    ensures PollStep(g).slots[g.cltPush] == Invalid <==> FrontIs(g, Completed)
  {
    NextIsFree(g);
  }

  /** One poll leaves no completed request in front exactly when at most one was there. */
  lemma PollDrains<R>(g: Ring<R>)
    requires Shaped(g)
    ensures var g', next := PollStep(g), ModIncr(g.cltPull, |g.slots|);
            g'.slots[g'.cltPull] != Completed <==>
            !(|g.slots| >= 2 && g.slots[g.cltPull] == Completed && g.slots[next] == Completed)
  {
    assert |g.slots| >= 2 ==> ModIncr(g.cltPull, |g.slots|) != g.cltPull;
  }

  function Polls<R>(k: nat): seq<Step<R>> {
    if k == 0 then [] else Polls(k - 1) + [Poll]
  }

  /** The slots of g after the first j from the pull pointer on have been freed. */
  ghost predicate Freed<R>(g: Ring<R>, g': Ring<R>, j: nat)
    requires Shaped(g) && Shaped(g')
  {
    && j <= |g.slots| == |g'.slots| && g'.cltPull == Idx(g.cltPull, j, |g.slots|)
    && g'.lastPulled == g.lastPulled + j
    && forall i :: 0 <= i < |g.slots| ==>
         g'.slots[Idx(g.cltPull, i, |g.slots|)] == if i < j then Invalid else g.slots[Idx(g.cltPull, i, |g.slots|)]
  }

  /** The first j slots from the pull pointer on are completed. */
  ghost predicate Leading<R>(g: Ring<R>, j: nat)
    requires Shaped(g)
  {
    j <= |g.slots| && forall i :: 0 <= i < j ==> g.slots[Idx(g.cltPull, i, |g.slots|)] == Completed
  }

  /** It takes a poll for each request: k polls pull the leading completed ones, but at most k. */
  lemma {:induction false} PollsPullOneEach<R>(g: Ring<R>, k: nat) returns (j: nat)
    requires Shaped(g)
    ensures j <= k && Freed(g, Run(g, Polls(k)), j) && Leading(g, j)
    ensures j < k ==> !Leading(g, j + 1)
  {
    if k == 0 {
      assert Run(g, Polls<R>(0)) == g;
      j := 0;
    } else {
      var before := PollsPullOneEach(g, k - 1);
      assert Polls<R>(k)[..|Polls<R>(k)| - 1] == Polls(k - 1);
      j := PollOneMore(g, Run(g, Polls(k - 1)), before);
    }
  }

  lemma PollOneMore<R>(g: Ring<R>, g1: Ring<R>, j: nat) returns (j': nat)
    requires Shaped(g) && Shaped(g1) && Freed(g, g1, j) && Leading(g, j)
    ensures j <= j' <= j + 1 && Freed(g, PollStep(g1), j') && Leading(g, j')
    ensures j' == j <==> !Leading(g, j + 1)
  {
    var n := |g.slots|;
    if j < n {
      assert g1.slots[Idx(g.cltPull, j, n)] == g.slots[Idx(g.cltPull, j, n)];
    } else {
      assert g1.slots[Idx(g.cltPull, 0, n)] == Invalid;
    }
    j' := if j < n && g.slots[Idx(g.cltPull, j, n)] == Completed then j + 1 else j;
  }

  /** With two completed requests, a poll that loops would pull both; this one leaves the second. */
  lemma PollLeavesCompleted<R>(r: R)
    ensures var steps := [Push(r), Push(r), PickUp, PickUp, Complete(0), Complete(1)];
            var g := Run(Init(2, [r, r]), steps);
            && g.slots == [Completed, Completed]
            && PollStep(g).slots == [Invalid, Completed] && PollStep(g).lastPulled == 1
  {
    var g := Init(2, [r, r]);
    var s: seq<Step<R>> := [Push(r), Push(r), PickUp, PickUp, Complete(0), Complete(1)];
    assert g.slots == [Invalid, Invalid] && Run(g, s[..0]) == g;
    assert s[..1][..0] == s[..0] && Run(g, s[..1]).slots == [Active, Invalid];
    assert s[..2][..1] == s[..1] && Run(g, s[..2]).slots == [Active, Active];
    assert s[..3][..2] == s[..2] && Run(g, s[..3]).slots == [InProgress, Active];
    assert s[..4][..3] == s[..3] && Run(g, s[..4]).slots == [InProgress, InProgress];
    assert s[..5][..4] == s[..4] && Run(g, s[..5]).slots == [Completed, InProgress];
    assert s[..6][..5] == s[..5] && s[..6] == s;
  }

  /* --------------------------- Completion in any order --------------------------- */

  /** The slot of a ticket that has been picked up and not pulled. */
  function SlotOfTicket<R>(g: Ring<R>, t: nat): (s: nat)
    requires Shaped(g) && g.lastPulled <= t < g.lastPulled + |g.slots|
    ensures s < |g.slots|
  {
    Idx(g.cltPull, t - g.lastPulled, |g.slots|)
  }

  /** Ticket t is with the worker. */
  ghost predicate AtWorker<R>(g: Ring<R>, t: nat) {
    g.lastPulled <= t < |g.picked| && t < g.lastPulled + |g.slots| && t !in g.done
  }

  /** Completing any request that is with the worker completes just that one. */
  lemma CompletesItsTicket<R>(g: Ring<R>, t: nat)
    requires Inv(g) && AtWorker(g, t)
    ensures var s := SlotOfTicket(g, t); var g' := Next(g, Complete(s));
            && g.slots[s] == InProgress && g.tickets[s] == t
            && g' == g.(slots := g.slots[s := Completed], done := g.done + {t}) && Inv(g')
  {
    assert SlotOk(g, t - g.lastPulled);
    CompleteKeeps(g, SlotOfTicket(g, t));
  }

  /** The ring after these tickets have been completed, one step for each. */
  ghost function CompletedAll<R>(g: Ring<R>, ts: seq<nat>): (g': Ring<R>)
    requires Shaped(g) && forall i :: 0 <= i < |ts| ==> AtWorker(g, ts[i])
    ensures Shaped(g')
  {
    if ts == [] then g
    else
      var t := ts[|ts| - 1];
      assert AtWorker(g, t);
      Next(CompletedAll(g, ts[..|ts| - 1]), Complete(SlotOfTicket(g, t)))
  }

  function Tickets(ts: seq<nat>): set<nat> {
    set t | t in ts
  }

  lemma TicketsSnoc(ts: seq<nat>)
    requires ts != [] && Distinct(ts)
    ensures var init, t := ts[..|ts| - 1], ts[|ts| - 1];
            Tickets(ts) == Tickets(init) + {t} && t !in Tickets(init) && Distinct(init)
  {
    assert ts == ts[..|ts| - 1] + [ts[|ts| - 1]];
  }

  /** Requests that are with the worker can be completed in any order, each by one step. */
  lemma {:induction false} CompleteInAnyOrder<R>(g: Ring<R>, ts: seq<nat>)
    requires Inv(g) && Distinct(ts) && forall i :: 0 <= i < |ts| ==> AtWorker(g, ts[i])
    ensures var g' := CompletedAll(g, ts);
            && Inv(g') && |g'.slots| == |g.slots| && g'.done == g.done + Tickets(ts)
            && g' == g.(slots := g'.slots, done := g'.done)
  {
    if ts == [] {
      assert Tickets(ts) == {};
    } else {
      var t := ts[|ts| - 1];
      TicketsSnoc(ts);
      CompleteInAnyOrder(g, ts[..|ts| - 1]);
      assert AtWorker(g, t);
      CompletesItsTicket(CompletedAll(g, ts[..|ts| - 1]), t);
    }
  }

  /* --------------------------- Every request can be finished --------------------------- */

  /** Steps until the oldest request can be pulled. */
  function FrontToGo<R>(g: Ring<R>): nat
    requires Shaped(g)
  {
    match g.slots[g.cltPull]
    case Active => 2
    case InProgress => 1
    case _ => 0
  }

  /** While a request is outstanding, the oldest one is picked up, completed or pulled by the next step. */
  lemma FrontMoves<R>(g: Ring<R>) returns (s: Step<R>)
    requires Inv(g) && g.lastPulled < g.lastPushed
    ensures var g' := Next(g, s);
            && Inv(g') && g'.lastPushed == g.lastPushed && g'.issued == g.issued
            && (if g.slots[g.cltPull] == Completed then g'.lastPulled == g.lastPulled + 1
                else g'.lastPulled == g.lastPulled && FrontToGo(g') < FrontToGo(g))
  {
    assert SlotOk(g, 0);
    match g.slots[g.cltPull]
    case Active =>
      PickUpKeeps(g);
      s := PickUp;
    case InProgress =>
      CompleteKeeps(g, g.cltPull);
      s := Complete(g.cltPull);
    case _ =>
      PollKeeps(g);
      s := Poll;
  }

  /** From any state of any run, all that was issued can be picked up, completed and pulled. */
  lemma {:induction false} AllCanBePulled<R>(g: Ring<R>) returns (steps: seq<Step<R>>)
    requires Inv(g)
    ensures var g' := Run(g, steps);
            Inv(g') && g'.issued == g.issued && g'.lastPulled == g'.lastPushed == g.lastPushed
    decreases g.lastPushed - g.lastPulled, FrontToGo(g)
  {
    steps := [];
    if g.lastPulled < g.lastPushed {
      var s := FrontMoves(g);
      var rest := AllCanBePulled(Next(g, s));
      RunOn(g, s, rest);
      steps := [s] + rest;
    }
  }

  lemma {:induction false} RunOn<R>(g: Ring<R>, s: Step<R>, steps: seq<Step<R>>)
    requires Shaped(g)
    ensures Run(g, [s] + steps) == Run(Next(g, s), steps)
  {
    if steps == [] {
      assert ([s] + steps)[..0] == [] && Run(g, []) == g;
    } else {
      var all, n := [s] + steps, |steps| - 1;
      RunOn(g, s, steps[..n]);
      assert all[..|all| - 1] == [s] + steps[..n] && all[|all| - 1] == steps[n];
    }
  }

  /* --------------------------- The session --------------------------- */

  class ClientSession<R> {
    const slots: array<SlotState>
    const reqs: array<R>
    var cltPush: nat
    var cltPull: nat
    var lastPushed: nat
    var lastPulled: nat
    var wrkrPull: nat
    ghost var tickets: seq<nat>
    ghost var issued: seq<R>
    ghost var picked: seq<R>
    ghost var done: set<nat>

    ghost function View(): Ring<R>
      reads this, slots, reqs
    {
      Ring(slots[..], reqs[..], cltPush, cltPull, lastPushed, lastPulled, wrkrPull, tickets, issued, picked, done)
    }

    ghost predicate Valid()
      reads this, slots, reqs
    {
      slots as object != reqs as object && Inv(View())
    }

    constructor (n: nat, r: R)
      requires n > 0
      ensures Valid() && slots.Length == n && issued == picked == [] && lastPushed == lastPulled == 0
      ensures fresh(slots) && fresh(reqs)
    {
      slots := new SlotState[n](i => Invalid);
      reqs := new R[n](i => r);
      cltPush, cltPull, lastPushed, lastPulled, wrkrPull := 0, 0, 0, 0, 0;
      tickets, issued, picked, done := seq(n, i => 0), [], [], {};
      new;
      assert View() == Init(n, reqs[..]);
      InitHolds(n, reqs[..]);
    }

    /** `poll`. The loop keeps looking at the slot where it started, so it runs at most once. */
    method PollOnce() returns (pulled: nat)
      requires Valid()
      modifies this`cltPull, this`lastPulled, slots
      ensures Valid() && View() == PollStep(old(View())) && pulled == lastPulled <= old(lastPulled) + 1
      ensures pulled > old(lastPulled) <==> old(slots[cltPull]) == Completed
    {
      PollKeeps(View());
      var pullPtr := cltPull;
      ghost var rounds := 0;
      while slots[pullPtr] == Completed
        invariant rounds <= 1 && View() == if rounds == 0 then old(View()) else PollStep(old(View()))
        invariant rounds == 1 ==> old(slots[cltPull]) == Completed && slots[pullPtr] == Invalid
        decreases 1 - rounds
      {
        slots[pullPtr] := Invalid;
        cltPull := ModIncr(cltPull, slots.Length);
        lastPulled := lastPulled + 1;
        rounds := rounds + 1;
      }
      pulled := lastPulled;
    }

    /** Issues a request into the free slot. */
    method Issue(req: R) returns (ticket: nat)
      requires Valid() && slots[cltPush] == Invalid
      modifies this`cltPush, this`lastPushed, this`tickets, this`issued, slots, reqs
      ensures Valid() && View() == PushStep(old(View()), req) && ticket == lastPushed
    {
      PushKeeps(View(), req);
      reqs[cltPush] := req;
      slots[cltPush] := Active;
      tickets, issued := tickets[cltPush := lastPushed], issued + [req];
      cltPush := ModIncr(cltPush, slots.Length);
      lastPushed := lastPushed + 1;
      ticket := lastPushed;
    }

    /** The worker takes the next request of the session, if there is one. */
    method PickUp() returns (req: Option<(nat, R)>)
      requires Valid()
      modifies this`wrkrPull, this`picked, slots
      ensures Valid() && View() == PickUpStep(old(View()))
      ensures req.None? <==> |old(picked)| == lastPushed == |issued|
      ensures req.Some? ==> |old(picked)| < |issued| && req.value == (old(wrkrPull), issued[|old(picked)|])
    {
      PickUpKeeps(View());
      ghost var k := |picked| - lastPulled;
      assert SlotOk(View(), if k < slots.Length then k else 0);
      if slots[wrkrPull] != Active { return None; }
      req := Some((wrkrPull, reqs[wrkrPull]));
      slots[wrkrPull] := InProgress;
      picked := picked + [reqs[wrkrPull]];
      wrkrPull := ModIncr(wrkrPull, slots.Length);
    }

    /** `signal_completion_to_client`, for a request in progress. */
    method SignalCompletion(s: nat)
      requires Valid() && s < slots.Length && slots[s] == InProgress
      modifies this`done, slots
      ensures Valid() && View() == CompleteStep(old(View()), s)
      ensures slots[..] == old(slots[..])[s := Completed]
      ensures tickets[s] !in old(done) && done == old(done) + {tickets[s]}
    {
      CompleteKeeps(View(), s);
      assert SlotOk(View(), Distance(cltPull, s, slots.Length));
      done := done + {tickets[s]};
      slots[s] := Completed;
    }

    method WorkerStep(s: Step<R>)
      requires Valid() && OfWorker(s)
      modifies this`wrkrPull, this`picked, this`done, slots
      ensures Valid() && View() == Next(old(View()), s)
    {
      if s.PickUp? {
        var _ := PickUp();
      } else if s.slot < slots.Length && slots[s.slot] == InProgress {
        SignalCompletion(s.slot);
      }
    }

    /** One step of the worker, and one poll. */
    method Round(s: Step<R>) returns (pulled: nat)
      requires Valid() && OfWorker(s)
      modifies this, slots
      ensures Valid() && pulled == lastPulled
      ensures var g := Next(old(View()), s);
              && g.lastPulled == old(lastPulled) && View() == PollStep(g)
              && (pulled > old(lastPulled) <==> FrontIs(g, Completed))
              && (pulled <= old(lastPulled) ==> View() == g)
    {
      WorkerLeavesClient(View(), s);
      WorkerStep(s);
      pulled := PollOnce();
    }

    /**
      `poll_one_req_blocking`, while the worker makes the given steps, one after each failed
      poll: it returns as soon as the oldest request is complete.
    */
    method PollOneBlocking(worker: seq<Step<R>>) returns (ok: bool, used: nat)
      requires Valid() && forall i :: 0 <= i < |worker| ==> OfWorker(worker[i])
      modifies this, slots
      ensures Valid() && used <= |worker| && (!ok ==> used == |worker|)
      ensures Waits(old(View()), worker, used)
      ensures ok <==> FrontIs(Run(old(View()), worker[..used]), Completed)
      ensures View() == PollStep(Run(old(View()), worker[..used]))
    {
      var largest := lastPulled;
      used := 0;
      assert worker[..0] == [];
      var pulled := PollOnce();
      while pulled <= largest && used < |worker|
        invariant Valid() && used <= |worker| && View() == PollStep(Run(old(View()), worker[..used]))
        invariant Waits(old(View()), worker, used)
        invariant pulled > largest <==> FrontIs(Run(old(View()), worker[..used]), Completed)
        invariant pulled <= largest ==> View() == Run(old(View()), worker[..used]) && lastPulled == largest
      {
        WaitsOn(old(View()), worker, used);
        pulled := Round(worker[used]);
        used := used + 1;
      }
      ok := pulled > largest;
    }

    /** Polls for the next slot of a full ring: once, and if that fails a strong access blocks. */
    method FreeSlot(strong: bool, worker: seq<Step<R>>) returns (ok: bool, used: nat)
      requires Valid() && slots[cltPush] != Invalid && forall i :: 0 <= i < |worker| ==> OfWorker(worker[i])
      modifies this, slots
      ensures Valid() && used <= |worker| && (!strong ==> used == 0) && (strong && !ok ==> used == |worker|)
      ensures Waits(old(View()), worker, used) && (ok <==> FrontIs(Run(old(View()), worker[..used]), Completed))
      ensures View() == PollStep(Run(old(View()), worker[..used]))
      ensures lastPushed == old(lastPushed) && issued == old(issued) && (ok <==> slots[cltPush] == Invalid)
    {
      assert worker[..0] == [];
      PollFreesPushSlot(View());
      var _ := PollOnce();
      ok, used := slots[cltPush] == Invalid, 0;
      if !ok && strong {
        ok, used := PollOneBlocking(worker);
        WorkerRunLeavesClient(old(View()), worker[..used]);
        PollFreesPushSlot(Run(old(View()), worker[..used]));
      }
    }

    /**
      `access_async`, while the worker makes the given steps. A weak access of a full ring whose
      oldest request is not complete gets no ticket; a strong one waits until it is, and is
      without a ticket only as long as the worker's steps have not completed it.
    */
    method AccessAsync(req: R, strong: bool, worker: seq<Step<R>>) returns (ticket: Option<nat>, used: nat)
      requires Valid() && forall i :: 0 <= i < |worker| ==> OfWorker(worker[i])
      modifies this, slots, reqs
      ensures Valid() && used <= |worker| && (!strong ==> used == 0)
      ensures old(lastPushed - lastPulled) < slots.Length ==>
                ticket.Some? && used == 0 && View() == PushStep(old(View()), req)
      ensures old(lastPushed - lastPulled) == slots.Length ==>
                var g := Run(old(View()), worker[..used]);
                && Waits(old(View()), worker, used) && (ticket.Some? <==> FrontIs(g, Completed))
                && View() == (if ticket.Some? then PushStep(PollStep(g), req) else g)
                && (ticket.None? && strong ==> used == |worker|)
      ensures ticket.Some? ==> ticket.value == lastPushed == old(lastPushed) + 1 && issued == old(issued) + [req]
    {
      NextIsFree(View());
      used := 0;
      if slots[cltPush] != Invalid {
        PollFreesPushSlot(View());
        var ok;
        ok, used := FreeSlot(strong, worker);
        if !ok { return None, used; }
      }
      var t := Issue(req);
      ticket := Some(t);
    }
  }
}
