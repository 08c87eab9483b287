/** What holds of the queues over whole runs, for any sessions and any interleaving. */
module MsQueueTheorems {
  import opened Common
  import opened MsQueue
  import opened MsQueueProofs

  /** After set-up: one dummy per queue, one held node per session, counters at zero. */
  ghost predicate Init(st: State) {
    && Domains(st.mem)
    && QueuesSetUp(st.mem)
    && (forall s {:trigger InitSession(st.mem, s, st.sess[s])} :: s in st.sess ==> InitSession(st.mem, s, st.sess[s]))
    && Places(st.mem, st.sess)
    && st.origin == Contents(st.mem) && st.log == []
  }

  ghost predicate QueuesSetUp(m: Store) {
    forall q {:trigger InitQueue(m, q)} :: q in m.chain ==> InitQueue(m, q)
  }

  ghost predicate InitQueue(m: Store, q: nat)
    requires q in m.chain
  {
    var d := Load(m.head, q).next;
    && m.chain[q] == [d] && d in m.ptr && d in m.place && m.place[d] == InQueue(q)
    && Load(m.tail, q) == Ptr(d, 0) && Load(m.head, q) == Ptr(d, 0) && m.ptr[d] == Ptr(NULL, 1)
  }

  ghost predicate InitSession(m: Store, s: nat, x: Session) {
    && x.pc == WriteBody && x.queue in m.chain && x.ptr == Ptr(NULL, 0)
    && x.owned in m.place && m.place[x.owned] == HeldBy(s) && Load(m.ptr, x.owned) == Ptr(NULL, 0)
  }

  lemma InitHolds(st: State)
    requires Init(st)
    ensures Inv(st)
  {
    forall q | q in st.mem.chain ensures ChainOk(st.mem, q) { assert InitQueue(st.mem, q); }
    forall s | s in st.sess ensures SessOk(st.mem, s, st.sess[s]) {
      assert InitSession(st.mem, s, st.sess[s]);
    }
    forall q | q in st.mem.chain ensures |st.mem.chain[q]| == 1 + |Owing(st.sess, q)| {
      assert InitQueue(st.mem, q);
      forall s | s in st.sess ensures Owns(st.sess[s].pc) { assert InitSession(st.mem, s, st.sess[s]); }
      assert Owing(st.sess, q) == {};
    }
  }

  /** A move of a run: which session steps, and what its client supplies. */
  datatype Move = Move(s: nat, choice: Choice)

  predicate Enabled(st: State, mv: Move) {
    mv.s in st.sess && mv.choice.queue in st.mem.chain
  }

  /** A run is any interleaving of the sessions from a state after set-up. */
  ghost predicate Run(trace: seq<State>, moves: seq<Move>) {
    && |trace| == |moves| + 1
    && Init(trace[0])
    && forall i :: 0 <= i < |moves| ==>
         Enabled(trace[i], moves[i]) && trace[i + 1] == Next(trace[i], moves[i].s, moves[i].choice)
  }

  /** The state after these moves, one after the other. */
  function Played(st: State, moves: seq<Move>): State {
    if moves == [] then st
    else
      var before, mv := Played(st, moves[..|moves| - 1]), moves[|moves| - 1];
      if mv.s in before.sess then Next(before, mv.s, mv.choice) else before
  }

  lemma PlayedMore(st: State, moves: seq<Move>, i: nat)
    requires i < |moves| && moves[i].s in Played(st, moves[..i]).sess
    ensures Played(st, moves[..i + 1]) == Next(Played(st, moves[..i]), moves[i].s, moves[i].choice)
  {
    assert moves[..i + 1][..i] == moves[..i];
  }

  lemma StepKeepsOrigin(st: State, s: nat, ch: Choice)
    requires s in st.sess
    ensures Next(st, s, ch).origin == st.origin
  {
  }

  lemma {:induction false} RunKeepsInv(trace: seq<State>, moves: seq<Move>, k: nat)
    requires Run(trace, moves) && k < |trace|
    ensures Inv(trace[k]) && trace[k].origin == trace[0].origin
  {
    if k == 0 {
      InitHolds(trace[0]);
    } else {
      RunKeepsInv(trace, moves, k - 1);
      assert trace[k] == Next(trace[k - 1], moves[k - 1].s, moves[k - 1].choice);
      StepKeepsInv(trace[k - 1], moves[k - 1].s, moves[k - 1].choice);
      StepKeepsOrigin(trace[k - 1], moves[k - 1].s, moves[k - 1].choice);
    }
  }

  /* --------------------------- The queue in the store --------------------------- */

  /** Where the stored pointers lead. */
  function Nexts(ptr: map<nat, Ptr>): map<nat, nat> {
    map n | n in ptr :: ptr[n].next
  }

  /** The nodes of queue q that the store itself leads to: at most all of them. */
  function NodesOf(m: Store, q: nat): seq<nat> {
    Follow(Nexts(m.ptr), Load(m.head, q).next, |m.ptr|)
  }

  /** Following the stored pointers from the head gives the chain, node by node. */
  lemma ChainIsInStore(st: State, q: nat)
    requires Inv(st) && q in st.mem.chain
    ensures NodesOf(st.mem, q) == st.mem.chain[q]
  {
    var m := st.mem;
    assert ChainOk(m, q);
    DistinctFits(m.chain[q], m.ptr.Keys);
    assert |m.ptr.Keys| == |m.ptr|;
    FollowChain(Nexts(m.ptr), m.chain[q], |m.ptr|);
  }

  /* --------------------------- Main results --------------------------- */

  /**
    First in, first out over whole runs: whatever was dequeued from q, followed by what the
    store still holds, is what q held at the start followed by whatever was enqueued. Items
    carry the body the enqueuer wrote and the body the dequeuer read.
  */
  lemma FifoOverRuns(trace: seq<State>, moves: seq<Move>, k: nat, q: nat)
    requires Run(trace, moves) && k < |trace| && q in trace[0].origin
    ensures var st := trace[k];
            DequeuedOn(st.log, q) + Items(NodesOf(st.mem, q), st.mem.body)
            == trace[0].origin[q] + EnqueuedOn(st.log, q)
  {
    RunKeepsInv(trace, moves, k);
    LegalLogIsFifo(trace[0].origin, trace[k].log, q);
    ChainIsInStore(trace[k], q);
  }

  /** Where a step of session s takes effect: at a link swap or a head swap that succeeds. */
  function EventOf(st: State, s: nat): Option<Event>
    requires s in st.sess
  {
    var x := st.sess[s];
    if Links(st, s) then
      Some(Enqueued(x.queue, Item(x.owned, x.body)))
    else if Swings(st, s) then
      Some(Dequeued(x.queue, Item(x.head.next, x.body)))
    else None
  }

  lemma LinkRefines(st: State, s: nat)
    requires Inv(st) && Links(st, s)
    ensures var x, st' := st.sess[s], StepLinkCas(st, s); var e := Enqueued(x.queue, Item(x.owned, x.body));
            && Allowed(Contents(st.mem), e) && st'.log == st.log + [e]
            && Contents(st'.mem) == Apply(Contents(st.mem), e)
  {
    var x := st.sess[s];
    assert SessOk(st.mem, s, x);
    LinkAppends(st.mem, x.queue, x.tail.next, x.owned, x.last.counter + 1, x.body);
  }

  lemma HeadRefines(st: State, s: nat, ch: Choice)
    requires Inv(st) && Swings(st, s) && ch.queue in st.mem.chain
    ensures var x, st' := st.sess[s], StepHeadCas(st, s, ch); var e := Dequeued(x.queue, Item(x.head.next, x.body));
            && Allowed(Contents(st.mem), e) && st'.log == st.log + [e]
            && Contents(st'.mem) == Apply(Contents(st.mem), e)
  {
    var x := st.sess[s];
    HeadSucceeds(st, s);
    SwingRemoves(st.mem, x.queue, x.head.next, Ptr(x.ptr.next, x.head.counter + 1), s, x.body);
  }

  lemma OtherStepsLogNothing(st: State, s: nat, ch: Choice)
    requires s in st.sess && EventOf(st, s) == None
    ensures Next(st, s, ch).log == st.log && Next(st, s, ch).origin == st.origin
  {
  }

  lemma LogSaysContents(st: State, st': State)
    requires Inv(st) && Inv(st') && st'.log == st.log && st'.origin == st.origin
    ensures Contents(st'.mem) == Contents(st.mem)
  {
    assert Replays(st.mem, st.origin, st.log) && Replays(st'.mem, st.origin, st.log);
  }

  /**
    A link swap that succeeds enqueues the owned node with the body written for it, a head swap
    that succeeds dequeues the node the head was on with the body read from it, and any other
    step leaves the sequential queues alone.
  */
  lemma StepRefines(st: State, s: nat, ch: Choice)
    requires Inv(st) && s in st.sess && ch.queue in st.mem.chain
    ensures var st' := Next(st, s, ch);
            match EventOf(st, s)
            case None => st'.log == st.log && Contents(st'.mem) == Contents(st.mem)
            case Some(e) =>
              && Allowed(Contents(st.mem), e) && st'.log == st.log + [e]
              && Contents(st'.mem) == Apply(Contents(st.mem), e)
  {
    if EventOf(st, s) == None {
      OtherStepsLogNothing(st, s, ch);
      StepKeepsInv(st, s, ch);
      LogSaysContents(st, Next(st, s, ch));
    } else if st.sess[s].pc == LinkCas {
      LinkRefines(st, s);
    } else {
      HeadRefines(st, s, ch);
    }
  }

  /** The head, the tail and the last node lie in order on one chain without repetition. */
  lemma QueueShape(st: State, q: nat)
    requires Inv(st) && q in st.mem.chain
    ensures var c := NodesOf(st.mem, q);
            && |c| >= 1 && Distinct(c)
            && Load(st.mem.head, q).next == c[0]
            && Load(st.mem.ptr, c[|c| - 1]).next == NULL
            && (Load(st.mem.tail, q).next == c[|c| - 1]
                || (|c| >= 2 && Load(st.mem.tail, q).next == c[|c| - 2]))
    ensures |NodesOf(st.mem, q)| == 1 + |Owing(st.sess, q)|
  {
    ChainIsInStore(st, q);
    assert ChainOk(st.mem, q);
  }

  /** Node n is reachable in queue q, or is the node that session s owns. */
  predicate IsAt(st: State, n: nat, p: Place) {
    match p
    case InQueue(q) => q in st.mem.head && n in NodesOf(st.mem, q)
    case HeldBy(s) => s in st.sess && Owns(st.sess[s].pc) && st.sess[s].owned == n
  }

  /** Chains and owned nodes partition all nodes: each is in exactly one place. */
  lemma NodesArePartitioned(st: State, n: nat, p: Place)
    requires Inv(st) && n in st.mem.ptr
    ensures IsAt(st, n, p) <==> p == st.mem.place[n]
  {
    var m := st.mem;
    assert PlaceOk(m, st.sess, n);
    if m.place[n].InQueue? { ChainIsInStore(st, m.place[n].q); }
    match p
    case InQueue(q) =>
      if q in m.head {
        ChainIsInStore(st, q);
        ChainNodesAreInQueue(m, q);
      }
    case HeldBy(s) => HeldNodesAreHeld(m, st.sess, s);
  }

  lemma ChainNodesAreInQueue(m: Store, q: nat)
    requires Chains(m) && q in m.chain
    ensures forall n :: n in m.chain[q] ==> n in m.place && m.place[n] == InQueue(q)
  {
    assert ChainOk(m, q);
  }

  lemma HeldNodesAreHeld(m: Store, sess: map<nat, Session>, s: nat)
    requires Sessions(m, sess)
    ensures s in sess && Owns(sess[s].pc) ==>
              sess[s].owned in m.place && m.place[sess[s].owned] == HeldBy(s)
  {
    if s in sess { assert SessOk(m, s, sess[s]); }
  }

  /**
    The counters stop stale swaps: a link swap succeeds only if its node was not reused since
    its pointer was read, is still the last of the session's queue, and has the tail on it.
  */
  lemma LinkSwapIsNotStale(st: State, s: nat)
    requires Inv(st) && s in st.sess && st.sess[s].pc == LinkCas
    requires Load(st.mem.ptr, st.sess[s].tail.next) == st.sess[s].last
    ensures var x, m := st.sess[s], st.mem; var n, c := x.tail.next, NodesOf(st.mem, st.sess[s].queue);
            && n in m.reuses && m.reuses[n] == x.epoch
            && |c| > 0 && c[|c| - 1] == n == Load(m.tail, x.queue).next
            && NodesOf(StepLinkCas(st, s).mem, x.queue) == c + [x.owned]
  {
    var x := st.sess[s];
    LinkSucceeds(st, s);
    KeepLinkCas(st, s);
    ChainIsInStore(st, x.queue);
    ChainIsInStore(StepLinkCas(st, s), x.queue);
  }

  /**
    A head swap that succeeds installs the true second node, never null, and hands the
    session the first node with the body its enqueuer wrote.
  */
  lemma HeadSwapIsNotStale(st: State, s: nat, ch: Choice)
    requires Inv(st) && s in st.sess && st.sess[s].pc == HeadCas && ch.queue in st.mem.chain
    requires Load(st.mem.head, st.sess[s].queue) == st.sess[s].head
    ensures var x, m := st.sess[s], st.mem; var st' := StepHeadCas(st, s, ch);
            var c := NodesOf(m, x.queue);
            && |c| >= 2 && NodesOf(st'.mem, x.queue) == c[1..]
            && Load(st'.mem.head, x.queue).next == c[1] != NULL
            && st'.sess[s].owned == c[0] && LoadBody(m.body, c[0]) == x.body
            && Load(m.ptr, c[0]).counter == st'.sess[s].ptr.counter
  {
    var x := st.sess[s];
    HeadSucceeds(st, s);
    KeepHeadCas(st, s, ch);
    ChainIsInStore(st, x.queue);
    ChainIsInStore(StepHeadCas(st, s, ch), x.queue);
  }

  /** The swap of the tail a session is about to try, if any: the node it would install. */
  function TailTarget(x: Session): nat {
    match x.pc
    case HelpCas => x.last.next
    case SwingCas => x.owned
    case DeqHelpCas => x.ptr.next
    case _ => NULL
  }

  /** A tail swap that succeeds moves the tail one node on: never to null, never past the end. */
  lemma TailSwapIsNotStale(st: State, s: nat)
    requires Inv(st) && s in st.sess
    requires st.sess[s].pc in {HelpCas, SwingCas, DeqHelpCas}
    requires Load(st.mem.tail, st.sess[s].queue) == st.sess[s].tail
    ensures var x := st.sess[s]; var c := NodesOf(st.mem, x.queue);
            && |c| >= 2 && x.tail.next == c[|c| - 2]
            && TailTarget(x) == c[|c| - 1] != NULL
  {
    var x, m := st.sess[s], st.mem;
    assert SessOk(m, s, x);
    TailHasSuccessor(m, x.queue, TailTarget(x));
    ChainIsInStore(st, x.queue);
  }

  lemma TailHasSuccessor(m: Store, q: nat, next: nat)
    requires q in m.chain && ChainOk(m, q) && next != NULL
    requires Load(m.ptr, Load(m.tail, q).next).next == next
    ensures var c := m.chain[q]; |c| >= 2 && Load(m.tail, q).next == c[|c| - 2] && next == c[|c| - 1]
  {
    var i := TailInChain(m, q);
  }
}
