/**
  What a session of the queues achieves: what it enqueues is what it was asked to, over whole
  runs, and a session that is left alone completes its enqueue and its dequeue from wherever
  it is.
*/
module MsQueueProgress {
  import opened Common
  import opened MsQueue
  import opened MsQueueProofs
  import opened MsQueueTheorems

  /* --------------------------- What is enqueued --------------------------- */

  /** The bytes of the last body that session s wrote in the first k moves, if any. */
  function LastWrite(trace: seq<State>, moves: seq<Move>, k: nat, s: nat): Option<seq<int>>
    requires k <= |moves| <= |trace|
  {
    if k == 0 then None
    else if moves[k - 1].s == s && s in trace[k - 1].sess && trace[k - 1].sess[s].pc == WriteBody then
      Some(moves[k - 1].choice.value)
    else LastWrite(trace, moves, k - 1, s)
  }

  /** Between writing the body of its node and linking it, a session keeps that body. */
  predicate Carries(x: Session, written: Option<seq<int>>) {
    Owns(x.pc) && x.pc != WriteBody ==> written.Some? && x.body == Body(x.owned, written.value)
  }

  lemma NextCarries(st: State, s: nat, ch: Choice, written: Option<seq<int>>)
    requires s in st.sess && Carries(st.sess[s], written)
    ensures s in Next(st, s, ch).sess
    ensures Carries(Next(st, s, ch).sess[s], if st.sess[s].pc == WriteBody then Some(ch.value) else written)
  {
  }

  lemma OthersStay(st: State, s: nat, ch: Choice, t: nat)
    requires s in st.sess && t != s
    ensures t in Next(st, s, ch).sess <==> t in st.sess
    ensures t in st.sess ==> Next(st, s, ch).sess[t] == st.sess[t]
  {
    match st.sess[s].pc
    case LinkCas => assert StepLinkCas(st, s).sess == st.sess[s := StepLinkCas(st, s).sess[s]];
    case HeadCas => assert StepHeadCas(st, s, ch).sess == st.sess[s := StepHeadCas(st, s, ch).sess[s]];
    case _ =>
  }

  lemma MoveCarries(st: State, mv: Move, t: nat, written: Option<seq<int>>)
    requires mv.s in st.sess && t in Next(st, mv.s, mv.choice).sess
    requires t in st.sess ==> Carries(st.sess[t], written)
    ensures t in st.sess
    ensures Carries(Next(st, mv.s, mv.choice).sess[t],
                    if mv.s == t && st.sess[t].pc == WriteBody then Some(mv.choice.value) else written)
  {
    if mv.s == t { NextCarries(st, t, mv.choice, written); } else { OthersStay(st, mv.s, mv.choice, t); }
  }

  lemma InitCarries(st: State, s: nat)
    requires Init(st) && s in st.sess
    ensures Carries(st.sess[s], None)
  {
    assert InitSession(st.mem, s, st.sess[s]);
  }

  lemma RunStep(trace: seq<State>, moves: seq<Move>, k: nat)
    requires Run(trace, moves) && k < |moves|
    ensures Enabled(trace[k], moves[k]) && trace[k + 1] == Next(trace[k], moves[k].s, moves[k].choice)
  {
  }

  lemma {:induction false} RunCarries(trace: seq<State>, moves: seq<Move>, k: nat, s: nat)
    requires Run(trace, moves) && k <= |moves| && s in trace[k].sess
    ensures Carries(trace[k].sess[s], LastWrite(trace, moves, k, s))
  {
    if k == 0 {
      InitCarries(trace[0], s);
    } else {
      RunStep(trace, moves, k - 1);
      if s in trace[k - 1].sess { RunCarries(trace, moves, k - 1, s); }
      MoveCarries(trace[k - 1], moves[k - 1], s, LastWrite(trace, moves, k - 1, s));
    }
  }

  /**
    In every run, a session enqueues the node it owns, with that node's id and the bytes it was
    given when it last wrote a body.
  */
  lemma EnqueuedIsWritten(trace: seq<State>, moves: seq<Move>, k: nat)
    requires Run(trace, moves) && k < |moves| && moves[k].s in trace[k].sess
    ensures var s := moves[k].s;
            match EventOf(trace[k], s)
            case Some(Enqueued(q, item)) =>
              && item.node == trace[k].sess[s].owned
              && LastWrite(trace, moves, k, s).Some?
              && item.body == Body(item.node, LastWrite(trace, moves, k, s).value)
            case _ => true
  {
    RunCarries(trace, moves, k, moves[k].s);
  }

  lemma RunStartsEmpty(trace: seq<State>, moves: seq<Move>)
    requires Run(trace, moves)
    ensures trace[0].log == []
  {
  }

  lemma NextLogs(st: State, s: nat, ch: Choice, i: nat)
    requires s in st.sess && i < |Next(st, s, ch).log|
    ensures if i < |st.log| then Next(st, s, ch).log[i] == st.log[i]
            else EventOf(st, s) == Some(Next(st, s, ch).log[i])
  {
  }

  /** Move j takes effect as event e. */
  predicate Makes(trace: seq<State>, moves: seq<Move>, j: nat, e: Event)
    requires j < |moves| && j < |trace|
  {
    moves[j].s in trace[j].sess && EventOf(trace[j], moves[j].s) == Some(e)
  }

  lemma MoveLogs(trace: seq<State>, moves: seq<Move>, k: nat, i: nat)
    requires Run(trace, moves) && k < |moves| && i < |trace[k + 1].log|
    ensures if i < |trace[k].log| then trace[k + 1].log[i] == trace[k].log[i]
            else Makes(trace, moves, k, trace[k + 1].log[i])
  {
    RunStep(trace, moves, k);
    NextLogs(trace[k], moves[k].s, moves[k].choice, i);
  }

  /** Every event in the log was made by some move of the run. */
  lemma {:induction false} LoggedByMove(trace: seq<State>, moves: seq<Move>, k: nat, i: nat) returns (j: nat)
    requires Run(trace, moves) && k < |trace| && i < |trace[k].log|
    ensures j < k && Makes(trace, moves, j, trace[k].log[i])
  {
    RunStartsEmpty(trace, moves);
    MoveLogs(trace, moves, k - 1, i);
    if i < |trace[k - 1].log| {
      j := LoggedByMove(trace, moves, k - 1, i);
    } else {
      j := k - 1;
    }
  }

  /**
    Over whole runs: every item in the log was enqueued by some move, and carries the id of its
    node and the bytes that the moving session was given when it last wrote a body.
  */
  lemma LoggedIsWritten(trace: seq<State>, moves: seq<Move>, k: nat, i: nat) returns (j: nat)
    requires Run(trace, moves) && k < |trace| && i < |trace[k].log| && trace[k].log[i].Enqueued?
    ensures var item := trace[k].log[i].item;
            && j < k && moves[j].s in trace[j].sess && item.node == trace[j].sess[moves[j].s].owned
            && item.body.nodeId == item.node
            && LastWrite(trace, moves, j, moves[j].s) == Some(item.body.value)
  {
    j := LoggedByMove(trace, moves, k, i);
    EnqueuedIsWritten(trace, moves, j);
  }

  /* --------------------------- A session left alone --------------------------- */

  /** n steps of session s in a row. */
  function Alone(st: State, s: nat, ch: Choice, n: nat): (st': State)
    requires s in st.sess
    ensures s in st'.sess
    decreases n
  {
    if n == 0 then st else Alone(Next(st, s, ch), s, ch, n - 1)
  }

  lemma AloneStep(st: State, s: nat, ch: Choice, n: nat)
    requires s in st.sess
    ensures Alone(st, s, ch, n + 1) == Alone(Next(st, s, ch), s, ch, n)
  {
  }

  /** Session s is ready to step, and may choose the next queue that its client supplies. */
  ghost predicate Able(st: State, s: nat, ch: Choice) {
    Inv(st) && s in st.sess && ch.queue in st.mem.chain
  }

  lemma QueueStays(st: State, s: nat, ch: Choice, q: nat)
    requires s in st.sess && q in st.mem.chain
    ensures q in Next(st, s, ch).mem.chain
  {
    match st.sess[s].pc
    case LinkCas => assert q in StepLinkCas(st, s).mem.chain;
    case HeadCas => assert q in StepHeadCas(st, s, ch).mem.chain;
    case _ => OtherStepsKeepChains(st, s, ch);
  }

  lemma OtherStepsKeepChains(st: State, s: nat, ch: Choice)
    requires s in st.sess && st.sess[s].pc != LinkCas && st.sess[s].pc != HeadCas
    ensures Next(st, s, ch).mem.chain == st.mem.chain
  {
  }

  lemma StepKeepsAble(st: State, s: nat, ch: Choice)
    requires Able(st, s, ch)
    ensures Able(Next(st, s, ch), s, ch)
  {
    StepKeepsInv(st, s, ch);
    QueueStays(st, s, ch, ch.queue);
  }

  /** After n steps alone, the session has enqueued its node with body b, and nothing else was logged. */
  ghost predicate Enqueues(st: State, s: nat, ch: Choice, b: Body, n: nat)
    requires s in st.sess
  {
    var x, st' := st.sess[s], Alone(st, s, ch, n);
    st'.log == st.log + [Enqueued(x.queue, Item(x.owned, b))] && st'.sess[s].pc == SwingCas
  }

  /** A step that logs nothing and keeps what the session is about to enqueue. */
  lemma EnqueuesLater(st: State, s: nat, ch: Choice, b: Body, n: nat)
    requires s in st.sess && Enqueues(Next(st, s, ch), s, ch, b, n)
    requires var x, st' := st.sess[s], Next(st, s, ch);
             st'.log == st.log && st'.sess[s].queue == x.queue && st'.sess[s].owned == x.owned
    ensures Enqueues(st, s, ch, b, n + 1)
  {
    AloneStep(st, s, ch, n);
  }

  lemma LinkEnqueues(st: State, s: nat, ch: Choice)
    requires Links(st, s)
    ensures Enqueues(st, s, ch, st.sess[s].body, 1)
  {
    AloneStep(st, s, ch, 0);
  }

  /** The tail of queue q is on its last node. */
  predicate TailAtEnd(m: Store, q: nat) {
    Load(m.ptr, Load(m.tail, q).next).next == NULL
  }

  /** What the enqueue has read so far is what is stored now. */
  predicate Fresh(m: Store, x: Session) {
    match x.pc
    case ReadTail => true
    case ReadLast => x.tail == Load(m.tail, x.queue)
    case RereadTail => x.tail == Load(m.tail, x.queue) && x.last == Load(m.ptr, x.tail.next)
    case LinkCas => x.last == Load(m.ptr, x.tail.next)
    case HelpCas => x.tail == Load(m.tail, x.queue) && !TailAtEnd(m, x.queue)
    case _ => false
  }

  /** How many undisturbed steps it takes from there. */
  function FreshToGo(m: Store, x: Session): nat {
    match x.pc
    case ReadTail => if TailAtEnd(m, x.queue) then 4 else 8
    case ReadLast => if TailAtEnd(m, x.queue) then 3 else 7
    case RereadTail => if TailAtEnd(m, x.queue) then 2 else 6
    case HelpCas => 5
    case _ => 1
  }

  /** A help that succeeds leaves the tail on the last node. */
  lemma HelpReachesEnd(st: State, s: nat, ch: Choice)
    requires Able(st, s, ch) && st.sess[s].pc == HelpCas && Load(st.mem.tail, st.sess[s].queue) == st.sess[s].tail
    ensures TailAtEnd(Next(st, s, ch).mem, st.sess[s].queue)
  {
    TailSwapIsNotStale(st, s);
    ChainIsInStore(st, st.sess[s].queue);
    assert ChainOk(st.mem, st.sess[s].queue);
  }

  lemma FreshStays(st: State, s: nat, ch: Choice)
    requires Able(st, s, ch) && Fresh(st.mem, st.sess[s]) && !Links(st, s)
    ensures var st' := Next(st, s, ch);
            && Fresh(st'.mem, st'.sess[s]) && FreshToGo(st'.mem, st'.sess[s]) + 1 == FreshToGo(st.mem, st.sess[s])
            && Owns(st.sess[s].pc) && st.sess[s].pc != WriteBody
  {
    if st.sess[s].pc == HelpCas { HelpReachesEnd(st, s, ch); }
  }

  lemma {:induction false} FreshEnqueues(st: State, s: nat, ch: Choice)
    requires Able(st, s, ch) && Fresh(st.mem, st.sess[s])
    ensures Enqueues(st, s, ch, st.sess[s].body, FreshToGo(st.mem, st.sess[s]))
    decreases FreshToGo(st.mem, st.sess[s])
  {
    if Links(st, s) {
      LinkEnqueues(st, s, ch);
    } else {
      FreshStays(st, s, ch);
      OwnerSteps(st, s, ch);
      StepKeepsAble(st, s, ch);
      FreshEnqueues(Next(st, s, ch), s, ch);
      EnqueuesLater(st, s, ch, st.sess[s].body, FreshToGo(st.mem, st.sess[s]) - 1);
    }
  }

  /** The body with which a session enqueues its node. */
  function BodyFor(x: Session, ch: Choice): Body {
    if x.pc == WriteBody then Body(x.owned, ch.value) else x.body
  }

  /** One step towards the enqueue: it either happens or is still to come. */
  lemma OwnerSteps(st: State, s: nat, ch: Choice)
    requires s in st.sess && Owns(st.sess[s].pc) && !Links(st, s)
    ensures var x, x' := st.sess[s], Next(st, s, ch).sess[s];
            && Next(st, s, ch).log == st.log && Owns(x'.pc) && x'.pc != WriteBody
            && x'.queue == x.queue && x'.owned == x.owned && x'.body == BodyFor(x, ch)
            && x'.pc == match x.pc
                        case WriteBody => ResetPtr
                        case ReadTail => ReadLast
                        case ReadLast => RereadTail
                        case RereadTail =>
                          if Load(st.mem.tail, x.queue) != x.tail then ReadTail
                          else if x.last.next == NULL then LinkCas else HelpCas
                        case _ => ReadTail
  {
  }

  /**
    From wherever it is, a session that owns a node and is left alone enqueues that node, with
    the bytes it has been given, in at most eleven steps.
  */
  lemma EnqueueAlone(st: State, s: nat, ch: Choice) returns (n: nat)
    requires Able(st, s, ch) && Owns(st.sess[s].pc)
    ensures n <= 11 && Enqueues(st, s, ch, BodyFor(st.sess[s], ch), n)
  {
    n := EnqueueWithin(st, s, ch, 3);
  }

  /** Steps until the session reads the tail anew, or links. */
  function ToGo(pc: Pc): nat {
    match pc
    case ReadLast => 3
    case RereadTail => 2
    case WriteBody => 2
    case ReadTail => 0
    case _ => 1
  }

  lemma {:induction false} EnqueueWithin(st: State, s: nat, ch: Choice, k: nat) returns (n: nat)
    requires Able(st, s, ch) && Owns(st.sess[s].pc) && ToGo(st.sess[s].pc) <= k
    ensures n <= 8 + k && Enqueues(st, s, ch, BodyFor(st.sess[s], ch), n)
    decreases k
  {
    if Links(st, s) {
      LinkEnqueues(st, s, ch);
      n := 1;
    } else if st.sess[s].pc == ReadTail {
      FreshEnqueues(st, s, ch);
      n := FreshToGo(st.mem, st.sess[s]);
    } else {
      OwnerSteps(st, s, ch);
      StepKeepsAble(st, s, ch);
      var n' := EnqueueWithin(Next(st, s, ch), s, ch, k - 1);
      EnqueuesLater(st, s, ch, BodyFor(st.sess[s], ch), n');
      n := n' + 1;
    }
  }

  /* --------------------------- The dequeue --------------------------- */

  /**
    After n steps alone, the session has dequeued the first node with its body, owns it, and
    goes on to the queue it has been given.
  */
  ghost predicate Dequeues(st: State, s: nat, ch: Choice, n: nat)
    requires s in st.sess
  {
    var q, st' := st.sess[s].queue, Alone(st, s, ch, n);
    && q in st.mem.chain && |st.mem.chain[q]| >= 2
    && var first := st.mem.chain[q][0];
       && st'.log == st.log + [Dequeued(q, Item(first, LoadBody(st.mem.body, first)))]
       && st'.sess[s].pc == WriteBody && st'.sess[s].owned == first && st'.sess[s].queue == ch.queue
       && q in st'.mem.chain && st'.mem.chain[q] == st.mem.chain[q][1..]
  }

  lemma DequeuesLater(st: State, s: nat, ch: Choice, n: nat)
    requires s in st.sess && Dequeues(Next(st, s, ch), s, ch, n)
    requires var st' := Next(st, s, ch);
             && st'.log == st.log && st'.sess[s].queue == st.sess[s].queue
             && st'.mem.chain == st.mem.chain && st'.mem.body == st.mem.body
    ensures Dequeues(st, s, ch, n + 1)
  {
    AloneStep(st, s, ch, n);
  }

  /** A step of the dequeue that is not yet the swap. */
  lemma DequeuesAfter(st: State, s: nat, ch: Choice, n: nat)
    requires s in st.sess && !Owns(st.sess[s].pc) && !Swings(st, s) && Dequeues(Next(st, s, ch), s, ch, n)
    ensures Dequeues(st, s, ch, n + 1)
  {
    DequeuerSteps(st, s, ch);
    DequeuesLater(st, s, ch, n);
  }

  lemma SwingDequeues(st: State, s: nat, ch: Choice)
    requires Able(st, s, ch) && Swings(st, s)
    ensures Dequeues(st, s, ch, 1)
  {
    AloneStep(st, s, ch, 0);
    HeadSucceeds(st, s);
  }

  /** One step towards the dequeue: it either happens or is still to come. */
  lemma DequeuerSteps(st: State, s: nat, ch: Choice)
    requires s in st.sess && !Owns(st.sess[s].pc) && !Swings(st, s)
    ensures var x, st' := st.sess[s], Next(st, s, ch);
            && st'.log == st.log && st'.mem.chain == st.mem.chain && st'.mem.body == st.mem.body
            && st'.sess[s].queue == x.queue
            && st'.sess[s].pc == match x.pc
                                 case ReadHead => ReadTailToo
                                 case ReadTailToo => ReadFirst
                                 case ReadFirst => RereadHead
                                 case RereadHead =>
                                   if Load(st.mem.head, x.queue) != x.head then ReadHead
                                   else if x.head.next == x.tail.next then DeqHelpCas else ReadBody
                                 case ReadBody => HeadCas
                                 case _ => ReadHead
  {
  }

  /** The stored head and tail are on the same node. */
  predicate Together(m: Store, q: nat) {
    Load(m.head, q).next == Load(m.tail, q).next
  }

  /** What the dequeue has read so far is what is stored now. */
  predicate FreshHead(m: Store, x: Session) {
    match x.pc
    case ReadHead => true
    case ReadTailToo => x.head == Load(m.head, x.queue)
    case ReadFirst => x.head == Load(m.head, x.queue) && x.tail == Load(m.tail, x.queue)
    case RereadHead => x.head == Load(m.head, x.queue) && x.tail == Load(m.tail, x.queue)
    case DeqHelpCas => x.tail == Load(m.tail, x.queue)
    case ReadBody => x.head == Load(m.head, x.queue)
    case HeadCas => x.head == Load(m.head, x.queue)
    case _ => false
  }

  function FreshHeadToGo(m: Store, x: Session): nat {
    match x.pc
    case ReadHead => if Together(m, x.queue) then 11 else 6
    case ReadTailToo => if Together(m, x.queue) then 10 else 5
    case ReadFirst => if Together(m, x.queue) then 9 else 4
    case RereadHead => if Together(m, x.queue) then 8 else 3
    case DeqHelpCas => 7
    case ReadBody => 2
    case _ => 1
  }

  lemma DeqHelpMovesTail(st: State, s: nat, ch: Choice)
    requires Able(st, s, ch) && st.sess[s].pc == DeqHelpCas && Load(st.mem.tail, st.sess[s].queue) == st.sess[s].tail
    ensures !Together(Next(st, s, ch).mem, st.sess[s].queue)
  {
    TailSwapIsNotStale(st, s);
    ChainIsInStore(st, st.sess[s].queue);
    assert ChainOk(st.mem, st.sess[s].queue);
  }

  lemma FreshHeadStays(st: State, s: nat, ch: Choice)
    requires Able(st, s, ch) && FreshHead(st.mem, st.sess[s]) && !Swings(st, s)
    ensures var st' := Next(st, s, ch);
            && FreshHead(st'.mem, st'.sess[s]) && !Owns(st.sess[s].pc)
            && FreshHeadToGo(st'.mem, st'.sess[s]) + 1 == FreshHeadToGo(st.mem, st.sess[s])
  {
    if st.sess[s].pc == DeqHelpCas { DeqHelpMovesTail(st, s, ch); }
  }

  lemma {:induction false} FreshDequeues(st: State, s: nat, ch: Choice)
    requires Able(st, s, ch) && FreshHead(st.mem, st.sess[s])
    ensures Dequeues(st, s, ch, FreshHeadToGo(st.mem, st.sess[s]))
    decreases FreshHeadToGo(st.mem, st.sess[s])
  {
    if Swings(st, s) {
      SwingDequeues(st, s, ch);
    } else {
      FreshHeadStays(st, s, ch);
      StepKeepsAble(st, s, ch);
      FreshDequeues(Next(st, s, ch), s, ch);
      DequeuesAfter(st, s, ch, FreshHeadToGo(st.mem, st.sess[s]) - 1);
    }
  }

  /** Steps until the session reads the head anew, or swings it. */
  function ToGoDequeue(pc: Pc): nat {
    match pc
    case ReadHead => 0
    case ReadTailToo => 5
    case ReadFirst => 4
    case RereadHead => 3
    case ReadBody => 2
    case _ => 1
  }

  lemma DequeueToGoDrops(st: State, s: nat, ch: Choice)
    requires s in st.sess && !Owns(st.sess[s].pc) && !Swings(st, s) && st.sess[s].pc != ReadHead
    ensures var pc' := Next(st, s, ch).sess[s].pc; !Owns(pc') && ToGoDequeue(pc') < ToGoDequeue(st.sess[s].pc)
  {
    DequeuerSteps(st, s, ch);
  }

  lemma {:induction false} DequeueWithin(st: State, s: nat, ch: Choice, k: nat) returns (n: nat)
    requires Able(st, s, ch) && !Owns(st.sess[s].pc) && ToGoDequeue(st.sess[s].pc) <= k
    ensures n <= 11 + k && Dequeues(st, s, ch, n)
    decreases k
  {
    if Swings(st, s) {
      SwingDequeues(st, s, ch);
      n := 1;
    } else if st.sess[s].pc == ReadHead {
      FreshDequeues(st, s, ch);
      n := FreshHeadToGo(st.mem, st.sess[s]);
    } else {
      DequeueToGoDrops(st, s, ch);
      StepKeepsAble(st, s, ch);
      var n' := DequeueWithin(Next(st, s, ch), s, ch, k - 1);
      DequeuesAfter(st, s, ch, n');
      n := n' + 1;
    }
  }

  /**
    From wherever it is, a session that owes a dequeue and is left alone takes the first node
    that the store leads to, with the body stored for it, in at most sixteen steps.
  */
  lemma DequeueAlone(st: State, s: nat, ch: Choice) returns (n: nat)
    requires Able(st, s, ch) && !Owns(st.sess[s].pc)
    ensures n <= 16
    ensures var q, c, st' := st.sess[s].queue, NodesOf(st.mem, st.sess[s].queue), Alone(st, s, ch, n);
            && |c| >= 2 && st'.log == st.log + [Dequeued(q, Item(c[0], LoadBody(st.mem.body, c[0])))]
            && NodesOf(st'.mem, q) == c[1..]
            && st'.sess[s].pc == WriteBody && st'.sess[s].owned == c[0] && st'.sess[s].queue == ch.queue
  {
    n := DequeueWithin(st, s, ch, 5);
    ChainIsInStore(st, st.sess[s].queue);
    AloneKeepsAble(st, s, ch, n);
    ChainIsInStore(Alone(st, s, ch, n), st.sess[s].queue);
  }

  lemma {:induction false} AloneKeepsAble(st: State, s: nat, ch: Choice, n: nat)
    requires Able(st, s, ch)
    ensures Able(Alone(st, s, ch, n), s, ch)
    decreases n
  {
    if n > 0 {
      StepKeepsAble(st, s, ch);
      AloneKeepsAble(Next(st, s, ch), s, ch, n - 1);
    }
  }
}
