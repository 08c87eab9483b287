/**
  What a session of the stacks achieves: left alone, it completes its push and its pop from
  wherever it is, in at most four steps.
*/
module TreiberProgress {
  import opened Common
  import opened Treiber
  import opened TreiberTheorems

  /** n steps of session s in a row. */
  function Alone(st: State, s: nat, stack: nat, n: nat): (st': State)
    requires s in st.sess
    ensures s in st'.sess
    decreases n
  {
    if n == 0 then st else Alone(Next(st, s, stack), s, stack, n - 1)
  }

  lemma AloneStep(st: State, s: nat, stack: nat, n: nat)
    requires s in st.sess
    ensures Alone(st, s, stack, n + 1) == Alone(Next(st, s, stack), s, stack, n)
  {
  }

  ghost predicate Able(st: State, s: nat, stack: nat) {
    Inv(st) && s in st.sess && stack in st.mem.chain
  }

  lemma StepKeepsAble(st: State, s: nat, stack: nat)
    requires Able(st, s, stack)
    ensures Able(Next(st, s, stack), s, stack)
  {
    StepKeepsInv(st, s, stack);
    StepKeepsOrigin(st, s, stack);
  }

  lemma {:induction false} AloneKeepsAble(st: State, s: nat, stack: nat, n: nat)
    requires Able(st, s, stack)
    ensures Able(Alone(st, s, stack, n), s, stack)
    decreases n
  {
    if n > 0 {
      StepKeepsAble(st, s, stack);
      AloneKeepsAble(Next(st, s, stack), s, stack, n - 1);
    }
  }

  /* --------------------------- The push --------------------------- */

  /** After n steps alone, the session has pushed the node it owned, and nothing else was logged. */
  ghost predicate Pushes(st: State, s: nat, stack: nat, n: nat)
    requires s in st.sess
  {
    var x, st' := st.sess[s], Alone(st, s, stack, n);
    && x.stack in st.mem.chain && x.stack in st'.mem.chain
    && st'.log == st.log + [Pushed(x.stack, x.owned)] && st'.sess[s].pc == PopReadTop
    && st'.sess[s].stack == x.stack && st'.mem.chain[x.stack] == [x.owned] + st.mem.chain[x.stack]
  }

  lemma PushesLater(st: State, s: nat, stack: nat, n: nat)
    requires s in st.sess && Pushes(Next(st, s, stack), s, stack, n)
    requires var x, st' := st.sess[s], Next(st, s, stack);
             && st'.log == st.log && st'.mem.chain == st.mem.chain
             && st'.sess[s].stack == x.stack && st'.sess[s].owned == x.owned
    ensures Pushes(st, s, stack, n + 1)
  {
    AloneStep(st, s, stack, n);
  }

  /** The swap that session s is about to try would succeed. */
  predicate TopIsRead(st: State, s: nat)
    requires s in st.sess
  {
    LoadTop(st.mem.top, st.sess[s].stack) == st.sess[s].top
  }

  lemma SwapPushes(st: State, s: nat, stack: nat)
    requires Able(st, s, stack) && st.sess[s].pc == PushCas && TopIsRead(st, s)
    ensures Pushes(st, s, stack, 1)
  {
    AloneStep(st, s, stack, 0);
    assert SessOk(st.mem, s, st.sess[s]);
  }

  lemma WritePushes(st: State, s: nat, stack: nat)
    requires Able(st, s, stack) && st.sess[s].pc == PushWriteNode && TopIsRead(st, s)
    ensures Pushes(st, s, stack, 2)
  {
    StepKeepsAble(st, s, stack);
    SwapPushes(Next(st, s, stack), s, stack);
    PushesLater(st, s, stack, 1);
  }

  /** Reading the top, or a swap that fails and hands it over, leads on to the write. */
  lemma ReadPushes(st: State, s: nat, stack: nat)
    requires Able(st, s, stack)
    requires st.sess[s].pc == PushReadTop || (st.sess[s].pc == PushCas && !TopIsRead(st, s))
    ensures Pushes(st, s, stack, 3)
  {
    var x := st.sess[s];
    assert SessOk(st.mem, s, x);
    PushChecksHold(st.mem, s, x);
    StepKeepsAble(st, s, stack);
    WritePushes(Next(st, s, stack), s, stack);
    PushesLater(st, s, stack, 2);
  }

  /**
    From wherever it is, a session that owns a node and is left alone pushes that node on top
    of what the store leads to, in at most four steps; three if it has yet to read the top.
  */
  lemma PushAlone(st: State, s: nat, stack: nat) returns (n: nat)
    requires Able(st, s, stack) && Owns(st.sess[s].pc)
    ensures n <= 4 && (st.sess[s].pc == PushReadTop ==> n == 3)
    ensures var x, st' := st.sess[s], Alone(st, s, stack, n);
            && st'.log == st.log + [Pushed(x.stack, x.owned)] && st'.sess[s].pc == PopReadTop
            && st'.sess[s].stack == x.stack
            && NodesOf(st'.mem, x.stack) == [x.owned] + NodesOf(st.mem, x.stack)
  {
    var x := st.sess[s];
    assert SessOk(st.mem, s, x);
    n := if x.pc == PushReadTop then 3
         else if x.pc == PushCas then if TopIsRead(st, s) then 1 else 3
         else if TopIsRead(st, s) then 2 else 4;
    if n == 1 {
      SwapPushes(st, s, stack);
    } else if n == 2 {
      WritePushes(st, s, stack);
    } else if n == 3 {
      ReadPushes(st, s, stack);
    } else {
      StepKeepsAble(st, s, stack);
      ReadPushes(Next(st, s, stack), s, stack);
      PushesLater(st, s, stack, 3);
    }
    ChainIsInStore(st, x.stack);
    AloneKeepsAble(st, s, stack, n);
    ChainIsInStore(Alone(st, s, stack, n), x.stack);
  }

  /* --------------------------- The pop --------------------------- */

  /** After n steps alone, the session has popped the top node, owns it, and goes on to `stack`. */
  ghost predicate Pops(st: State, s: nat, stack: nat, n: nat)
    requires s in st.sess
  {
    var k, st' := st.sess[s].stack, Alone(st, s, stack, n);
    && k in st.mem.chain && k in st'.mem.chain && st.mem.chain[k] != []
    && st'.log == st.log + [Popped(k, st.mem.chain[k][0])]
    && st'.sess[s].pc == PushReadTop && st'.sess[s].owned == st.mem.chain[k][0] && st'.sess[s].stack == stack
    && st'.mem.chain[k] == st.mem.chain[k][1..]
  }

  lemma PopsLater(st: State, s: nat, stack: nat, n: nat)
    requires s in st.sess && Pops(Next(st, s, stack), s, stack, n)
    requires var st' := Next(st, s, stack);
             st'.log == st.log && st'.mem.chain == st.mem.chain && st'.sess[s].stack == st.sess[s].stack
    ensures Pops(st, s, stack, n + 1)
  {
    AloneStep(st, s, stack, n);
  }

  lemma SwapPops(st: State, s: nat, stack: nat)
    requires Able(st, s, stack) && st.sess[s].pc == PopCas && TopIsRead(st, s)
    ensures Pops(st, s, stack, 1)
  {
    AloneStep(st, s, stack, 0);
    PopSucceeds(st, s);
  }

  /** The node of a top that is current is not rejected. */
  lemma NodePops(st: State, s: nat, stack: nat)
    requires Able(st, s, stack) && st.sess[s].pc == PopReadNode && TopIsRead(st, s)
    ensures Pops(st, s, stack, 2)
  {
    if AfterPopReadNode(st.mem.next, st.sess[s]).pc == PopReadTop { FilterRejectsOnlyStaleTops(st, s); }
    StepKeepsAble(st, s, stack);
    SwapPops(Next(st, s, stack), s, stack);
    PopsLater(st, s, stack, 1);
  }

  lemma ReadPops(st: State, s: nat, stack: nat)
    requires Able(st, s, stack)
    requires st.sess[s].pc == PopReadTop || (st.sess[s].pc == PopCas && !TopIsRead(st, s))
    ensures Pops(st, s, stack, 3)
  {
    assert SessOk(st.mem, s, st.sess[s]);
    PopChecksHold(st, s);
    StepKeepsAble(st, s, stack);
    NodePops(Next(st, s, stack), s, stack);
    PopsLater(st, s, stack, 2);
  }

  /**
    From wherever it is, a session that owes a pop and is left alone pops the top node that the
    store leads to, in at most four steps; three if it has yet to read the top.
  */
  lemma PopAlone(st: State, s: nat, stack: nat) returns (n: nat)
    requires Able(st, s, stack) && !Owns(st.sess[s].pc)
    ensures n <= 4 && (st.sess[s].pc == PopReadTop ==> n == 3)
    ensures var k, c, st' := st.sess[s].stack, NodesOf(st.mem, st.sess[s].stack), Alone(st, s, stack, n);
            && c != [] && st'.log == st.log + [Popped(k, c[0])] && NodesOf(st'.mem, k) == c[1..]
            && st'.sess[s].pc == PushReadTop && st'.sess[s].owned == c[0] && st'.sess[s].stack == stack
  {
    var x := st.sess[s];
    assert SessOk(st.mem, s, x);
    n := if x.pc == PopReadTop then 3
         else if x.pc == PopCas then if TopIsRead(st, s) then 1 else 3
         else if TopIsRead(st, s) then 2 else 4;
    if n == 1 {
      SwapPops(st, s, stack);
    } else if n == 2 {
      NodePops(st, s, stack);
    } else if n == 3 {
      ReadPops(st, s, stack);
    } else {
      StepKeepsAble(st, s, stack);
      ReadPops(Next(st, s, stack), s, stack);
      PopsLater(st, s, stack, 3);
    }
    ChainIsInStore(st, x.stack);
    AloneKeepsAble(st, s, stack, n);
    ChainIsInStore(Alone(st, s, stack, n), x.stack);
  }
}
