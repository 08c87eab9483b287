/** What holds of the stacks over whole runs, and the clients as the program runs them. */
module TreiberTheorems {
  import opened Common
  import opened Treiber

  /** At the start every stack is empty and every session owns a node. */
  ghost predicate Init(st: State) {
    && Domains(st.mem)
    && (forall k {:trigger EmptyStack(st.mem, k)} :: k in st.mem.chain ==> EmptyStack(st.mem, k))
    && (forall s {:trigger FreshSession(st.mem, s, st.sess[s])} :: s in st.sess ==>
          FreshSession(st.mem, s, st.sess[s]))
    && Places(st.mem, st.sess)
    && st.origin == st.mem.chain && st.log == []
  }

  ghost predicate EmptyStack(m: Store, k: nat)
    requires k in m.chain
  {
    m.chain[k] == [] && LoadTop(m.top, k) == Top(NULL, 0, 0)
  }

  ghost predicate FreshSession(m: Store, s: nat, x: Session) {
    && x.pc == PushReadTop && x.stack in m.chain && x.lastPush == 0
    && x.owned in m.place && m.place[x.owned] == HeldBy(s)
  }

  lemma InitHolds(st: State)
    requires Init(st)
    ensures Inv(st)
  {
    forall k | k in st.mem.chain ensures ChainOk(st.mem, k) { assert EmptyStack(st.mem, k); }
    forall s | s in st.sess ensures SessOk(st.mem, s, st.sess[s]) && Owns(st.sess[s].pc) {
      assert FreshSession(st.mem, s, st.sess[s]);
    }
    forall k | k in st.mem.chain ensures |st.mem.chain[k]| == |Owing(st.sess, k)| {
      assert EmptyStack(st.mem, k);
      assert Owing(st.sess, k) == {};
    }
  }

  datatype Move = Move(s: nat, stack: nat)

  /** A run is any interleaving of the sessions. */
  ghost predicate Run(trace: seq<State>, moves: seq<Move>) {
    && |trace| == |moves| + 1
    && Init(trace[0])
    && forall i :: 0 <= i < |moves| ==>
         && moves[i].s in trace[i].sess && moves[i].stack in trace[i].mem.chain
         && trace[i + 1] == Next(trace[i], moves[i].s, moves[i].stack)
  }

  /** The state after these moves, one after the other. */
  function Played(st: State, moves: seq<Move>): State {
    if moves == [] then st
    else
      var before, mv := Played(st, moves[..|moves| - 1]), moves[|moves| - 1];
      if mv.s in before.sess then Next(before, mv.s, mv.stack) else before
  }

  lemma PlayedMore(st: State, moves: seq<Move>, i: nat)
    requires i < |moves| && moves[i].s in Played(st, moves[..i]).sess
    ensures Played(st, moves[..i + 1]) == Next(Played(st, moves[..i]), moves[i].s, moves[i].stack)
  {
    assert moves[..i + 1][..i] == moves[..i];
  }

  lemma StepKeepsOrigin(st: State, s: nat, stack: nat)
    requires s in st.sess
    ensures Next(st, s, stack).origin == st.origin
    ensures forall t :: t in Next(st, s, stack).sess <==> t in st.sess
    ensures forall k :: k in Next(st, s, stack).mem.chain <==> k in st.mem.chain
  {
  }

  lemma {:induction false} RunKeepsInv(trace: seq<State>, moves: seq<Move>, i: nat)
    requires Run(trace, moves) && i < |trace|
    ensures Inv(trace[i]) && trace[i].origin == trace[0].origin
  {
    if i == 0 {
      InitHolds(trace[0]);
    } else {
      RunKeepsInv(trace, moves, i - 1);
      StepKeepsInv(trace[i - 1], moves[i - 1].s, moves[i - 1].stack);
      StepKeepsOrigin(trace[i - 1], moves[i - 1].s, moves[i - 1].stack);
    }
  }

  /* --------------------------- The stack in the store --------------------------- */

  /** The nodes of stack k that the store itself leads to, top first. */
  function NodesOf(m: Store, k: nat): seq<nat> {
    Follow(m.next, LoadTop(m.top, k).key, |m.next|)
  }

  lemma ChainIsInStore(st: State, k: nat)
    requires Inv(st) && k in st.mem.chain
    ensures NodesOf(st.mem, k) == st.mem.chain[k]
  {
    var m := st.mem;
    assert ChainOk(m, k);
    DistinctFits(m.chain[k], m.next.Keys);
    assert |m.next.Keys| == |m.next|;
    FollowChain(m.next, m.chain[k], |m.next|);
  }

  /* --------------------------- Main results --------------------------- */

  /**
    Last in, first out over whole runs: the pushes and pops so far are a legal run of
    sequential stacks, and it ends with exactly the nodes the store leads to.
  */
  lemma LifoOverRuns(trace: seq<State>, moves: seq<Move>, i: nat, k: nat)
    requires Run(trace, moves) && i < |trace| && k in trace[i].mem.chain
    ensures var r := Replay(trace[0].origin, trace[i].log);
            r.Stacks? && k in r.stacks && r.stacks[k] == NodesOf(trace[i].mem, k)
  {
    RunKeepsInv(trace, moves, i);
    ChainIsInStore(trace[i], k);
  }

  /** A step is a push or pop of the sequential stacks, or leaves them as they are. */
  lemma StepRefines(st: State, s: nat, stack: nat)
    requires Inv(st) && s in st.sess && stack in st.mem.chain
    ensures var st' := Next(st, s, stack);
            || (st'.log == st.log && st'.mem.chain == st.mem.chain)
            || (exists e :: Allowed(st.mem.chain, e) && st'.log == st.log + [e]
                  && st'.mem.chain == Apply(st.mem.chain, e))
  {
    var st' := Next(st, s, stack);
    StepKeepsInv(st, s, stack);
    if st'.log != st.log {
      var e := st'.log[|st.log|];
      assert st'.log == st.log + [e];
      assert st'.log[..|st'.log| - 1] == st.log;
      assert Allowed(st.mem.chain, e);
    }
  }

  /** Pushes minus pops is the length of the stack and the number of sessions owing a pop. */
  lemma CountersCount(st: State, k: nat)
    requires Inv(st) && k in st.mem.chain
    ensures LoadTop(st.mem.top, k).push == LoadTop(st.mem.top, k).pop + |NodesOf(st.mem, k)|
    ensures |NodesOf(st.mem, k)| == |Owing(st.sess, k)|
  {
    ChainIsInStore(st, k);
    assert ChainOk(st.mem, k);
  }

  /** No assertion of the push or the pop machine on tops, nodes and keys ever fails. */
  lemma NeverAborts(trace: seq<State>, moves: seq<Move>, i: nat, s: nat)
    requires Run(trace, moves) && i < |trace| && s in trace[i].sess
    ensures trace[i].sess[s].pc != Aborted
  {
    RunKeepsInv(trace, moves, i);
    assert SessOk(trace[i].mem, s, trace[i].sess[s]);
  }

  /** A pop swap that succeeds removes exactly the top node and installs the true second one. */
  lemma PopSwapIsNotStale(st: State, s: nat, stack: nat)
    requires Inv(st) && s in st.sess && st.sess[s].pc == PopCas && stack in st.mem.chain
    requires LoadTop(st.mem.top, st.sess[s].stack) == st.sess[s].top
    ensures var k, st' := st.sess[s].stack, StepPopCas(st, s, stack); var c := NodesOf(st.mem, k);
            && |c| > 0 && NodesOf(st'.mem, k) == c[1..] && st'.sess[s].owned == c[0]
  {
    PopSucceeds(st, s);
    KeepPopCas(st, s, stack);
    ChainIsInStore(st, st.sess[s].stack);
    ChainIsInStore(StepPopCas(st, s, stack), st.sess[s].stack);
  }

  /** A push swap that succeeds puts the owned node in front of the whole stack. */
  lemma PushSwapIsNotStale(st: State, s: nat)
    requires Inv(st) && s in st.sess && st.sess[s].pc == PushCas
    requires LoadTop(st.mem.top, st.sess[s].stack) == st.sess[s].top
    ensures var x := st.sess[s];
            NodesOf(StepPushCas(st, s).mem, x.stack) == [x.owned] + NodesOf(st.mem, x.stack)
    ensures StepPushCas(st, s).sess[s].lastPush == LoadTop(StepPushCas(st, s).mem.top, st.sess[s].stack).push
  {
    assert SessOk(st.mem, s, st.sess[s]);
    KeepPushCas(st, s);
    ChainIsInStore(st, st.sess[s].stack);
    ChainIsInStore(StepPushCas(st, s), st.sess[s].stack);
  }

  /** The filter of a pop rejects a node only when its swap would have failed anyway. */
  lemma FilterRejectsOnlyStaleTops(st: State, s: nat)
    requires Inv(st) && s in st.sess && st.sess[s].pc == PopReadNode
    requires AfterPopReadNode(st.mem.next, st.sess[s]).pc == PopReadTop
    ensures LoadTop(st.mem.top, st.sess[s].stack) != st.sess[s].top
  {
    var x := st.sess[s];
    assert SessOk(st.mem, s, x);
    assert ChainOk(st.mem, x.stack);
    if LoadTop(st.mem.top, x.stack) == x.top && st.mem.chain[x.stack] != [] {
      SecondNode(st.mem, x.stack);
    }
    assert s in Owing(st.sess, x.stack);
  }

  /** A pop of a stack that is not empty is tried exactly if the top it would install passes the check. */
  lemma TriesOnlyConsistentTops(m: Store, x: Session)
    requires x.top.push > x.top.pop
    ensures var x' := AfterPopReadNode(m.next, x);
            x'.pc == PopCas <==> (x.top.push == x.top.pop + 1 <==> x'.first == NULL)
  {
  }

  /** A node's next pointer does not change while the node stays in a stack. */
  lemma NextIsStable(st: State, s: nat, stack: nat, k: nat, n: nat)
    requires Inv(st) && s in st.sess && stack in st.mem.chain && k in st.mem.chain
    requires n in NodesOf(st.mem, k) && n in NodesOf(Next(st, s, stack).mem, k)
    ensures LoadNext(Next(st, s, stack).mem.next, n) == LoadNext(st.mem.next, n)
  {
    ChainIsInStore(st, k);
    assert ChainOk(st.mem, k);
    assert SessOk(st.mem, s, st.sess[s]);
    assert n in st.mem.place && st.mem.place[n] == InStack(k);
  }

  /** Node n is in stack k, or is the node that session s owns. */
  predicate IsAt(st: State, n: nat, p: Place) {
    match p
    case InStack(k) => k in st.mem.top && n in NodesOf(st.mem, k)
    case HeldBy(s) => s in st.sess && Owns(st.sess[s].pc) && st.sess[s].owned == n
  }

  /** Stacks and owned nodes partition all nodes. */
  lemma NodesArePartitioned(st: State, n: nat, p: Place)
    requires Inv(st) && n in st.mem.next
    ensures IsAt(st, n, p) <==> p == st.mem.place[n]
  {
    var m := st.mem;
    assert PlaceOk(m, st.sess, n);
    if m.place[n].InStack? { ChainIsInStore(st, m.place[n].k); }
    match p
    case InStack(k) =>
      if k in m.top {
        ChainIsInStore(st, k);
        assert ChainOk(m, k);
      }
    case HeldBy(s) =>
      if s in st.sess { assert SessOk(m, s, st.sess[s]); }
  }

  /** What a step of a push does to its session when t is the top: it goes on to write and swap. */
  predicate PushGoesOn(x: Session, x': Session, t: Top) {
    && x'.owned == x.owned && x'.stack == x.stack
    && match x.pc
       case PushReadTop => x'.pc == PushWriteNode && x'.top == t
       case PushWriteNode => x'.pc == PushCas && x'.top == x.top
       case _ => if t == x.top then x'.pc == PopReadTop else x'.pc == PushWriteNode && x'.top == t
  }

  lemma PushNeverStops(st: State, s: nat, stack: nat)
    requires Inv(st) && s in st.sess && Owns(st.sess[s].pc)
    ensures PushGoesOn(st.sess[s], Next(st, s, stack).sess[s], LoadTop(st.mem.top, st.sess[s].stack))
  {
    assert SessOk(st.mem, s, st.sess[s]);
    PushChecksHold(st.mem, s, st.sess[s]);
  }

  /** The same for a pop; a node is given up only if the top is not the one read. */
  predicate PopGoesOn(x: Session, x': Session, t: Top, stack: nat) {
    match x.pc
    case PopReadTop => x'.pc == PopReadNode && x'.top == t && x'.stack == x.stack
    case PopReadNode => x'.top == x.top && x'.stack == x.stack && (t == x.top ==> x'.pc == PopCas)
    case _ =>
      if t == x.top then x'.pc == PushReadTop && x'.owned == t.key && x'.stack == stack
      else x'.pc == PopReadNode && x'.top == t && x'.stack == x.stack
  }

  lemma PopNeverStops(st: State, s: nat, stack: nat)
    requires Inv(st) && s in st.sess && !Owns(st.sess[s].pc)
    ensures PopGoesOn(st.sess[s], Next(st, s, stack).sess[s], LoadTop(st.mem.top, st.sess[s].stack), stack)
  {
    var x := st.sess[s];
    assert SessOk(st.mem, s, x);
    PopChecksHold(st, s);
    if x.pc == PopReadNode && AfterPopReadNode(st.mem.next, x).pc == PopReadTop { FilterRejectsOnlyStaleTops(st, s); }
  }

  /* --------------------------- The clients --------------------------- */

  /** A weak compare-and-swap of a top: it fails only on a mismatch, and `seen` overwrites the expected value. */
  method Cas(m: map<nat, Top>, k: nat, expected: Top, desired: Top)
    returns (ok: bool, m': map<nat, Top>, seen: Top)
    ensures ok <==> LoadTop(m, k) == expected
    ensures m' == if ok then m[k := desired] else m
    ensures seen == LoadTop(m, k)
  {
    seen := LoadTop(m, k);
    ok := seen == expected;
    m' := m;
    if ok { m' := m'[k := desired]; }
  }

  /** Stacks 0 to `stacks` - 1 exist and are empty. */
  ghost predicate StacksEmpty(top: map<nat, Top>, chain: map<nat, seq<nat>>, stacks: nat) {
    && (forall k :: k in top ==> k < stacks && k in chain)
    && (forall k :: k in chain ==> k < stacks && k in top)
    && (forall k: nat :: k < stacks ==> k in top && k in chain && chain[k] == [] && top[k] == Top(NULL, 0, 0))
  }

  /** Sessions 0 to `sessions` - 1 own nodes `offset`, `offset` + 1, and so on. */
  ghost predicate SessionsFresh(m: Store, sess: map<nat, Session>, sessions: nat) {
    && (forall s :: s in sess ==> s < sessions) && (forall s: nat :: s < sessions ==> s in sess)
    && (forall s {:trigger FreshSession(m, s, sess[s])} :: s in sess ==>
          FreshSession(m, s, sess[s]) && sess[s].owned == m.offset + s)
    && (forall n :: n in m.next ==> m.offset <= n < m.offset + sessions)
    && m.next.Keys == m.place.Keys && Places(m, sess)
  }

  /** The record of session s before its first step. */
  function First(offset: nat, s: nat): Session {
    Session(PushReadTop, s, offset + s, Top(NULL, 0, 0), NULL, 0)
  }

  lemma AddSession(m: Store, sess: map<nat, Session>, s: nat)
    requires SessionsFresh(m, sess, s) && s in m.chain
    ensures SessionsFresh(m.(next := m.next[m.offset + s := NULL], place := m.place[m.offset + s := HeldBy(s)]),
                          sess[s := First(m.offset, s)], s + 1)
  {
    var n := m.offset + s;
    var m' := m.(next := m.next[n := NULL], place := m.place[n := HeldBy(s)]);
    var sess' := sess[s := First(m.offset, s)];
    forall k | k in sess' ensures FreshSession(m', k, sess'[k]) && sess'[k].owned == m.offset + k {
      if k != s { assert FreshSession(m, k, sess[k]); }
    }
    assert n !in m.place;
    forall k | k in m'.place ensures PlaceOk(m', sess', k) {
      if k != n { assert PlaceOk(m, sess, k); }
    }
  }

  /** The set-up loops establish the initial state of the protocol. */
  lemma SetUpIsInit(st: State, stacks: nat, sessions: nat)
    requires StacksEmpty(st.mem.top, st.mem.chain, stacks) && SessionsFresh(st.mem, st.sess, sessions)
    requires 0 < st.mem.offset <= st.mem.offset + sessions <= st.mem.maxKey + 1
    requires st.origin == st.mem.chain && st.log == []
    ensures Init(st)
    ensures forall s: nat :: s in st.sess <==> s < sessions
    ensures forall k: nat :: k in st.mem.chain <==> k < stacks
  {
  }

  class Clients {
    const offset: nat
    const maxKey: nat
    var top: map<nat, Top>
    var next: map<nat, nat>
    var info: map<nat, Session>
    ghost var chain: map<nat, seq<nat>>
    ghost var place: map<nat, Place>
    ghost var origin: map<nat, seq<nat>>
    ghost var log: seq<Event>

    ghost function View(): State
      reads this
    {
      State(Store(offset, maxKey, top, next, chain, place), info, origin, log)
    }

    /** Stacks start empty; session s starts owning node offset + s and using stack s. */
    constructor (stacks: nat, sessions: nat)
      requires 0 < stacks && sessions <= stacks
      ensures Init(View()) && offset == stacks && maxKey == sessions + stacks
      ensures forall s: nat :: s in info <==> s < sessions
      ensures forall k: nat :: k in chain <==> k < stacks
    {
      offset, maxKey := stacks, sessions + stacks;
      top, next, info := map[], map[], map[];
      chain, place, origin, log := map[], map[], map[], [];
      new;
      SetUpStacks(stacks);
      SetUpSessions(stacks, sessions);
      origin := chain;
      SetUpIsInit(View(), stacks, sessions);
    }

    method SetUpStacks(stacks: nat)
      requires top == map[] && chain == map[]
      modifies this`top, this`chain
      ensures StacksEmpty(top, chain, stacks)
    {
      for k := 0 to stacks
        invariant StacksEmpty(top, chain, k)
      {
        top, chain := top[k := Top(NULL, 0, 0)], chain[k := []];
      }
    }

    method SetUpSessions(stacks: nat, sessions: nat)
      requires StacksEmpty(top, chain, stacks) && sessions <= stacks
      requires next == map[] && place == map[] && info == map[]
      modifies this`info, this`next, this`place
      ensures SessionsFresh(View().mem, info, sessions)
    {
      for s := 0 to sessions
        invariant SessionsFresh(View().mem, info, s)
      {
        AddSession(View().mem, info, s);
        info := info[s := First(offset, s)];
        next, place := next[offset + s := NULL], place[offset + s := HeldBy(s)];
      }
    }

    /** One access of the push state machine. */
    method PushStep(s: nat)
      requires s in info && Owns(info[s].pc)
      modifies this
      ensures forall stack :: View() == Next(old(View()), s, stack)
      ensures old(Inv(View())) ==> PushGoesOn(old(info)[s], info[s], LoadTop(old(top), old(info)[s].stack))
    {
      var x := info[s];
      if Inv(View()) { PushNeverStops(View(), s, 0); }
      match x.pc {
        case PushReadTop =>
          x := PushSees(offset, maxKey, x, LoadTop(top, x.stack));
        case PushWriteNode =>
          next := next[x.owned := x.top.key];
          x := x.(pc := PushCas);
        case PushCas =>
          var newTop := Top(x.owned, x.top.push + 1, x.top.pop);
          var ok, m, seen := Cas(top, x.stack, x.top, newTop);
          top := m;
          if ok {
            if x.stack in chain { chain := chain[x.stack := [x.owned] + chain[x.stack]]; }
            place := place[x.owned := InStack(x.stack)];
            log := log + [Pushed(x.stack, x.owned)];
            x := x.(lastPush := newTop.push, pc := PopReadTop);
          } else {
            x := PushSees(offset, maxKey, x, seen);
          }
      }
      info := info[s := x];
      assert info[s] == Next(old(View()), s, 0).sess[s];
    }

    /** One access of the pop state machine; `stack` is the next stack to work on. */
    method PopStep(s: nat, stack: nat)
      requires s in info && !Owns(info[s].pc)
      modifies this
      ensures View() == Next(old(View()), s, stack)
      ensures old(Inv(View())) ==> PopGoesOn(old(info)[s], info[s], LoadTop(old(top), old(info)[s].stack), stack)
    {
      var x := info[s];
      if Inv(View()) { PopNeverStops(View(), s, stack); }
      match x.pc {
        case PopReadTop =>
          x := PopSees(offset, x, LoadTop(top, x.stack));
        case PopReadNode =>
          x := x.(first := LoadNext(next, x.top.key));
          if (x.top.push == x.top.pop + 1 && x.first != NULL) || (x.top.push > x.top.pop + 1 && x.first == NULL) {
            x := x.(pc := PopReadTop);
          } else {
            x := x.(pc := PopCas);
          }
        case PopCas =>
          var ok, m, seen := Cas(top, x.stack, x.top, Top(x.first, x.top.push, x.top.pop + 1));
          top := m;
          if ok {
            if x.stack in chain && |chain[x.stack]| > 0 { chain := chain[x.stack := chain[x.stack][1..]]; }
            place := place[x.top.key := HeldBy(s)];
            log := log + [Popped(x.stack, x.top.key)];
            x := x.(owned := x.top.key, stack := stack, pc := PushReadTop);
          } else {
            x := PopSees(offset, x, seen);
          }
        case Aborted =>
      }
      info := info[s := x];
    }

    /**
      The main loop over any schedule: the stacks stay last in, first out, the counters of
      every top count its stack, and no assertion fails.
    */
    method PushPullMultiSession(schedule: seq<Move>)
      requires Inv(View())
      requires forall i :: 0 <= i < |schedule| ==> schedule[i].s in info && schedule[i].stack in chain
      modifies this
      ensures Inv(View()) && origin == old(origin) && View() == Played(old(View()), schedule)
      ensures forall k :: k in top ==>
                && Replay(origin, log).Stacks? && k in Replay(origin, log).stacks
                && Replay(origin, log).stacks[k] == NodesOf(View().mem, k)
                && top[k].push == top[k].pop + |NodesOf(View().mem, k)|
      ensures forall s :: s in info ==> info[s].pc != Aborted
    {
      for i := 0 to |schedule|
        invariant Inv(View()) && origin == old(origin) && View() == Played(old(View()), schedule[..i])
        invariant forall s :: s in info <==> s in old(info)
        invariant forall k :: k in chain <==> k in old(chain)
      {
        var mv := schedule[i];
        StepKeepsInv(View(), mv.s, mv.stack);
        StepKeepsOrigin(View(), mv.s, mv.stack);
        PlayedMore(old(View()), schedule, i);
        if Owns(info[mv.s].pc) {
          PushStep(mv.s);
        } else {
          PopStep(mv.s, mv.stack);
        }
      }
      assert schedule[..|schedule|] == schedule;
      forall k | k in top
        ensures k in chain && chain[k] == NodesOf(View().mem, k)
        ensures top[k].push == top[k].pop + |NodesOf(View().mem, k)|
      {
        ChainIsInStore(View(), k);
        CountersCount(View(), k);
      }
      forall s | s in info ensures info[s].pc != Aborted { assert SessOk(View().mem, s, info[s]); }
    }
  }
}
