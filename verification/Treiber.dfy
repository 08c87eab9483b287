/**
  The Treiber stacks of the client library: each session pushes the node it owns on a stack
  and then pops some node from it. Nodes are reused; the push and pop counters in the top
  stop a stale compare-and-swap.
*/
module Treiber {
  import opened Common

  /** The part of `struct top` that is compared. */
  datatype Top = Top(key: nat, push: nat, pop: nat)

  /** One program point per access of the store. `Aborted` is a failed assertion. */
  datatype Pc = PushReadTop | PushWriteNode | PushCas | PopReadTop | PopReadNode | PopCas | Aborted

  datatype Session = Session(
    pc: Pc, stack: nat, owned: nat, top: Top, first: nat, lastPush: nat)

  datatype Place = InStack(k: nat) | HeldBy(s: nat)

  datatype Event = Pushed(k: nat, n: nat) | Popped(k: nat, n: nat)

  /**
    Tops per stack and next pointers per node. Node keys range from `offset` to `maxKey`. The
    chains and places are history variables that no step reads.
  */
  datatype Store = Store(
    offset: nat, maxKey: nat, top: map<nat, Top>, next: map<nat, nat>,
    chain: map<nat, seq<nat>>, place: map<nat, Place>)

  datatype State = State(
    mem: Store, sess: map<nat, Session>, origin: map<nat, seq<nat>>, log: seq<Event>)

  function LoadTop(m: map<nat, Top>, k: nat): Top {
    if k in m then m[k] else Top(NULL, 0, 0)
  }

  function LoadNext(m: map<nat, nat>, n: nat): nat {
    if n in m then m[n] else NULL
  }

  /* --------------------------- The sequential stacks --------------------------- */

  predicate Allowed(stacks: map<nat, seq<nat>>, e: Event) {
    e.k in stacks && (e.Popped? ==> |stacks[e.k]| > 0 && stacks[e.k][0] == e.n)
  }

  function Apply(stacks: map<nat, seq<nat>>, e: Event): map<nat, seq<nat>>
    requires Allowed(stacks, e)
  {
    match e
    case Pushed(k, n) => stacks[k := [n] + stacks[k]]
    case Popped(k, n) => stacks[k := stacks[k][1..]]
  }

  datatype Replayed = Illegal | Stacks(stacks: map<nat, seq<nat>>)

  function Replay(start: map<nat, seq<nat>>, log: seq<Event>): Replayed {
    if log == [] then Stacks(start)
    else
      match Replay(start, log[..|log| - 1])
      case Illegal => Illegal
      case Stacks(stacks) =>
        if Allowed(stacks, log[|log| - 1]) then Stacks(Apply(stacks, log[|log| - 1])) else Illegal
  }

  /* --------------------------- Steps --------------------------- */

  /** `check_top` with assertions enabled. */
  predicate CheckTop(offset: nat, t: Top) {
    && (t.push == t.pop ==> t.key == NULL)
    && (t.push > t.pop ==> t.key >= offset)
  }

  /** The assertions of a push on the top it has read, on its node, and on the top it will install. */
  predicate PushChecks(offset: nat, maxKey: nat, t: Top, owned: nat) {
    && offset <= owned <= maxKey && (t.key == NULL || offset <= t.key <= maxKey)
    && CheckTop(offset, t)
    && CheckTop(offset, Top(owned, t.push + 1, t.pop))
    && (t.push + 1 == t.pop ==> owned == NULL)
  }

  /** The assertion of a pop on the top it has read. */
  predicate PopChecks(offset: nat, t: Top, lastPush: nat) {
    t.key >= offset && lastPush <= t.push
  }

  /** Whether the pop gives up on the node it has read because it cannot belong to the top. */
  predicate Rejects(t: Top, first: nat) {
    || (t.push == t.pop + 1 && first != NULL)
    || (t.push > t.pop + 1 && first == NULL)
  }

  function WithNext(m: Store, n: nat, next: nat): Store {
    m.(next := m.next[n := next])
  }

  function WithPush(m: Store, k: nat, n: nat, t: Top): Store {
    m.(top := m.top[k := t], place := m.place[n := InStack(k)],
       chain := if k in m.chain then m.chain[k := [n] + m.chain[k]] else m.chain)
  }

  function WithPop(m: Store, k: nat, n: nat, t: Top, s: nat): Store {
    m.(top := m.top[k := t], place := m.place[n := HeldBy(s)],
       chain := if k in m.chain && |m.chain[k]| > 0 then m.chain[k := m.chain[k][1..]] else m.chain)
  }

  function Put(st: State, s: nat, x: Session): State {
    st.(sess := st.sess[s := x])
  }

  /** The push has `t` as its top, read or left by a failed swap. */
  function PushSees(offset: nat, maxKey: nat, x: Session, t: Top): Session {
    x.(top := t, pc := if PushChecks(offset, maxKey, t, x.owned) then PushWriteNode else Aborted)
  }

  /** The pop has `t` as its top, read or left by a failed swap. */
  function PopSees(offset: nat, x: Session, t: Top): Session {
    x.(top := t, pc := if PopChecks(offset, t, x.lastPush) then PopReadNode else Aborted)
  }

  function StepPushWriteNode(st: State, s: nat): State
    requires s in st.sess
  {
    var x := st.sess[s];
    Put(st, s, x.(pc := PushCas)).(mem := WithNext(st.mem, x.owned, x.top.key))
  }

  function StepPushCas(st: State, s: nat): State
    requires s in st.sess
  {
    var x, m := st.sess[s], st.mem;
    if LoadTop(m.top, x.stack) == x.top then
      Put(st, s, x.(pc := PopReadTop, lastPush := x.top.push + 1)).(
        mem := WithPush(m, x.stack, x.owned, Top(x.owned, x.top.push + 1, x.top.pop)),
        log := st.log + [Pushed(x.stack, x.owned)])
    else
      Put(st, s, PushSees(m.offset, m.maxKey, x, LoadTop(m.top, x.stack)))
  }

  function AfterPopReadNode(next: map<nat, nat>, x: Session): Session {
    var first := LoadNext(next, x.top.key);
    x.(first := first, pc := if Rejects(x.top, first) then PopReadTop else PopCas)
  }

  /** A successful pop owns the old top and picks its next stack. */
  function StepPopCas(st: State, s: nat, stack: nat): State
    requires s in st.sess
  {
    var x, m := st.sess[s], st.mem;
    if LoadTop(m.top, x.stack) == x.top then
      Put(st, s, x.(pc := PushReadTop, owned := x.top.key, stack := stack)).(
        mem := WithPop(m, x.stack, x.top.key, Top(x.first, x.top.push, x.top.pop + 1), s),
        log := st.log + [Popped(x.stack, x.top.key)])
    else
      Put(st, s, PopSees(m.offset, x, LoadTop(m.top, x.stack)))
  }

  function Next(st: State, s: nat, stack: nat): State
    requires s in st.sess
  {
    var x, m := st.sess[s], st.mem;
    match x.pc
    case PushReadTop => Put(st, s, PushSees(m.offset, m.maxKey, x, LoadTop(m.top, x.stack)))
    case PushWriteNode => StepPushWriteNode(st, s)
    case PushCas => StepPushCas(st, s)
    case PopReadTop => Put(st, s, PopSees(m.offset, x, LoadTop(m.top, x.stack)))
    case PopReadNode => Put(st, s, AfterPopReadNode(m.next, x))
    case PopCas => StepPopCas(st, s, stack)
    case Aborted => st
  }

  /* --------------------------- The invariant --------------------------- */

  predicate Owns(pc: Pc) {
    pc.PushReadTop? || pc.PushWriteNode? || pc.PushCas?
  }

  ghost predicate Domains(m: Store) {
    && m.top.Keys == m.chain.Keys
    && m.next.Keys == m.place.Keys
    && m.offset > 0
    && forall n :: n in m.next ==> m.offset <= n <= m.maxKey
  }

  ghost predicate Linked(next: map<nat, nat>, c: seq<nat>) {
    && (forall i, j :: 0 <= i < j < |c| && j == i + 1 ==> LoadNext(next, c[i]) == c[j])
    && (|c| > 0 ==> LoadNext(next, c[|c| - 1]) == NULL)
  }

  /** Stack k is its chain, and the counters of its top count the chain. */
  ghost predicate ChainOk(m: Store, k: nat)
    requires k in m.chain
  {
    var c, t := m.chain[k], LoadTop(m.top, k);
    && Distinct(c)
    && Linked(m.next, c)
    && (forall i :: 0 <= i < |c| ==> c[i] in m.place && m.place[c[i]] == InStack(k))
    && t.key == (if c == [] then NULL else c[0])
    && t.push == t.pop + |c|
  }

  ghost predicate Chains(m: Store) {
    forall k {:trigger ChainOk(m, k)} :: k in m.chain ==> ChainOk(m, k)
  }

  ghost predicate PlaceOk(m: Store, sess: map<nat, Session>, n: nat)
    requires n in m.place
  {
    match m.place[n]
    case InStack(k) => k in m.chain && n in m.chain[k]
    case HeldBy(s) => s in sess && Owns(sess[s].pc) && sess[s].owned == n
  }

  ghost predicate Places(m: Store, sess: map<nat, Session>) {
    forall n {:trigger PlaceOk(m, sess, n)} :: n in m.place ==> PlaceOk(m, sess, n)
  }

  /** The sessions that have pushed on stack k and not yet popped. */
  function Owing(sess: map<nat, Session>, k: nat): set<nat> {
    set s | s in sess && sess[s].stack == k && !Owns(sess[s].pc)
  }

  ghost predicate Counts(m: Store, sess: map<nat, Session>) {
    forall k {:trigger Owing(sess, k)} :: k in m.chain ==> |m.chain[k]| == |Owing(sess, k)|
  }

  /** Both counters only grow, and a top is determined by them. */
  predicate Seen(m: Store, x: Session) {
    var t := LoadTop(m.top, x.stack);
    && x.top.push <= t.push && x.top.pop <= t.pop
    && (x.top.push == t.push && x.top.pop == t.pop ==> x.top == t)
  }

  ghost predicate SessOk(m: Store, s: nat, x: Session) {
    && x.stack in m.chain
    && (Owns(x.pc) ==> x.owned in m.place && m.place[x.owned] == HeldBy(s))
    && match x.pc
       case PushReadTop => true
       case PushWriteNode => Seen(m, x)
       case PushCas => Seen(m, x) && LoadNext(m.next, x.owned) == x.top.key
       case PopReadTop => x.lastPush <= LoadTop(m.top, x.stack).push
       case PopReadNode => Seen(m, x) && x.lastPush <= x.top.push
       case PopCas => Seen(m, x) && x.lastPush <= x.top.push
                      && (LoadTop(m.top, x.stack) == x.top ==> LoadNext(m.next, x.top.key) == x.first)
       case Aborted => false
  }

  ghost predicate Sessions(m: Store, sess: map<nat, Session>) {
    forall s {:trigger SessOk(m, s, sess[s])} :: s in sess ==> SessOk(m, s, sess[s])
  }

  ghost predicate Inv(st: State) {
    && Domains(st.mem)
    && Chains(st.mem)
    && Places(st.mem, st.sess)
    && Counts(st.mem, st.sess)
    && Sessions(st.mem, st.sess)
    && Replay(st.origin, st.log) == Stacks(st.mem.chain)
  }

  /* --------------------------- Steps that only read --------------------------- */

  lemma SameStanding(m: Store, sess: map<nat, Session>, s: nat, x: Session)
    requires Places(m, sess) && Counts(m, sess) && s in sess
    requires x.stack == sess[s].stack && Owns(x.pc) == Owns(sess[s].pc)
    requires Owns(x.pc) ==> x.owned == sess[s].owned
    ensures Places(m, sess[s := x]) && Counts(m, sess[s := x])
  {
    var sess' := sess[s := x];
    forall n | n in m.place ensures PlaceOk(m, sess', n) { assert PlaceOk(m, sess, n); }
    forall k | k in m.chain ensures |m.chain[k]| == |Owing(sess', k)| {
      assert Owing(sess', k) == Owing(sess, k);
    }
  }

  lemma ReadStep(st: State, s: nat, x: Session)
    requires Inv(st) && s in st.sess
    requires x.stack == st.sess[s].stack && Owns(x.pc) == Owns(st.sess[s].pc)
    requires Owns(x.pc) ==> x.owned == st.sess[s].owned
    requires SessOk(st.mem, s, x)
    ensures Inv(Put(st, s, x))
  {
    SameStanding(st.mem, st.sess, s, x);
    var sess' := st.sess[s := x];
    forall t | t in sess' ensures SessOk(st.mem, t, sess'[t]) {
      if t != s { assert SessOk(st.mem, t, st.sess[t]); }
    }
  }

  /** The assertions of a push hold of the top that is current when it reads it. */
  lemma PushChecksHold(m: Store, s: nat, x: Session)
    requires Domains(m) && Chains(m) && SessOk(m, s, x) && Owns(x.pc)
    ensures PushChecks(m.offset, m.maxKey, LoadTop(m.top, x.stack), x.owned)
  {
    assert ChainOk(m, x.stack);
  }

  /** The assertion of a pop holds of the top that is current when it reads it. */
  lemma PopChecksHold(st: State, s: nat)
    requires Inv(st) && s in st.sess && !Owns(st.sess[s].pc)
    ensures var x, m := st.sess[s], st.mem; PopChecks(m.offset, LoadTop(m.top, x.stack), x.lastPush)
  {
    var x, m := st.sess[s], st.mem;
    assert SessOk(m, s, x);
    assert ChainOk(m, x.stack);
    assert s in Owing(st.sess, x.stack);
  }

  /** While a top is current, its second node is what the store says. */
  lemma SecondNode(m: Store, k: nat)
    requires k in m.chain && ChainOk(m, k) && m.chain[k] != []
    ensures var c, t := m.chain[k], LoadTop(m.top, k);
            && LoadNext(m.next, t.key) == (if |c| == 1 then NULL else c[1])
  {
  }

  /* --------------------------- Writing the owned node --------------------------- */

  lemma KeepPushWriteNode(st: State, s: nat)
    requires Inv(st) && s in st.sess && st.sess[s].pc == PushWriteNode
    ensures Inv(StepPushWriteNode(st, s))
  {
    var st' := StepPushWriteNode(st, s);
    var x, m, m' := st.sess[s], st.mem, st'.mem;
    assert SessOk(m, s, x);
    WriteKeepsChains(m, x.owned, x.top.key);
    SameStanding(m, st.sess, s, st'.sess[s]);
    forall n | n in m'.place ensures PlaceOk(m', st'.sess, n) { assert PlaceOk(m, st'.sess, n); }
    forall t | t in st'.sess ensures SessOk(m', t, st'.sess[t]) {
      assert SessOk(m, t, st.sess[t]);
      if t != s { WriteKeepsSession(m, x.owned, x.top.key, t, st.sess[t]); }
    }
  }

  lemma WriteKeepsChains(m: Store, n: nat, next: nat)
    requires Domains(m) && Chains(m) && n in m.place && m.place[n].HeldBy?
    ensures Domains(WithNext(m, n, next)) && Chains(WithNext(m, n, next))
  {
    forall k | k in m.chain ensures ChainOk(WithNext(m, n, next), k) {
      assert ChainOk(m, k);
      assert n !in m.chain[k];
    }
  }

  lemma WriteKeepsSession(m: Store, n: nat, next: nat, t: nat, y: Session)
    requires Chains(m) && n in m.place && m.place[n].HeldBy? && m.place[n] != HeldBy(t) && NULL !in m.place
    requires SessOk(m, t, y)
    ensures SessOk(WithNext(m, n, next), t, y)
  {
    assert ChainOk(m, y.stack);
  }

  /* --------------------------- The pushing swap --------------------------- */

  lemma PushKeepsChains(m: Store, k: nat, n: nat, t: Top)
    requires Domains(m) && Chains(m) && k in m.chain
    requires n in m.place && m.place[n].HeldBy? && LoadNext(m.next, n) == LoadTop(m.top, k).key
    requires t == Top(n, LoadTop(m.top, k).push + 1, LoadTop(m.top, k).pop)
    ensures Domains(WithPush(m, k, n, t)) && Chains(WithPush(m, k, n, t))
  {
    var m' := WithPush(m, k, n, t);
    forall j | j in m'.chain ensures ChainOk(m', j) {
      assert ChainOk(m, j);
      var c, c' := m.chain[j], m'.chain[j];
      assert n !in c;
      if j == k {
        assert c' == [n] + c;
        forall a, b | 0 <= a < b < |c'| && b == a + 1 ensures LoadNext(m'.next, c'[a]) == c'[b] {
          if a > 0 { assert c'[a] == c[a - 1] && c'[b] == c[b - 1]; }
        }
      }
    }
  }

  lemma TopMoveKeepsSession(m: Store, m': Store, k: nat, t: nat, y: Session)
    requires SessOk(m, t, y) && k in m.chain && k in m'.top
    requires m'.next == m.next && m'.top == m.top[k := m'.top[k]]
    requires forall j :: j in m.chain ==> j in m'.chain
    requires forall n :: n in m.place && m.place[n] == HeldBy(t) ==> n in m'.place && m'.place[n] == HeldBy(t)
    requires LoadTop(m.top, k).push <= m'.top[k].push && LoadTop(m.top, k).pop <= m'.top[k].pop
    requires LoadTop(m.top, k).push < m'.top[k].push || LoadTop(m.top, k).pop < m'.top[k].pop
    ensures SessOk(m', t, y)
  {
  }

  lemma PushMovesNode(m: Store, sess: map<nat, Session>, s: nat, x: Session, t: Top)
    requires Places(m, sess) && Counts(m, sess) && s in sess && Owns(sess[s].pc) && !Owns(x.pc)
    requires x.owned == sess[s].owned && x.stack == sess[s].stack && x.stack in m.chain
    ensures Places(WithPush(m, x.stack, x.owned, t), sess[s := x])
    ensures Counts(WithPush(m, x.stack, x.owned, t), sess[s := x])
  {
    var m', sess' := WithPush(m, x.stack, x.owned, t), sess[s := x];
    forall n | n in m'.place ensures PlaceOk(m', sess', n) {
      if n != x.owned { assert PlaceOk(m, sess, n); } else { assert m'.chain[x.stack][0] == n; }
    }
    forall k | k in m'.chain ensures |m'.chain[k]| == |Owing(sess', k)| {
      if k == x.stack {
        assert Owing(sess', k) == Owing(sess, k) + {s};
      } else {
        assert Owing(sess', k) == Owing(sess, k);
      }
    }
  }

  lemma KeepPushCas(st: State, s: nat)
    requires Inv(st) && s in st.sess && st.sess[s].pc == PushCas
    ensures Inv(StepPushCas(st, s))
  {
    var st' := StepPushCas(st, s);
    var x, m, m' := st.sess[s], st.mem, st'.mem;
    assert SessOk(m, s, x);
    if LoadTop(m.top, x.stack) != x.top {
      PushChecksHold(m, s, x);
      ReadStep(st, s, st'.sess[s]);
    } else {
      var t := Top(x.owned, x.top.push + 1, x.top.pop);
      PushKeepsChains(m, x.stack, x.owned, t);
      PushMovesNode(m, st.sess, s, st'.sess[s], t);
      forall u | u in st'.sess ensures SessOk(m', u, st'.sess[u]) {
        assert SessOk(m, u, st.sess[u]);
        if u != s { TopMoveKeepsSession(m, m', x.stack, u, st.sess[u]); }
      }
      assert st'.log[..|st'.log| - 1] == st.log;
    }
  }

  /* --------------------------- The popping swap --------------------------- */

  /** If the pop swap succeeds, its node is the top and `first` is the true second node. */
  lemma PopSucceeds(st: State, s: nat)
    requires Inv(st) && s in st.sess && st.sess[s].pc == PopCas
    requires LoadTop(st.mem.top, st.sess[s].stack) == st.sess[s].top
    ensures var x := st.sess[s]; x.stack in st.mem.chain
    ensures var x, c := st.sess[s], st.mem.chain[st.sess[s].stack];
            && |c| > 0 && x.top.key == c[0] && x.first == (if |c| == 1 then NULL else c[1])
  {
    var x := st.sess[s];
    assert SessOk(st.mem, s, x);
    assert ChainOk(st.mem, x.stack);
    assert s in Owing(st.sess, x.stack);
    SecondNode(st.mem, x.stack);
  }

  lemma PopKeepsChains(m: Store, k: nat, n: nat, t: Top, s: nat)
    requires Domains(m) && Chains(m) && k in m.chain && |m.chain[k]| > 0 && m.chain[k][0] == n
    requires t.key == (if |m.chain[k]| == 1 then NULL else m.chain[k][1])
    requires t.push == LoadTop(m.top, k).push && t.pop == LoadTop(m.top, k).pop + 1
    ensures Domains(WithPop(m, k, n, t, s)) && Chains(WithPop(m, k, n, t, s))
  {
    var m' := WithPop(m, k, n, t, s);
    assert ChainOk(m, k);
    forall j | j in m'.chain ensures ChainOk(m', j) {
      assert ChainOk(m, j);
      var c, c' := m.chain[j], m'.chain[j];
      if j == k {
        forall a, b | 0 <= a < b < |c'| && b == a + 1 ensures LoadNext(m'.next, c'[a]) == c'[b] {
          assert c'[a] == c[a + 1] && c'[b] == c[b + 1];
        }
        forall i | 0 <= i < |c'| ensures c'[i] == c[i + 1] != n {}
      } else {
        forall i | 0 <= i < |c| ensures c[i] != n { assert m.place[c[i]] == InStack(j); }
      }
    }
  }

  lemma PopMovesNode(m: Store, sess: map<nat, Session>, s: nat, x: Session, k: nat, t: Top)
    requires Places(m, sess) && Counts(m, sess) && s in sess && !Owns(sess[s].pc) && Owns(x.pc)
    requires sess[s].stack == k && k in m.chain && |m.chain[k]| > 0 && x.owned == m.chain[k][0]
    requires x.owned in m.place && m.place[x.owned] == InStack(k)
    ensures Places(WithPop(m, k, x.owned, t, s), sess[s := x])
    ensures Counts(WithPop(m, k, x.owned, t, s), sess[s := x])
  {
    var m', sess' := WithPop(m, k, x.owned, t, s), sess[s := x];
    assert m.chain[k] == [x.owned] + m.chain[k][1..];
    forall n | n in m'.place ensures PlaceOk(m', sess', n) { assert PlaceOk(m, sess, n); }
    forall j | j in m'.chain ensures |m'.chain[j]| == |Owing(sess', j)| {
      if j == k {
        assert s in Owing(sess, j);
        assert Owing(sess', j) == Owing(sess, j) - {s};
      } else {
        assert Owing(sess', j) == Owing(sess, j);
      }
    }
  }

  lemma KeepPopCas(st: State, s: nat, stack: nat)
    requires Inv(st) && s in st.sess && st.sess[s].pc == PopCas && stack in st.mem.chain
    ensures Inv(StepPopCas(st, s, stack))
  {
    var st' := StepPopCas(st, s, stack);
    var x, m, m' := st.sess[s], st.mem, st'.mem;
    assert SessOk(m, s, x);
    assert ChainOk(m, x.stack);
    if LoadTop(m.top, x.stack) != x.top {
      PopChecksHold(st, s);
      ReadStep(st, s, st'.sess[s]);
    } else {
      PopSucceeds(st, s);
      var t := Top(x.first, x.top.push, x.top.pop + 1);
      PopKeepsChains(m, x.stack, x.top.key, t, s);
      PopMovesNode(m, st.sess, s, st'.sess[s], x.stack, t);
      forall u | u in st'.sess ensures SessOk(m', u, st'.sess[u]) {
        assert SessOk(m, u, st.sess[u]);
        if u != s { TopMoveKeepsSession(m, m', x.stack, u, st.sess[u]); }
      }
      assert st'.log[..|st'.log| - 1] == st.log;
    }
  }

  /* --------------------------- All steps --------------------------- */

  /** Every step of every session keeps the invariant. */
  lemma StepKeepsInv(st: State, s: nat, stack: nat)
    requires Inv(st) && s in st.sess && stack in st.mem.chain
    ensures Inv(Next(st, s, stack))
  {
    var x, m := st.sess[s], st.mem;
    assert SessOk(m, s, x);
    match x.pc
    case PushReadTop =>
      PushChecksHold(m, s, x);
      ReadStep(st, s, PushSees(m.offset, m.maxKey, x, LoadTop(m.top, x.stack)));
    case PushWriteNode => KeepPushWriteNode(st, s);
    case PushCas => KeepPushCas(st, s);
    case PopReadTop =>
      PopChecksHold(st, s);
      ReadStep(st, s, PopSees(m.offset, x, LoadTop(m.top, x.stack)));
    case PopReadNode => ReadStep(st, s, AfterPopReadNode(m.next, x));
    case PopCas => KeepPopCas(st, s, stack);
  }
}
