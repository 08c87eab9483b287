/**
  The clients of the queue as the program runs them: one array of session records updated
  in place, and a main loop that steps one session after another.
*/
module MsClients {
  import opened Common
  import opened MsQueue
  import opened MsQueueProgress
  import opened MsQueueProofs
  import opened MsQueueTheorems

  /** The weak compare-and-swap of the clients: it fails only on a mismatch, and reports the value found. */
  method Cas(m: map<nat, Ptr>, k: nat, expected: Ptr, desired: Ptr)
    returns (ok: bool, m': map<nat, Ptr>, seen: Ptr)
    ensures ok <==> Load(m, k) == expected
    ensures m' == if ok then m[k := desired] else m
    ensures seen == Load(m, k)
  {
    seen := Load(m, k);
    ok := seen == expected;
    m' := m;
    if ok { m' := m'[k := desired]; }
  }

  predicate Enqueuing(pc: Pc) {
    Owns(pc) || pc.SwingCas?
  }

  class Clients {
    var tail: map<nat, Ptr>
    var head: map<nat, Ptr>
    var ptr: map<nat, Ptr>
    var body: map<nat, Body>
    var info: map<nat, Session>
    var reuses: map<nat, nat>  // history: copied to a session's `epoch`, never tested
    ghost var chain: map<nat, seq<nat>>
    ghost var place: map<nat, Place>
    ghost var origin: map<nat, seq<Item>>
    ghost var log: seq<Event>

    ghost function View(): State
      reads this
    {
      State(Store(tail, head, ptr, body, chain, place, reuses), info, origin, log)
    }

    /** Queue q starts as the dummy node q + 1; session s starts owning node queues + s + 1. */
    constructor (queues: nat, sessions: nat)
      requires sessions <= queues
      ensures Init(View())
      ensures forall s: nat :: s in info <==> s < sessions
      ensures forall q: nat :: q in chain <==> q < queues
    {
      tail, head, ptr, body, info := map[], map[], map[], map[], map[];
      chain, place, reuses, origin, log := map[], map[], map[], map[], [];
      new;
      SetUpTailAndHead(queues);
      SetUpSessions(queues, sessions);
      origin := Contents(View().mem);
      SetUpIsInit(queues, sessions, View());
    }

    method SetUpTailAndHead(queues: nat)
      requires View().mem == Dummies(0)
      modifies this`tail, this`head, this`ptr, this`body, this`chain, this`place, this`reuses
      ensures View().mem == Dummies(queues)
    {
      var dummyKey := 1;
      for q := 0 to queues
        invariant dummyKey == q + 1 && View().mem == Dummies(q)
      {
        SetUpQueue(q, dummyKey);
        dummyKey := dummyKey + 1;
      }
    }

    method SetUpQueue(q: nat, dummyKey: nat)
      requires dummyKey == q + 1
      modifies this`tail, this`head, this`ptr, this`body, this`chain, this`place, this`reuses
      ensures View().mem == WithDummy(old(View().mem), q)
    {
      tail := tail[q := Ptr(dummyKey, 0)];
      head := head[q := Ptr(dummyKey, 0)];
      ptr := ptr[dummyKey := Ptr(NULL, 1)];
      body := body[dummyKey := Body(NULL, [])];
      chain, place, reuses := chain[q := [q + 1]], place[q + 1 := InQueue(q)], reuses[q + 1 := 0];
    }

    method SetUpSessions(queues: nat, sessions: nat)
      requires View().mem == Dummies(queues) && info == map[]
      modifies this`info, this`ptr, this`body, this`place, this`reuses
      ensures View().mem == WithSessions(queues, sessions) && info == Records(queues, sessions)
    {
      for s := 0 to sessions
        invariant View().mem == WithSessions(queues, s) && info == Records(queues, s)
      {
        SetUpSession(queues, s);
      }
    }

    method SetUpSession(queues: nat, s: nat)
      modifies this`info, this`ptr, this`body, this`place, this`reuses
      ensures View().mem == WithHeld(old(View().mem), queues + s + 1, s)
      ensures info == old(info)[s := First(queues, s)]
    {
      info := info[s := First(queues, s)];
      ptr := ptr[queues + s + 1 := Ptr(NULL, 0)];
      body := body[queues + s + 1 := Body(NULL, [])];
      place, reuses := place[queues + s + 1 := HeldBy(s)], reuses[queues + s + 1 := 0];
    }

    /** One access of the enqueue state machine. */
    method EnqueueStep(s: nat, value: seq<int>)
      requires s in info && Enqueuing(info[s].pc)
      modifies this
      ensures View() == Next(old(View()), s, Choice(value, 0))
      ensures old(info)[s].pc == WriteBody ==>
                body == old(body)[old(info)[s].owned := Body(old(info)[s].owned, value)]
      ensures info[s].owned == old(info)[s].owned && info[s].queue == old(info)[s].queue
      ensures info[s].body == BodyFor(old(info)[s], Choice(value, 0))
    {
      var x := info[s];
      var ok, seen, m;
      match x.pc {
        case WriteBody =>
          x := x.(body := Body(x.owned, value), pc := ResetPtr);
          body := body[x.owned := x.body];
        case ResetPtr =>
          x := x.(ptr := x.ptr.(next := NULL), pc := ReadTail);
          ptr := ptr[x.owned := x.ptr];
        case ReadTail =>
          x := x.(tail := Load(tail, x.queue), pc := ReadLast);
        case ReadLast =>
          x := x.(last := Load(ptr, x.tail.next), pc := RereadTail,
                  epoch := if x.tail.next in reuses then reuses[x.tail.next] else 0);
        case RereadTail =>
          seen := Load(tail, x.queue);
          if seen != x.tail {
            x := x.(pc := ReadTail);
          } else if x.last.next == NULL {
            x := x.(pc := LinkCas);
          } else {
            x := x.(pc := HelpCas);
          }
        case LinkCas =>
          ok, m, seen := Cas(ptr, x.tail.next, x.last, Ptr(x.owned, x.last.counter + 1));
          ptr := m;
          if ok {
            x := x.(pc := SwingCas);
            chain := PushChain(chain, x.queue, x.owned);
            place := place[x.owned := InQueue(x.queue)];
            log := log + [Enqueued(x.queue, Item(x.owned, x.body))];
          } else {
            x := x.(last := seen, pc := ReadTail);
          }
        case HelpCas =>
          ok, m, seen := Cas(tail, x.queue, x.tail, Ptr(x.last.next, x.tail.counter + 1));
          tail, x := m, x.(tail := seen, pc := ReadTail);
        case SwingCas =>
          ok, m, seen := Cas(tail, x.queue, x.tail, Ptr(x.owned, x.tail.counter + 1));
          tail, x := m, x.(tail := seen, pc := ReadHead);
      }
      info := info[s := x];
    }

    /** One access of the dequeue state machine; `queue` is the next queue to work on. */
    method DequeueStep(s: nat, queue: nat)
      requires s in info && !Enqueuing(info[s].pc)
      modifies this
      ensures View() == Next(old(View()), s, Choice([], queue))
    {
      var x := info[s];
      var ok, seen, m;
      match x.pc {
        case ReadHead =>
          x := x.(head := Load(head, x.queue), pc := ReadTailToo);
        case ReadTailToo =>
          x := x.(tail := Load(tail, x.queue), pc := ReadFirst);
        case ReadFirst =>
          x := x.(ptr := Load(ptr, x.head.next), pc := RereadHead);
        case RereadHead =>
          seen := Load(head, x.queue);
          if seen != x.head {
            x := x.(pc := ReadHead);
          } else if x.head.next == x.tail.next {
            x := x.(pc := DeqHelpCas);
          } else {
            x := x.(pc := ReadBody);
          }
        case DeqHelpCas =>
          ok, m, seen := Cas(tail, x.queue, x.tail, Ptr(x.ptr.next, x.tail.counter + 1));
          tail, x := m, x.(tail := seen, pc := ReadHead);
        case ReadBody =>
          x := x.(body := LoadBody(body, x.head.next), pc := HeadCas);
        case HeadCas =>
          SwingHead(s, queue);
          return;
      }
      info := info[s := x];
    }

    /** The head swing of a dequeue; on success the session owns the old first node. */
    method SwingHead(s: nat, queue: nat)
      requires s in info && info[s].pc == HeadCas
      modifies this
      ensures View() == StepHeadCas(old(View()), s, Choice([], queue))
    {
      var x := info[s];
      var ok, m, seen := Cas(head, x.queue, x.head, Ptr(x.ptr.next, x.head.counter + 1));
      head := m;
      if ok {
        var n := x.head.next;
        chain := PopChain(chain, x.queue);
        place := place[n := HeldBy(s)];
        reuses := CountReuse(reuses, n);
        log := log + [Dequeued(x.queue, Item(n, x.body))];
        x := x.(owned := n, queue := queue, pc := WriteBody);
      } else {
        x := x.(head := seen, pc := ReadHead);
      }
      info := info[s := x];
    }

    /**
      The main loop over any schedule of sessions: the queues stay first in, first out, and
      what was enqueued and dequeued on a queue accounts for exactly the nodes it holds.
    */
    method EnqueueDequeueMultiSession(schedule: seq<Move>)
      requires Inv(View())
      requires forall i :: 0 <= i < |schedule| ==> schedule[i].s in info && schedule[i].choice.queue in origin
      modifies this
      ensures Inv(View()) && origin == old(origin) && View() == Played(old(View()), schedule)
      ensures forall q :: q in origin ==>
                DequeuedOn(log, q) + Items(NodesOf(View().mem, q), body) == origin[q] + EnqueuedOn(log, q)
    {
      for i := 0 to |schedule|
        invariant Inv(View()) && origin == old(origin) && View() == Played(old(View()), schedule[..i])
        invariant forall t :: t in info <==> t in old(info)
      {
        var mv := schedule[i];
        ghost var before := View();
        OriginHasAllQueues(before, mv.choice.queue);
        StepKeepsInv(before, mv.s, mv.choice);
        StepKeepsSessions(before, mv.s, mv.choice);
        StepKeepsOrigin(before, mv.s, mv.choice);
        ChoiceMatters(before, mv.s, mv.choice);
        PlayedMore(old(View()), schedule, i);
        if Enqueuing(info[mv.s].pc) {
          EnqueueStep(mv.s, mv.choice.value);
        } else {
          DequeueStep(mv.s, mv.choice.queue);
        }
      }
      assert schedule[..|schedule|] == schedule;
      forall q | q in origin
        ensures DequeuedOn(log, q) + Items(NodesOf(View().mem, q), body) == origin[q] + EnqueuedOn(log, q)
      {
        OriginHasAllQueues(View(), q);
        LegalLogIsFifo(origin, log, q);
        ChainIsInStore(View(), q);
      }
    }
  }

  /** No session comes or goes. */
  lemma StepKeepsSessions(st: State, s: nat, ch: Choice)
    requires s in st.sess
    ensures forall t :: t in Next(st, s, ch).sess <==> t in st.sess
  {
  }

  lemma {:induction false} ReplayKeepsQueues(qs0: map<nat, seq<Item>>, log: seq<Event>)
    requires Replay(qs0, log).Queues?
    ensures Replay(qs0, log).qs.Keys == qs0.Keys
  {
    if log != [] { ReplayKeepsQueues(qs0, log[..|log| - 1]); }
  }

  /** No queue comes or goes. */
  lemma OriginHasAllQueues(st: State, q: nat)
    requires Inv(st)
    ensures q in st.mem.chain <==> q in st.origin
  {
    ReplayKeepsQueues(st.origin, st.log);
    assert q in Contents(st.mem) <==> q in st.mem.chain;
  }

  /** An enqueue uses only the value of a choice, a dequeue only its queue. */
  lemma ChoiceMatters(st: State, s: nat, ch: Choice)
    requires s in st.sess
    ensures Next(st, s, ch) ==
            Next(st, s, if Enqueuing(st.sess[s].pc) then Choice(ch.value, 0) else Choice([], ch.queue))
  {
  }

  /* --------------------------- Set-up --------------------------- */

  /** Queues 0 to `queues` - 1 and nodes 1 to `nodes` are set up. */
  ghost predicate SetUp(m: Store, sess: map<nat, Session>, queues: nat, nodes: nat) {
    Domains(m) && Numbered(m, queues, nodes) && QueuesSetUp(m) && Places(m, sess)
  }

  ghost predicate Numbered(m: Store, queues: nat, nodes: nat) {
    && (forall q :: q in m.chain ==> q < queues) && (forall q: nat :: q < queues ==> q in m.chain)
    && (forall n :: n in m.ptr ==> 0 < n <= nodes) && (forall n :: 0 < n <= nodes ==> n in m.ptr)
  }

  ghost predicate SessionsSetUp(m: Store, sess: map<nat, Session>, queues: nat, sessions: nat) {
    && (forall s: nat :: s in sess <==> s < sessions)
    && (forall s {:trigger InitSession(m, s, sess[s])} :: s in sess ==>
          sess[s] == First(queues, s) && InitSession(m, s, sess[s]))
  }

  /** The record of session s before its first step. */
  function First(queues: nat, s: nat): Session {
    Session(WriteBody, s, queues + s + 1, Ptr(NULL, 0), Ptr(NULL, 0), Ptr(NULL, 0), Ptr(NULL, 0),
            Body(NULL, []), 0)
  }

  function WithDummy(m: Store, q: nat): Store {
    Store(m.tail[q := Ptr(q + 1, 0)], m.head[q := Ptr(q + 1, 0)], m.ptr[q + 1 := Ptr(NULL, 1)],
          m.body[q + 1 := Body(NULL, [])], m.chain[q := [q + 1]], m.place[q + 1 := InQueue(q)],
          m.reuses[q + 1 := 0])
  }

  function WithHeld(m: Store, n: nat, s: nat): Store {
    m.(ptr := m.ptr[n := Ptr(NULL, 0)], body := m.body[n := Body(NULL, [])],
       place := m.place[n := HeldBy(s)], reuses := m.reuses[n := 0])
  }

  /** The store after setting up queues 0 to q - 1. */
  function Dummies(q: nat): Store {
    if q == 0 then Store(map[], map[], map[], map[], map[], map[], map[])
    else WithDummy(Dummies(q - 1), q - 1)
  }

  /** The store after also setting up sessions 0 to s - 1. */
  function WithSessions(queues: nat, s: nat): Store {
    if s == 0 then Dummies(queues) else WithHeld(WithSessions(queues, s - 1), queues + s, s - 1)
  }

  function Records(queues: nat, s: nat): map<nat, Session> {
    if s == 0 then map[] else Records(queues, s - 1)[s - 1 := First(queues, s - 1)]
  }

  lemma {:induction false} DummiesSetUp(q: nat)
    ensures SetUp(Dummies(q), map[], q, q)
  {
    if q == 0 {
    } else {
      DummiesSetUp(q - 1);
      AddDummy(Dummies(q - 1), map[], q - 1);
    }
  }

  lemma {:induction false} AllSetUp(queues: nat, s: nat)
    requires s <= queues
    ensures SetUp(WithSessions(queues, s), Records(queues, s), queues, queues + s)
    ensures SessionsSetUp(WithSessions(queues, s), Records(queues, s), queues, s)
  {
    if s == 0 {
      DummiesSetUp(queues);
    } else {
      AllSetUp(queues, s - 1);
      AddSession(WithSessions(queues, s - 1), Records(queues, s - 1), queues, s - 1);
    }
  }

  /** The set-up loops establish the initial state of the protocol. */
  lemma SetUpIsInit(queues: nat, sessions: nat, st: State)
    requires sessions <= queues
    requires st == State(WithSessions(queues, sessions), Records(queues, sessions), Contents(st.mem), [])
    ensures Init(st)
    ensures forall s: nat :: s in st.sess <==> s < sessions
    ensures forall q: nat :: q in st.mem.chain <==> q < queues
  {
    AllSetUp(queues, sessions);
  }

  lemma AddDummy(m: Store, sess: map<nat, Session>, q: nat)
    requires SetUp(m, sess, q, q)
    ensures SetUp(WithDummy(m, q), sess, q + 1, q + 1)
  {
    PlacesWithDummy(m, sess, q);
    QueuesWithDummy(m, q);
  }

  lemma QueuesWithDummy(m: Store, q: nat)
    requires QueuesSetUp(m) && q !in m.chain && q + 1 !in m.ptr && q + 1 !in m.place
    ensures QueuesSetUp(WithDummy(m, q))
  {
    var m' := WithDummy(m, q);
    forall k | k in m'.chain ensures InitQueue(m', k) {
      if k != q { assert InitQueue(m, k); }
    }
  }

  lemma QueuesWithHeld(m: Store, n: nat, s: nat)
    requires QueuesSetUp(m) && n !in m.ptr && n !in m.place
    ensures QueuesSetUp(WithHeld(m, n, s))
  {
    var m' := WithHeld(m, n, s);
    forall k | k in m'.chain ensures InitQueue(m', k) { assert InitQueue(m, k); }
  }

  lemma PlacesWithDummy(m: Store, sess: map<nat, Session>, q: nat)
    requires Places(m, sess) && q !in m.chain && q + 1 !in m.place
    ensures Places(WithDummy(m, q), sess)
  {
    var m' := WithDummy(m, q);
    forall n | n in m'.place ensures PlaceOk(m', sess, n) {
      if n != q + 1 { assert PlaceOk(m, sess, n); }
    }
  }

  lemma PlacesWithHeld(m: Store, sess: map<nat, Session>, n: nat, s: nat, x: Session)
    requires Places(m, sess) && s !in sess && n !in m.place && Owns(x.pc) && x.owned == n
    ensures Places(WithHeld(m, n, s), sess[s := x])
  {
    var m', sess' := WithHeld(m, n, s), sess[s := x];
    forall k | k in m'.place ensures PlaceOk(m', sess', k) {
      if k != n { assert PlaceOk(m, sess, k); }
    }
  }

  lemma SessionsWithHeld(m: Store, sess: map<nat, Session>, queues: nat, s: nat)
    requires SessionsSetUp(m, sess, queues, s) && s in m.chain
    ensures SessionsSetUp(WithHeld(m, queues + s + 1, s), sess[s := First(queues, s)], queues, s + 1)
  {
    var m', sess' := WithHeld(m, queues + s + 1, s), sess[s := First(queues, s)];
    forall k | k in sess' ensures sess'[k] == First(queues, k) && InitSession(m', k, sess'[k]) {
      if k != s { assert InitSession(m, k, sess[k]); }
    }
  }

  lemma AddSession(m: Store, sess: map<nat, Session>, queues: nat, s: nat)
    requires SetUp(m, sess, queues, queues + s) && SessionsSetUp(m, sess, queues, s) && s < queues
    ensures SetUp(WithHeld(m, queues + s + 1, s), sess[s := First(queues, s)], queues, queues + s + 1)
    ensures SessionsSetUp(WithHeld(m, queues + s + 1, s), sess[s := First(queues, s)], queues, s + 1)
  {
    var n := queues + s + 1;
    PlacesWithHeld(m, sess, n, s, First(queues, s));
    SessionsWithHeld(m, sess, queues, s);
    QueuesWithHeld(m, n, s);
  }
}
