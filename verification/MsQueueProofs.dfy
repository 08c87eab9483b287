/** Every step of every session keeps the invariant of the queues. */
module MsQueueProofs {
  import opened Common
  import opened MsQueue

  /* --------------------------- Facts about one queue --------------------------- */

  lemma TailInChain(m: Store, q: nat) returns (i: nat)
    requires q in m.chain && ChainOk(m, q)
    ensures i < |m.chain[q]| && m.chain[q][i] == Load(m.tail, q).next && i + 2 >= |m.chain[q]|
    ensures m.chain[q][i] in m.ptr && m.chain[q][i] in m.place && m.place[m.chain[q][i]] == InQueue(q)
    ensures i + 1 == |m.chain[q]| ==> Load(m.ptr, m.chain[q][i]).next == NULL
    ensures i + 1 < |m.chain[q]| ==> m.chain[q][i + 1] == Load(m.ptr, m.chain[q][i]).next
  {
    var c := m.chain[q];
    i := if Load(m.tail, q).next == c[|c| - 1] then |c| - 1 else |c| - 2;
  }

  lemma HeadInChain(m: Store, q: nat)
    requires q in m.chain && ChainOk(m, q)
    ensures |m.chain[q]| > 0 && m.chain[q][0] == Load(m.head, q).next
    ensures m.chain[q][0] in m.ptr && m.chain[q][0] in m.place && m.place[m.chain[q][0]] == InQueue(q)
    ensures |m.chain[q]| >= 2 ==>
              Load(m.ptr, m.chain[q][0]).next == m.chain[q][1] && m.chain[q][1] in m.ptr
  {
  }

  /** A session that owes a dequeue finds at least one linked element behind the dummy. */
  lemma NeverEmpty(m: Store, sess: map<nat, Session>, s: nat)
    requires Counts(m, sess)
    requires s in sess && !Owns(sess[s].pc) && sess[s].queue in m.chain
    ensures |m.chain[sess[s].queue]| >= 2
  {
    assert s in Owing(sess, sess[s].queue);
  }

  /* --------------------------- Bookkeeping of the sessions --------------------------- */

  /** Replacing a session by one of the same standing moves no node and no count. */
  lemma SameStanding(m: Store, sess: map<nat, Session>, s: nat, x: Session)
    requires Places(m, sess) && Counts(m, sess) && s in sess
    requires x.queue == sess[s].queue && Owns(x.pc) == Owns(sess[s].pc)
    requires Owns(x.pc) ==> x.owned == sess[s].owned
    ensures Places(m, sess[s := x]) && Counts(m, sess[s := x])
  {
    forall n | n in m.place ensures PlaceOk(m, sess[s := x], n) {
      assert PlaceOk(m, sess, n);
    }
    forall q | q in m.chain ensures |m.chain[q]| == 1 + |Owing(sess[s := x], q)| {
      assert Owing(sess[s := x], q) == Owing(sess, q);
    }
  }

  /** A step that writes nothing need only keep the stepping session in order. */
  lemma ReadStep(st: State, s: nat, x: Session)
    requires Inv(st) && s in st.sess
    requires x.queue == st.sess[s].queue && Owns(x.pc) == Owns(st.sess[s].pc)
    requires Owns(x.pc) ==> x.owned == st.sess[s].owned
    requires SessOk(st.mem, s, x)
    ensures Inv(Put(st, s, x))
  {
    SameStanding(st.mem, st.sess, s, x);
  }

  /** Joins the parts of the invariant after a step of session s that logs nothing. */
  lemma Assemble(st: State, s: nat, x: Session, m': Store)
    requires Inv(st) && s in st.sess
    requires x.queue == st.sess[s].queue && Owns(x.pc) == Owns(st.sess[s].pc)
    requires Owns(x.pc) ==> x.owned == st.sess[s].owned
    requires Domains(m') && Chains(m') && Sessions(m', st.sess[s := x])
    requires m'.chain == st.mem.chain && m'.place == st.mem.place && Contents(m') == Contents(st.mem)
    ensures Inv(Put(st, s, x).(mem := m'))
  {
    SameStanding(st.mem, st.sess, s, x);
    SameHistory(st.mem, m', st.sess[s := x]);
  }

  /** Places and counts depend only on the history variables. */
  lemma SameHistory(m: Store, m': Store, sess: map<nat, Session>)
    requires Places(m, sess) && Counts(m, sess) && m'.chain == m.chain && m'.place == m.place
    ensures Places(m', sess) && Counts(m', sess)
  {
    forall n | n in m'.place ensures PlaceOk(m', sess, n) { assert PlaceOk(m, sess, n); }
  }

  /* --------------------------- Writes to an owned node --------------------------- */

  lemma ItemsSame(c: seq<nat>, b: map<nat, Body>, b': map<nat, Body>)
    requires forall i :: 0 <= i < |c| ==> LoadBody(b, c[i]) == LoadBody(b', c[i])
    ensures Items(c, b) == Items(c, b')
  {
  }

  /** A held node is in no chain, so writing it leaves every chain as it was. */
  lemma HeldNotInChain(m: Store, q: nat, n: nat)
    requires q in m.chain && ChainOk(m, q) && n in m.place && m.place[n].HeldBy?
    ensures n !in m.chain[q]
  {
  }

  lemma BodyWriteKeepsChains(m: Store, n: nat, b: Body)
    requires Domains(m) && Chains(m) && n in m.place && m.place[n].HeldBy?
    ensures Domains(WithBody(m, n, b)) && Chains(WithBody(m, n, b))
    ensures Contents(WithBody(m, n, b)) == Contents(m)
  {
    forall q | q in m.chain
      ensures ChainOk(WithBody(m, n, b), q)
      ensures Items(m.chain[q], m.body[n := b]) == Items(m.chain[q], m.body)
    {
      assert ChainOk(m, q);
      HeldNotInChain(m, q, n);
      ItemsSame(m.chain[q], m.body, m.body[n := b]);
    }
  }

  lemma PtrWriteKeepsChains(m: Store, n: nat, p: Ptr)
    requires Domains(m) && Chains(m) && n in m.place && m.place[n].HeldBy?
    ensures Domains(WithPtr(m, n, p)) && Chains(WithPtr(m, n, p))
    ensures Contents(WithPtr(m, n, p)) == Contents(m)
  {
    forall q | q in m.chain ensures ChainOk(WithPtr(m, n, p), q) {
      assert ChainOk(m, q);
      HeldNotInChain(m, q, n);
    }
  }

  lemma BodyWriteKeepsSession(m: Store, n: nat, b: Body, t: nat, y: Session)
    requires Domains(m) && Chains(m) && n in m.place && m.place[n].HeldBy? && m.place[n] != HeldBy(t)
    requires SessOk(m, t, y)
    ensures SessOk(WithBody(m, n, b), t, y)
  {
    HeadInChain(m, y.queue);
  }

  lemma PtrWriteKeepsSession(m: Store, n: nat, p: Ptr, t: nat, y: Session)
    requires Domains(m) && Chains(m) && n in m.place && m.place[n].HeldBy? && m.place[n] != HeldBy(t)
    requires p.next == NULL && p.counter == Load(m.ptr, n).counter
    requires SessOk(m, t, y)
    ensures SessOk(WithPtr(m, n, p), t, y)
  {
    HeadInChain(m, y.queue);
    var i := TailInChain(m, y.queue);
  }

  lemma BodyWriteKeepsSessions(m: Store, sess: map<nat, Session>, s: nat, x: Session, n: nat, b: Body)
    requires Domains(m) && Chains(m) && Sessions(m, sess)
    requires n in m.place && m.place[n] == HeldBy(s) && SessOk(WithBody(m, n, b), s, x)
    ensures Sessions(WithBody(m, n, b), sess[s := x])
  {
    var sess' := sess[s := x];
    forall t | t in sess' ensures SessOk(WithBody(m, n, b), t, sess'[t]) {
      if t != s {
        assert SessOk(m, t, sess[t]);
        BodyWriteKeepsSession(m, n, b, t, sess[t]);
      }
    }
  }

  lemma PtrWriteKeepsSessions(m: Store, sess: map<nat, Session>, s: nat, x: Session, n: nat, p: Ptr)
    requires Domains(m) && Chains(m) && Sessions(m, sess)
    requires n in m.place && m.place[n] == HeldBy(s) && SessOk(WithPtr(m, n, p), s, x)
    requires p.next == NULL && p.counter == Load(m.ptr, n).counter
    ensures Sessions(WithPtr(m, n, p), sess[s := x])
  {
    var sess' := sess[s := x];
    forall t | t in sess' ensures SessOk(WithPtr(m, n, p), t, sess'[t]) {
      if t != s {
        assert SessOk(m, t, sess[t]);
        PtrWriteKeepsSession(m, n, p, t, sess[t]);
      }
    }
  }

  lemma KeepWriteBody(st: State, s: nat, ch: Choice)
    requires Inv(st) && s in st.sess && st.sess[s].pc == WriteBody
    ensures Inv(StepWriteBody(st, s, ch))
  {
    var st' := StepWriteBody(st, s, ch);
    var x, m := st.sess[s], st.mem;
    var n, b := x.owned, Body(x.owned, ch.value);
    assert SessOk(m, s, x);
    BodyWriteKeepsChains(m, n, b);
    BodyWriteKeepsSessions(m, st.sess, s, st'.sess[s], n, b);
    Assemble(st, s, st'.sess[s], st'.mem);
  }

  lemma KeepResetPtr(st: State, s: nat)
    requires Inv(st) && s in st.sess && st.sess[s].pc == ResetPtr
    ensures Inv(StepResetPtr(st, s))
  {
    var st' := StepResetPtr(st, s);
    var x, m := st.sess[s], st.mem;
    var n, p := x.owned, x.ptr.(next := NULL);
    assert SessOk(m, s, x);
    PtrWriteKeepsChains(m, n, p);
    PtrWriteKeepsSessions(m, st.sess, s, st'.sess[s], n, p);
    Assemble(st, s, st'.sess[s], st'.mem);
  }

  /* --------------------------- Swaps of a tail --------------------------- */

  lemma TailMoves(m: Store, q: nat, p: Ptr)
    requires Domains(m) && Chains(m) && q in m.chain && p.next != NULL
    requires Load(m.ptr, Load(m.tail, q).next).next == p.next
    ensures Chains(WithTail(m, q, p)) && p.next != Load(m.head, q).next
    ensures Domains(WithTail(m, q, p)) && Contents(WithTail(m, q, p)) == Contents(m)
  {
    var i := TailInChain(m, q);
    assert p.next == m.chain[q][i + 1] != m.chain[q][0];
    forall k | k in m.chain ensures ChainOk(WithTail(m, q, p), k) { assert ChainOk(m, k); }
  }

  lemma TailMoveKeepsSessions(m: Store, sess: map<nat, Session>, s: nat, x: Session, q: nat, p: Ptr)
    requires Domains(m) && Chains(m) && Sessions(m, sess)
    requires q in m.chain && p.next != NULL && SessOk(WithTail(m, q, p), s, x)
    requires Load(m.ptr, Load(m.tail, q).next).next == p.next != Load(m.head, q).next
    requires p.counter == Load(m.tail, q).counter + 1
    ensures Sessions(WithTail(m, q, p), sess[s := x])
  {
    var sess' := sess[s := x];
    forall t | t in sess' ensures SessOk(WithTail(m, q, p), t, sess'[t]) {
      if t != s {
        assert SessOk(m, t, sess[t]);
      }
    }
  }

  lemma KeepTailCas(st: State, s: nat, next: nat, after: Pc)
    requires Inv(st) && s in st.sess
    requires Seen(st.mem.tail, st.sess[s].queue, st.sess[s].tail) && HelpReady(st.mem, st.sess[s], next)
    requires after in {ReadTail, ReadHead} && Owns(after) == Owns(st.sess[s].pc)
    requires after == ReadTail ==> Reset(st.mem, st.sess[s])
    ensures Inv(TailCas(st, s, next, after))
  {
    var st' := TailCas(st, s, next, after);
    var x, m := st.sess[s], st.mem;
    var q, p := x.queue, Ptr(next, x.tail.counter + 1);
    assert SessOk(m, s, x);
    if Load(m.tail, q) != x.tail {
      ReadStep(st, s, st'.sess[s]);
    } else {
      TailMoves(m, q, p);
      TailMoveKeepsSessions(m, st.sess, s, st'.sess[s], q, p);
      Assemble(st, s, st'.sess[s], st'.mem);
    }
  }

  /* --------------------------- The linking swap --------------------------- */

  /** Node n ends queue q, its tail is there, and `own` is a held node reset to null. */
  ghost predicate CanLink(m: Store, q: nat, n: nat, own: nat) {
    && q in m.chain && |m.chain[q]| > 0 && m.chain[q][|m.chain[q]| - 1] == n
    && Load(m.tail, q).next == n && n in m.ptr
    && own in m.place && m.place[own].HeldBy? && own in m.ptr && m.ptr[own].next == NULL
  }

  lemma LinkExtends(m: Store, q: nat, n: nat, own: nat, counter: nat)
    requires CanLink(m, q, n, own) && ChainOk(m, q)
    ensures ChainOk(WithLink(m, q, n, own, counter), q)
  {
    var m' := WithLink(m, q, n, own, counter);
    HeldNotInChain(m, q, own);
    var c, c' := m.chain[q], m'.chain[q];
    assert c' == c + [own];
    forall i, j | 0 <= i < j < |c'| && j == i + 1 ensures Load(m'.ptr, c'[i]).next == c'[j] {
      if j < |c| { assert Load(m.ptr, c[i]).next == c[j]; }
    }
  }

  lemma LinkElsewhere(m: Store, q: nat, n: nat, own: nat, counter: nat, k: nat)
    requires CanLink(m, q, n, own) && ChainOk(m, q) && k in m.chain && ChainOk(m, k) && k != q
    ensures ChainOk(WithLink(m, q, n, own, counter), k)
  {
    var c := m.chain[k];
    forall i | 0 <= i < |c| ensures c[i] != n && c[i] != own {
      assert m.place[c[i]] == InQueue(k);
    }
  }

  lemma LinkKeepsDomains(m: Store, q: nat, n: nat, own: nat, counter: nat)
    requires Domains(m) && CanLink(m, q, n, own)
    ensures Domains(WithLink(m, q, n, own, counter))
    ensures WithLink(m, q, n, own, counter).chain.Keys == m.chain.Keys
  {
  }

  lemma LinkKeepsChains(m: Store, q: nat, n: nat, own: nat, counter: nat)
    requires Domains(m) && Chains(m) && CanLink(m, q, n, own)
    ensures Domains(WithLink(m, q, n, own, counter)) && Chains(WithLink(m, q, n, own, counter))
  {
    var m' := WithLink(m, q, n, own, counter);
    LinkKeepsDomains(m, q, n, own, counter);
    assert ChainOk(m, q);
    forall k | k in m.chain ensures ChainOk(m', k) {
      if k == q { LinkExtends(m, q, n, own, counter); } else { LinkElsewhere(m, q, n, own, counter, k); }
    }
  }

  lemma LinkKeepsSession(m: Store, q: nat, n: nat, own: nat, t: nat, y: Session)
    requires Domains(m) && Chains(m) && CanLink(m, q, n, own) && m.place[own] != HeldBy(t)
    requires SessOk(m, t, y)
    ensures SessOk(WithLink(m, q, n, own, Load(m.ptr, n).counter + 1), t, y)
  {
    assert ChainOk(m, q);
    assert ChainOk(m, y.queue);
    assert m.place[n] == InQueue(q);
    if y.pc == LinkCas && y.last.counter == m.ptr[y.tail.next].counter {
      assert m.place[y.tail.next] == InQueue(y.queue);
    }
  }

  lemma LinkKeepsSessions(m: Store, sess: map<nat, Session>, s: nat, x: Session, q: nat, n: nat, own: nat)
    requires Domains(m) && Chains(m) && Sessions(m, sess)
    requires CanLink(m, q, n, own) && m.place[own] == HeldBy(s)
    requires SessOk(WithLink(m, q, n, own, Load(m.ptr, n).counter + 1), s, x)
    ensures Sessions(WithLink(m, q, n, own, Load(m.ptr, n).counter + 1), sess[s := x])
  {
    var sess' := sess[s := x];
    forall t | t in sess' ensures SessOk(WithLink(m, q, n, own, Load(m.ptr, n).counter + 1), t, sess'[t]) {
      if t != s {
        assert SessOk(m, t, sess[t]);
        LinkKeepsSession(m, q, n, own, t, sess[t]);
      }
    }
  }

  lemma LinkMovesNode(m: Store, sess: map<nat, Session>, s: nat, x: Session, n: nat, counter: nat)
    requires Places(m, sess) && Counts(m, sess) && s in sess && Owns(sess[s].pc) && !Owns(x.pc)
    requires x.owned == sess[s].owned && x.queue == sess[s].queue && x.queue in m.chain
    ensures Places(WithLink(m, x.queue, n, x.owned, counter), sess[s := x])
    ensures Counts(WithLink(m, x.queue, n, x.owned, counter), sess[s := x])
  {
    var m', sess' := WithLink(m, x.queue, n, x.owned, counter), sess[s := x];
    forall k | k in m'.place ensures PlaceOk(m', sess', k) {
      if k != x.owned {
        assert PlaceOk(m, sess, k);
      } else {
        assert m'.chain[x.queue][|m.chain[x.queue]|] == k;
      }
    }
    forall q | q in m'.chain ensures |m'.chain[q]| == 1 + |Owing(sess', q)| {
      if q == x.queue {
        assert Owing(sess', q) == Owing(sess, q) + {s};
      } else {
        assert Owing(sess', q) == Owing(sess, q);
      }
    }
  }

  /** If the link swap succeeds, the session's node really goes behind the last node. */
  lemma LinkSucceeds(st: State, s: nat)
    requires Inv(st) && s in st.sess && st.sess[s].pc == LinkCas
    requires Load(st.mem.ptr, st.sess[s].tail.next) == st.sess[s].last
    ensures var x, m := st.sess[s], st.mem;
            && CanLink(m, x.queue, x.tail.next, x.owned)
            && x.last.next == NULL && m.place[x.owned] == HeldBy(s) && LoadBody(m.body, x.owned) == x.body
            && x.tail.next in m.reuses && m.reuses[x.tail.next] == x.epoch
  {
    assert SessOk(st.mem, s, st.sess[s]);
  }

  lemma LinkAppends(m: Store, q: nat, n: nat, own: nat, counter: nat, b: Body)
    requires q in m.chain && LoadBody(m.body, own) == b
    ensures Allowed(Contents(m), Enqueued(q, Item(own, b)))
    ensures Contents(WithLink(m, q, n, own, counter)) == Apply(Contents(m), Enqueued(q, Item(own, b)))
  {
    var c := m.chain[q];
    assert Items(c + [own], m.body) == Items(c, m.body) + [Item(own, b)];
  }

  lemma KeepLinkCas(st: State, s: nat)
    requires Inv(st) && s in st.sess && st.sess[s].pc == LinkCas
    ensures Inv(StepLinkCas(st, s))
  {
    var x := st.sess[s];
    assert SessOk(st.mem, s, x);
    if Load(st.mem.ptr, x.tail.next) != x.last {
      ReadStep(st, s, StepLinkCas(st, s).sess[s]);
    } else {
      LinkKeepsInv(st, s);
    }
  }

  /** Session s is about to make a link swap that succeeds. */
  predicate Links(st: State, s: nat) {
    && s in st.sess && st.sess[s].pc == LinkCas
    && Load(st.mem.ptr, st.sess[s].tail.next) == st.sess[s].last
  }

  lemma LinkedChains(st: State, s: nat)
    requires Inv(st) && Links(st, s)
    ensures var st' := StepLinkCas(st, s); Domains(st'.mem) && Chains(st'.mem)
  {
    var x := st.sess[s];
    LinkSucceeds(st, s);
    LinkKeepsChains(st.mem, x.queue, x.tail.next, x.owned, x.last.counter + 1);
  }

  lemma LinkedPlaces(st: State, s: nat)
    requires Inv(st) && Links(st, s)
    ensures var st' := StepLinkCas(st, s); Places(st'.mem, st'.sess) && Counts(st'.mem, st'.sess)
  {
    var x := st.sess[s];
    LinkSucceeds(st, s);
    LinkMovesNode(st.mem, st.sess, s, x.(pc := SwingCas), x.tail.next, x.last.counter + 1);
  }

  lemma LinkedSessions(st: State, s: nat)
    requires Inv(st) && Links(st, s)
    ensures var st' := StepLinkCas(st, s); Sessions(st'.mem, st'.sess)
  {
    var x := st.sess[s];
    assert SessOk(st.mem, s, x);
    LinkSucceeds(st, s);
    LinkKeepsSessions(st.mem, st.sess, s, x.(pc := SwingCas), x.queue, x.tail.next, x.owned);
  }

  lemma LinkKeepsInv(st: State, s: nat)
    requires Inv(st) && Links(st, s)
    ensures Inv(StepLinkCas(st, s))
  {
    LinkedChains(st, s);
    LinkedPlaces(st, s);
    LinkedSessions(st, s);
    LinkReplays(st, s);
  }

  /** A link that succeeds is logged as the enqueue that it is. */
  lemma LinkReplays(st: State, s: nat)
    requires Inv(st) && s in st.sess && st.sess[s].pc == LinkCas
    requires Load(st.mem.ptr, st.sess[s].tail.next) == st.sess[s].last
    ensures var st' := StepLinkCas(st, s); Replays(st'.mem, st'.origin, st'.log)
  {
    var x, st' := st.sess[s], StepLinkCas(st, s);
    LinkSucceeds(st, s);
    LinkAppends(st.mem, x.queue, x.tail.next, x.owned, x.last.counter + 1, x.body);
    assert st'.log[..|st'.log| - 1] == st.log;
  }

  /* --------------------------- The head swing --------------------------- */

  /** Node n heads queue q and the tail has moved on from it to `next` or further. */
  ghost predicate CanSwing(m: Store, q: nat, n: nat, next: nat) {
    && q in m.chain && |m.chain[q]| >= 2 && m.chain[q][0] == n && m.chain[q][1] == next
    && Load(m.tail, q).next != n && n in m.ptr && n in m.place && m.place[n] == InQueue(q)
    && n in m.reuses
  }

  lemma SwingShortens(m: Store, q: nat, n: nat, p: Ptr, s: nat)
    requires CanSwing(m, q, n, p.next) && ChainOk(m, q)
    ensures ChainOk(WithHead(m, q, n, p, s), q)
  {
    var m' := WithHead(m, q, n, p, s);
    var c, c' := m.chain[q], m'.chain[q];
    assert c' == c[1..];
    forall i, j | 0 <= i < j < |c'| && j == i + 1 ensures Load(m'.ptr, c'[i]).next == c'[j] {
      assert c'[i] == c[i + 1] && c'[j] == c[j + 1];
    }
    forall i | 0 <= i < |c'| ensures c'[i] == c[i + 1] != n {}
  }

  lemma SwingElsewhere(m: Store, q: nat, n: nat, p: Ptr, s: nat, k: nat)
    requires CanSwing(m, q, n, p.next) && k in m.chain && ChainOk(m, k) && k != q
    ensures ChainOk(WithHead(m, q, n, p, s), k)
  {
    var c := m.chain[k];
    forall i | 0 <= i < |c| ensures c[i] != n {
      assert m.place[c[i]] == InQueue(k);
    }
  }

  lemma SwingKeepsDomains(m: Store, q: nat, n: nat, p: Ptr, s: nat)
    requires Domains(m) && CanSwing(m, q, n, p.next)
    ensures Domains(WithHead(m, q, n, p, s))
    ensures WithHead(m, q, n, p, s).chain.Keys == m.chain.Keys
  {
  }

  lemma SwingKeepsChains(m: Store, q: nat, n: nat, p: Ptr, s: nat)
    requires Domains(m) && Chains(m) && CanSwing(m, q, n, p.next)
    ensures Domains(WithHead(m, q, n, p, s)) && Chains(WithHead(m, q, n, p, s))
  {
    var m' := WithHead(m, q, n, p, s);
    SwingKeepsDomains(m, q, n, p, s);
    assert ChainOk(m, q);
    forall k | k in m.chain ensures ChainOk(m', k) {
      if k == q { SwingShortens(m, q, n, p, s); } else { SwingElsewhere(m, q, n, p, s, k); }
    }
  }

  lemma SwingKeepsSession(m: Store, q: nat, n: nat, p: Ptr, s: nat, t: nat, y: Session)
    requires Domains(m) && Chains(m) && CanSwing(m, q, n, p.next) && t != s
    requires p.counter == Load(m.head, q).counter + 1
    requires SessOk(m, t, y)
    ensures SessOk(WithHead(m, q, n, p, s), t, y)
  {
    assert ChainOk(m, q);
    assert ChainOk(m, y.queue);
    var i := TailInChain(m, y.queue);
  }

  lemma SwingKeepsSessions(m: Store, sess: map<nat, Session>, s: nat, x: Session, q: nat, n: nat, p: Ptr)
    requires Domains(m) && Chains(m) && Sessions(m, sess)
    requires CanSwing(m, q, n, p.next) && p.counter == Load(m.head, q).counter + 1
    requires SessOk(WithHead(m, q, n, p, s), s, x)
    ensures Sessions(WithHead(m, q, n, p, s), sess[s := x])
  {
    var sess' := sess[s := x];
    forall t | t in sess' ensures SessOk(WithHead(m, q, n, p, s), t, sess'[t]) {
      if t != s {
        assert SessOk(m, t, sess[t]);
        SwingKeepsSession(m, q, n, p, s, t, sess[t]);
      }
    }
  }

  lemma SwingMovesNode(m: Store, sess: map<nat, Session>, s: nat, x: Session, q: nat, n: nat, p: Ptr)
    requires Places(m, sess) && CanSwing(m, q, n, p.next)
    requires s in sess && !Owns(sess[s].pc) && Owns(x.pc) && x.owned == n
    ensures Places(WithHead(m, q, n, p, s), sess[s := x])
  {
    var m', sess' := WithHead(m, q, n, p, s), sess[s := x];
    forall k | k in m'.place ensures PlaceOk(m', sess', k) {
      assert PlaceOk(m, sess, k);
      assert m.chain[q] == [n] + m.chain[q][1..];
    }
  }

  lemma SwingPaysDebt(m: Store, sess: map<nat, Session>, s: nat, x: Session, q: nat, n: nat, p: Ptr)
    requires Counts(m, sess) && CanSwing(m, q, n, p.next)
    requires s in sess && sess[s].queue == q && !Owns(sess[s].pc) && Owns(x.pc)
    ensures Counts(WithHead(m, q, n, p, s), sess[s := x])
  {
    var m', sess' := WithHead(m, q, n, p, s), sess[s := x];
    forall k | k in m'.chain ensures |m'.chain[k]| == 1 + |Owing(sess', k)| {
      if k == q {
        assert s in Owing(sess, k);
        assert Owing(sess', k) == Owing(sess, k) - {s};
      } else {
        assert Owing(sess', k) == Owing(sess, k);
      }
    }
  }

  /** If the head swap succeeds, it installs the true second node and detaches the first. */
  lemma HeadSucceeds(st: State, s: nat)
    requires Inv(st) && s in st.sess && st.sess[s].pc == HeadCas
    requires Load(st.mem.head, st.sess[s].queue) == st.sess[s].head
    ensures var x, m := st.sess[s], st.mem;
            && CanSwing(m, x.queue, x.head.next, x.ptr.next) && x.ptr.next != NULL
            && Load(m.ptr, x.head.next) == x.ptr && LoadBody(m.body, x.head.next) == x.body
  {
    assert SessOk(st.mem, s, st.sess[s]);
    NeverEmpty(st.mem, st.sess, s);
    HeadInChain(st.mem, st.sess[s].queue);
  }

  lemma SwingRemoves(m: Store, q: nat, n: nat, p: Ptr, s: nat, b: Body)
    requires CanSwing(m, q, n, p.next) && LoadBody(m.body, n) == b
    ensures Allowed(Contents(m), Dequeued(q, Item(n, b)))
    ensures Contents(WithHead(m, q, n, p, s)) == Apply(Contents(m), Dequeued(q, Item(n, b)))
  {
    var c := m.chain[q];
    assert Items(c[1..], m.body) == Items(c, m.body)[1..];
  }

  lemma KeepHeadCas(st: State, s: nat, ch: Choice)
    requires Inv(st) && s in st.sess && st.sess[s].pc == HeadCas && ch.queue in st.mem.chain
    ensures Inv(StepHeadCas(st, s, ch))
  {
    var x := st.sess[s];
    assert SessOk(st.mem, s, x);
    if Load(st.mem.head, x.queue) != x.head {
      ReadStep(st, s, StepHeadCas(st, s, ch).sess[s]);
    } else {
      SwingKeepsInv(st, s, ch);
    }
  }

  /** Session s is about to make a head swap that succeeds. */
  predicate Swings(st: State, s: nat) {
    && s in st.sess && st.sess[s].pc == HeadCas
    && Load(st.mem.head, st.sess[s].queue) == st.sess[s].head
  }

  lemma SwungChains(st: State, s: nat, ch: Choice)
    requires Inv(st) && Swings(st, s) && ch.queue in st.mem.chain
    ensures var st' := StepHeadCas(st, s, ch); Domains(st'.mem) && Chains(st'.mem)
  {
    var x := st.sess[s];
    HeadSucceeds(st, s);
    SwingKeepsChains(st.mem, x.queue, x.head.next, Ptr(x.ptr.next, x.head.counter + 1), s);
  }

  lemma SwungPlaces(st: State, s: nat, ch: Choice)
    requires Inv(st) && Swings(st, s) && ch.queue in st.mem.chain
    ensures var st' := StepHeadCas(st, s, ch); Places(st'.mem, st'.sess) && Counts(st'.mem, st'.sess)
  {
    var x, x' := st.sess[s], StepHeadCas(st, s, ch).sess[s];
    var p := Ptr(x.ptr.next, x.head.counter + 1);
    HeadSucceeds(st, s);
    SwingMovesNode(st.mem, st.sess, s, x', x.queue, x.head.next, p);
    SwingPaysDebt(st.mem, st.sess, s, x', x.queue, x.head.next, p);
  }

  lemma SwungSessions(st: State, s: nat, ch: Choice)
    requires Inv(st) && Swings(st, s) && ch.queue in st.mem.chain
    ensures var st' := StepHeadCas(st, s, ch); Sessions(st'.mem, st'.sess)
  {
    var x := st.sess[s];
    assert SessOk(st.mem, s, x);
    HeadSucceeds(st, s);
    SwingKeepsSessions(st.mem, st.sess, s, StepHeadCas(st, s, ch).sess[s], x.queue, x.head.next,
                       Ptr(x.ptr.next, x.head.counter + 1));
  }

  lemma SwingKeepsInv(st: State, s: nat, ch: Choice)
    requires Inv(st) && Swings(st, s) && ch.queue in st.mem.chain
    ensures Inv(StepHeadCas(st, s, ch))
  {
    SwungChains(st, s, ch);
    SwungPlaces(st, s, ch);
    SwungSessions(st, s, ch);
    HeadReplays(st, s, ch);
  }

  /** A head swing that succeeds is logged as the dequeue that it is. */
  lemma HeadReplays(st: State, s: nat, ch: Choice)
    requires Inv(st) && s in st.sess && st.sess[s].pc == HeadCas
    requires Load(st.mem.head, st.sess[s].queue) == st.sess[s].head
    ensures var st' := StepHeadCas(st, s, ch); Replays(st'.mem, st'.origin, st'.log)
  {
    var x, st' := st.sess[s], StepHeadCas(st, s, ch);
    HeadSucceeds(st, s);
    SwingRemoves(st.mem, x.queue, x.head.next, Ptr(x.ptr.next, x.head.counter + 1), s, x.body);
    assert st'.log[..|st'.log| - 1] == st.log;
  }

  /* --------------------------- All steps --------------------------- */

  /** What the reading steps of an enqueue establish for the session that takes them. */
  lemma EnqueueReadsAreOk(m: Store, s: nat, x: Session)
    requires Domains(m) && SessOk(m, s, x) && ChainOk(m, x.queue)
    ensures x.pc == ReadTail ==> SessOk(m, s, AfterReadTail(m, x))
    ensures x.pc == ReadLast ==> SessOk(m, s, AfterReadLast(m, x))
    ensures x.pc == RereadTail ==> SessOk(m, s, AfterRereadTail(m, x))
  {
    var i := TailInChain(m, x.queue);
  }

  /** The same for a dequeue, which relies on a second node in the chain. */
  lemma DequeueReadsAreOk(m: Store, s: nat, x: Session)
    requires Domains(m) && SessOk(m, s, x) && ChainOk(m, x.queue)
    requires !Owns(x.pc) ==> |m.chain[x.queue]| >= 2
    ensures x.pc == ReadHead ==> SessOk(m, s, AfterReadHead(m, x))
    ensures x.pc == ReadTailToo ==> SessOk(m, s, AfterReadTailToo(m, x))
    ensures x.pc == ReadFirst ==> SessOk(m, s, AfterReadFirst(m, x))
    ensures x.pc == RereadHead ==> SessOk(m, s, AfterRereadHead(m, x))
    ensures x.pc == ReadBody ==> SessOk(m, s, AfterReadBody(m, x))
  {
    HeadInChain(m, x.queue);
  }

  /** Every step of every session keeps the invariant. */
  lemma StepKeepsInv(st: State, s: nat, ch: Choice)
    requires Inv(st) && s in st.sess && ch.queue in st.mem.chain
    ensures Inv(Next(st, s, ch))
  {
    var x, m := st.sess[s], st.mem;
    assert SessOk(m, s, x);
    EnqueueReadsAreOk(m, s, x);
    if !Owns(x.pc) { NeverEmpty(m, st.sess, s); }
    DequeueReadsAreOk(m, s, x);
    match x.pc
    case WriteBody => KeepWriteBody(st, s, ch);
    case ResetPtr => KeepResetPtr(st, s);
    case ReadTail => ReadStep(st, s, AfterReadTail(m, x));
    case ReadLast => ReadStep(st, s, AfterReadLast(m, x));
    case RereadTail => ReadStep(st, s, AfterRereadTail(m, x));
    case LinkCas => KeepLinkCas(st, s);
    case HelpCas => KeepTailCas(st, s, x.last.next, ReadTail);
    case SwingCas => KeepTailCas(st, s, x.owned, ReadHead);
    case ReadHead => ReadStep(st, s, AfterReadHead(m, x));
    case ReadTailToo => ReadStep(st, s, AfterReadTailToo(m, x));
    case ReadFirst => ReadStep(st, s, AfterReadFirst(m, x));
    case RereadHead => ReadStep(st, s, AfterRereadHead(m, x));
    case DeqHelpCas => KeepTailCas(st, s, x.ptr.next, ReadHead);
    case ReadBody => ReadStep(st, s, AfterReadBody(m, x));
    case HeadCas => KeepHeadCas(st, s, ch);
  }
}
