/**
  The Michael & Scott queue of the client library: many sessions run the enqueue and
  dequeue state machines over one shared key-value store, each step making exactly one
  access (read, write or compare-and-swap). Nodes are reused by whichever session
  dequeues them, so a stale compare-and-swap must be stopped by the counters.
*/
module MsQueue {
  import opened Common

  /** The part of `ms_ptr` that is compared and followed. */
  datatype Ptr = Ptr(next: nat, counter: nat)

  /** The body of a node: the key that owns it and the client's bytes. */
  datatype Body = Body(nodeId: nat, value: seq<int>)

  datatype Item = Item(node: nat, body: Body)

  /** Program counter of a session, one value per store access. */
  datatype Pc =
    | WriteBody | ResetPtr | ReadTail | ReadLast | RereadTail | LinkCas | HelpCas | SwingCas
    | ReadHead | ReadTailToo | ReadFirst | RereadHead | DeqHelpCas | ReadBody | HeadCas

  /** A session: `owned` is meaningful only while it owns a node. `ptr` is `owned_node_ptr`. */
  datatype Session = Session(
    pc: Pc, queue: nat, owned: nat, tail: Ptr, last: Ptr, head: Ptr, ptr: Ptr, body: Body,
    epoch: nat)

  /** Where a node is. */
  datatype Place = InQueue(q: nat) | HeldBy(s: nat)

  /** The linearization points: a successful link and a successful head swing. */
  datatype Event = Enqueued(q: nat, item: Item) | Dequeued(q: nat, item: Item)

  /**
    The key-value store: tails and heads per queue, pointers and bodies per node. The last
    three are history variables that no step reads: the chain of every queue, the place and
    the number of reuses of every node.
  */
  datatype Store = Store(
    tail: map<nat, Ptr>, head: map<nat, Ptr>, ptr: map<nat, Ptr>, body: map<nat, Body>,
    chain: map<nat, seq<nat>>, place: map<nat, Place>, reuses: map<nat, nat>)

  /** `origin` (the contents at the start) and `log` (the events since) are history too. */
  datatype State = State(
    mem: Store, sess: map<nat, Session>, origin: map<nat, seq<Item>>, log: seq<Event>)

  /** What the client supplies to a step: bytes for the next body, the next queue to use. */
  datatype Choice = Choice(value: seq<int>, queue: nat)

  function Load(m: map<nat, Ptr>, k: nat): Ptr {
    if k in m then m[k] else Ptr(NULL, 0)
  }

  function LoadBody(m: map<nat, Body>, k: nat): Body {
    if k in m then m[k] else Body(NULL, [])
  }

  /* ---------------------------------------------------------------------------
   * The sequential queues
   * ------------------------------------------------------------------------- */

  /** A queue keeps its first node as the dummy: a dequeue needs a second one. */
  predicate Allowed(qs: map<nat, seq<Item>>, e: Event) {
    e.q in qs && (e.Dequeued? ==> |qs[e.q]| >= 2 && qs[e.q][0] == e.item)
  }

  function Apply(qs: map<nat, seq<Item>>, e: Event): map<nat, seq<Item>>
    requires Allowed(qs, e)
  {
    match e
    case Enqueued(q, item) => qs[q := qs[q] + [item]]
    case Dequeued(q, item) => qs[q := qs[q][1..]]
  }

  datatype Replayed = Illegal | Queues(qs: map<nat, seq<Item>>)

  /** Runs a log on sequential queues; Illegal when some event is not allowed. */
  function Replay(qs0: map<nat, seq<Item>>, log: seq<Event>): Replayed {
    if log == [] then Queues(qs0)
    else
      match Replay(qs0, log[..|log| - 1])
      case Illegal => Illegal
      case Queues(qs) =>
        if Allowed(qs, log[|log| - 1]) then Queues(Apply(qs, log[|log| - 1])) else Illegal
  }

  function EnqueuedOn(log: seq<Event>, q: nat): seq<Item> {
    if log == [] then []
    else
      var e := log[|log| - 1];
      EnqueuedOn(log[..|log| - 1], q) + if e.Enqueued? && e.q == q then [e.item] else []
  }

  function DequeuedOn(log: seq<Event>, q: nat): seq<Item> {
    if log == [] then []
    else
      var e := log[|log| - 1];
      DequeuedOn(log[..|log| - 1], q) + if e.Dequeued? && e.q == q then [e.item] else []
  }

  /** A legal log is first in, first out on every queue. */
  lemma {:induction false} LegalLogIsFifo(qs0: map<nat, seq<Item>>, log: seq<Event>, q: nat)
    requires q in qs0 && Replay(qs0, log).Queues?
    ensures q in Replay(qs0, log).qs
    ensures DequeuedOn(log, q) + Replay(qs0, log).qs[q] == qs0[q] + EnqueuedOn(log, q)
  {
    if log == [] {
    } else {
      var before, e := log[..|log| - 1], log[|log| - 1];
      LegalLogIsFifo(qs0, before, q);
      var d, n, items := DequeuedOn(before, q), EnqueuedOn(before, q), Replay(qs0, before).qs[q];
      assert EnqueuedOn(log, q) == n + if e.Enqueued? && e.q == q then [e.item] else [];
      if e.q != q {
        assert n + [] == n && d + [] == d;
      } else if e.Dequeued? {
        assert n + [] == n;
        assert (d + [e.item]) + items[1..] == d + items;
      } else {
        assert d + [] == d;
        assert d + (items + [e.item]) == (d + items) + [e.item];
        assert qs0[q] + (n + [e.item]) == (qs0[q] + n) + [e.item];
      }
    }
  }

  /* ---------------------------------------------------------------------------
   * Writes to the store, with their effect on the history variables
   * ------------------------------------------------------------------------- */

  function WithBody(m: Store, n: nat, b: Body): Store {
    m.(body := m.body[n := b])
  }

  function WithPtr(m: Store, n: nat, p: Ptr): Store {
    m.(ptr := m.ptr[n := p])
  }

  function WithTail(m: Store, q: nat, p: Ptr): Store {
    m.(tail := m.tail[q := p])
  }

  function PushChain(chain: map<nat, seq<nat>>, q: nat, n: nat): map<nat, seq<nat>> {
    if q in chain then chain[q := chain[q] + [n]] else chain
  }

  function PopChain(chain: map<nat, seq<nat>>, q: nat): map<nat, seq<nat>> {
    if q in chain && |chain[q]| > 0 then chain[q := chain[q][1..]] else chain
  }

  function CountReuse(reuses: map<nat, nat>, n: nat): map<nat, nat> {
    if n in reuses then reuses[n := reuses[n] + 1] else reuses
  }

  /** Node `own` goes behind node `n`, the end of queue q. */
  function WithLink(m: Store, q: nat, n: nat, own: nat, counter: nat): Store {
    m.(ptr := m.ptr[n := Ptr(own, counter)],
       chain := PushChain(m.chain, q, own),
       place := m.place[own := InQueue(q)])
  }

  /** The head of q moves to `p`; the first node `n` now belongs to session s. */
  function WithHead(m: Store, q: nat, n: nat, p: Ptr, s: nat): Store {
    m.(head := m.head[q := p],
       chain := PopChain(m.chain, q),
       place := m.place[n := HeldBy(s)],
       reuses := CountReuse(m.reuses, n))
  }

  /* ---------------------------------------------------------------------------
   * Steps. Each makes one access to the store.
   * ------------------------------------------------------------------------- */

  function Put(st: State, s: nat, x: Session): State {
    st.(sess := st.sess[s := x])
  }

  /** MS_INIT: fill and write the body of the owned node. */
  function StepWriteBody(st: State, s: nat, ch: Choice): State
    requires s in st.sess
  {
    var x := st.sess[s];
    var b := Body(x.owned, ch.value);
    Put(st, s, x.(pc := ResetPtr, body := b)).(mem := WithBody(st.mem, x.owned, b))
  }

  /** MS_INIT: the owned node points to null. The counter is the one last read, not bumped. */
  function StepResetPtr(st: State, s: nat): State
    requires s in st.sess
  {
    var x := st.sess[s];
    var p := x.ptr.(next := NULL);
    Put(st, s, x.(pc := ReadTail, ptr := p)).(mem := WithPtr(st.mem, x.owned, p))
  }

  function AfterReadTail(m: Store, x: Session): Session {
    x.(pc := ReadLast, tail := Load(m.tail, x.queue))
  }

  function AfterReadLast(m: Store, x: Session): Session {
    x.(pc := RereadTail, last := Load(m.ptr, x.tail.next),
       epoch := if x.tail.next in m.reuses then m.reuses[x.tail.next] else 0)
  }

  /** The second tail read, then MS_READ_LAST_NODE decides. */
  function AfterRereadTail(m: Store, x: Session): Session {
    x.(pc := if Load(m.tail, x.queue) != x.tail then ReadTail
             else if x.last.next == NULL then LinkCas else HelpCas)
  }

  /** Link the owned node behind the last one. A failed swap overwrites `last`. */
  function StepLinkCas(st: State, s: nat): State
    requires s in st.sess
  {
    var x := st.sess[s];
    var n := x.tail.next;
    if Load(st.mem.ptr, n) == x.last then
      Put(st, s, x.(pc := SwingCas)).(
        mem := WithLink(st.mem, x.queue, n, x.owned, x.last.counter + 1),
        log := st.log + [Enqueued(x.queue, Item(x.owned, x.body))])
    else
      Put(st, s, x.(pc := ReadTail, last := Load(st.mem.ptr, n)))
  }

  /** A swap of the tail of the session's queue. A failed swap overwrites `x.tail`. */
  function TailCas(st: State, s: nat, next: nat, after: Pc): State
    requires s in st.sess
  {
    var x := st.sess[s];
    if Load(st.mem.tail, x.queue) == x.tail then
      Put(st, s, x.(pc := after)).(
        mem := WithTail(st.mem, x.queue, Ptr(next, x.tail.counter + 1)))
    else
      Put(st, s, x.(pc := after, tail := Load(st.mem.tail, x.queue)))
  }

  function AfterReadHead(m: Store, x: Session): Session {
    x.(pc := ReadTailToo, head := Load(m.head, x.queue))
  }

  function AfterReadTailToo(m: Store, x: Session): Session {
    x.(pc := ReadFirst, tail := Load(m.tail, x.queue))
  }

  function AfterReadFirst(m: Store, x: Session): Session {
    x.(pc := RereadHead, ptr := Load(m.ptr, x.head.next))
  }

  /** The second head read, then MS_READ_FIRST_NODE decides. */
  function AfterRereadHead(m: Store, x: Session): Session {
    x.(pc := if Load(m.head, x.queue) != x.head then ReadHead
             else if x.head.next == x.tail.next then DeqHelpCas else ReadBody)
  }

  function AfterReadBody(m: Store, x: Session): Session {
    x.(pc := HeadCas, body := LoadBody(m.body, x.head.next))
  }

  /** Swing the head. The old first node becomes the session's, which picks its next queue. */
  function StepHeadCas(st: State, s: nat, ch: Choice): State
    requires s in st.sess
  {
    var x := st.sess[s];
    var n := x.head.next;
    if Load(st.mem.head, x.queue) == x.head then
      Put(st, s, x.(pc := WriteBody, owned := n, queue := ch.queue)).(
        mem := WithHead(st.mem, x.queue, n, Ptr(x.ptr.next, x.head.counter + 1), s),
        log := st.log + [Dequeued(x.queue, Item(n, x.body))])
    else
      Put(st, s, x.(pc := ReadHead, head := Load(st.mem.head, x.queue)))
  }

  /** One step of session s. */
  function Next(st: State, s: nat, ch: Choice): State
    requires s in st.sess
  {
    var x := st.sess[s];
    match x.pc
    case WriteBody => StepWriteBody(st, s, ch)
    case ResetPtr => StepResetPtr(st, s)
    case ReadTail => Put(st, s, AfterReadTail(st.mem, x))
    case ReadLast => Put(st, s, AfterReadLast(st.mem, x))
    case RereadTail => Put(st, s, AfterRereadTail(st.mem, x))
    case LinkCas => StepLinkCas(st, s)
    case HelpCas => TailCas(st, s, x.last.next, ReadTail)
    case SwingCas => TailCas(st, s, x.owned, ReadHead)
    case ReadHead => Put(st, s, AfterReadHead(st.mem, x))
    case ReadTailToo => Put(st, s, AfterReadTailToo(st.mem, x))
    case ReadFirst => Put(st, s, AfterReadFirst(st.mem, x))
    case RereadHead => Put(st, s, AfterRereadHead(st.mem, x))
    case DeqHelpCas => TailCas(st, s, x.ptr.next, ReadHead)
    case ReadBody => Put(st, s, AfterReadBody(st.mem, x))
    case HeadCas => StepHeadCas(st, s, ch)
  }

  /* ---------------------------------------------------------------------------
   * The invariant
   * ------------------------------------------------------------------------- */

  predicate Owns(pc: Pc) {
    pc.WriteBody? || pc.ResetPtr? || pc.ReadTail? || pc.ReadLast? || pc.RereadTail?
    || pc.LinkCas? || pc.HelpCas?
  }

  ghost predicate Domains(m: Store) {
    && m.tail.Keys == m.head.Keys == m.chain.Keys
    && m.ptr.Keys == m.place.Keys == m.body.Keys == m.reuses.Keys
    && NULL !in m.ptr
  }

  /** The stored pointers lead from node to node of c, and then to null. */
  ghost predicate Linked(ptr: map<nat, Ptr>, c: seq<nat>) {
    && (forall i, j :: 0 <= i < j < |c| && j == i + 1 ==> Load(ptr, c[i]).next == c[j])
    && (|c| > 0 ==> Load(ptr, c[|c| - 1]).next == NULL)
  }

  /** Queue q is its chain: head at the front, tail at most one node behind the end. */
  ghost predicate ChainOk(m: Store, q: nat)
    requires q in m.chain
  {
    var c := m.chain[q];
    && |c| > 0
    && Distinct(c)
    && Linked(m.ptr, c)
    && (forall i :: 0 <= i < |c| ==> c[i] in m.ptr && c[i] in m.place && m.place[c[i]] == InQueue(q))
    && Load(m.head, q).next == c[0]
    && (Load(m.tail, q).next == c[|c| - 1] || (|c| >= 2 && Load(m.tail, q).next == c[|c| - 2]))
  }

  ghost predicate Chains(m: Store) {
    forall q {:trigger ChainOk(m, q)} :: q in m.chain ==> ChainOk(m, q)
  }

  /** Every node is in the chain or with the session that `place` says. */
  ghost predicate PlaceOk(m: Store, sess: map<nat, Session>, n: nat)
    requires n in m.place
  {
    match m.place[n]
    case InQueue(q) => q in m.chain && n in m.chain[q]
    case HeldBy(s) => s in sess && Owns(sess[s].pc) && sess[s].owned == n
  }

  ghost predicate Places(m: Store, sess: map<nat, Session>) {
    forall n {:trigger PlaceOk(m, sess, n)} :: n in m.place ==> PlaceOk(m, sess, n)
  }

  /** The sessions whose enqueue on q has succeeded and whose dequeue has not. */
  function Owing(sess: map<nat, Session>, q: nat): set<nat> {
    set s | s in sess && sess[s].queue == q && !Owns(sess[s].pc)
  }

  ghost predicate Counts(m: Store, sess: map<nat, Session>) {
    forall q {:trigger Owing(sess, q)} :: q in m.chain ==> |m.chain[q]| == 1 + |Owing(sess, q)|
  }

  /** Counters only grow, so an old reading is either current or smaller. */
  predicate Seen(m: map<nat, Ptr>, q: nat, p: Ptr) {
    q in m && (p.counter < m[q].counter || p == m[q])
  }

  predicate Reset(m: Store, x: Session) {
    x.owned in m.ptr && m.ptr[x.owned].next == NULL
    && x.owned in m.body && m.body[x.owned] == x.body
  }

  predicate LastSeen(m: Store, x: Session) {
    var n := x.tail.next;
    && n in m.ptr && n in m.reuses && x.last.counter <= m.ptr[n].counter
    && (Load(m.tail, x.queue) == x.tail ==>
          || (m.ptr[n] == x.last && m.reuses[n] == x.epoch)
          || (x.last.next == NULL && x.last.counter < m.ptr[n].counter))
  }

  /** If the link swap can succeed, its node is the last one and was never reused since. */
  predicate LinkReady(m: Store, x: Session)
    requires x.queue in m.chain
  {
    var n := x.tail.next;
    var c := m.chain[x.queue];
    && n in m.ptr && n in m.reuses && x.last.next == NULL && x.last.counter <= m.ptr[n].counter
    && (x.last.counter == m.ptr[n].counter ==>
          && m.ptr[n] == x.last && m.reuses[n] == x.epoch
          && |c| > 0 && c[|c| - 1] == n && Load(m.tail, x.queue).next == n)
  }

  /** If the tail swap can succeed, it moves the tail to the next node of the chain. */
  predicate HelpReady(m: Store, x: Session, next: nat) {
    && next != NULL
    && (Load(m.tail, x.queue) == x.tail ==> Load(m.ptr, x.tail.next).next == next)
  }

  predicate Behind(m: Store, x: Session) {
    Load(m.head, x.queue) == x.head && x.tail.next != x.head.next ==>
      Load(m.tail, x.queue).next != x.head.next
  }

  predicate FirstSeen(m: Store, x: Session) {
    Load(m.head, x.queue) == x.head ==>
      Load(m.ptr, x.head.next) == x.ptr && x.ptr.next != NULL
  }

  predicate BodySeen(m: Store, x: Session) {
    Load(m.head, x.queue) == x.head ==> LoadBody(m.body, x.head.next) == x.body
  }

  /** What session s knows at each program point. */
  ghost predicate SessOk(m: Store, s: nat, x: Session) {
    && x.queue in m.chain
    && (Owns(x.pc) ==> x.owned in m.place && m.place[x.owned] == HeldBy(s))
    && match x.pc
       case WriteBody => Load(m.ptr, x.owned).counter == x.ptr.counter
       case ResetPtr => Load(m.ptr, x.owned).counter == x.ptr.counter
                        && LoadBody(m.body, x.owned) == x.body
       case ReadTail => Reset(m, x)
       case ReadLast => Reset(m, x) && Seen(m.tail, x.queue, x.tail) && x.tail.next in m.ptr
       case RereadTail => Reset(m, x) && Seen(m.tail, x.queue, x.tail) && LastSeen(m, x)
       case LinkCas => Reset(m, x) && Seen(m.tail, x.queue, x.tail) && LinkReady(m, x)
       case HelpCas => Reset(m, x) && Seen(m.tail, x.queue, x.tail) && HelpReady(m, x, x.last.next)
       case SwingCas => Seen(m.tail, x.queue, x.tail) && HelpReady(m, x, x.owned)
       case ReadHead => true
       case ReadTailToo => Seen(m.head, x.queue, x.head)
       case ReadFirst => Seen(m.head, x.queue, x.head) && Seen(m.tail, x.queue, x.tail) && Behind(m, x)
       case RereadHead => Seen(m.head, x.queue, x.head) && Seen(m.tail, x.queue, x.tail)
                          && Behind(m, x) && FirstSeen(m, x)
       case DeqHelpCas => Seen(m.tail, x.queue, x.tail) && HelpReady(m, x, x.ptr.next)
       case ReadBody => Seen(m.head, x.queue, x.head) && x.tail.next != x.head.next
                        && Behind(m, x) && FirstSeen(m, x)
       case HeadCas => Seen(m.head, x.queue, x.head) && x.tail.next != x.head.next
                       && Behind(m, x) && FirstSeen(m, x) && BodySeen(m, x)
  }

  ghost predicate Sessions(m: Store, sess: map<nat, Session>) {
    forall s {:trigger SessOk(m, s, sess[s])} :: s in sess ==> SessOk(m, s, sess[s])
  }

  function Items(c: seq<nat>, body: map<nat, Body>): (r: seq<Item>)
    ensures |r| == |c|
    ensures forall i :: 0 <= i < |c| ==> r[i] == Item(c[i], LoadBody(body, c[i]))
  {
    seq(|c|, i requires 0 <= i < |c| => Item(c[i], LoadBody(body, c[i])))
  }

  function Contents(m: Store): map<nat, seq<Item>> {
    map q | q in m.chain :: Items(m.chain[q], m.body)
  }

  /** The events so far are a legal run of sequential queues that ends in the chains. */
  ghost predicate Replays(m: Store, origin: map<nat, seq<Item>>, log: seq<Event>) {
    Replay(origin, log) == Queues(Contents(m))
  }

  ghost predicate Inv(st: State) {
    && Domains(st.mem)
    && Chains(st.mem)
    && Places(st.mem, st.sess)
    && Counts(st.mem, st.sess)
    && Sessions(st.mem, st.sess)
    && Replays(st.mem, st.origin, st.log)
  }
}
