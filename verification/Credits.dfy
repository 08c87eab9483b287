/**
  Credit-based flow control between n machines. Machine m may have at most `max` broadcasts
  outstanding towards each machine r: it pays a credit for each, and r gives credits back in
  acks, one for each message it has handled, many in one ack. A receive must be posted for
  each message and for each ack before it arrives, or the network drops it. Messages and acks
  may also be lost, and they may arrive in any order.
*/
module Credits {
  import opened Division

  /** What sender m and receiver r have between them; `lost` counts credits that are gone. */
  datatype Pair = Pair(
    credits: nat,       // held by m
    flight: nat,        // messages on their way
    arrived: nat,       // messages received by r and not handled
    unsent: nat,        // credits in r's ack slot for m
    acks: seq<nat>,     // credits of each ack on its way
    polled: seq<nat>,   // credits of each ack received by m and not handled
    lost: nat)

  /** Sizes: machines, credits, and receives kept posted for messages and for acks. */
  datatype Config = Config(n: nat, max: nat, wr: nat, ackWr: nat)

  /**
    `to[r][m]` is the pair of sender m and receiver r. `posted` counts the receives of a machine
    for messages that it has not yet handled a message for, and `ackPosted` those for acks.
    `overruns` counts arrivals with no receive posted, and `clamps` the uses of the clamp on
    the credits that an ack brings.
  */
  datatype State = State(
    to: seq<seq<Pair>>, posted: seq<nat>, ackPosted: seq<nat>, overruns: nat, clamps: nat)

  datatype Step =
    | Broadcast(m: nat, targets: set<nat>, k: nat)
    | Arrive(m: nat, r: nat)
    | Handle(m: nat, r: nat)
    | SendAcks(r: nat)
    | AckArrives(m: nat, r: nat, i: nat)
    | HandleAck(m: nat, r: nat, i: nat)
    | LoseMessage(m: nat, r: nat)
    | LoseAck(m: nat, r: nat, i: nat)

  /* --------------------------- Sums --------------------------- */

  function Total(s: seq<nat>): nat {
    if s == [] then 0 else Total(s[..|s| - 1]) + s[|s| - 1]
  }

  /** The sum of a weight over the senders of one receiver. */
  function RowSum(row: seq<Pair>, w: Pair -> nat): nat {
    if row == [] then 0 else RowSum(row[..|row| - 1], w) + w(row[|row| - 1])
  }

  /** The sum of a weight over the receivers of sender m. */
  function ColSum(to: seq<seq<Pair>>, m: nat, w: Pair -> nat): nat
    requires forall r :: 0 <= r < |to| ==> m < |to[r]|
  {
    if to == [] then 0 else ColSum(to[..|to| - 1], m, w) + w(to[|to| - 1][m])
  }

  function OnWay(p: Pair): nat { p.flight + p.arrived }
  function Unsent(p: Pair): nat { p.unsent }
  function Held(p: Pair): nat { p.credits }
  function Acks(p: Pair): nat { |p.acks| + |p.polled| }
  function Arrived(p: Pair): nat { p.arrived }
  function Polled(p: Pair): nat { |p.polled| }

  /** All the credits of a pair, wherever they are. */
  function Everything(p: Pair): nat {
    p.credits + p.flight + p.arrived + p.unsent + Total(p.acks) + Total(p.polled) + p.lost
  }

  /* --------------------------- Steps --------------------------- */

  predicate Shaped(c: Config, st: State) {
    && |st.to| == |st.posted| == |st.ackPosted| == c.n
    && forall r :: 0 <= r < c.n ==> |st.to[r]| == c.n
  }

  function Remove(s: seq<nat>, i: nat): seq<nat>
    requires i < |s|
  {
    s[..i] + s[i + 1..]
  }

  function Put(st: State, m: nat, r: nat, p: Pair): State
    requires r < |st.to| && m < |st.to[r]|
  {
    st.(to := st.to[r := st.to[r][m := p]])
  }

  /** `ctx_refill_recvs`. */
  function Refill(posted: nat, wr: nat): nat {
    if wr > posted then wr else posted
  }

  function Sent(p: Pair, k: nat): Pair
    requires k <= p.credits
  {
    p.(credits := p.credits - k, flight := p.flight + k)
  }

  predicate CanSend(c: Config, st: State, m: nat, targets: set<nat>, k: nat)
    requires Shaped(c, st)
  {
    m < c.n && m !in targets && forall r :: r in targets ==> r < c.n && k <= st.to[r][m].credits
  }

  /** One posted batch of k broadcasts to the active machines, receives for their acks first. */
  function StepBroadcast(c: Config, st: State, m: nat, targets: set<nat>, k: nat): State
    requires Shaped(c, st) && CanSend(c, st, m, targets, k)
  {
    st.(to := seq(c.n, r requires 0 <= r < c.n =>
            if r in targets then st.to[r][m := Sent(st.to[r][m], k)] else st.to[r]),
        ackPosted := st.ackPosted[m := Refill(st.ackPosted[m], c.ackWr)])
  }

  /** A message arrives; with no receive left for it, it is dropped. */
  function StepArrive(c: Config, st: State, m: nat, r: nat): State
    requires Shaped(c, st) && m < c.n && r < c.n
  {
    var p := st.to[r][m];
    if p.flight == 0 then st
    else if RowSum(st.to[r], Arrived) < st.posted[r] then
      Put(st, m, r, p.(flight := p.flight - 1, arrived := p.arrived + 1))
    else
      Put(st, m, r, p.(flight := p.flight - 1, lost := p.lost + 1)).(overruns := st.overruns + 1)
  }

  /** A received message is handled: its credit goes to the ack slot of its sender. */
  function StepHandle(c: Config, st: State, m: nat, r: nat): State
    requires Shaped(c, st) && m < c.n && r < c.n
  {
    var p := st.to[r][m];
    if p.arrived == 0 || st.posted[r] == 0 then st
    else
      Put(st, m, r, p.(arrived := p.arrived - 1, unsent := p.unsent + 1))
      .(posted := st.posted[r := st.posted[r] - 1])
  }

  function Acked(p: Pair): Pair {
    if p.unsent == 0 then p else p.(unsent := 0, acks := p.acks + [p.unsent])
  }

  /** Sends all acks that are due, after posting receives for the messages they allow. */
  function StepSendAcks(c: Config, st: State, r: nat): State
    requires Shaped(c, st) && r < c.n
  {
    if forall m :: 0 <= m < c.n ==> st.to[r][m].unsent == 0 then st
    else
      st.(to := st.to[r := seq(c.n, m requires 0 <= m < c.n => Acked(st.to[r][m]))],
          posted := st.posted[r := Refill(st.posted[r], c.wr)])
  }

  function StepAckArrives(c: Config, st: State, m: nat, r: nat, i: nat): State
    requires Shaped(c, st) && m < c.n && r < c.n
  {
    var p := st.to[r][m];
    if i >= |p.acks| then st
    else if ColSum(st.to, m, Polled) < st.ackPosted[m] then
      Put(st, m, r, p.(acks := Remove(p.acks, i), polled := p.polled + [p.acks[i]]))
    else
      Put(st, m, r, p.(acks := Remove(p.acks, i), lost := p.lost + p.acks[i])).(overruns := st.overruns + 1)
  }

  /** `ctx_increase_credits_on_polling_ack`, with its clamp. */
  function StepHandleAck(c: Config, st: State, m: nat, r: nat, i: nat): State
    requires Shaped(c, st) && m < c.n && r < c.n
  {
    var p := st.to[r][m];
    if i >= |p.polled| || st.ackPosted[m] == 0 then st
    else
      var sum := p.credits + p.polled[i];
      Put(st, m, r, p.(credits := if sum > c.max then c.max else sum, polled := Remove(p.polled, i)))
      .(ackPosted := st.ackPosted[m := st.ackPosted[m] - 1],
        clamps := if sum > c.max then st.clamps + 1 else st.clamps)
  }

  function StepLoseMessage(c: Config, st: State, m: nat, r: nat): State
    requires Shaped(c, st) && m < c.n && r < c.n
  {
    var p := st.to[r][m];
    if p.flight == 0 then st else Put(st, m, r, p.(flight := p.flight - 1, lost := p.lost + 1))
  }

  function StepLoseAck(c: Config, st: State, m: nat, r: nat, i: nat): State
    requires Shaped(c, st) && m < c.n && r < c.n
  {
    var p := st.to[r][m];
    if i >= |p.acks| then st
    else Put(st, m, r, p.(acks := Remove(p.acks, i), lost := p.lost + p.acks[i]))
  }

  /** One step of some machine or of the network; a step that is not enabled does nothing. */
  function Next(c: Config, st: State, s: Step): (st': State)
    requires Shaped(c, st)
    ensures Shaped(c, st')
  {
    match s
    case Broadcast(m, targets, k) =>
      if CanSend(c, st, m, targets, k) then StepBroadcast(c, st, m, targets, k) else st
    case Arrive(m, r) => if m < c.n && r < c.n then StepArrive(c, st, m, r) else st
    case Handle(m, r) => if m < c.n && r < c.n then StepHandle(c, st, m, r) else st
    case SendAcks(r) => if r < c.n then StepSendAcks(c, st, r) else st
    case AckArrives(m, r, i) => if m < c.n && r < c.n then StepAckArrives(c, st, m, r, i) else st
    case HandleAck(m, r, i) => if m < c.n && r < c.n then StepHandleAck(c, st, m, r, i) else st
    case LoseMessage(m, r) => if m < c.n && r < c.n then StepLoseMessage(c, st, m, r) else st
    case LoseAck(m, r, i) => if m < c.n && r < c.n then StepLoseAck(c, st, m, r, i) else st
  }

  /** Credits are full, receives are posted, and nothing is under way. */
  function Init(c: Config): State {
    State(seq(c.n, (r: nat) => seq(c.n, (m: nat) => Fresh(c, m, r))), seq(c.n, r => c.wr), seq(c.n, m => c.ackWr), 0, 0)
  }

  ghost predicate Initial(c: Config, st: State) {
    && Shaped(c, st) && st.overruns == 0 && st.clamps == 0
    && (forall r, m :: 0 <= r < c.n && 0 <= m < c.n ==> st.to[r][m] == Fresh(c, m, r))
    && (forall a :: 0 <= a < c.n ==> st.posted[a] == c.wr && st.ackPosted[a] == c.ackWr)
  }

  function Run(c: Config, st: State, steps: seq<Step>): (st': State)
    requires Shaped(c, st)
    ensures Shaped(c, st')
  {
    if steps == [] then st else Next(c, Run(c, st, steps[..|steps| - 1]), steps[|steps| - 1])
  }

  function Cap(c: Config, m: nat, r: nat): nat {
    if m == r then 0 else c.max
  }

  function Fresh(c: Config, m: nat, r: nat): Pair {
    Pair(Cap(c, m, r), 0, 0, 0, [], [], 0)
  }

  /* --------------------------- The invariant --------------------------- */

  predicate Positive(s: seq<nat>) {
    forall i :: 0 <= i < |s| ==> s[i] > 0
  }

  /** No credit is made or destroyed, and every ack carries at least one. */
  ghost predicate PairOk(c: Config, st: State, m: nat, r: nat)
    requires Shaped(c, st) && m < c.n && r < c.n
  {
    var p := st.to[r][m];
    && Everything(p) == Cap(c, m, r)
    && Positive(p.acks) && Positive(p.polled)
  }

  /** Receives for messages, and the credits not yet given back for those used up. */
  ghost predicate RowOk(c: Config, st: State, r: nat)
    requires Shaped(c, st) && r < c.n
  {
    st.posted[r] <= c.wr && st.posted[r] + RowSum(st.to[r], Unsent) >= c.wr
  }

  /** Receives for acks, and the credits that those used up have brought. */
  ghost predicate ColOk(c: Config, st: State, m: nat)
    requires Shaped(c, st) && m < c.n
  {
    st.ackPosted[m] <= c.ackWr && st.ackPosted[m] + ColSum(st.to, m, Held) >= c.ackWr
  }

  ghost predicate PairsOk(c: Config, st: State)
    requires Shaped(c, st)
  {
    forall m, r {:trigger PairOk(c, st, m, r)} :: 0 <= m < c.n && 0 <= r < c.n ==> PairOk(c, st, m, r)
  }

  ghost predicate RowsOk(c: Config, st: State)
    requires Shaped(c, st)
  {
    forall r {:trigger RowOk(c, st, r)} :: 0 <= r < c.n ==> RowOk(c, st, r)
  }

  ghost predicate ColsOk(c: Config, st: State)
    requires Shaped(c, st)
  {
    forall m {:trigger ColOk(c, st, m)} :: 0 <= m < c.n ==> ColOk(c, st, m)
  }

  ghost predicate Inv(c: Config, st: State) {
    && Shaped(c, st) && PairsOk(c, st) && RowsOk(c, st) && ColsOk(c, st)
    && st.overruns == 0 && st.clamps == 0
  }

  /** Enough receives for every credit of every other machine. */
  predicate Sized(c: Config) {
    c.n > 0 && c.wr >= Times(c.n - 1, c.max) && c.ackWr >= Times(c.n - 1, c.max)
  }

  /* --------------------------- Lemmas about sums --------------------------- */

  lemma {:induction false} TotalSnoc(s: seq<nat>, x: nat)
    ensures Total(s + [x]) == Total(s) + x
    ensures Positive(s) && x > 0 ==> Positive(s + [x])
  {
    assert (s + [x])[..|s|] == s;
  }

  lemma {:induction false} TotalRemove(s: seq<nat>, i: nat)
    requires i < |s|
    ensures Total(Remove(s, i)) == Total(s) - s[i]
    ensures Positive(s) ==> Positive(Remove(s, i))
  {
    var init, last := s[..|s| - 1], s[|s| - 1];
    if i < |init| {
      TotalRemove(init, i);
      TotalSnoc(Remove(init, i), last);
      assert Remove(s, i) == Remove(init, i) + [last];
    } else {
      assert Remove(s, i) == init;
    }
  }

  lemma {:induction false} TotalCovers(s: seq<nat>)
    requires Positive(s)
    ensures |s| <= Total(s)
  {
    if s != [] { TotalCovers(s[..|s| - 1]); }
  }

  lemma {:induction false} RowUpdate(row: seq<Pair>, m: nat, p: Pair, w: Pair -> nat)
    requires m < |row|
    ensures RowSum(row[m := p], w) == RowSum(row, w) - w(row[m]) + w(p)
  {
    var init := row[..|row| - 1];
    if m < |init| {
      RowUpdate(init, m, p, w);
      assert row[m := p][..|row| - 1] == init[m := p];
    } else {
      assert row[m := p][..|row| - 1] == init;
    }
  }

  lemma {:induction false} ColUpdate(to: seq<seq<Pair>>, m: nat, r: nat, row: seq<Pair>, w: Pair -> nat)
    requires r < |to| && m < |row| && forall q :: 0 <= q < |to| ==> m < |to[q]|
    ensures ColSum(to[r := row], m, w) == ColSum(to, m, w) - w(to[r][m]) + w(row[m])
  {
    var init := to[..|to| - 1];
    if r < |init| {
      ColUpdate(init, m, r, row, w);
      assert to[r := row][..|to| - 1] == init[r := row];
    } else {
      assert to[r := row][..|to| - 1] == init;
    }
  }

  lemma {:induction false} ColSame(to: seq<seq<Pair>>, to': seq<seq<Pair>>, m: nat, w: Pair -> nat)
    requires |to| == |to'|
    requires forall q :: 0 <= q < |to| ==> m < |to[q]| && m < |to'[q]| && w(to[q][m]) == w(to'[q][m])
    ensures ColSum(to, m, w) == ColSum(to', m, w)
  {
    if to != [] { ColSame(to[..|to| - 1], to'[..|to| - 1], m, w); }
  }

  /** The credits of senders 0 to k - 1 towards machine r. */
  function Caps(c: Config, k: nat, r: nat): nat {
    if k == 0 then 0 else Caps(c, k - 1, r) + Cap(c, k - 1, r)
  }

  lemma {:induction false} CapsAre(c: Config, k: nat, r: nat)
    ensures Caps(c, k, r) == Times(if r < k then k - 1 else k, c.max)
  {
    if k > 0 { CapsAre(c, k - 1, r); }
  }

  /** What is on its way to r, and what r owes in acks, fits in the credits of the senders. */
  lemma {:induction false} RowBound(c: Config, row: seq<Pair>, r: nat)
    requires forall m :: 0 <= m < |row| ==> Everything(row[m]) == Cap(c, m, r)
    ensures RowSum(row, OnWay) + RowSum(row, Unsent) <= Caps(c, |row|, r)
  {
    if row != [] {
      var init := row[..|row| - 1];
      RowBound(c, init, r);
      assert OnWay(row[|row| - 1]) + Unsent(row[|row| - 1]) <= Cap(c, |row| - 1, r);
    }
  }

  /** The acks on their way to m, and the credits it holds, fit in its credits. */
  lemma {:induction false} ColBound(c: Config, to: seq<seq<Pair>>, m: nat)
    requires forall r :: 0 <= r < |to| ==> m < |to[r]| && Everything(to[r][m]) == Cap(c, r, m)
    requires forall r :: 0 <= r < |to| ==> Acks(to[r][m]) + Held(to[r][m]) <= Everything(to[r][m])
    ensures ColSum(to, m, Acks) + ColSum(to, m, Held) <= Caps(c, |to|, m)
  {
    if to != [] { ColBound(c, to[..|to| - 1], m); }
  }

  lemma {:induction false} RowMonotone(row: seq<Pair>, m: nat)
    requires m < |row|
    ensures RowSum(row, Arrived) + row[m].flight <= RowSum(row, OnWay)
  {
    var init := row[..|row| - 1];
    if m < |init| { RowMonotone(init, m); } else { RowLess(init); }
  }

  lemma {:induction false} RowLess(row: seq<Pair>)
    ensures RowSum(row, Arrived) <= RowSum(row, OnWay)
  {
    if row != [] { RowLess(row[..|row| - 1]); }
  }

  lemma {:induction false} ColMonotone(to: seq<seq<Pair>>, m: nat, r: nat)
    requires r < |to| && forall q :: 0 <= q < |to| ==> m < |to[q]|
    ensures ColSum(to, m, Polled) + |to[r][m].acks| <= ColSum(to, m, Acks)
  {
    var init := to[..|to| - 1];
    if r < |init| { ColMonotone(init, m, r); } else { ColLess(init, m); }
  }

  lemma {:induction false} ColLess(to: seq<seq<Pair>>, m: nat)
    requires forall q :: 0 <= q < |to| ==> m < |to[q]|
    ensures ColSum(to, m, Polled) <= ColSum(to, m, Acks)
  {
    if to != [] { ColLess(to[..|to| - 1], m); }
  }

  lemma AcksCovered(c: Config, st: State, m: nat, r: nat)
    requires Shaped(c, st) && m < c.n && r < c.n && PairOk(c, st, m, r)
    ensures Acks(st.to[r][m]) + Held(st.to[r][m]) <= Everything(st.to[r][m])
  {
    TotalCovers(st.to[r][m].acks);
    TotalCovers(st.to[r][m].polled);
  }

  /* --------------------------- What the invariant says --------------------------- */

  /** Every message on its way to r has a receive posted for it. */
  lemma ReceivesSuffice(c: Config, st: State, r: nat)
    requires Sized(c) && Inv(c, st) && r < c.n
    ensures RowSum(st.to[r], OnWay) <= st.posted[r]
  {
    var row := st.to[r];
    forall m | 0 <= m < |row| ensures Everything(row[m]) == Cap(c, m, r) {
      assert PairOk(c, st, m, r);
    }
    RowBound(c, row, r);
    CapsAre(c, c.n, r);
    assert RowOk(c, st, r);
  }

  /** Every ack on its way to m has a receive posted for it. */
  lemma AckReceivesSuffice(c: Config, st: State, m: nat)
    requires Sized(c) && Inv(c, st) && m < c.n
    ensures ColSum(st.to, m, Acks) <= st.ackPosted[m]
  {
    forall r | 0 <= r < |st.to|
      ensures m < |st.to[r]| && Everything(st.to[r][m]) == Cap(c, r, m)
      ensures Acks(st.to[r][m]) + Held(st.to[r][m]) <= Everything(st.to[r][m])
    {
      assert PairOk(c, st, m, r);
      AcksCovered(c, st, m, r);
    }
    ColBound(c, st.to, m);
    CapsAre(c, c.n, m);
    assert ColOk(c, st, m);
  }

  /* --------------------------- Every step conserves the credits of a pair --------------------------- */

  /** An ack never brings a sender above its credits, so the clamp has nothing to cut. */
  lemma ClampIsIdle(c: Config, st: State, m: nat, r: nat, i: nat)
    requires Shaped(c, st) && m < c.n && r < c.n && PairOk(c, st, m, r) && i < |st.to[r][m].polled|
    ensures st.to[r][m].credits + st.to[r][m].polled[i] <= c.max
  {
    TotalRemove(st.to[r][m].polled, i);
  }

  lemma BroadcastPair(c: Config, st: State, m: nat, targets: set<nat>, k: nat, a: nat, q: nat)
    requires Shaped(c, st) && CanSend(c, st, m, targets, k) && a < c.n && q < c.n && PairOk(c, st, a, q)
    ensures PairOk(c, StepBroadcast(c, st, m, targets, k), a, q)
  {
  }

  lemma ArrivePair(c: Config, st: State, m: nat, r: nat)
    requires Shaped(c, st) && m < c.n && r < c.n && PairOk(c, st, m, r)
    ensures PairOk(c, StepArrive(c, st, m, r), m, r)
  {
  }

  lemma HandlePair(c: Config, st: State, m: nat, r: nat)
    requires Shaped(c, st) && m < c.n && r < c.n && PairOk(c, st, m, r)
    ensures PairOk(c, StepHandle(c, st, m, r), m, r)
  {
  }

  lemma SendAcksPair(c: Config, st: State, m: nat, r: nat)
    requires Shaped(c, st) && m < c.n && r < c.n && PairOk(c, st, m, r)
    ensures PairOk(c, StepSendAcks(c, st, r), m, r)
  {
    var p := st.to[r][m];
    if p.unsent > 0 {
      TotalSnoc(p.acks, p.unsent);
      assert StepSendAcks(c, st, r).to[r][m] == Acked(p);
    }
  }

  lemma AckArrivesPair(c: Config, st: State, m: nat, r: nat, i: nat)
    requires Shaped(c, st) && m < c.n && r < c.n && PairOk(c, st, m, r)
    ensures PairOk(c, StepAckArrives(c, st, m, r, i), m, r)
  {
    var p := st.to[r][m];
    if i < |p.acks| {
      TotalRemove(p.acks, i);
      TotalSnoc(p.polled, p.acks[i]);
    }
  }

  lemma HandleAckPair(c: Config, st: State, m: nat, r: nat, i: nat)
    requires Shaped(c, st) && m < c.n && r < c.n && PairOk(c, st, m, r)
    ensures PairOk(c, StepHandleAck(c, st, m, r, i), m, r) && StepHandleAck(c, st, m, r, i).clamps == st.clamps
  {
    if i < |st.to[r][m].polled| {
      ClampIsIdle(c, st, m, r, i);
      TotalRemove(st.to[r][m].polled, i);
    }
  }

  lemma LoseMessagePair(c: Config, st: State, m: nat, r: nat)
    requires Shaped(c, st) && m < c.n && r < c.n && PairOk(c, st, m, r)
    ensures PairOk(c, StepLoseMessage(c, st, m, r), m, r)
  {
  }

  lemma LoseAckPair(c: Config, st: State, m: nat, r: nat, i: nat)
    requires Shaped(c, st) && m < c.n && r < c.n && PairOk(c, st, m, r)
    ensures PairOk(c, StepLoseAck(c, st, m, r, i), m, r)
  {
    if i < |st.to[r][m].acks| { TotalRemove(st.to[r][m].acks, i); }
  }

  /** The pair of machines that a step is about. */
  predicate About(s: Step, m: nat, r: nat) {
    match s
    case Broadcast(m', _, _) => true
    case SendAcks(r') => r == r'
    case Arrive(m', r') => m == m' && r == r'
    case Handle(m', r') => m == m' && r == r'
    case AckArrives(m', r', _) => m == m' && r == r'
    case HandleAck(m', r', _) => m == m' && r == r'
    case LoseMessage(m', r') => m == m' && r == r'
    case LoseAck(m', r', _) => m == m' && r == r'
  }

  lemma OtherPairsStay(c: Config, st: State, s: Step, m: nat, r: nat)
    requires Shaped(c, st) && m < c.n && r < c.n && !About(s, m, r)
    ensures Next(c, st, s).to[r][m] == st.to[r][m]
  {
  }

  /** Whatever happens, and however few receives are posted, a step conserves the credits of every pair. */
  lemma NextKeepsPair(c: Config, st: State, s: Step, m: nat, r: nat)
    requires Shaped(c, st) && m < c.n && r < c.n && PairOk(c, st, m, r)
    ensures PairOk(c, Next(c, st, s), m, r)
  {
    if About(s, m, r) {
      match s
      case Broadcast(a, targets, k) => if CanSend(c, st, a, targets, k) { BroadcastPair(c, st, a, targets, k, m, r); }
      case Arrive(_, _) => ArrivePair(c, st, m, r);
      case Handle(_, _) => HandlePair(c, st, m, r);
      case SendAcks(_) => SendAcksPair(c, st, m, r);
      case AckArrives(_, _, i) => AckArrivesPair(c, st, m, r, i);
      case HandleAck(_, _, i) => HandleAckPair(c, st, m, r, i);
      case LoseMessage(_, _) => LoseMessagePair(c, st, m, r);
      case LoseAck(_, _, i) => LoseAckPair(c, st, m, r, i);
    } else {
      OtherPairsStay(c, st, s, m, r);
    }
  }

  lemma NextKeepsPairs(c: Config, st: State, s: Step)
    requires Shaped(c, st) && PairsOk(c, st)
    ensures PairsOk(c, Next(c, st, s)) && Next(c, st, s).clamps == st.clamps
  {
    forall m, r | 0 <= m < c.n && 0 <= r < c.n ensures PairOk(c, Next(c, st, s), m, r) {
      assert PairOk(c, st, m, r);
      NextKeepsPair(c, st, s, m, r);
    }
    if s.HandleAck? && s.m < c.n && s.r < c.n {
      assert PairOk(c, st, s.m, s.r);
      HandleAckPair(c, st, s.m, s.r, s.i);
    }
  }

  /* --------------------------- Every step keeps the invariant --------------------------- */

  /** Changing one pair keeps the invariant if the receives used up are covered. */
  lemma PutKeeps(c: Config, st: State, st': State, m: nat, r: nat, p: Pair)
    requires Inv(c, st) && m < c.n && r < c.n && Shaped(c, st')
    requires st'.to == Put(st, m, r, p).to && st'.overruns == 0 && st'.clamps == 0
    requires PairsOk(c, st')
    requires st'.posted == st.posted[r := st'.posted[r]] && st'.posted[r] <= c.wr
    requires st'.posted[r] + p.unsent >= st.posted[r] + st.to[r][m].unsent
    requires st'.ackPosted == st.ackPosted[m := st'.ackPosted[m]] && st'.ackPosted[m] <= c.ackWr
    requires st'.ackPosted[m] + p.credits >= st.ackPosted[m] + st.to[r][m].credits
    ensures Inv(c, st')
  {
    forall q | 0 <= q < c.n ensures RowOk(c, st', q) {
      assert RowOk(c, st, q);
      if q == r { RowUpdate(st.to[r], m, p, Unsent); }
    }
    forall a | 0 <= a < c.n ensures ColOk(c, st', a) {
      assert ColOk(c, st, a);
      ColUpdate(st.to, a, r, st.to[r][m := p], Held);
    }
  }

  lemma BroadcastKeeps(c: Config, st: State, m: nat, targets: set<nat>, k: nat)
    requires Inv(c, st) && CanSend(c, st, m, targets, k)
    ensures Inv(c, StepBroadcast(c, st, m, targets, k))
  {
    var st' := StepBroadcast(c, st, m, targets, k);
    NextKeepsPairs(c, st, Broadcast(m, targets, k));
    forall q | 0 <= q < c.n ensures RowOk(c, st', q) {
      assert RowOk(c, st, q);
      if q in targets { RowUpdate(st.to[q], m, Sent(st.to[q][m], k), Unsent); }
    }
    forall a | 0 <= a < c.n ensures ColOk(c, st', a) {
      assert ColOk(c, st, a);
      if a != m { ColSame(st.to, st'.to, a, Held); }
    }
  }

  lemma ArriveKeeps(c: Config, st: State, m: nat, r: nat)
    requires Sized(c) && Inv(c, st) && m < c.n && r < c.n
    ensures Inv(c, StepArrive(c, st, m, r))
  {
    NextKeepsPairs(c, st, Arrive(m, r));
    assert RowOk(c, st, r) && ColOk(c, st, m);
    ReceivesSuffice(c, st, r);
    RowMonotone(st.to[r], m);
    var p := st.to[r][m];
    if p.flight > 0 {
      PutKeeps(c, st, StepArrive(c, st, m, r), m, r, p.(flight := p.flight - 1, arrived := p.arrived + 1));
    }
  }

  lemma HandleKeeps(c: Config, st: State, m: nat, r: nat)
    requires Inv(c, st) && m < c.n && r < c.n
    ensures Inv(c, StepHandle(c, st, m, r))
  {
    NextKeepsPairs(c, st, Handle(m, r));
    assert RowOk(c, st, r) && ColOk(c, st, m);
    var p := st.to[r][m];
    if p.arrived > 0 && st.posted[r] > 0 {
      PutKeeps(c, st, StepHandle(c, st, m, r), m, r, p.(arrived := p.arrived - 1, unsent := p.unsent + 1));
    }
  }

  lemma {:induction false} NothingUnsent(row: seq<Pair>)
    requires forall m :: 0 <= m < |row| ==> row[m].unsent == 0
    ensures RowSum(row, Unsent) == 0
  {
    if row != [] { NothingUnsent(row[..|row| - 1]); }
  }

  lemma SendAcksKeeps(c: Config, st: State, r: nat)
    requires Inv(c, st) && r < c.n
    ensures Inv(c, StepSendAcks(c, st, r))
  {
    var st' := StepSendAcks(c, st, r);
    if st' != st {
      NextKeepsPairs(c, st, SendAcks(r));
      forall q | 0 <= q < c.n ensures RowOk(c, st', q) {
        assert RowOk(c, st, q);
      }
      forall a | 0 <= a < c.n ensures ColOk(c, st', a) {
        assert ColOk(c, st, a);
        ColSame(st.to, st'.to, a, Held);
      }
    }
  }

  lemma AckArrivesKeeps(c: Config, st: State, m: nat, r: nat, i: nat)
    requires Sized(c) && Inv(c, st) && m < c.n && r < c.n
    ensures Inv(c, StepAckArrives(c, st, m, r, i))
  {
    NextKeepsPairs(c, st, AckArrives(m, r, i));
    assert RowOk(c, st, r) && ColOk(c, st, m);
    AckReceivesSuffice(c, st, m);
    ColMonotone(st.to, m, r);
    var p := st.to[r][m];
    if i < |p.acks| {
      PutKeeps(c, st, StepAckArrives(c, st, m, r, i), m, r,
               p.(acks := Remove(p.acks, i), polled := p.polled + [p.acks[i]]));
    }
  }

  lemma HandleAckKeeps(c: Config, st: State, m: nat, r: nat, i: nat)
    requires Inv(c, st) && m < c.n && r < c.n
    ensures Inv(c, StepHandleAck(c, st, m, r, i))
  {
    NextKeepsPairs(c, st, HandleAck(m, r, i));
    assert RowOk(c, st, r) && ColOk(c, st, m);
    var p := st.to[r][m];
    if i < |p.polled| && st.ackPosted[m] > 0 {
      assert PairOk(c, st, m, r);
      ClampIsIdle(c, st, m, r, i);
      PutKeeps(c, st, StepHandleAck(c, st, m, r, i), m, r,
               p.(credits := p.credits + p.polled[i], polled := Remove(p.polled, i)));
    }
  }

  lemma LoseMessageKeeps(c: Config, st: State, m: nat, r: nat)
    requires Inv(c, st) && m < c.n && r < c.n
    ensures Inv(c, StepLoseMessage(c, st, m, r))
  {
    NextKeepsPairs(c, st, LoseMessage(m, r));
    assert RowOk(c, st, r) && ColOk(c, st, m);
    var p := st.to[r][m];
    if p.flight > 0 {
      PutKeeps(c, st, StepLoseMessage(c, st, m, r), m, r, p.(flight := p.flight - 1, lost := p.lost + 1));
    }
  }

  lemma LoseAckKeeps(c: Config, st: State, m: nat, r: nat, i: nat)
    requires Inv(c, st) && m < c.n && r < c.n
    ensures Inv(c, StepLoseAck(c, st, m, r, i))
  {
    NextKeepsPairs(c, st, LoseAck(m, r, i));
    assert RowOk(c, st, r) && ColOk(c, st, m);
    var p := st.to[r][m];
    if i < |p.acks| {
      PutKeeps(c, st, StepLoseAck(c, st, m, r, i), m, r,
               p.(acks := Remove(p.acks, i), lost := p.lost + p.acks[i]));
    }
  }

  lemma NextKeepsInv(c: Config, st: State, s: Step)
    requires Sized(c) && Inv(c, st)
    ensures Inv(c, Next(c, st, s))
  {
    match s
    case Broadcast(m, targets, k) => if CanSend(c, st, m, targets, k) { BroadcastKeeps(c, st, m, targets, k); }
    case Arrive(m, r) => if m < c.n && r < c.n { ArriveKeeps(c, st, m, r); }
    case Handle(m, r) => if m < c.n && r < c.n { HandleKeeps(c, st, m, r); }
    case SendAcks(r) => if r < c.n { SendAcksKeeps(c, st, r); }
    case AckArrives(m, r, i) => if m < c.n && r < c.n { AckArrivesKeeps(c, st, m, r, i); }
    case HandleAck(m, r, i) => if m < c.n && r < c.n { HandleAckKeeps(c, st, m, r, i); }
    case LoseMessage(m, r) => if m < c.n && r < c.n { LoseMessageKeeps(c, st, m, r); }
    case LoseAck(m, r, i) => if m < c.n && r < c.n { LoseAckKeeps(c, st, m, r, i); }
  }

  lemma InitHolds(c: Config, st: State)
    requires Initial(c, st)
    ensures Inv(c, st)
  {
    forall a, q | 0 <= a < c.n && 0 <= q < c.n ensures PairOk(c, st, a, q) {
      assert st.to[q][a] == Fresh(c, a, q);
    }
  }
}
