/**
  Acks: a receiver keeps one ack slot for each sender, and adds every message it handles to
  it; one ack covers a range of ids and gives back one credit for each message. The sender
  maps an ack to the slots of its reorder buffer whose ids are still pending.
*/
module Acks {
  import opened Common
  import opened Division
  import opened Rings

  /** An ack slot; it is due when it holds something not yet sent. */
  datatype Ack = Ack(lId: nat, ackNum: nat, credits: nat, due: bool)

  /** A handled message that carries the ids lId to lId + num - 1. */
  datatype Delivery = Delivery(lId: nat, num: nat)

  /** The ids lId to lId + n - 1. */
  function Range(lId: nat, n: nat): seq<nat> {
    if n == 0 then [] else Range(lId, n - 1) + [lId + n - 1]
  }

  function Ids(acks: seq<Ack>): seq<nat> {
    if acks == [] then []
    else Ids(acks[..|acks| - 1]) + Range(acks[|acks| - 1].lId, acks[|acks| - 1].ackNum)
  }

  function DeliveredIds(ds: seq<Delivery>): seq<nat> {
    if ds == [] then []
    else DeliveredIds(ds[..|ds| - 1]) + Range(ds[|ds| - 1].lId, ds[|ds| - 1].num)
  }

  function Credits(acks: seq<Ack>): nat {
    if acks == [] then 0 else Credits(acks[..|acks| - 1]) + acks[|acks| - 1].credits
  }

  lemma {:induction false} RangeSplits(lId: nat, a: nat, b: nat)
    ensures Range(lId, a) + Range(lId + a, b) == Range(lId, a + b)
  {
    if b == 0 {
      assert Range(lId, a) + [] == Range(lId, a);
    } else {
      RangeSplits(lId, a, b - 1);
      assert Range(lId, a) + (Range(lId + a, b - 1) + [lId + a + b - 1])
          == Range(lId, a) + Range(lId + a, b - 1) + [lId + a + b - 1];
    }
  }

  lemma {:induction false} RangeIs(lId: nat, n: nat)
    ensures |Range(lId, n)| == n && forall i :: 0 <= i < n ==> Range(lId, n)[i] == lId + i
  {
    if n > 0 { RangeIs(lId, n - 1); }
  }

  /* --------------------------- One sender's slot --------------------------- */

  /** The ack slot for a sender, with the acks sent to it and the messages handled from it. */
  datatype Lane = Lane(ack: Ack, sent: seq<Ack>, got: seq<Delivery>)

  /** The message starts where the ack ends. */
  predicate Contiguous(a: Ack, d: Delivery) {
    a.due ==> a.lId + a.ackNum == d.lId
  }

  /** `ctx_ack_insert`: with checks on, a message that leaves a gap is refused. */
  function TakeAck(a: Ack, d: Delivery, checks: bool): (Ack, bool) {
    if checks && !Contiguous(a, d) then (a, false)
    else if !a.due then (Ack(d.lId, d.num, 1, true), true)
    else (a.(credits := a.credits + 1, ackNum := a.ackNum + d.num), true)
  }

  function Take(l: Lane, d: Delivery, checks: bool): Lane {
    var (a, ok) := TakeAck(l.ack, d, checks);
    if ok then l.(ack := a, got := l.got + [d]) else l
  }

  function Flush(l: Lane): Lane {
    if l.ack.due then l.(sent := l.sent + [l.ack], ack := l.ack.(due := false)) else l
  }

  /** The acks sent, and the one that is due. */
  function All(l: Lane): seq<Ack> {
    l.sent + if l.ack.due then [l.ack] else []
  }

  /** The acks cover exactly the ids handled, in order, with one credit for each message. */
  ghost predicate Tiled(l: Lane) {
    Ids(All(l)) == DeliveredIds(l.got) && Credits(All(l)) == |l.got|
  }

  lemma TakeNew(l: Lane, d: Delivery)
    requires Tiled(l) && !l.ack.due
    ensures Tiled(Take(l, d, false))
  {
    assert All(l) == l.sent;
  }

  /** What adding to the ack covers. */
  lemma TakeMoreIds(l: Lane, d: Delivery)
    requires l.ack.due
    ensures var l' := Take(l, d, false);
            && Ids(All(l')) == Ids(All(l)) + Range(l.ack.lId + l.ack.ackNum, d.num)
            && Credits(All(l')) == Credits(All(l)) + 1
            && DeliveredIds(l'.got) == DeliveredIds(l.got) + Range(d.lId, d.num)
  {
    var a, a' := l.ack, l.ack.(credits := l.ack.credits + 1, ackNum := l.ack.ackNum + d.num);
    RangeSplits(a.lId, a.ackNum, d.num);
    var x, y, z := Ids(l.sent), Range(a.lId, a.ackNum), Range(a.lId + a.ackNum, d.num);
    assert x + (y + z) == x + y + z;
  }

  lemma SameRangeEnd(all: seq<nat>, a: nat, b: nat, n: nat)
    requires n > 0
    ensures all + Range(a, n) == all + Range(b, n) <==> a == b
  {
    RangeIs(a, n);
    RangeIs(b, n);
    assert (all + Range(a, n))[|all|] == a && (all + Range(b, n))[|all|] == b;
  }

  /** Adding to an ack keeps the tiling exactly when the message starts where the ack ends. */
  lemma TakeMore(l: Lane, d: Delivery)
    requires Tiled(l) && l.ack.due && d.num > 0
    ensures Tiled(Take(l, d, false)) <==> Contiguous(l.ack, d)
  {
    TakeMoreIds(l, d);
    SameRangeEnd(DeliveredIds(l.got), l.ack.lId + l.ack.ackNum, d.lId, d.num);
  }

  lemma FlushTiles(l: Lane)
    requires Tiled(l)
    ensures Tiled(Flush(l)) && !Flush(l).ack.due && All(Flush(l)) == All(l)
  {
    assert All(Flush(l)) == All(l);
  }

  /* --------------------------- Runs of one slot --------------------------- */

  datatype Step = Deliver(d: Delivery) | Send

  function Next(l: Lane, s: Step, checks: bool): Lane {
    match s
    case Deliver(d) => Take(l, d, checks)
    case Send => Flush(l)
  }

  const EMPTY := Lane(Ack(0, 0, 0, false), [], [])

  function Run(steps: seq<Step>, checks: bool): Lane {
    if steps == [] then EMPTY else Next(Run(steps[..|steps| - 1], checks), steps[|steps| - 1], checks)
  }

  /** The messages of a run that carry ids, in order. */
  function Deliveries(steps: seq<Step>): seq<Delivery> {
    if steps == [] then []
    else
      var s := steps[|steps| - 1];
      Deliveries(steps[..|steps| - 1]) + if s.Deliver? then [s.d] else []
  }

  /** Without checks every message is taken, so what the acks are compared with is all that came. */
  lemma {:induction false} AllAreTaken(steps: seq<Step>)
    ensures Run(steps, false).got == Deliveries(steps)
  {
    if steps != [] { AllAreTaken(steps[..|steps| - 1]); }
  }

  /** A send leaves nothing due, and so all that the acks cover has been sent. */
  lemma SendSendsAll(steps: seq<Step>)
    ensures var l := Run(steps + [Send], false);
            && !l.ack.due && l.got == Deliveries(steps)
            && l.sent == All(Run(steps, false)) == All(l)
  {
    assert (steps + [Send])[..|steps|] == steps;
    AllAreTaken(steps);
    var l := Run(steps, false);
    assert All(Flush(l)) == Flush(l).sent;
  }

  /** A step keeps the tiling unless it adds a message with a gap before it, unchecked. */
  lemma NextTiles(l: Lane, s: Step, checks: bool)
    requires Tiled(l) && (s.Deliver? ==> s.d.num > 0 && (checks || Contiguous(l.ack, s.d)))
    ensures Tiled(Next(l, s, checks))
  {
    if s.Send? {
      FlushTiles(l);
    } else if Contiguous(l.ack, s.d) {
      assert Take(l, s.d, checks) == Take(l, s.d, false);
      if l.ack.due { TakeMore(l, s.d); } else { TakeNew(l, s.d); }
    }
  }

  /** Every message carries ids, and meets no due ack or one that ends where it starts. */
  ghost predicate NoGaps(steps: seq<Step>, checks: bool) {
    forall k {:trigger NoGapAt(steps, k, checks)} :: 0 <= k < |steps| ==> NoGapAt(steps, k, checks)
  }

  ghost predicate NoGapAt(steps: seq<Step>, k: nat, checks: bool)
    requires k < |steps|
  {
    steps[k].Deliver? ==> steps[k].d.num > 0 && Contiguous(Run(steps[..k], checks).ack, steps[k].d)
  }

  lemma NoGapsSnoc(steps: seq<Step>, n: nat)
    requires |steps| == n + 1
    ensures NoGaps(steps, false) <==> NoGaps(steps[..n], false) && NoGapAt(steps, n, false)
  {
    forall k | 0 <= k < n ensures NoGapAt(steps[..n], k, false) <==> NoGapAt(steps, k, false) {
      assert steps[..n][..k] == steps[..k];
    }
  }

  /** For contiguous messages, the acks of every run tile the id line. */
  lemma {:induction false} AcksTile(steps: seq<Step>)
    requires NoGaps(steps, false)
    ensures Tiled(Run(steps, false))
  {
    if steps != [] {
      var n := |steps| - 1;
      NoGapsSnoc(steps, n);
      AcksTile(steps[..n]);
      NextTiles(Run(steps[..n], false), steps[n], false);
    }
  }

  /** With checks on, a message that would leave a gap is refused, and the acks always tile. */
  lemma {:induction false} CheckedAcksTile(steps: seq<Step>)
    requires forall k :: 0 <= k < |steps| && steps[k].Deliver? ==> steps[k].d.num > 0
    ensures Tiled(Run(steps, true))
  {
    if steps != [] {
      var n := |steps| - 1;
      var before, s := Run(steps[..n], true), steps[n];
      CheckedAcksTile(steps[..n]);
      NextTiles(before, s, true);
    }
  }

  /** Somewhere the acks cover another id than the one handled. */
  ghost predicate Off(l: Lane) {
    exists k {:trigger OffAt(l, k)} :: OffAt(l, k)
  }

  ghost predicate OffAt(l: Lane, k: nat) {
    k < |Ids(All(l))| && k < |DeliveredIds(l.got)| && Ids(All(l))[k] != DeliveredIds(l.got)[k]
  }

  /** Steps only add at the end, to what is covered and to what is handled. */
  lemma NextExtends(l: Lane, s: Step)
    ensures Ids(All(l)) <= Ids(All(Next(l, s, false)))
    ensures DeliveredIds(l.got) <= DeliveredIds(Next(l, s, false).got)
  {
    if s.Send? {
      assert All(Flush(l)) == All(l);
    } else if l.ack.due {
      TakeMoreIds(l, s.d);
    } else {
      assert All(l) == l.sent;
    }
  }

  /** A gap puts the acks off. */
  lemma GapPutsOff(l: Lane, d: Delivery)
    requires Tiled(l) && d.num > 0 && !Contiguous(l.ack, d)
    ensures Off(Take(l, d, false))
  {
    TakeMoreIds(l, d);
    RangeIs(d.lId, d.num);
    RangeIs(l.ack.lId + l.ack.ackNum, d.num);
    assert OffAt(Take(l, d, false), |DeliveredIds(l.got)|);
  }

  lemma {:induction false} AnyGapPutsOff(steps: seq<Step>)
    requires (forall k :: 0 <= k < |steps| && steps[k].Deliver? ==> steps[k].d.num > 0) && !NoGaps(steps, false)
    ensures Off(Run(steps, false))
  {
    var n := |steps| - 1;
    var before, s := Run(steps[..n], false), steps[n];
    NoGapsSnoc(steps, n);
    if NoGaps(steps[..n], false) {
      AcksTile(steps[..n]);
      GapPutsOff(before, s.d);
    } else {
      AnyGapPutsOff(steps[..n]);
      NextExtends(before, s);
      var k :| OffAt(before, k);
      assert OffAt(Next(before, s, false), k);
    }
  }

  /** Without checks, the acks of a run tile exactly when it has no gaps: one gap breaks the tiling for good. */
  lemma TilesMeansNoGaps(steps: seq<Step>)
    requires forall k :: 0 <= k < |steps| && steps[k].Deliver? ==> steps[k].d.num > 0
    ensures Tiled(Run(steps, false)) <==> NoGaps(steps, false)
  {
    if NoGaps(steps, false) {
      AcksTile(steps);
    } else {
      AnyGapPutsOff(steps);
      var k :| OffAt(Run(steps, false), k);
    }
  }

  /* --------------------------- Each id is acked once --------------------------- */

  lemma {:induction false} IdsOfTwo(acks: seq<Ack>, i: nat, j: nat, id: nat)
    requires i < j < |acks| && Covers(acks[i], id) && Covers(acks[j], id)
    ensures !Ascending(Ids(acks))
  {
    var init, last := acks[..|acks| - 1], acks[|acks| - 1];
    if j < |init| {
      IdsOfTwo(init, i, j, id);
      var x, y :| 0 <= x < y < |Ids(init)| && Ids(init)[x] >= Ids(init)[y];
      assert Ids(acks)[x] >= Ids(acks)[y];
    } else {
      IdsHave(init, i, id);
      RangeIs(last.lId, last.ackNum);
      var x :| 0 <= x < |Ids(init)| && Ids(init)[x] == id;
      var y := |Ids(init)| + id - last.lId;
      assert Ids(acks)[x] == id && Ids(acks)[y] == id;
    }
  }

  lemma {:induction false} IdsHave(acks: seq<Ack>, i: nat, id: nat)
    requires i < |acks| && Covers(acks[i], id)
    ensures id in Ids(acks)
  {
    var last := acks[|acks| - 1];
    if i < |acks| - 1 {
      IdsHave(acks[..|acks| - 1], i, id);
    } else {
      RangeIs(last.lId, last.ackNum);
      assert Range(last.lId, last.ackNum)[id - last.lId] == id;
    }
  }

  /** If the ids handled ascend, no two of the acks sent have an id in common. */
  lemma AckedOnce(steps: seq<Step>, i: nat, j: nat, id: nat)
    requires NoGaps(steps, false) && Ascending(DeliveredIds(Run(steps, false).got))
    requires i < j < |Run(steps, false).sent|
    ensures var s := Run(steps, false).sent; !(Covers(s[i], id) && Covers(s[j], id))
  {
    AcksTile(steps);
    var l := Run(steps, false);
    if Covers(l.sent[i], id) && Covers(l.sent[j], id) { IdsOfTwo(All(l), i, j, id); }
  }

  predicate Covers(a: Ack, id: nat) {
    a.lId <= id < a.lId + a.ackNum
  }

  /* --------------------------- At the sender --------------------------- */

  /** The reorder buffer: ids pullLid to pullLid + capacity - 1 are pending, from slot pullPtr on. */
  datatype Rob = Rob(size: nat, pullPtr: nat, capacity: nat, pullLid: nat)

  predicate RobOk(rob: Rob) {
    rob.pullPtr < rob.size && rob.capacity <= rob.size
  }

  predicate Pending(rob: Rob, id: nat) {
    rob.pullLid <= id < rob.pullLid + rob.capacity
  }

  function SlotOf(rob: Rob, id: nat): nat
    requires RobOk(rob) && Pending(rob, id)
  {
    Idx(rob.pullPtr, id - rob.pullLid, rob.size)
  }

  /** `od_is_ack_too_old`. */
  predicate TooOld(a: Ack, rob: Rob) {
    rob.capacity == 0 || (rob.pullLid >= a.lId && rob.pullLid - a.lId >= a.ackNum)
  }

  /** `ctx_find_when_the_ack_points_acked`: the first slot, and how many; the sum is cut to 32 bits. */
  function FirstAcked(a: Ack, rob: Rob): (nat, nat)
    requires RobOk(rob) && !TooOld(a, rob)
  {
    if rob.pullLid >= a.lId then (rob.pullPtr, a.ackNum - (rob.pullLid - a.lId))
    else (Rem((rob.pullPtr + (a.lId - rob.pullLid)) % 0x1_0000_0000, rob.size), a.ackNum)
  }

  /** The slots visited from ptr on. */
  function Visited(ptr: nat, count: nat, size: nat): seq<nat>
    requires ptr < size
    decreases count
  {
    if count == 0 then [] else [ptr] + Visited(ModIncr(ptr, size), count - 1, size)
  }

  lemma {:induction false} VisitedAt(ptr: nat, count: nat, size: nat, i: nat)
    requires ptr < size && i < count <= size
    ensures |Visited(ptr, count, size)| == count && Visited(ptr, count, size)[i] == Idx(ptr, i, size)
    decreases count
  {
    if i > 0 {
      VisitedAt(ModIncr(ptr, size), count - 1, size, i - 1);
    } else if count > 1 {
      VisitedAt(ModIncr(ptr, size), count - 1, size, 0);
    }
  }

  /** An ack of something is too old exactly when none of its ids is pending. */
  lemma TooOldMeansNonePending(a: Ack, rob: Rob)
    requires RobOk(rob) && a.ackNum > 0 && a.lId + a.ackNum <= rob.pullLid + rob.capacity
    ensures TooOld(a, rob) <==> !exists id: nat :: Covers(a, id) && Pending(rob, id)
  {
    if !TooOld(a, rob) {
      var id := if a.lId >= rob.pullLid then a.lId else rob.pullLid;
      assert Covers(a, id) && Pending(rob, id);
    }
  }

  /**
    An ack that is not too old visits exactly the slots of its ids that are still pending, each
    once and in order: as many slots as pending ids, the i-th slot for the i-th such id.
  */
  lemma AckVisitsPending(a: Ack, rob: Rob, i: nat)
    requires RobOk(rob) && !TooOld(a, rob) && a.lId + a.ackNum <= rob.pullLid + rob.capacity
    requires rob.size <= 0x8000_0000
    ensures var (ptr, count) := FirstAcked(a, rob);
            var first := if a.lId >= rob.pullLid then a.lId else rob.pullLid;
            && ptr < rob.size && count <= rob.size && first + count == a.lId + a.ackNum
            && (i < count ==> Pending(rob, first + i)
                              && |Visited(ptr, count, rob.size)| == count
                              && Visited(ptr, count, rob.size)[i] == SlotOf(rob, first + i))
  {
    var (ptr, count) := FirstAcked(a, rob);
    if a.lId > rob.pullLid {
      WrapOnce(rob.pullPtr + (a.lId - rob.pullLid), rob.size);
    }
    if i < count { VisitedAt(ptr, count, rob.size, i); }
  }

  lemma WrapOnce(x: nat, n: nat)
    requires n > 0 && x < 2 * n <= 0x1_0000_0000
    ensures Rem(x % 0x1_0000_0000, n) == if x < n then x else x - n
  {
    assert x % 0x1_0000_0000 == x;
  }

  /** The buffer has room for 32-bit sums, and the ack names no id that has not been sent. */
  predicate Fits(rob: Rob, a: Ack) {
    RobOk(rob) && rob.size <= 0x8000_0000 && a.lId + a.ackNum <= rob.pullLid + rob.capacity
  }

  /** The ack visits the slot of pending id `id`. */
  predicate Visits(rob: Rob, a: Ack, id: nat)
    requires RobOk(rob)
  {
    && !TooOld(a, rob) && Pending(rob, id) && FirstAcked(a, rob).0 < rob.size
    && SlotOf(rob, id) in Visited(FirstAcked(a, rob).0, FirstAcked(a, rob).1, rob.size)
  }

  /** The slots an ack visits are those of the pending ids that it covers. */
  lemma VisitsMeansCovers(rob: Rob, a: Ack, id: nat)
    requires Fits(rob, a) && Pending(rob, id)
    ensures Visits(rob, a, id) <==> Covers(a, id)
  {
    if !TooOld(a, rob) {
      var (ptr, count) := FirstAcked(a, rob);
      var first := if a.lId >= rob.pullLid then a.lId else rob.pullLid;
      AckVisitsPending(a, rob, 0);
      if Covers(a, id) {
        AckVisitsPending(a, rob, id - first);
      }
      if Visits(rob, a, id) {
        var slots := Visited(ptr, count, rob.size);
        VisitedLength(ptr, count, rob.size);
        var i :| 0 <= i < |slots| && slots[i] == SlotOf(rob, id);
        AckVisitsPending(a, rob, i);
        assert id == first + i;
      }
    }
  }

  lemma {:induction false} VisitedLength(ptr: nat, count: nat, size: nat)
    requires ptr < size
    ensures |Visited(ptr, count, size)| == count
    decreases count
  {
    if count > 0 { VisitedLength(ModIncr(ptr, size), count - 1, size); }
  }

  /**
    Over a whole run of the receiver's slot, whatever the sender's buffer is when an ack comes:
    no two acks visit the slot of the same pending id.
  */
  lemma PendingVisitedOnce(steps: seq<Step>, i: nat, j: nat, robI: Rob, robJ: Rob, id: nat)
    requires NoGaps(steps, false) && Ascending(DeliveredIds(Run(steps, false).got))
    requires i < j < |Run(steps, false).sent|
    requires Fits(robI, Run(steps, false).sent[i]) && Fits(robJ, Run(steps, false).sent[j])
    ensures var s := Run(steps, false).sent; !(Visits(robI, s[i], id) && Visits(robJ, s[j], id))
  {
    var s := Run(steps, false).sent;
    AckedOnce(steps, i, j, id);
    if Pending(robI, id) { VisitsMeansCovers(robI, s[i], id); }
    if Pending(robJ, id) { VisitsMeansCovers(robJ, s[j], id); }
  }

  /* --------------------------- The ack slots of a worker --------------------------- */

  /** The machines below k whose acks are due, in order. */
  function Due(lanes: seq<Lane>, k: nat): seq<nat>
    requires k <= |lanes|
  {
    if k == 0 then [] else Due(lanes, k - 1) + if lanes[k - 1].ack.due then [k - 1] else []
  }

  lemma {:induction false} DueIsExact(lanes: seq<Lane>, k: nat, m: nat)
    requires k <= |lanes|
    ensures m in Due(lanes, k) <==> m < k && lanes[m].ack.due
    ensures Ascending(Due(lanes, k))
    ensures forall i :: 0 <= i < |Due(lanes, k)| ==> Due(lanes, k)[i] < k
  {
    if k > 0 { DueIsExact(lanes, k - 1, m); }
  }

  /** The lanes after the acks of machines below i have been sent. */
  function FlushedTo(lanes: seq<Lane>, i: nat): (r: seq<Lane>)
    ensures |r| == |lanes|
  {
    seq(|lanes|, m requires 0 <= m < |lanes| => if m < i then Flush(lanes[m]) else lanes[m])
  }

  lemma FlushedOne(lanes: seq<Lane>, i: nat)
    ensures FlushedTo(lanes, 0) == lanes
    ensures i < |lanes| ==> FlushedTo(lanes, i + 1) == FlushedTo(lanes, i)[i := Flush(lanes[i])]
    ensures i < |lanes| && !lanes[i].ack.due ==> FlushedTo(lanes, i + 1) == FlushedTo(lanes, i)
  {
  }

  /** The first n requests of `out` lead from one to the next. */
  ghost predicate Linked(next: seq<int>, out: seq<nat>) {
    && (forall i :: 0 <= i < |out| ==> out[i] < |next|)
    && forall i, j :: 0 <= i < j < |out| && j == i + 1 ==> next[out[i]] == out[j]
  }

  class AckBuffer {
    const checks: bool        // ENABLE_ASSERTIONS
    const acks: array<Ack>    // one slot for each machine
    const next: array<int>    // the links of the work requests, one for each machine
    ghost var lanes: seq<Lane>

    ghost predicate Valid()
      reads this, acks
    {
      && acks.Length == next.Length == |lanes|
      && forall m :: 0 <= m < |lanes| ==> lanes[m].ack == acks[m]
    }

    constructor (machines: nat, checks: bool)
      ensures Valid() && this.checks == checks && lanes == seq(machines, m => EMPTY)
      ensures fresh(acks) && fresh(next)
    {
      this.checks := checks;
      acks := new Ack[machines](i => Ack(0, 0, 0, false));
      next := new int[machines](i => NO_WR);
      lanes := seq(machines, m => EMPTY);
    }

    /** `ctx_ack_insert`, for a message handled from machine m. */
    method Insert(m: nat, d: Delivery) returns (ok: bool)
      requires Valid() && m < acks.Length
      modifies this`lanes, acks
      ensures Valid() && lanes == old(lanes)[m := Take(old(lanes)[m], d, checks)]
      ensures ok <==> !checks || Contiguous(old(lanes)[m].ack, d)
    {
      var ack := acks[m];
      lanes := lanes[m := Take(lanes[m], d, checks)];
      if checks && ack.due && ack.lId + ack.ackNum != d.lId { return false; }
      if !ack.due {
        acks[m] := Ack(d.lId, d.num, 1, true);
      } else {
        acks[m] := ack.(credits := ack.credits + 1, ackNum := ack.ackNum + d.num);
      }
      return true;
    }

    /** Links the request for machine m behind those of `out`. */
    method LinkOne(out: seq<nat>, m: nat) returns (out': seq<nat>)
      requires Linked(next[..], out) && Ascending(out) && m < next.Length && forall k :: 0 <= k < |out| ==> out[k] < m
      modifies next
      ensures out' == out + [m] && Linked(next[..], out') && Ascending(out')
    {
      if out != [] {
        ghost var before := next[..];
        next[out[|out| - 1]] := m;
        assert next[..] == before[out[|out| - 1] := m];
      }
      out' := out + [m];
    }

    /** One due slot is freed, and its request is linked behind those of `out`. */
    method SendOne(i: nat, out: seq<nat>) returns (out': seq<nat>)
      requires Valid() && i < acks.Length && acks[i].due
      requires Linked(next[..], out) && Ascending(out) && forall k :: 0 <= k < |out| ==> out[k] < i
      modifies this`lanes, acks, next
      ensures Valid() && lanes == old(lanes)[i := Flush(old(lanes)[i])]
      ensures out' == out + [i] && Linked(next[..], out') && Ascending(out')
    {
      lanes := lanes[i := Flush(lanes[i])];
      acks[i] := acks[i].(due := false);
      out' := LinkOne(out, i);
    }

    /** The loop of `od_send_acks`: frees the slots that are due and links their requests. */
    method LinkDue() returns (out: seq<nat>)
      requires Valid()
      modifies this`lanes, acks, next
      ensures Valid() && out == Due(old(lanes), |lanes|) && Linked(next[..], out) && Ascending(out)
      ensures lanes == FlushedTo(old(lanes), |old(lanes)|)
    {
      out := [];
      FlushedOne(lanes, 0);
      for i := 0 to acks.Length
        invariant Valid() && lanes == FlushedTo(old(lanes), i) && out == Due(old(lanes), i)
        invariant Linked(next[..], out) && Ascending(out) && forall k :: 0 <= k < |out| ==> out[k] < i
      {
        FlushedOne(old(lanes), i);
        assert lanes[i] == old(lanes)[i];
        if acks[i].due { out := SendOne(i, out); }
      }
    }

    /** `od_send_acks`: what is posted are the requests of exactly the machines whose acks were due. */
    method SendAcks() returns (posted: seq<nat>)
      requires Valid()
      modifies this`lanes, acks, next
      ensures Valid() && posted == Due(old(lanes), |lanes|)
      ensures lanes == FlushedTo(old(lanes), |old(lanes)|)
    {
      posted := [];
      var out := LinkDue();
      if out != [] {
        next[out[|out| - 1]] := NO_WR;
        var w := out[0];
        ghost var k := 0;
        while w != NO_WR
          invariant k <= |out| && posted == out[..k] && w == if k < |out| then out[k] else NO_WR
          invariant forall i, j :: 0 <= i < j < |out| && j == i + 1 ==> next[out[i]] == out[j]
          invariant next[out[|out| - 1]] == NO_WR
          decreases |out| - k
        {
          posted := posted + [w];
          assert k + 1 < |out| ==> next[out[k]] == out[k + 1];
          w := next[w];
          k := k + 1;
        }
      }
    }
  }
}
