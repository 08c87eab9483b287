/**
  The send fifo: a ring of message slots. Entries are coalesced into the slot at the push
  pointer until it is full; each send takes the slot at the pull pointer. Capacities count
  the messages and the entries that wait.
*/
module SendFifo {
  import opened Common
  import opened Division
  import opened Rings

  const MTU: nat := 4096

  /** An entry is the bytes that one insertion writes; a message is the entries of a slot. */
  type Entry = seq<byte>
  type Message = seq<Entry>

  datatype Config = Config(slots: nat, slotSize: nat, header: nat)

  /** The fields of the fifo, and those of its slots. */
  datatype Fifo = Fifo(
    mem: seq<byte>, coalesce: seq<nat>, byteSize: seq<nat>, respSize: seq<nat>,
    push: nat, pull: nat, capacity: nat, netCapacity: nat)

  /* --------------------------- Memory --------------------------- */

  /** Where slot k starts. */
  function Start(c: Config, k: nat): nat {
    Times(k, c.slotSize)
  }

  /** The bytes of a message, entry after entry. */
  function Flat(m: Message): Entry {
    if m == [] then [] else Flat(m[..|m| - 1]) + m[|m| - 1]
  }

  lemma FlatSnoc(m: Message, e: Entry)
    ensures Flat(m + [e]) == Flat(m) + e
  {
    assert (m + [e])[..|m|] == m;
  }

  function Count(ms: seq<Message>): nat {
    if ms == [] then 0 else Count(ms[..|ms| - 1]) + |ms[|ms| - 1]|
  }

  /** All entries of all messages, in order. */
  function Entries(ms: seq<Message>): seq<Entry> {
    if ms == [] then [] else Entries(ms[..|ms| - 1]) + ms[|ms| - 1]
  }

  lemma {:induction false} EntriesCount(ms: seq<Message>)
    ensures |Entries(ms)| == Count(ms)
  {
    if ms != [] { EntriesCount(ms[..|ms| - 1]); }
  }

  lemma {:induction false} EntriesOfRest(ms: seq<Message>)
    requires ms != []
    ensures Entries(ms) == ms[0] + Entries(ms[1..])
  {
    var init, rest, last := ms[..|ms| - 1], ms[1..], ms[|ms| - 1];
    if |ms| == 1 {
      assert init == [] && rest == [] && Entries(ms) == [] + last;
      assert [] + last == last == last + [];
    } else {
      EntriesOfRest(init);
      assert rest[..|rest| - 1] == init[1..] && rest[|rest| - 1] == last;
      JoinedTwice(ms[0], Entries(init[1..]), last);
    }
  }

  lemma JoinedTwice(a: seq<Entry>, b: seq<Entry>, c: seq<Entry>)
    ensures a + b + c == a + (b + c)
  {
  }

  lemma {:induction false} CountOfRest(ms: seq<Message>)
    requires ms != []
    ensures Count(ms) == |ms[0]| + Count(ms[1..])
  {
    EntriesCount(ms);
    EntriesCount(ms[1..]);
    EntriesOfRest(ms);
  }

  /* --------------------------- Operations --------------------------- */

  predicate Shaped(c: Config, f: Fifo) {
    && c.slots > 0 && |f.mem| == Start(c, c.slots)
    && |f.coalesce| == |f.byteSize| == |f.respSize| == c.slots
    && f.push < c.slots && f.pull < c.slots
  }

  /** `reset_fifo_slot`. */
  function Reset(c: Config, f: Fifo): Fifo
    requires Shaped(c, f)
  {
    var p := ModIncr(f.push, c.slots);
    f.(push := p, byteSize := f.byteSize[p := c.header], respSize := f.respSize[p := 0],
       coalesce := f.coalesce[p := 0])
  }

  /** Whether `get_send_fifo_ptr` opens a new message. */
  predicate Opens(c: Config, f: Fifo, size: nat, resp: nat, alone: bool)
    requires Shaped(c, f)
  {
    || f.respSize[f.push] + resp > MTU
    || f.byteSize[f.push] + size > c.slotSize
    || (alone && f.coalesce[f.push] != 0)
  }

  /** `get_send_fifo_ptr`: the fifo after it; the new entry ends where byteSize[push] says. */
  function GetPtr(c: Config, f: Fifo, size: nat, resp: nat, alone: bool): (f': Fifo)
    requires Shaped(c, f)
    ensures Shaped(c, f')
  {
    var f1 := f.(respSize := f.respSize[f.push := f.respSize[f.push] + resp]);
    var f2 := if Opens(c, f, size, resp, alone) then Reset(c, f1) else f1;
    f2.(coalesce := f2.coalesce[f2.push := f2.coalesce[f2.push] + 1],
        byteSize := f2.byteSize[f2.push := f2.byteSize[f2.push] + size])
  }

  /** `od_insert_mes`. */
  function Insert(c: Config, f: Fifo, data: Entry, resp: nat, alone: bool): Fifo
    requires Shaped(c, f) && Fits(c, GetPtr(c, f, |data|, resp, alone), |data|)
  {
    var f1 := GetPtr(c, f, |data|, resp, alone);
    var at := Start(c, f1.push) + f1.byteSize[f1.push] - |data|;
    TimesGap(f1.push, c.slots, c.slotSize);
    f1.(mem := Write(f1.mem, at, data),
        capacity := if f1.coalesce[f1.push] == 1 then f1.capacity + 1 else f1.capacity,
        netCapacity := f1.netCapacity + 1)
  }

  predicate Fits(c: Config, f: Fifo, size: nat)
    requires Shaped(c, f)
  {
    size <= f.byteSize[f.push] <= c.slotSize
  }

  /** `fifo_send_from_pull_slot`. */
  function Send(c: Config, f: Fifo): Fifo
    requires Shaped(c, f) && f.capacity > 0 && f.coalesce[f.pull] <= f.netCapacity
  {
    var f1 := f.(netCapacity := f.netCapacity - f.coalesce[f.pull]);
    var f2 := if f1.netCapacity == 0 then Reset(c, f1) else f1;
    f2.(capacity := f2.capacity - 1, pull := ModIncr(f2.pull, c.slots))
  }

  /* --------------------------- The invariant --------------------------- */

  /** The bytes of slot s behind the header. */
  function Body(c: Config, f: Fifo, s: nat): Entry
    requires Shaped(c, f) && s < c.slots && c.header <= f.byteSize[s] <= c.slotSize
  {
    TimesGap(s, c.slots, c.slotSize);
    f.mem[Start(c, s) + c.header..Start(c, s) + f.byteSize[s]]
  }

  /** Slot s holds message m: its entries tile the slot from the header on. */
  ghost predicate Holds(c: Config, f: Fifo, s: nat, m: Message)
    requires Shaped(c, f) && s < c.slots
  {
    && m != [] && f.coalesce[s] == |m|
    && f.byteSize[s] == c.header + |Flat(m)| <= c.slotSize
    && Body(c, f, s) == Flat(m)
  }

  /** The i-th waiting message is in its slot. */
  ghost predicate HeldAt(c: Config, f: Fifo, ms: seq<Message>, i: nat)
    requires Shaped(c, f) && i < |ms| <= c.slots
  {
    Holds(c, f, Idx(f.pull, i, c.slots), ms[i])
  }

  ghost predicate AllHeld(c: Config, f: Fifo, ms: seq<Message>)
    requires Shaped(c, f) && |ms| <= c.slots
  {
    forall i {:trigger HeldAt(c, f, ms, i)} :: 0 <= i < |ms| ==> HeldAt(c, f, ms, i)
  }

  /** `ms` are the messages that wait, oldest first. */
  ghost predicate Inv(c: Config, f: Fifo, ms: seq<Message>) {
    && Shaped(c, f) && c.header <= c.slotSize
    && f.capacity == |ms| <= c.slots && f.netCapacity == Count(ms)
    && AllHeld(c, f, ms)
    && (if ms == [] then
          f.push == f.pull && f.byteSize[f.push] == c.header && f.coalesce[f.push] == 0 && f.respSize[f.push] == 0
        else f.push == Idx(f.pull, |ms| - 1, c.slots))
  }

  /** What an insertion must not do: overfill an empty slot, or run into the oldest message. */
  predicate CanInsert(c: Config, f: Fifo, size: nat, resp: nat, alone: bool)
    requires Shaped(c, f)
  {
    && c.header + size <= c.slotSize
    && (Opens(c, f, size, resp, alone) ==> 0 < f.capacity < c.slots)
  }

  /** The messages after an insertion. */
  function Inserted(ms: seq<Message>, opens: bool, data: Entry): seq<Message> {
    if ms == [] || opens then ms + [[data]]
    else ms[..|ms| - 1] + [ms[|ms| - 1] + [data]]
  }

  /* --------------------------- Proofs --------------------------- */

  /** Both capacities are zero together. */
  lemma {:induction false} CapacitiesAgree(c: Config, f: Fifo, ms: seq<Message>)
    requires Inv(c, f, ms)
    ensures f.capacity == 0 <==> f.netCapacity == 0
  {
    if ms != [] { assert HeldAt(c, f, ms, |ms| - 1); }
  }

  /** Messages whose slots are untouched are still held. */
  lemma StillHeld(c: Config, f: Fifo, f': Fifo, s: nat, m: Message)
    requires Shaped(c, f) && Shaped(c, f') && s < c.slots && Holds(c, f, s, m)
    requires f'.coalesce[s] == f.coalesce[s] && f'.byteSize[s] == f.byteSize[s]
    requires Start(c, s) + c.slotSize <= |f.mem| && |f.mem| == |f'.mem|
    requires forall k :: Start(c, s) <= k < Start(c, s) + c.slotSize ==> f'.mem[k] == f.mem[k]
    ensures Holds(c, f', s, m)
  {
    assert Body(c, f', s) == Body(c, f, s);
  }

  /** Writing within one slot leaves the others alone. */
  lemma OtherSlot(c: Config, f: Fifo, f': Fifo, p: nat, at: nat, data: Entry, s: nat, m: Message)
    requires Shaped(c, f) && Shaped(c, f') && p < c.slots && s < c.slots && s != p && Holds(c, f, s, m)
    requires f'.coalesce[s] == f.coalesce[s] && f'.byteSize[s] == f.byteSize[s]
    requires Start(c, p) <= at && at + |data| <= Start(c, p) + c.slotSize <= |f.mem|
    requires f'.mem == Write(f.mem, at, data)
    ensures Holds(c, f', s, m)
  {
    TimesGap(s, c.slots, c.slotSize);
    if s < p { TimesGap(s, p, c.slotSize); } else { TimesGap(p, s, c.slotSize); }
    StillHeld(c, f, f', s, m);
  }

  /** The slot written to holds one more entry. */
  lemma WrittenSlot(c: Config, f: Fifo, f': Fifo, p: nat, m: Message, data: Entry)
    requires Shaped(c, f) && Shaped(c, f') && p < c.slots && c.header <= c.slotSize
    requires f.byteSize[p] == c.header + |Flat(m)| && f.byteSize[p] + |data| <= c.slotSize
    requires Body(c, f, p) == Flat(m)
    requires f'.byteSize[p] == f.byteSize[p] + |data| && f'.coalesce[p] == |m| + 1
    requires Start(c, p) + f.byteSize[p] + |data| <= |f.mem|
    requires f'.mem == Write(f.mem, Start(c, p) + f.byteSize[p], data)
    ensures Holds(c, f', p, m + [data])
  {
    FlatSnoc(m, data);
    TimesGap(p, c.slots, c.slotSize);
    var a, b := Start(c, p) + c.header, Start(c, p) + f.byteSize[p];
    assert f'.mem[a..b] == f.mem[a..b];
    assert f'.mem[b..b + |data|] == data;
    assert f'.mem[a..b + |data|] == f'.mem[a..b] + f'.mem[b..b + |data|];
  }

  lemma CountSnoc(ms: seq<Message>, m: Message)
    ensures Count(ms + [m]) == Count(ms) + |m|
    ensures Entries(ms + [m]) == Entries(ms) + m
  {
    assert (ms + [m])[..|ms|] == ms;
  }

  /** Opening a new slot keeps all messages. */
  lemma ResetKeeps(c: Config, f: Fifo, ms: seq<Message>, i: nat)
    requires Inv(c, f, ms) && i < |ms| < c.slots
    ensures Holds(c, Reset(c, f), Idx(f.pull, i, c.slots), ms[i])
    ensures Idx(f.pull, i, c.slots) != Reset(c, f).push
  {
    var s := Idx(f.pull, i, c.slots);
    assert HeldAt(c, f, ms, i);
    TimesGap(s, c.slots, c.slotSize);
    StillHeld(c, f, Reset(c, f), s, ms[i]);
  }

  /** Insertion into the last message, or into the slot of an empty fifo: the other messages. */
  lemma InsertSameOthers(c: Config, f: Fifo, ms: seq<Message>, data: Entry, resp: nat, alone: bool, i: nat)
    requires Inv(c, f, ms) && CanInsert(c, f, |data|, resp, alone) && !Opens(c, f, |data|, resp, alone)
    requires i + 1 < |ms|
    ensures Holds(c, Insert(c, f, data, resp, alone), Idx(f.pull, i, c.slots), ms[i])
  {
    assert HeldAt(c, f, ms, i);
    assert HeldAt(c, f, ms, |ms| - 1);
    TimesGap(f.push, c.slots, c.slotSize);
    OtherSlot(c, f, Insert(c, f, data, resp, alone), f.push, Start(c, f.push) + f.byteSize[f.push], data,
              Idx(f.pull, i, c.slots), ms[i]);
  }

  function Last(ms: seq<Message>): Message {
    if ms == [] then [] else ms[|ms| - 1]
  }

  lemma InsertSameLast(c: Config, f: Fifo, ms: seq<Message>, data: Entry, resp: nat, alone: bool)
    requires Inv(c, f, ms) && CanInsert(c, f, |data|, resp, alone) && !Opens(c, f, |data|, resp, alone)
    ensures Fits(c, GetPtr(c, f, |data|, resp, alone), |data|)
    ensures Holds(c, Insert(c, f, data, resp, alone), f.push, Last(ms) + [data])
    ensures f.coalesce[f.push] == |Last(ms)| && (ms != [] ==> Last(ms) != [])
  {
    TimesGap(f.push, c.slots, c.slotSize);
    if ms != [] { assert HeldAt(c, f, ms, |ms| - 1); }
    WrittenSlot(c, f, Insert(c, f, data, resp, alone), f.push, Last(ms), data);
  }

  lemma InsertSameHeld(c: Config, f: Fifo, ms: seq<Message>, data: Entry, resp: nat, alone: bool, i: nat)
    requires Inv(c, f, ms) && CanInsert(c, f, |data|, resp, alone) && !Opens(c, f, |data|, resp, alone)
    requires i < |Inserted(ms, false, data)|
    ensures Fits(c, GetPtr(c, f, |data|, resp, alone), |data|)
    ensures HeldAt(c, Insert(c, f, data, resp, alone), Inserted(ms, false, data), i)
  {
    InsertSameLast(c, f, ms, data, resp, alone);
    if i + 1 < |ms| { InsertSameOthers(c, f, ms, data, resp, alone, i); }
  }

  /** The counts after an insertion. */
  lemma InsertedCounts(ms: seq<Message>, opens: bool, data: Entry)
    ensures Count(Inserted(ms, opens, data)) == Count(ms) + 1
    ensures |Inserted(ms, opens, data)| == if ms == [] || opens then |ms| + 1 else |ms|
  {
    if ms == [] || opens {
      CountSnoc(ms, [data]);
    } else {
      var init, last := ms[..|ms| - 1], ms[|ms| - 1];
      CountSnoc(init, last + [data]);
      CountSnoc(init, last);
      assert ms == init + [last];
    }
  }

  /** The invariant of the new fifo, from its fields and its slots. */
  lemma NewInv(c: Config, f: Fifo, ms: seq<Message>, f': Fifo, ms': seq<Message>)
    requires Inv(c, f, ms) && Shaped(c, f') && ms' != [] && |ms'| <= c.slots && AllHeld(c, f', ms')
    requires f'.capacity == |ms'| && f'.netCapacity == Count(ms')
    requires f'.pull == f.pull && f'.push == Idx(f.pull, |ms'| - 1, c.slots)
    ensures Inv(c, f', ms')
  {
  }

  /** Insertion that opens a new message: the messages before it. */
  lemma InsertNewOthers(c: Config, f: Fifo, ms: seq<Message>, data: Entry, resp: nat, alone: bool, i: nat)
    requires Inv(c, f, ms) && CanInsert(c, f, |data|, resp, alone) && Opens(c, f, |data|, resp, alone)
    requires i < |ms| && Fits(c, GetPtr(c, f, |data|, resp, alone), |data|)
    ensures Holds(c, Insert(c, f, data, resp, alone), Idx(f.pull, i, c.slots), ms[i])
  {
    var r := Reset(c, f);
    TimesGap(r.push, c.slots, c.slotSize);
    ResetKeeps(c, f, ms, i);
    OtherSlot(c, r, Insert(c, f, data, resp, alone), r.push, Start(c, r.push) + c.header, data,
              Idx(f.pull, i, c.slots), ms[i]);
  }

  lemma InsertNewLast(c: Config, f: Fifo, ms: seq<Message>, data: Entry, resp: nat, alone: bool)
    requires Inv(c, f, ms) && CanInsert(c, f, |data|, resp, alone) && Opens(c, f, |data|, resp, alone)
    ensures Fits(c, GetPtr(c, f, |data|, resp, alone), |data|)
    ensures var f' := Insert(c, f, data, resp, alone);
            f'.push == ModIncr(f.push, c.slots) && Holds(c, f', f'.push, [data])
  {
    var r := Reset(c, f);
    TimesGap(r.push, c.slots, c.slotSize);
    WrittenSlot(c, r, Insert(c, f, data, resp, alone), r.push, [], data);
  }

  lemma InsertNewHeld(c: Config, f: Fifo, ms: seq<Message>, data: Entry, resp: nat, alone: bool, i: nat)
    requires Inv(c, f, ms) && CanInsert(c, f, |data|, resp, alone) && Opens(c, f, |data|, resp, alone)
    requires i < |Inserted(ms, true, data)|
    ensures Fits(c, GetPtr(c, f, |data|, resp, alone), |data|)
    ensures HeldAt(c, Insert(c, f, data, resp, alone), Inserted(ms, true, data), i)
  {
    InsertNewLast(c, f, ms, data, resp, alone);
    if i < |ms| { InsertNewOthers(c, f, ms, data, resp, alone, i); }
  }

  /** After an insertion, every waiting message is in its slot, the new entry in the last one. */
  lemma InsertedHeld(c: Config, f: Fifo, ms: seq<Message>, data: Entry, resp: nat, alone: bool, i: nat)
    requires Inv(c, f, ms) && CanInsert(c, f, |data|, resp, alone)
    requires i < |Inserted(ms, Opens(c, f, |data|, resp, alone), data)|
    ensures Fits(c, GetPtr(c, f, |data|, resp, alone), |data|)
    ensures |Inserted(ms, Opens(c, f, |data|, resp, alone), data)| <= c.slots
    ensures HeldAt(c, Insert(c, f, data, resp, alone), Inserted(ms, Opens(c, f, |data|, resp, alone), data), i)
  {
    if Opens(c, f, |data|, resp, alone) {
      InsertNewHeld(c, f, ms, data, resp, alone, i);
    } else {
      InsertSameHeld(c, f, ms, data, resp, alone, i);
    }
  }

  /** The pointers and counts after an insertion. */
  lemma InsertedFields(c: Config, f: Fifo, ms: seq<Message>, data: Entry, resp: nat, alone: bool)
    requires Inv(c, f, ms) && CanInsert(c, f, |data|, resp, alone)
    ensures Fits(c, GetPtr(c, f, |data|, resp, alone), |data|)
    ensures var f' := Insert(c, f, data, resp, alone);
            var ms' := Inserted(ms, Opens(c, f, |data|, resp, alone), data);
            && Shaped(c, f') && 0 < |ms'| <= c.slots && f'.capacity == |ms'| && f'.netCapacity == Count(ms')
            && f'.pull == f.pull && f'.push == Idx(f.pull, |ms'| - 1, c.slots)
  {
    InsertedCounts(ms, Opens(c, f, |data|, resp, alone), data);
    if Opens(c, f, |data|, resp, alone) {
      InsertNewLast(c, f, ms, data, resp, alone);
    } else {
      InsertSameLast(c, f, ms, data, resp, alone);
    }
  }

  /** An insertion keeps what waits, and the new entry comes last. */
  lemma InsertKeeps(c: Config, f: Fifo, ms: seq<Message>, data: Entry, resp: nat, alone: bool)
    requires Inv(c, f, ms) && CanInsert(c, f, |data|, resp, alone)
    ensures Fits(c, GetPtr(c, f, |data|, resp, alone), |data|)
    ensures var ms' := Inserted(ms, Opens(c, f, |data|, resp, alone), data);
            Inv(c, Insert(c, f, data, resp, alone), ms') && Entries(ms') == Entries(ms) + [data]
  {
    InsertedFields(c, f, ms, data, resp, alone);
    var f', ms' := Insert(c, f, data, resp, alone), Inserted(ms, Opens(c, f, |data|, resp, alone), data);
    forall i | 0 <= i < |ms'| ensures HeldAt(c, f', ms', i) {
      InsertedHeld(c, f, ms, data, resp, alone, i);
    }
    NewInv(c, f, ms, f', ms');
    EntriesInserted(ms, Opens(c, f, |data|, resp, alone), data);
  }

  /**
    In terms of what waits, an entry opens a message exactly when it asks to be alone and
    something waits, or does not fit behind the newest message, or its reply makes those counted
    for that message exceed the MTU.
  */
  lemma OpensMeans(c: Config, f: Fifo, ms: seq<Message>, size: nat, resp: nat, alone: bool)
    requires Inv(c, f, ms)
    ensures Opens(c, f, size, resp, alone) <==>
            || (alone && ms != [])
            || c.header + |Flat(Last(ms))| + size > c.slotSize
            || f.respSize[f.push] + resp > MTU
  {
    if ms != [] { assert HeldAt(c, f, ms, |ms| - 1); }
  }

  /** The replies counted for the newest message: all but that of an entry that opened it on its own account. */
  lemma RepliesCounted(c: Config, f: Fifo, ms: seq<Message>, data: Entry, resp: nat, alone: bool)
    requires Inv(c, f, ms) && CanInsert(c, f, |data|, resp, alone)
    ensures Fits(c, GetPtr(c, f, |data|, resp, alone), |data|)
    ensures var f' := Insert(c, f, data, resp, alone);
            f'.respSize[f'.push] == if Opens(c, f, |data|, resp, alone) then 0 else f.respSize[f.push] + resp
  {
    InsertedFields(c, f, ms, data, resp, alone);
  }

  /** Sending leaves the messages behind the oldest. */
  lemma SendOthers(c: Config, f: Fifo, ms: seq<Message>, i: nat)
    requires Inv(c, f, ms) && 0 < i < |ms| && f.coalesce[f.pull] < f.netCapacity
    ensures Holds(c, Send(c, f), Idx(f.pull, i, c.slots), ms[i])
  {
    var s := Idx(f.pull, i, c.slots);
    assert HeldAt(c, f, ms, i);
    TimesGap(s, c.slots, c.slotSize);
    StillHeld(c, f, Send(c, f), s, ms[i]);
  }

  /** The oldest message is in the pull slot, and it is the last one if nothing is left to send. */
  lemma OldestHeld(c: Config, f: Fifo, ms: seq<Message>)
    requires Inv(c, f, ms) && ms != []
    ensures Holds(c, f, f.pull, ms[0]) && f.netCapacity == f.coalesce[f.pull] + Count(ms[1..])
    ensures |ms| > 1 <==> f.coalesce[f.pull] < f.netCapacity
  {
    assert HeldAt(c, f, ms, 0);
    CountOfRest(ms);
    if |ms| > 1 {
      assert HeldAt(c, f, ms, 1);
      CountOfRest(ms[1..]);
    }
  }

  /** Sending takes the oldest message. */
  lemma SendKeeps(c: Config, f: Fifo, ms: seq<Message>)
    requires Inv(c, f, ms) && ms != []
    ensures Holds(c, f, f.pull, ms[0]) && f.coalesce[f.pull] <= f.netCapacity
    ensures Inv(c, Send(c, f), ms[1..])
  {
    OldestHeld(c, f, ms);
    var f', rest := Send(c, f), ms[1..];
    forall i | 0 <= i < |rest| ensures HeldAt(c, f', rest, i) {
      SendOthers(c, f, ms, i + 1);
    }
  }

  /* --------------------------- The fifo --------------------------- */

  class SendQueue {
    const slots: nat
    const slotSize: nat
    const header: nat
    const mem: array<byte>
    const coalesce: array<nat>
    const byteSize: array<nat>
    const respSize: array<nat>
    var push: nat
    var pull: nat
    var capacity: nat
    var netCapacity: nat
    ghost var ms: seq<Message>
    /** Everything ever inserted and everything ever sent. */
    ghost var inserted: seq<Entry>
    ghost var sent: seq<Entry>

    ghost function Conf(): Config {
      Config(slots, slotSize, header)
    }

    ghost function View(): Fifo
      reads this, mem, coalesce, byteSize, respSize
    {
      Fifo(mem[..], coalesce[..], byteSize[..], respSize[..], push, pull, capacity, netCapacity)
    }

    ghost predicate Apart() {
      coalesce != byteSize && coalesce != respSize && byteSize != respSize
    }

    ghost predicate Valid()
      reads this, mem, coalesce, byteSize, respSize
    {
      Apart() && Inv(Conf(), View(), ms) && sent + Entries(ms) == inserted
    }

    /** `fifo_constructor`. */
    constructor (slots: nat, slotSize: nat, header: nat)
      requires slots > 0 && header <= slotSize
      ensures Valid() && ms == [] && inserted == sent == []
      ensures Conf() == Config(slots, slotSize, header)
      ensures fresh(mem) && fresh(coalesce) && fresh(byteSize) && fresh(respSize)
    {
      this.slots, this.slotSize, this.header := slots, slotSize, header;
      TimesIs(slots, slotSize);
      mem := new byte[slots * slotSize](i => 0);
      coalesce := new nat[slots](i => 0);
      byteSize := new nat[slots](i => if i == 0 then header else 0);
      respSize := new nat[slots](i => 0);
      push, pull, capacity, netCapacity := 0, 0, 0, 0;
      ms, inserted, sent := [], [], [];
    }

    method ResetSlot()
      requires Apart() && Shaped(Conf(), View())
      modifies this`push, coalesce, byteSize, respSize
      ensures View() == Reset(Conf(), old(View()))
    {
      push := ModIncr(push, slots);
      byteSize[push] := header;
      respSize[push] := 0;
      coalesce[push] := 0;
    }

    /** Reserves room for an entry; returns its offset in the slot at the push pointer. */
    method GetSendFifoPtr(size: nat, resp: nat, alone: bool) returns (inside: nat)
      requires Apart() && Shaped(Conf(), View())
      modifies this`push, coalesce, byteSize, respSize
      ensures View() == GetPtr(Conf(), old(View()), size, resp, alone)
      ensures inside + size == byteSize[push]
    {
      respSize[push] := respSize[push] + resp;
      var becauseOfRep := respSize[push] > MTU;
      var becauseOfSize := byteSize[push] + size > slotSize;
      var isEmpty := coalesce[push] == 0;
      if becauseOfRep || becauseOfSize || (alone && !isEmpty) { ResetSlot(); }
      coalesce[push] := coalesce[push] + 1;
      inside := byteSize[push];
      byteSize[push] := byteSize[push] + size;
    }

    /** The insert helper writes the entry's bytes from the given place on. */
    method WriteEntry(at: nat, data: Entry)
      requires at + |data| <= mem.Length
      modifies mem
      ensures mem[..] == Write(old(mem[..]), at, data)
    {
      ghost var before := mem[..];
      for i := 0 to |data|
        invariant mem[..] == Write(before, at, data[..i])
      {
        WriteOne(before, at, data, i);
        mem[at + i] := data[i];
      }
      assert data[..|data|] == data;
    }

    method Insertion(data: Entry, resp: nat, alone: bool)
      requires Apart() && Shaped(Conf(), View()) && Fits(Conf(), GetPtr(Conf(), View(), |data|, resp, alone), |data|)
      modifies this`push, this`capacity, this`netCapacity, mem, coalesce, byteSize, respSize
      ensures View() == Insert(Conf(), old(View()), data, resp, alone)
    {
      var inside := GetSendFifoPtr(|data|, resp, alone);
      var start := SlotStart(push);
      WriteEntry(start + inside, data);
      if coalesce[push] == 1 { capacity := capacity + 1; }
      netCapacity := netCapacity + 1;
    }

    /** Where slot s starts in the memory of the fifo. */
    method SlotStart(s: nat) returns (at: nat)
      requires s < slots
      ensures at == Start(Conf(), s) && at + slotSize <= Start(Conf(), slots)
    {
      TimesIs(s, slotSize);
      TimesGap(s, slots, slotSize);
      at := s * slotSize;
    }

    method FifoSend()
      requires Apart() && Shaped(Conf(), View()) && capacity > 0 && coalesce[pull] <= netCapacity
      modifies this`push, this`pull, this`capacity, this`netCapacity, coalesce, byteSize, respSize
      ensures View() == Send(Conf(), old(View()))
    {
      netCapacity := netCapacity - coalesce[pull];
      if netCapacity == 0 { ResetSlot(); }
      capacity := capacity - 1;
      pull := ModIncr(pull, slots);
    }

    method ReadOldest() returns (bytes: Entry)
      requires Shaped(Conf(), View()) && header <= byteSize[pull] <= slotSize
      ensures bytes == Body(Conf(), View(), pull)
    {
      var start := SlotStart(pull);
      bytes := mem[start + header..start + byteSize[pull]];
    }

    /**
      `od_insert_mes`: the entry joins the newest message or opens one of its own. The entry
      must fit in an empty slot, and a message must not be opened in a full ring.
    */
    method InsertEntry(data: Entry, resp: nat, alone: bool)
      requires Valid() && CanInsert(Conf(), View(), |data|, resp, alone)
      modifies this, mem, coalesce, byteSize, respSize
      ensures Valid() && ms == Inserted(old(ms), Opens(Conf(), old(View()), |data|, resp, alone), data)
      ensures inserted == old(inserted) + [data] && sent == old(sent)
      ensures alone || old(ms) == [] ==> ms == old(ms) + [[data]]
      ensures !alone && old(ms) != [] && header + |Flat(Last(old(ms)))| + |data| <= slotSize
              && old(respSize[push]) + resp <= MTU ==>
                ms == old(ms)[..|old(ms)| - 1] + [Last(old(ms)) + [data]]
    {
      OpensMeans(Conf(), View(), ms, |data|, resp, alone);
      InsertKeeps(Conf(), View(), ms, data, resp, alone);
      JoinedTwice(sent, Entries(ms), [data]);
      ghost var ms' := Inserted(ms, Opens(Conf(), View(), |data|, resp, alone), data);
      Insertion(data, resp, alone);
      ms := ms';
      inserted := inserted + [data];
    }

    /** Sends the oldest message: what is posted is its entries, in the order of insertion. */
    method SendOldest() returns (bytes: Entry)
      requires Valid() && capacity > 0
      modifies this, coalesce, byteSize, respSize
      ensures Valid() && ms == old(ms)[1..] && bytes == Flat(old(ms)[0])
      ensures inserted == old(inserted) && sent == old(sent) + old(ms)[0]
    {
      SendKeeps(Conf(), View(), ms);
      EntriesOfRest(ms);
      JoinedTwice(sent, ms[0], Entries(ms[1..]));
      bytes := ReadOldest();
      FifoSend();
      sent := sent + ms[0];
      ms := ms[1..];
    }
  }

  lemma EntriesInserted(ms: seq<Message>, opens: bool, data: Entry)
    ensures Entries(Inserted(ms, opens, data)) == Entries(ms) + [data]
  {
    if ms == [] || opens {
      CountSnoc(ms, [data]);
    } else {
      CountSnoc(ms[..|ms| - 1], ms[|ms| - 1] + [data]);
    }
  }
}
