/**
  The sequence lock that guards a value of the key-value store: writers take it by making it
  odd and release it by making it even again; readers copy the value word by word without
  taking it, and start over if it moved. Any number of writers and readers interleave, one
  memory access per step, under sequential consistency.
*/
module Seqlock {

  /** Program points of lock_seqlock, the copy, unlock_seqlock; and of a lock-free read. */
  datatype Pc =
    | Idle
    | WriteLoad | WriteCas | WriteCopy | UnlockLoad | UnlockStore
    | ReadLoad | ReadCopy | ReadCheck | ReadSpin

  /**
    A process. `tmp` is its last reading of the lock; `buf` is the value to write or the
    copy being read, and `done` the words already copied.
  */
  datatype Proc = Proc(pc: Pc, tmp: nat, buf: seq<int>, done: set<nat>)

  datatype Holder = Nobody | By(p: nat)

  /** A completed write or a completed read. */
  datatype Event = Wrote(v: seq<int>) | Read(v: seq<int>)

  /** `holder`, `initial` and `log` are history variables. */
  datatype State = State(
    lock: nat, value: seq<int>, procs: map<nat, Proc>,
    holder: Holder, initial: seq<int>, log: seq<Event>)

  /** What a step needs from outside: a call to start, or the next word to copy. */
  datatype Choice = StartWrite(v: seq<int>) | StartRead | Word(i: nat)

  predicate Odd(n: nat) {
    if n < 2 then n == 1 else Odd(n - 2)
  }

  lemma {:induction false} OddIs(n: nat)
    ensures Odd(n) <==> n % 2 == 1
  {
    if n >= 2 { OddIs(n - 2); }
  }

  lemma {:induction false} Parity(k: nat, b: nat)
    requires b < 2
    ensures Odd(2 * k + b) <==> b == 1
  {
    if k > 0 { Parity(k - 1, b); }
  }

  /* --------------------------- The sequential register --------------------------- */

  /** The value of the register after a log. */
  function Current(initial: seq<int>, log: seq<Event>): seq<int> {
    if log == [] then initial
    else if log[|log| - 1].Wrote? then log[|log| - 1].v
    else Current(initial, log[..|log| - 1])
  }

  function WriteCount(log: seq<Event>): nat {
    if log == [] then 0
    else WriteCount(log[..|log| - 1]) + if log[|log| - 1].Wrote? then 1 else 0
  }

  /** Every read returns what the register held just before it. */
  ghost predicate Atomic(initial: seq<int>, log: seq<Event>) {
    forall i {:trigger ReadsCurrent(initial, log, i)} :: 0 <= i < |log| ==> ReadsCurrent(initial, log, i)
  }

  ghost predicate ReadsCurrent(initial: seq<int>, log: seq<Event>, i: nat)
    requires i < |log|
  {
    log[i].Read? ==> log[i].v == Current(initial, log[..i])
  }

  /* --------------------------- Steps --------------------------- */

  /** All words of the value are in `done`. */
  predicate AllDone(value: seq<int>, done: set<nat>) {
    forall i :: 0 <= i < |value| ==> i in done
  }

  function Put(st: State, p: nat, x: Proc): State {
    st.(procs := st.procs[p := x])
  }

  /** After reading the lock, a writer spins until it is even and then tries to take it. */
  function WriterSees(x: Proc, lock: nat): Proc {
    x.(tmp := lock, pc := if Odd(lock) then WriteLoad else WriteCas)
  }

  /** After reading the lock, a reader spins until it is even and then starts to copy. */
  function ReaderSees(x: Proc, lock: nat, spin: Pc): Proc {
    x.(tmp := lock, done := {}, pc := if Odd(lock) then spin else ReadCopy)
  }

  function StepWriteCas(st: State, p: nat): State
    requires p in st.procs
  {
    var x := st.procs[p];
    if st.lock == x.tmp then
      Put(st, p, x.(pc := WriteCopy, done := {})).(lock := x.tmp + 1, holder := By(p))
    else Put(st, p, WriterSees(x, st.lock))
  }

  /** Copies one word in; a finished copy goes on to release the lock. */
  function StepWriteCopy(st: State, p: nat, i: nat): State
    requires p in st.procs
  {
    var x := st.procs[p];
    if AllDone(st.value, x.done) then Put(st, p, x.(pc := UnlockLoad))
    else if i < |st.value| && i < |x.buf| then
      Put(st, p, x.(done := x.done + {i})).(value := st.value[i := x.buf[i]])
    else st
  }

  function StepUnlockStore(st: State, p: nat): State
    requires p in st.procs
  {
    var x := st.procs[p];
    Put(st, p, x.(pc := Idle)).(
      lock := x.tmp + 1, holder := Nobody, log := st.log + [Wrote(x.buf)])
  }

  /** Copies one word out; a finished copy goes on to check the lock. */
  function StepReadCopy(st: State, p: nat, i: nat): State
    requires p in st.procs
  {
    var x := st.procs[p];
    if AllDone(st.value, x.done) then Put(st, p, x.(pc := ReadCheck))
    else if i < |st.value| && i < |x.buf| then
      Put(st, p, x.(done := x.done + {i}, buf := x.buf[i := st.value[i]]))
    else st
  }

  /** The read returns its copy if the lock has not moved, and starts over otherwise. */
  function StepReadCheck(st: State, p: nat): State
    requires p in st.procs
  {
    var x := st.procs[p];
    if st.lock == x.tmp then Put(st, p, x.(pc := Idle)).(log := st.log + [Read(x.buf)])
    else Put(st, p, ReaderSees(x, st.lock, ReadSpin))
  }

  function StepIdle(st: State, p: nat, ch: Choice): State
    requires p in st.procs
  {
    var x := st.procs[p];
    match ch
    case StartWrite(v) => if |v| == |st.value| then Put(st, p, x.(pc := WriteLoad, buf := v)) else st
    case StartRead => Put(st, p, x.(pc := ReadLoad, buf := st.initial))
    case Word(i) => st
  }

  function WordOf(ch: Choice): nat {
    if ch.Word? then ch.i else 0
  }

  function Next(st: State, p: nat, ch: Choice): State
    requires p in st.procs
  {
    var x := st.procs[p];
    match x.pc
    case Idle => StepIdle(st, p, ch)
    case WriteLoad => Put(st, p, WriterSees(x, st.lock))
    case WriteCas => StepWriteCas(st, p)
    case WriteCopy => StepWriteCopy(st, p, WordOf(ch))
    case UnlockLoad => Put(st, p, x.(pc := UnlockStore, tmp := st.lock))
    case UnlockStore => StepUnlockStore(st, p)
    case ReadLoad => Put(st, p, ReaderSees(x, st.lock, ReadLoad))
    case ReadCopy => StepReadCopy(st, p, WordOf(ch))
    case ReadCheck => StepReadCheck(st, p)
    case ReadSpin => Put(st, p, ReaderSees(x, st.lock, ReadSpin))
  }

  /* --------------------------- The invariant --------------------------- */

  predicate Holds(pc: Pc) {
    pc.WriteCopy? || pc.UnlockLoad? || pc.UnlockStore?
  }

  /** The words in `done` agree in both sequences. */
  predicate Agree(a: seq<int>, b: seq<int>, done: set<nat>) {
    |a| == |b| && forall i :: 0 <= i < |a| && i in done ==> a[i] == b[i]
  }

  predicate ProcOk(st: State, p: nat, x: Proc) {
    && (Holds(x.pc) <==> st.holder == By(p))
    && match x.pc
       case Idle => true
       case WriteLoad => |x.buf| == |st.value|
       case WriteCas => |x.buf| == |st.value| && !Odd(x.tmp)
       case WriteCopy => Agree(x.buf, st.value, x.done)
       case UnlockLoad => x.buf == st.value
       case UnlockStore => x.buf == st.value && x.tmp == st.lock
       case ReadLoad => |x.buf| == |st.value|
       case ReadCopy => |x.buf| == |st.value| && !Odd(x.tmp) && x.tmp <= st.lock
                        && (x.tmp == st.lock ==> Agree(x.buf, st.value, x.done))
       case ReadCheck => |x.buf| == |st.value| && !Odd(x.tmp) && x.tmp <= st.lock
                         && (x.tmp == st.lock ==> x.buf == st.value)
       case ReadSpin => |x.buf| == |st.value|
  }

  ghost predicate ProcsOk(st: State) {
    forall p {:trigger ProcOk(st, p, st.procs[p])} :: p in st.procs ==> ProcOk(st, p, st.procs[p])
  }

  /** The lock counts the writes, and the value is whole while nobody holds the lock. */
  ghost predicate RegisterOk(st: State) {
    && (st.holder.By? ==> st.holder.p in st.procs && Holds(st.procs[st.holder.p].pc))
    && |st.value| == |st.initial|
    && st.lock == 2 * WriteCount(st.log) + (if st.holder == Nobody then 0 else 1)
    && (st.holder == Nobody ==> st.value == Current(st.initial, st.log))
    && Atomic(st.initial, st.log)
  }

  ghost predicate Inv(st: State) {
    ProcsOk(st) && RegisterOk(st)
  }

  lemma LogGrows(initial: seq<int>, log: seq<Event>, e: Event)
    requires Atomic(initial, log) && (e.Read? ==> e.v == Current(initial, log))
    ensures Atomic(initial, log + [e])
    ensures Current(initial, log + [e]) == (if e.Wrote? then e.v else Current(initial, log))
    ensures WriteCount(log + [e]) == WriteCount(log) + if e.Wrote? then 1 else 0
  {
    var log' := log + [e];
    assert log'[..|log|] == log;
    forall i | 0 <= i < |log'| ensures ReadsCurrent(initial, log', i) {
      if i < |log| { assert ReadsCurrent(initial, log, i) && log'[..i] == log[..i]; }
    }
  }

  /** The lock is odd exactly while somebody holds it. */
  lemma OddWhileHeld(st: State)
    requires RegisterOk(st)
    ensures Odd(st.lock) <==> st.holder != Nobody
  {
    Parity(WriteCount(st.log), if st.holder == Nobody then 0 else 1);
  }

  /** Any other process stays in order whatever process p does. */
  lemma OthersStayOk(st: State, p: nat, ch: Choice, q: nat, y: Proc)
    requires RegisterOk(st) && p in st.procs && q != p
    requires ProcOk(st, p, st.procs[p]) && ProcOk(st, q, y)
    ensures ProcOk(Next(st, p, ch), q, y)
  {
    OddWhileHeld(st);
  }

  lemma WriterStaysOk(st: State, p: nat, ch: Choice)
    requires RegisterOk(st) && p in st.procs && ProcOk(st, p, st.procs[p])
    requires st.procs[p].pc in {Idle, WriteLoad, WriteCas, WriteCopy, UnlockLoad, UnlockStore}
    ensures ProcOk(Next(st, p, ch), p, Next(st, p, ch).procs[p])
  {
  }

  lemma ReaderStaysOk(st: State, p: nat, ch: Choice)
    requires RegisterOk(st) && p in st.procs && ProcOk(st, p, st.procs[p])
    requires st.procs[p].pc in {ReadLoad, ReadCopy, ReadCheck, ReadSpin}
    ensures ProcOk(Next(st, p, ch), p, Next(st, p, ch).procs[p])
  {
  }

  lemma CasKeepsRegister(st: State, p: nat)
    requires RegisterOk(st) && p in st.procs && ProcOk(st, p, st.procs[p]) && st.procs[p].pc == WriteCas
    ensures RegisterOk(StepWriteCas(st, p))
  {
    OddWhileHeld(st);
  }

  lemma UnlockKeepsRegister(st: State, p: nat)
    requires RegisterOk(st) && p in st.procs && ProcOk(st, p, st.procs[p]) && st.procs[p].pc == UnlockStore
    ensures RegisterOk(StepUnlockStore(st, p))
  {
    LogGrows(st.initial, st.log, Wrote(st.procs[p].buf));
  }

  lemma CheckKeepsRegister(st: State, p: nat)
    requires RegisterOk(st) && p in st.procs && ProcOk(st, p, st.procs[p]) && st.procs[p].pc == ReadCheck
    ensures RegisterOk(StepReadCheck(st, p))
  {
    OddWhileHeld(st);
    if st.lock == st.procs[p].tmp { LogGrows(st.initial, st.log, Read(st.procs[p].buf)); }
  }

  /** The other steps change neither the lock nor the log, and the value only under the lock. */
  lemma QuietKeepsRegister(st: State, p: nat, ch: Choice)
    requires RegisterOk(st) && p in st.procs && ProcOk(st, p, st.procs[p])
    requires st.procs[p].pc !in {WriteCas, UnlockStore, ReadCheck}
    ensures RegisterOk(Next(st, p, ch))
  {
    var st' := Next(st, p, ch);
    assert st'.lock == st.lock && st'.log == st.log && st'.holder == st.holder;
  }

  lemma RegisterStaysOk(st: State, p: nat, ch: Choice)
    requires RegisterOk(st) && p in st.procs && ProcOk(st, p, st.procs[p])
    ensures RegisterOk(Next(st, p, ch))
  {
    match st.procs[p].pc
    case WriteCas => CasKeepsRegister(st, p);
    case UnlockStore => UnlockKeepsRegister(st, p);
    case ReadCheck => CheckKeepsRegister(st, p);
    case _ => QuietKeepsRegister(st, p, ch);
  }

  /** A step of a process keeps every process in order. */
  lemma ProcStaysOk(st: State, p: nat, ch: Choice, q: nat)
    requires Inv(st) && p in st.procs && q in Next(st, p, ch).procs
    ensures ProcOk(Next(st, p, ch), q, Next(st, p, ch).procs[q])
  {
    assert ProcOk(st, p, st.procs[p]);
    OnlyStepperMoves(st, p, ch);
    if q != p {
      assert ProcOk(st, q, st.procs[q]);
      OthersStayOk(st, p, ch, q, st.procs[q]);
    } else if st.procs[p].pc in {ReadLoad, ReadCopy, ReadCheck, ReadSpin} {
      ReaderStaysOk(st, p, ch);
    } else {
      WriterStaysOk(st, p, ch);
    }
  }

  lemma OnlyStepperMoves(st: State, p: nat, ch: Choice)
    requires p in st.procs
    ensures var st' := Next(st, p, ch);
            && st'.initial == st.initial && p in st'.procs
            && (forall q | q != p :: q in st'.procs <==> q in st.procs)
            && (forall q | q != p && q in st.procs && q in st'.procs :: st'.procs[q] == st.procs[q])
  {
  }

  /* --------------------------- Main results --------------------------- */

  ghost predicate Init(st: State) {
    && st.lock == 0 && st.value == st.initial && st.log == [] && st.holder == Nobody
    && (forall p {:trigger ProcOk(st, p, st.procs[p])} :: p in st.procs ==>
          st.procs[p].pc == Idle && ProcOk(st, p, st.procs[p]))
  }

  datatype Move = Move(p: nat, choice: Choice)

  ghost predicate Run(trace: seq<State>, moves: seq<Move>) {
    && |trace| == |moves| + 1
    && Init(trace[0])
    && forall i :: 0 <= i < |moves| ==>
         moves[i].p in trace[i].procs && trace[i + 1] == Next(trace[i], moves[i].p, moves[i].choice)
  }

  lemma {:induction false} RunKeepsInv(trace: seq<State>, moves: seq<Move>, k: nat)
    requires Run(trace, moves) && k < |trace|
    ensures Inv(trace[k]) && trace[k].initial == trace[0].initial
  {
    if k > 0 {
      RunKeepsInv(trace, moves, k - 1);
      var before, p, ch := trace[k - 1], moves[k - 1].p, moves[k - 1].choice;
      assert trace[k] == Next(before, p, ch) && ProcOk(before, p, before.procs[p]);
      RegisterStaysOk(before, p, ch);
      OnlyStepperMoves(before, p, ch);
      forall q | q in trace[k].procs ensures ProcOk(trace[k], q, trace[k].procs[q]) {
        ProcStaysOk(before, p, ch, q);
      }
    }
  }

  /**
    Atomicity over whole runs: every value a read has returned is the whole value of the
    register at its final check, never a mix of two writes.
  */
  lemma ReadsAreAtomic(trace: seq<State>, moves: seq<Move>, k: nat, i: nat)
    requires Run(trace, moves) && k < |trace| && i < |trace[k].log| && trace[k].log[i].Read?
    ensures trace[k].log[i].v == Current(trace[0].initial, trace[k].log[..i])
  {
    RunKeepsInv(trace, moves, k);
    assert ReadsCurrent(trace[k].initial, trace[k].log, i);
  }

  /** A read that returns now returns the value stored now, while nobody holds the lock. */
  lemma ReadReturnsCurrent(st: State, p: nat)
    requires Inv(st) && p in st.procs && st.procs[p].pc == ReadCheck && st.lock == st.procs[p].tmp
    ensures st.procs[p].buf == st.value == Current(st.initial, st.log) && st.holder == Nobody
  {
    assert ProcOk(st, p, st.procs[p]);
    OddWhileHeld(st);
  }

  /** The lock is odd exactly while one process holds it, and half of it counts the writes. */
  lemma LockCountsWrites(st: State)
    requires Inv(st)
    ensures Odd(st.lock) <==> exists p :: p in st.procs && Holds(st.procs[p].pc)
    ensures forall p, q | p in st.procs && q in st.procs ::
              (Holds(st.procs[p].pc) && Holds(st.procs[q].pc) ==> p == q)
    ensures 2 * WriteCount(st.log) <= st.lock <= 2 * WriteCount(st.log) + 1
  {
    OddWhileHeld(st);
    forall p | p in st.procs ensures Holds(st.procs[p].pc) <==> st.holder == By(p) {
      assert ProcOk(st, p, st.procs[p]);
    }
  }

  /** While nobody holds the lock, the value is the last write, whole. */
  lemma QuietValueIsLastWrite(st: State)
    requires Inv(st) && !Odd(st.lock)
    ensures st.value == Current(st.initial, st.log)
  {
    OddWhileHeld(st);
  }

  /* --------------------------- The value in place --------------------------- */

  /** One key-value entry: its lock, its bytes in an array, and the processes using it. */
  class KvEntry {
    var seqlock: nat
    const value: array<int>
    var procs: map<nat, Proc>
    ghost var holder: Holder
    ghost var initial: seq<int>
    ghost var log: seq<Event>

    ghost function View(): State
      reads this, value
    {
      State(seqlock, value[..], procs, holder, initial, log)
    }

    constructor (bytes: seq<int>, users: set<nat>)
      ensures Init(View()) && View().value == bytes && fresh(value)
      ensures procs.Keys == users
    {
      seqlock := 0;
      value := new int[|bytes|](i requires 0 <= i < |bytes| => bytes[i]);
      procs := map p | p in users :: Proc(Idle, 0, [], {});
      holder, initial, log := Nobody, bytes, [];
    }

    /** `KVS_write` is called with v, by a process that is not using the entry. */
    method StartWriting(p: nat, v: seq<int>)
      requires p in procs && procs[p].pc == Idle && |v| == value.Length
      modifies this`procs
      ensures View() == Next(old(View()), p, StartWrite(v))
      ensures procs == old(procs)[p := old(procs)[p].(pc := WriteLoad, buf := v)]
    {
      procs := procs[p := procs[p].(pc := WriteLoad, buf := v)];
    }

    /** One access of a writer: lock_seqlock, one word of the copy, unlock_seqlock. */
    method WriterStep(p: nat, i: nat)
      requires p in procs && procs[p].pc in {WriteLoad, WriteCas, WriteCopy, UnlockLoad, UnlockStore}
      modifies this, value
      ensures View() == Next(old(View()), p, Word(i))
    {
      var x := procs[p];
      match x.pc {
        case WriteLoad =>
          x := WriterSees(x, seqlock);
        case WriteCas =>
          if seqlock == x.tmp {
            seqlock := x.tmp + 1;
            holder := By(p);
            x := x.(pc := WriteCopy, done := {});
          } else {
            x := WriterSees(x, seqlock);
          }
        case WriteCopy =>
          if AllDone(value[..], x.done) {
            x := x.(pc := UnlockLoad);
          } else if i < value.Length && i < |x.buf| {
            value[i] := x.buf[i];
            x := x.(done := x.done + {i});
          }
        case UnlockLoad =>
          x := x.(tmp := seqlock, pc := UnlockStore);
        case UnlockStore =>
          seqlock := x.tmp + 1;
          holder, log := Nobody, log + [Wrote(x.buf)];
          x := x.(pc := Idle);
      }
      procs := procs[p := x];
    }

    /** One access of a reader; `done` tells whether the read returns its copy now. */
    method ReaderStep(p: nat, i: nat) returns (done: bool)
      requires p in procs && procs[p].pc in {ReadLoad, ReadCopy, ReadCheck, ReadSpin}
      modifies this
      ensures View() == Next(old(View()), p, Word(i))
      ensures done <==> old(procs[p]).pc == ReadCheck && old(seqlock) == old(procs[p]).tmp
      ensures done && old(Inv(View())) ==> old(procs[p]).buf == value[..]
    {
      var x := procs[p];
      done := false;
      match x.pc {
        case ReadLoad =>
          x := ReaderSees(x, seqlock, ReadLoad);
        case ReadCopy =>
          if AllDone(value[..], x.done) {
            x := x.(pc := ReadCheck);
          } else if i < value.Length && i < |x.buf| {
            x := x.(done := x.done + {i}, buf := x.buf[i := value[i]]);
          }
        case ReadCheck =>
          if seqlock == x.tmp {
            if Inv(View()) { ReadReturnsCurrent(View(), p); }
            log := log + [Read(x.buf)];
            done, x := true, x.(pc := Idle);
          } else {
            x := ReaderSees(x, seqlock, ReadSpin);
          }
        case ReadSpin =>
          x := ReaderSees(x, seqlock, ReadSpin);
      }
      procs := procs[p := x];
    }
  }
}
