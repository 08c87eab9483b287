/**
  What the users of a sequence lock achieve: what is written is what was asked for, over whole
  runs, and a writer or reader that is left alone completes from wherever it is.
*/
module SeqlockProgress {
  import opened Common
  import opened Seqlock

  /* --------------------------- What is written --------------------------- */

  /** The value that process p was last asked to write in the first k moves, if any. */
  function LastAsked(trace: seq<State>, moves: seq<Move>, k: nat, p: nat): Option<seq<int>>
    requires k <= |moves| <= |trace|
  {
    if k == 0 then None
    else if moves[k - 1].p == p && Starts(trace[k - 1], moves[k - 1]) then Some(moves[k - 1].choice.v)
    else LastAsked(trace, moves, k - 1, p)
  }

  /** The move is a call of `KVS_write`, with a value of the right length. */
  predicate Starts(st: State, mv: Move) {
    && mv.p in st.procs && st.procs[mv.p].pc == Idle
    && mv.choice.StartWrite? && |mv.choice.v| == |st.value|
  }

  predicate Writing(pc: Pc) {
    pc.WriteLoad? || pc.WriteCas? || Holds(pc)
  }

  /** While it writes, a process has in its buffer what it was asked to write. */
  predicate Carries(x: Proc, asked: Option<seq<int>>) {
    Writing(x.pc) ==> asked == Some(x.buf)
  }

  lemma NextCarries(st: State, mv: Move, asked: Option<seq<int>>)
    requires mv.p in st.procs && Carries(st.procs[mv.p], asked)
    ensures mv.p in Next(st, mv.p, mv.choice).procs
    ensures Carries(Next(st, mv.p, mv.choice).procs[mv.p], if Starts(st, mv) then Some(mv.choice.v) else asked)
  {
  }

  lemma {:induction false} RunCarries(trace: seq<State>, moves: seq<Move>, k: nat, p: nat)
    requires Run(trace, moves) && k <= |moves| && p in trace[k].procs
    ensures Carries(trace[k].procs[p], LastAsked(trace, moves, k, p))
  {
    if k == 0 {
      assert ProcOk(trace[0], p, trace[0].procs[p]);
    } else {
      var mv := moves[k - 1];
      assert trace[k] == Next(trace[k - 1], mv.p, mv.choice);
      OnlyStepperMoves(trace[k - 1], mv.p, mv.choice);
      RunCarries(trace, moves, k - 1, p);
      if mv.p == p { NextCarries(trace[k - 1], mv, LastAsked(trace, moves, k - 1, p)); }
    }
  }

  /** Only an unlock logs a write, of the buffer, and only a check that succeeds logs a read. */
  lemma NextLogs(st: State, p: nat, ch: Choice)
    requires p in st.procs
    ensures var x, log' := st.procs[p], Next(st, p, ch).log;
            log' == st.log
                    + if x.pc == UnlockStore then [Wrote(x.buf)]
                      else if x.pc == ReadCheck && st.lock == x.tmp then [Read(x.buf)] else []
  {
    assert st.log + [] == st.log;
  }

  /**
    In every run, every write in the log was made by some process's unlock, and is the value
    that this process was last asked to write.
  */
  lemma {:induction false} WrittenIsAsked(trace: seq<State>, moves: seq<Move>, k: nat, i: nat) returns (j: nat)
    requires Run(trace, moves) && k < |trace| && i < |trace[k].log| && trace[k].log[i].Wrote?
    ensures j < k && moves[j].p in trace[j].procs && trace[j].procs[moves[j].p].pc == UnlockStore
    ensures LastAsked(trace, moves, j, moves[j].p) == Some(trace[k].log[i].v)
  {
    assert trace[0].log == [];
    var st, mv := trace[k - 1], moves[k - 1];
    assert trace[k] == Next(st, mv.p, mv.choice);
    NextLogs(st, mv.p, mv.choice);
    if i < |st.log| {
      j := WrittenIsAsked(trace, moves, k - 1, i);
    } else {
      j := k - 1;
      RunCarries(trace, moves, j, mv.p);
    }
  }

  /** The write in the log that the register still holds; |log| if there is none. */
  lemma {:induction false} CurrentIs(initial: seq<int>, log: seq<Event>) returns (i: nat)
    ensures i <= |log| && forall k :: i < k < |log| ==> !log[k].Wrote?
    ensures if i == |log| then Current(initial, log) == initial && forall k :: 0 <= k < |log| ==> !log[k].Wrote?
            else log[i] == Wrote(Current(initial, log))
  {
    if log == [] {
      i := 0;
    } else if log[|log| - 1].Wrote? {
      i := |log| - 1;
    } else {
      i := CurrentIs(initial, log[..|log| - 1]);
      if i == |log| - 1 { i := |log|; }
    }
  }

  /**
    In every run, while nobody holds the lock, the stored value is the initial one if nothing
    was written, and otherwise what the process that wrote last had been asked to write.
  */
  lemma QuietValueWasAsked(trace: seq<State>, moves: seq<Move>, k: nat) returns (i: nat, j: nat)
    requires Run(trace, moves) && k < |trace| && !Odd(trace[k].lock)
    ensures var st := trace[k];
            && i <= |st.log| && forall n :: i < n < |st.log| ==> !st.log[n].Wrote?
    ensures var st := trace[k];
            if i == |st.log| then st.value == trace[0].initial && WriteCount(st.log) == 0
            else
              && j < k && st.log[i] == Wrote(st.value)
              && LastAsked(trace, moves, j, moves[j].p) == Some(st.value)
  {
    var st := trace[k];
    RunKeepsInv(trace, moves, k);
    QuietValueIsLastWrite(st);
    j := 0;
    i := CurrentIs(st.initial, st.log);
    if i < |st.log| {
      j := WrittenIsAsked(trace, moves, k, i);
    } else {
      NoWrites(st.log);
    }
  }

  lemma {:induction false} NoWrites(log: seq<Event>)
    requires forall k :: 0 <= k < |log| ==> !log[k].Wrote?
    ensures WriteCount(log) == 0
  {
    if log != [] { NoWrites(log[..|log| - 1]); }
  }

  /* --------------------------- A process left alone --------------------------- */

  /** The steps of process p with these choices, in a row. */
  function Alone(st: State, p: nat, chs: seq<Choice>): (st': State)
    requires p in st.procs
    ensures p in st'.procs
    decreases |chs|
  {
    if chs == [] then st else Alone(Next(st, p, chs[0]), p, chs[1..])
  }

  lemma AloneStep(st: State, p: nat, ch: Choice, chs: seq<Choice>)
    requires p in st.procs
    ensures Alone(st, p, [ch] + chs) == Alone(Next(st, p, ch), p, chs)
  {
    assert ([ch] + chs)[1..] == chs;
  }

  lemma StepKeepsInv(st: State, p: nat, ch: Choice)
    requires Inv(st) && p in st.procs
    ensures Inv(Next(st, p, ch)) && p in Next(st, p, ch).procs
  {
    assert ProcOk(st, p, st.procs[p]);
    RegisterStaysOk(st, p, ch);
    var st' := Next(st, p, ch);
    forall q | q in st'.procs ensures ProcOk(st', q, st'.procs[q]) { ProcStaysOk(st, p, ch, q); }
  }

  /** The words that are not yet copied. */
  function Missing(n: nat, done: set<nat>): set<nat> {
    set i: nat | i < n && i !in done
  }

  lemma OneLess(n: nat, done: set<nat>, i: nat)
    requires i < n && i !in done
    ensures |Missing(n, done + {i})| == |Missing(n, done)| - 1
  {
    assert Missing(n, done + {i}) == Missing(n, done) - {i};
  }

  lemma {:induction false} MissingFits(n: nat, done: set<nat>)
    ensures |Missing(n, done)| <= n
  {
    if n > 0 {
      MissingFits(n - 1, done);
      assert Missing(n, done) == Missing(n - 1, done) + (if n - 1 in done then {} else {n - 1});
    } else {
      assert Missing(0, done) == {};
    }
  }

  /* --------------------------- The writer --------------------------- */

  /** These steps of p alone complete a write of v, and leave the lock even at `lock`. */
  ghost predicate Writes(st: State, p: nat, chs: seq<Choice>, v: seq<int>, lock: nat)
    requires p in st.procs
  {
    var st' := Alone(st, p, chs);
    && st'.procs[p].pc == Idle && st'.log == st.log + [Wrote(v)]
    && st'.value == v && st'.lock == lock && st'.holder == Nobody
  }

  lemma WritesLater(st: State, p: nat, ch: Choice, chs: seq<Choice>, v: seq<int>, lock: nat)
    requires p in st.procs && p in Next(st, p, ch).procs
    requires Writes(Next(st, p, ch), p, chs, v, lock) && Next(st, p, ch).log == st.log
    ensures Writes(st, p, [ch] + chs, v, lock)
  {
    AloneStep(st, p, ch, chs);
  }

  lemma UnlockWrites(st: State, p: nat)
    requires Inv(st) && p in st.procs && st.procs[p].pc == UnlockStore
    ensures Writes(st, p, [Word(0)], st.procs[p].buf, st.lock + 1)
  {
    assert ProcOk(st, p, st.procs[p]);
    AloneStep(st, p, Word(0), []);
    assert [Word(0)] + [] == [Word(0)];
  }

  lemma LoadWrites(st: State, p: nat)
    requires Inv(st) && p in st.procs && st.procs[p].pc == UnlockLoad
    ensures Writes(st, p, [Word(0), Word(0)], st.procs[p].buf, st.lock + 1)
  {
    StepKeepsInv(st, p, Word(0));
    UnlockWrites(Next(st, p, Word(0)), p);
    WritesLater(st, p, Word(0), [Word(0)], st.procs[p].buf, st.lock + 1);
    assert [Word(0)] + [Word(0)] == [Word(0), Word(0)];
  }

  lemma {:induction false} CopyWrites(st: State, p: nat) returns (chs: seq<Choice>)
    requires Inv(st) && p in st.procs && st.procs[p].pc == WriteCopy
    ensures |chs| == |Missing(|st.value|, st.procs[p].done)| + 3
    ensures Writes(st, p, chs, st.procs[p].buf, st.lock + 1)
    decreases |Missing(|st.value|, st.procs[p].done)|
  {
    var x := st.procs[p];
    assert ProcOk(st, p, x);
    var ch := Word(0);
    if AllDone(st.value, x.done) {
      assert Missing(|st.value|, x.done) == {};
      StepKeepsInv(st, p, ch);
      LoadWrites(Next(st, p, ch), p);
      chs := [Word(0), Word(0)];
    } else {
      var i :| 0 <= i < |st.value| && i !in x.done;
      ch := Word(i);
      OneLess(|st.value|, x.done, i);
      StepKeepsInv(st, p, ch);
      chs := CopyWrites(Next(st, p, ch), p);
    }
    WritesLater(st, p, ch, chs, x.buf, st.lock + 1);
    chs := [ch] + chs;
  }

  lemma CasWrites(st: State, p: nat) returns (chs: seq<Choice>)
    requires Inv(st) && p in st.procs && st.procs[p].pc == WriteCas && st.lock == st.procs[p].tmp
    ensures |chs| <= |st.value| + 4 && Writes(st, p, chs, st.procs[p].buf, st.lock + 2)
  {
    StepKeepsInv(st, p, Word(0));
    chs := CopyWrites(Next(st, p, Word(0)), p);
    MissingFits(|st.value|, {});
    WritesLater(st, p, Word(0), chs, st.procs[p].buf, st.lock + 2);
    chs := [Word(0)] + chs;
  }

  /** A free lock is taken after one more look at it. */
  lemma LookWrites(st: State, p: nat) returns (chs: seq<Choice>)
    requires Inv(st) && p in st.procs && st.holder == Nobody
    requires st.procs[p].pc == WriteLoad || (st.procs[p].pc == WriteCas && st.lock != st.procs[p].tmp)
    ensures |chs| <= |st.value| + 5 && Writes(st, p, chs, st.procs[p].buf, st.lock + 2)
  {
    OddWhileHeld(st);
    StepKeepsInv(st, p, Word(0));
    chs := CasWrites(Next(st, p, Word(0)), p);
    WritesLater(st, p, Word(0), chs, st.procs[p].buf, st.lock + 2);
    chs := [Word(0)] + chs;
  }

  /**
    From wherever it is, a writer that holds the lock or finds it free, and is left alone, stores
    its whole buffer and releases the lock, in at most five steps more than there are words.
  */
  lemma WriteAlone(st: State, p: nat) returns (chs: seq<Choice>)
    requires Inv(st) && p in st.procs && Writing(st.procs[p].pc)
    requires st.holder == Nobody || st.holder == By(p)
    ensures |chs| <= |st.value| + 5
    ensures Writes(st, p, chs, st.procs[p].buf, if st.holder == By(p) then st.lock + 1 else st.lock + 2)
  {
    assert ProcOk(st, p, st.procs[p]);
    match st.procs[p].pc
    case WriteCas =>
      if st.lock == st.procs[p].tmp { chs := CasWrites(st, p); } else { chs := LookWrites(st, p); }
    case WriteCopy =>
      chs := CopyWrites(st, p);
      MissingFits(|st.value|, st.procs[p].done);
    case UnlockLoad =>
      LoadWrites(st, p);
      chs := [Word(0), Word(0)];
    case UnlockStore =>
      UnlockWrites(st, p);
      chs := [Word(0)];
    case _ => chs := LookWrites(st, p);
  }

  /** Asked to write v while nobody holds the lock, a process left alone stores v and adds two to the lock. */
  lemma AskedIsStored(st: State, p: nat, v: seq<int>) returns (chs: seq<Choice>)
    requires Inv(st) && p in st.procs && st.procs[p].pc == Idle && |v| == |st.value| && st.holder == Nobody
    ensures Writes(st, p, [StartWrite(v)] + chs, v, st.lock + 2)
  {
    StepKeepsInv(st, p, StartWrite(v));
    chs := WriteAlone(Next(st, p, StartWrite(v)), p);
    WritesLater(st, p, StartWrite(v), chs, v, st.lock + 2);
  }

  /* --------------------------- The reader --------------------------- */

  /** These steps of p alone complete a read of the stored value, and change nothing else. */
  ghost predicate Reads(st: State, p: nat, chs: seq<Choice>)
    requires p in st.procs
  {
    var st' := Alone(st, p, chs);
    && st'.procs[p].pc == Idle && st'.log == st.log + [Read(st.value)]
    && st'.value == st.value && st'.lock == st.lock && st'.holder == st.holder
  }

  lemma ReadsLater(st: State, p: nat, ch: Choice, chs: seq<Choice>)
    requires p in st.procs && p in Next(st, p, ch).procs && Reads(Next(st, p, ch), p, chs)
    requires var st' := Next(st, p, ch);
             st'.log == st.log && st'.value == st.value && st'.lock == st.lock && st'.holder == st.holder
    ensures Reads(st, p, [ch] + chs)
  {
    AloneStep(st, p, ch, chs);
  }

  predicate Reading(pc: Pc) {
    pc.ReadLoad? || pc.ReadCopy? || pc.ReadCheck? || pc.ReadSpin?
  }

  lemma CheckReads(st: State, p: nat)
    requires Inv(st) && p in st.procs && st.procs[p].pc == ReadCheck && st.lock == st.procs[p].tmp
    ensures Reads(st, p, [Word(0)])
  {
    assert ProcOk(st, p, st.procs[p]);
    AloneStep(st, p, Word(0), []);
    assert [Word(0)] + [] == [Word(0)];
  }

  /** A copy made under the current lock passes the check; any other is made anew. */
  lemma {:induction false} CopyReads(st: State, p: nat) returns (chs: seq<Choice>)
    requires Inv(st) && p in st.procs && st.procs[p].pc == ReadCopy && st.lock == st.procs[p].tmp
    ensures |chs| == |Missing(|st.value|, st.procs[p].done)| + 2 && Reads(st, p, chs)
    decreases |Missing(|st.value|, st.procs[p].done)|
  {
    var x := st.procs[p];
    assert ProcOk(st, p, x);
    var ch := Word(0);
    if AllDone(st.value, x.done) {
      assert Missing(|st.value|, x.done) == {};
      StepKeepsInv(st, p, ch);
      CheckReads(Next(st, p, ch), p);
      chs := [Word(0)];
    } else {
      var i :| 0 <= i < |st.value| && i !in x.done;
      ch := Word(i);
      OneLess(|st.value|, x.done, i);
      StepKeepsInv(st, p, ch);
      chs := CopyReads(Next(st, p, ch), p);
    }
    ReadsLater(st, p, ch, chs);
    chs := [ch] + chs;
  }

  lemma LookReads(st: State, p: nat) returns (chs: seq<Choice>)
    requires Inv(st) && p in st.procs && st.holder == Nobody
    requires st.procs[p].pc == ReadLoad || st.procs[p].pc == ReadSpin
             || (st.procs[p].pc == ReadCheck && st.lock != st.procs[p].tmp)
    ensures |chs| <= |st.value| + 3 && Reads(st, p, chs)
  {
    OddWhileHeld(st);
    StepKeepsInv(st, p, Word(0));
    chs := CopyReads(Next(st, p, Word(0)), p);
    MissingFits(|st.value|, {});
    ReadsLater(st, p, Word(0), chs);
    chs := [Word(0)] + chs;
  }

  /** A stale copy is finished, and then made anew. */
  lemma {:induction false} StaleReads(st: State, p: nat) returns (chs: seq<Choice>)
    requires Inv(st) && p in st.procs && st.holder == Nobody
    requires st.procs[p].pc == ReadCopy && st.lock != st.procs[p].tmp
    ensures |chs| <= |Missing(|st.value|, st.procs[p].done)| + |st.value| + 4 && Reads(st, p, chs)
    decreases |Missing(|st.value|, st.procs[p].done)|
  {
    var x := st.procs[p];
    assert ProcOk(st, p, x);
    var ch := Word(0);
    if AllDone(st.value, x.done) {
      StepKeepsInv(st, p, ch);
      chs := LookReads(Next(st, p, ch), p);
    } else {
      var i :| 0 <= i < |st.value| && i !in x.done;
      ch := Word(i);
      OneLess(|st.value|, x.done, i);
      StepKeepsInv(st, p, ch);
      chs := StaleReads(Next(st, p, ch), p);
    }
    ReadsLater(st, p, ch, chs);
    chs := [ch] + chs;
  }

  /**
    From wherever it is, a reader that is left alone while nobody holds the lock returns the
    stored value, in at most four steps more than twice the words.
  */
  lemma ReadAlone(st: State, p: nat) returns (chs: seq<Choice>)
    requires Inv(st) && p in st.procs && Reading(st.procs[p].pc) && st.holder == Nobody
    ensures |chs| <= 2 * |st.value| + 4 && Reads(st, p, chs)
  {
    var x := st.procs[p];
    MissingFits(|st.value|, x.done);
    if x.pc == ReadCopy {
      if st.lock == x.tmp { chs := CopyReads(st, p); } else { chs := StaleReads(st, p); }
    } else if x.pc == ReadCheck && st.lock == x.tmp {
      CheckReads(st, p);
      chs := [Word(0)];
    } else {
      chs := LookReads(st, p);
    }
  }

  /** Asked to read while nobody holds the lock, a process left alone returns the stored value. */
  lemma AskedIsRead(st: State, p: nat) returns (chs: seq<Choice>)
    requires Inv(st) && p in st.procs && st.procs[p].pc == Idle && st.holder == Nobody
    ensures Reads(st, p, [StartRead] + chs)
  {
    StepKeepsInv(st, p, StartRead);
    chs := ReadAlone(Next(st, p, StartRead), p);
    ReadsLater(st, p, StartRead, chs);
  }
}
