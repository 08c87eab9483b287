/**
  Credits come back: an ack that is handled gives its sender exactly what it carries, and from
  any state in which nothing of a pair is lost, all its credits can be brought home.
*/
module CreditsProgress {
  import opened Credits
  import opened CreditsTheorems

  /** Handling an ack, in any state of any run, gives the sender what it carries, and takes it away. */
  lemma AckGivesBack(c: Config, st: State, steps: seq<Step>, m: nat, r: nat, i: nat)
    requires Sized(c) && Initial(c, st) && m < c.n && r < c.n && i < |Run(c, st, steps).to[r][m].polled|
    ensures var st1 := Run(c, st, steps); var st2 := Next(c, st1, HandleAck(m, r, i));
            var p, p' := st1.to[r][m], st2.to[r][m];
            && p'.credits == p.credits + p.polled[i] && p'.polled == Remove(p.polled, i)
            && p' == p.(credits := p'.credits, polled := p'.polled)
            && st2.ackPosted[m] == st1.ackPosted[m] - 1
  {
    InitHolds(c, st);
    RunKeepsInv(c, st, steps);
    HandleGivesBack(c, Run(c, st, steps), m, r, i);
  }

  lemma HandleGivesBack(c: Config, st: State, m: nat, r: nat, i: nat)
    requires Sized(c) && Inv(c, st) && m < c.n && r < c.n && i < |st.to[r][m].polled|
    ensures st.ackPosted[m] > 0
    ensures var p, st' := st.to[r][m], Next(c, st, HandleAck(m, r, i));
            && st'.to[r][m] == p.(credits := p.credits + p.polled[i], polled := Remove(p.polled, i))
            && st'.ackPosted[m] == st.ackPosted[m] - 1
  {
    assert PairOk(c, st, m, r);
    ClampIsIdle(c, st, m, r, i);
    AckReceivesSuffice(c, st, m);
    SomeAck(st.to, m, r);
  }

  lemma {:induction false} SomeAck(to: seq<seq<Pair>>, m: nat, r: nat)
    requires r < |to| && forall q :: 0 <= q < |to| ==> m < |to[q]|
    ensures Acks(to[r][m]) <= ColSum(to, m, Acks)
  {
    if r < |to| - 1 { SomeAck(to[..|to| - 1], m, r); }
  }

  lemma {:induction false} SomeArrived(row: seq<Pair>, m: nat)
    requires m < |row|
    ensures OnWay(row[m]) <= RowSum(row, OnWay)
  {
    if m < |row| - 1 { SomeArrived(row[..|row| - 1], m); }
  }

  /* --------------------------- What is lost --------------------------- */

  /** The credits of a pair that a step of the network loses. */
  function LostBy(c: Config, st: State, s: Step, m: nat, r: nat): nat
    requires Shaped(c, st) && m < c.n && r < c.n
  {
    match s
    case LoseMessage(m', r') => if m == m' && r == r' && st.to[r][m].flight > 0 then 1 else 0
    case LoseAck(m', r', i) => if m == m' && r == r' && i < |st.to[r][m].acks| then st.to[r][m].acks[i] else 0
    case _ => 0
  }

  function Losses(c: Config, st: State, steps: seq<Step>, m: nat, r: nat): nat
    requires Shaped(c, st) && m < c.n && r < c.n
  {
    if steps == [] then 0
    else
      var before, s := steps[..|steps| - 1], steps[|steps| - 1];
      Losses(c, st, before, m, r) + LostBy(c, Run(c, st, before), s, m, r)
  }

  lemma LosesJustThat(c: Config, st: State, s: Step, m: nat, r: nat)
    requires Shaped(c, st) && m < c.n && r < c.n && Next(c, st, s).overruns == st.overruns
    ensures Next(c, st, s).to[r][m].lost == st.to[r][m].lost + LostBy(c, st, s, m, r)
  {
  }

  /** In every run the credits lost are one for each message and those of each ack that the network lost. */
  lemma {:induction false} LostIsCounted(c: Config, st: State, steps: seq<Step>, m: nat, r: nat)
    requires Sized(c) && Initial(c, st) && m < c.n && r < c.n
    ensures Run(c, st, steps).to[r][m].lost == Losses(c, st, steps, m, r)
  {
    InitHolds(c, st);
    if steps == [] {
      assert st.to[r][m] == Fresh(c, m, r);
    } else {
      var before := steps[..|steps| - 1];
      LostIsCounted(c, st, before, m, r);
      RunKeepsInv(c, st, before);
      RunKeepsInv(c, st, steps);
      LosesJustThat(c, Run(c, st, before), steps[|steps| - 1], m, r);
    }
  }

  /* --------------------------- The way home --------------------------- */

  /** How many steps the credits of a pair are still away from home, each counted by itself. */
  function Away(p: Pair): nat {
    5 * p.flight + 4 * p.arrived + 3 * p.unsent + 2 * Total(p.acks) + Total(p.polled)
  }

  /** The step brings the pair nearer home, and loses nothing. */
  ghost predicate Nearer(c: Config, st: State, s: Step, m: nat, r: nat)
    requires Shaped(c, st) && m < c.n && r < c.n
  {
    var p, p' := st.to[r][m], Next(c, st, s).to[r][m];
    !Loses(s) && Away(p') < Away(p) && p'.lost == p.lost
  }

  lemma ArriveNearer(c: Config, st: State, m: nat, r: nat)
    requires Sized(c) && Inv(c, st) && m < c.n && r < c.n && st.to[r][m].flight > 0
    ensures Nearer(c, st, Arrive(m, r), m, r)
  {
    ReceivesSuffice(c, st, r);
    RowMonotone(st.to[r], m);
  }

  lemma HandleNearer(c: Config, st: State, m: nat, r: nat)
    requires Sized(c) && Inv(c, st) && m < c.n && r < c.n && st.to[r][m].arrived > 0
    ensures Nearer(c, st, Handle(m, r), m, r)
  {
    ReceivesSuffice(c, st, r);
    SomeArrived(st.to[r], m);
  }

  lemma SendAcksNearer(c: Config, st: State, m: nat, r: nat)
    requires Sized(c) && Inv(c, st) && m < c.n && r < c.n && st.to[r][m].unsent > 0
    ensures Nearer(c, st, SendAcks(r), m, r)
  {
    var p := st.to[r][m];
    TotalSnoc(p.acks, p.unsent);
    assert Next(c, st, SendAcks(r)).to[r][m] == Acked(p);
  }

  /** Acks may arrive in any order. */
  lemma AckArrivesNearer(c: Config, st: State, m: nat, r: nat, i: nat)
    requires Sized(c) && Inv(c, st) && m < c.n && r < c.n && i < |st.to[r][m].acks|
    ensures Nearer(c, st, AckArrives(m, r, i), m, r)
    ensures var p, p' := st.to[r][m], Next(c, st, AckArrives(m, r, i)).to[r][m];
            p' == p.(acks := Remove(p.acks, i), polled := p.polled + [p.acks[i]])
  {
    var p := st.to[r][m];
    assert PairOk(c, st, m, r);
    AckReceivesSuffice(c, st, m);
    ColMonotone(st.to, m, r);
    TotalRemove(p.acks, i);
    TotalSnoc(p.polled, p.acks[i]);
  }

  lemma HandleAckNearer(c: Config, st: State, m: nat, r: nat)
    requires Sized(c) && Inv(c, st) && m < c.n && r < c.n && st.to[r][m].polled != []
    ensures Nearer(c, st, HandleAck(m, r, 0), m, r)
  {
    assert PairOk(c, st, m, r);
    HandleGivesBack(c, st, m, r, 0);
    TotalRemove(st.to[r][m].polled, 0);
  }

  /** While some credit of the pair is away, some step brings it nearer. */
  lemma SomeStepNearer(c: Config, st: State, m: nat, r: nat) returns (s: Step)
    requires Sized(c) && Inv(c, st) && m < c.n && r < c.n && m != r
    requires st.to[r][m].lost == 0 && st.to[r][m].credits < c.max
    ensures Nearer(c, st, s, m, r)
  {
    var p := st.to[r][m];
    assert PairOk(c, st, m, r);
    if p.flight > 0 {
      ArriveNearer(c, st, m, r);
      s := Arrive(m, r);
    } else if p.arrived > 0 {
      HandleNearer(c, st, m, r);
      s := Handle(m, r);
    } else if p.unsent > 0 {
      SendAcksNearer(c, st, m, r);
      s := SendAcks(r);
    } else if p.acks != [] {
      AckArrivesNearer(c, st, m, r, 0);
      s := AckArrives(m, r, 0);
    } else {
      HandleAckNearer(c, st, m, r);
      s := HandleAck(m, r, 0);
    }
  }

  predicate Lossless(steps: seq<Step>) {
    forall i :: 0 <= i < |steps| ==> !Loses(steps[i])
  }

  /** These steps lose nothing, and bring all credits of the pair home. */
  ghost predicate BringsHome(c: Config, st: State, steps: seq<Step>, m: nat, r: nat)
    requires Shaped(c, st) && m < c.n && r < c.n
  {
    Lossless(steps) && Run(c, st, steps).to[r][m].credits == c.max
  }

  lemma HomeLater(c: Config, st: State, s: Step, steps: seq<Step>, m: nat, r: nat)
    requires Shaped(c, st) && m < c.n && r < c.n && !Loses(s) && BringsHome(c, Next(c, st, s), steps, m, r)
    ensures BringsHome(c, st, [s] + steps, m, r)
  {
    RunOn(c, st, s, steps);
  }

  lemma {:induction false} ComesHome(c: Config, st: State, m: nat, r: nat) returns (steps: seq<Step>)
    requires Sized(c) && Inv(c, st) && m < c.n && r < c.n && m != r && st.to[r][m].lost == 0
    ensures BringsHome(c, st, steps, m, r)
    decreases Away(st.to[r][m])
  {
    if st.to[r][m].credits == c.max {
      steps := [];
    } else {
      assert PairOk(c, st, m, r);
      var s := SomeStepNearer(c, st, m, r);
      NextKeepsInv(c, st, s);
      var rest := ComesHome(c, Next(c, st, s), m, r);
      HomeLater(c, st, s, rest, m, r);
      steps := [s] + rest;
    }
  }

  /**
    After any run in which nothing of a pair was lost, further steps without losses give the
    sender all its credits back.
  */
  lemma CreditsComeHome(c: Config, st: State, steps: seq<Step>, m: nat, r: nat) returns (more: seq<Step>)
    requires Sized(c) && Initial(c, st) && m < c.n && r < c.n && m != r && Run(c, st, steps).to[r][m].lost == 0
    ensures Lossless(more) && Run(c, st, steps + more).to[r][m].credits == c.max
  {
    InitHolds(c, st);
    RunKeepsInv(c, st, steps);
    more := ComesHome(c, Run(c, st, steps), m, r);
    RunOnAll(c, st, steps, more);
  }
}
