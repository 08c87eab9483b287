/** What holds of credits and receives over whole runs. */
module CreditsTheorems {
  import opened Credits
  import opened Division

  /* --------------------------- Whole runs --------------------------- */

  lemma {:induction false} RunKeepsInv(c: Config, st: State, steps: seq<Step>)
    requires Sized(c) && Inv(c, st)
    ensures Inv(c, Run(c, st, steps))
  {
    if steps != [] {
      RunKeepsInv(c, st, steps[..|steps| - 1]);
      NextKeepsInv(c, Run(c, st, steps[..|steps| - 1]), steps[|steps| - 1]);
    }
  }

  /** Conservation needs no receives: what overruns is counted as lost. */
  lemma {:induction false} RunKeepsPairs(c: Config, st: State, steps: seq<Step>)
    requires Shaped(c, st) && PairsOk(c, st)
    ensures PairsOk(c, Run(c, st, steps)) && Run(c, st, steps).clamps == st.clamps
  {
    if steps != [] {
      RunKeepsPairs(c, st, steps[..|steps| - 1]);
      NextKeepsPairs(c, Run(c, st, steps[..|steps| - 1]), steps[|steps| - 1]);
    }
  }

  predicate Loses(s: Step) {
    s.LoseMessage? || s.LoseAck?
  }

  lemma NextLosesNothing(c: Config, st: State, s: Step, m: nat, r: nat)
    requires Shaped(c, st) && m < c.n && r < c.n && !Loses(s) && Next(c, st, s).overruns == st.overruns
    ensures Next(c, st, s).to[r][m].lost == st.to[r][m].lost
  {
  }

  /** Credits are only lost where the network loses something. */
  lemma {:induction false} NothingLost(c: Config, st: State, steps: seq<Step>, m: nat, r: nat)
    requires Sized(c) && Initial(c, st) && m < c.n && r < c.n
    requires forall i :: 0 <= i < |steps| ==> !Loses(steps[i])
    ensures Run(c, st, steps).to[r][m].lost == 0
  {
    InitHolds(c, st);
    if steps == [] {
      assert st.to[r][m] == Fresh(c, m, r);
    } else {
      var before := steps[..|steps| - 1];
      NothingLost(c, st, before, m, r);
      RunKeepsInv(c, st, before);
      RunKeepsInv(c, st, steps);
      NextLosesNothing(c, Run(c, st, before), steps[|steps| - 1], m, r);
    }
  }

  /**
    In every run, the credits of a pair are somewhere: held, spent on a message under way,
    owed in an ack, or lost; and the clamp never cuts an ack's credits.
  */
  lemma CreditsAreConserved(c: Config, st: State, steps: seq<Step>, m: nat, r: nat)
    requires Initial(c, st) && m < c.n && r < c.n && m != r
    ensures Everything(Run(c, st, steps).to[r][m]) == c.max && Run(c, st, steps).clamps == 0
  {
    InitHolds(c, st);
    RunKeepsPairs(c, st, steps);
    assert PairOk(c, Run(c, st, steps), m, r);
  }

  /**
    In every run, no message and no ack arrives without a receive posted for it, the counts
    of posted receives stay in range, and the clamp never cuts an ack's credits.
  */
  lemma ReceivesNeverRunOut(c: Config, st: State, steps: seq<Step>, a: nat)
    requires Sized(c) && Initial(c, st) && a < c.n
    ensures var st' := Run(c, st, steps);
            && st'.overruns == 0 && st'.clamps == 0
            && RowSum(st'.to[a], OnWay) <= st'.posted[a] <= c.wr
            && ColSum(st'.to, a, Acks) <= st'.ackPosted[a] <= c.ackWr
  {
    InitHolds(c, st);
    RunKeepsInv(c, st, steps);
    var st' := Run(c, st, steps);
    ReceivesSuffice(c, st', a);
    AckReceivesSuffice(c, st', a);
    assert RowOk(c, st', a) && ColOk(c, st', a);
  }

  /** A sender has all its credits back exactly when nothing is under way, owed or lost. */
  lemma FullCreditsMeanQuiet(c: Config, st: State, steps: seq<Step>, m: nat, r: nat)
    requires Initial(c, st) && m < c.n && r < c.n && m != r
    ensures var p := Run(c, st, steps).to[r][m];
            p.credits == c.max <==> p.flight == p.arrived == p.unsent == p.lost == 0 && p.acks == p.polled == []
  {
    InitHolds(c, st);
    RunKeepsPairs(c, st, steps);
    var p := Run(c, st, steps).to[r][m];
    assert PairOk(c, Run(c, st, steps), m, r);
    TotalCovers(p.acks);
    TotalCovers(p.polled);
  }

  /* --------------------------- Runs one after another --------------------------- */

  lemma {:induction false} RunOn(c: Config, st: State, s: Step, steps: seq<Step>)
    requires Shaped(c, st)
    ensures Run(c, st, [s] + steps) == Run(c, Next(c, st, s), steps)
  {
    if steps == [] {
      assert Run(c, st, []) == st;
      assert ([s] + steps)[..0] == [];
    } else {
      RunOn(c, st, s, steps[..|steps| - 1]);
      assert ([s] + steps)[..|steps|] == [s] + steps[..|steps| - 1];
    }
  }

  lemma {:induction false} RunOnAll(c: Config, st: State, first: seq<Step>, steps: seq<Step>)
    requires Shaped(c, st)
    ensures Run(c, st, first + steps) == Run(c, Run(c, st, first), steps)
  {
    if steps == [] {
      assert first + steps == first;
    } else {
      var all, n := first + steps, |steps| - 1;
      RunOnAll(c, st, first, steps[..n]);
      assert all[..|all| - 1] == first + steps[..n] && all[|all| - 1] == steps[n];
    }
  }
}
