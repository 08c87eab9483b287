/** How many receives it takes: with fewer, some run overruns a receiver or a sender. */
module CreditsNeeded {
  import opened Credits
  import opened CreditsTheorems
  import opened Division

  /* --------------------------- Too few receives for messages --------------------------- */

  /** Every other machine sends all it can to machine 0. */
  function AllSend(c: Config, k: nat): seq<Step> {
    if k <= 1 then [] else AllSend(c, k - 1) + [Broadcast(k - 1, {0}, c.max)]
  }

  /** Nothing has been handled, and senders below k have spent their credits on machine 0. */
  ghost predicate Loaded(c: Config, st: State, k: nat) {
    && Shaped(c, st) && c.n > 0 && st.posted[0] == c.wr
    && forall m :: 0 <= m < c.n ==>
         && st.to[0][m].arrived == 0
         && if m < k then OnWay(st.to[0][m]) == Cap(c, m, 0)
            else st.to[0][m].credits == Cap(c, m, 0) && OnWay(st.to[0][m]) == 0
  }

  lemma {:induction false} AllSendLoads(c: Config, k: nat)
    requires 0 < k <= c.n
    ensures Loaded(c, Run(c, Init(c), AllSend(c, k)), k)
  {
    if k > 1 {
      AllSendLoads(c, k - 1);
      assert AllSend(c, k)[..|AllSend(c, k)| - 1] == AllSend(c, k - 1);
      OneSendLoads(c, Run(c, Init(c), AllSend(c, k - 1)), k - 1);
    }
  }

  lemma OneSendLoads(c: Config, st: State, m: nat)
    requires Loaded(c, st, m) && 0 < m < c.n
    ensures Loaded(c, Next(c, st, Broadcast(m, {0}, c.max)), m + 1)
  {
  }

  lemma {:induction false} LoadedSum(c: Config, row: seq<Pair>)
    requires forall m :: 0 <= m < |row| ==> OnWay(row[m]) == Cap(c, m, 0)
    ensures RowSum(row, OnWay) == Caps(c, |row|, 0)
  {
    if row != [] { LoadedSum(c, row[..|row| - 1]); }
  }

  lemma {:induction false} SomeoneOnWay(row: seq<Pair>) returns (m: nat)
    requires RowSum(row, OnWay) > RowSum(row, Arrived)
    ensures m < |row| && row[m].flight > 0
  {
    if row[|row| - 1].flight > 0 { m := |row| - 1; } else { m := SomeoneOnWay(row[..|row| - 1]); }
  }

  /** With more messages on their way than receives, arrivals alone come to an overrun. */
  lemma {:induction false} ArrivalsOverrun(c: Config, st: State) returns (steps: seq<Step>)
    requires Shaped(c, st) && c.n > 0 && st.posted[0] == c.wr
    requires RowSum(st.to[0], Arrived) <= c.wr < RowSum(st.to[0], OnWay)
    ensures Run(c, st, steps).overruns > 0
    decreases c.wr - RowSum(st.to[0], Arrived)
  {
    var row := st.to[0];
    var m := SomeoneOnWay(row);
    var p := row[m].(flight := row[m].flight - 1, arrived := row[m].arrived + 1);
    var rest := [];
    if RowSum(row, Arrived) < c.wr {
      RowUpdate(row, m, p, Arrived);
      RowUpdate(row, m, p, OnWay);
      rest := ArrivalsOverrun(c, Next(c, st, Arrive(m, 0)));
    }
    steps := [Arrive(m, 0)] + rest;
    RunOn(c, st, Arrive(m, 0), rest);
  }

  lemma {:induction false} NoneArrived(c: Config, row: seq<Pair>)
    requires forall m :: 0 <= m < |row| ==> row[m].arrived == 0
    ensures RowSum(row, Arrived) == 0
  {
    if row != [] { NoneArrived(c, row[..|row| - 1]); }
  }

  lemma MessagesOverrun(c: Config) returns (steps: seq<Step>)
    requires c.n > 0 && c.wr < Times(c.n - 1, c.max)
    ensures Run(c, Init(c), steps).overruns > 0
  {
    var first := AllSend(c, c.n);
    var st := Run(c, Init(c), first);
    AllSendLoads(c, c.n);
    LoadedSum(c, st.to[0]);
    CapsAre(c, c.n, 0);
    NoneArrived(c, st.to[0]);
    var rest := ArrivalsOverrun(c, st);
    RunOnAll(c, Init(c), first, rest);
    steps := first + rest;
  }

  /* --------------------------- Too few receives for acks --------------------------- */

  /** Nothing is on its way to or from anyone: machine 0 holds its credits or has polled acks of them. */
  ghost predicate QuietPair(c: Config, st: State, m: nat, r: nat)
    requires Shaped(c, st) && m < c.n && r < c.n
  {
    var p := st.to[r][m];
    && p.flight == p.arrived == p.unsent == 0 && p.acks == []
    && (m == 0 ==> p.credits + |p.polled| == Cap(c, 0, r))
  }

  ghost predicate Quiet(c: Config, st: State) {
    && Shaped(c, st) && c.n > 0 && st.ackPosted[0] == c.ackWr
    && (forall r :: 0 <= r < c.n ==> st.posted[r] == c.wr)
    && forall m, r {:trigger QuietPair(c, st, m, r)} :: 0 <= m < c.n && 0 <= r < c.n ==> QuietPair(c, st, m, r)
  }

  lemma InitIsQuiet(c: Config)
    requires c.n > 0
    ensures Quiet(c, Init(c)) && ColSum(Init(c).to, 0, Polled) == 0
  {
    var st := Init(c);
    forall m, r | 0 <= m < c.n && 0 <= r < c.n ensures QuietPair(c, st, m, r) {
      assert st.to[r][m] == Fresh(c, m, r);
    }
    NonePolled(st.to);
  }

  lemma {:induction false} NonePolled(to: seq<seq<Pair>>)
    requires forall r :: 0 <= r < |to| ==> |to[r]| > 0 && to[r][0].polled == []
    ensures ColSum(to, 0, Polled) == 0
  {
    if to != [] { NonePolled(to[..|to| - 1]); }
  }

  /** What machine 0 does not hold of its credits has come back in acks. */
  lemma {:induction false} HeldOrPolled(c: Config, to: seq<seq<Pair>>) returns (r: nat)
    requires forall q :: 0 <= q < |to| ==> |to[q]| > 0 && to[q][0].credits + |to[q][0].polled| == Cap(c, 0, q)
    requires ColSum(to, 0, Polled) < Caps(c, |to|, 0)
    ensures r < |to| && to[r][0].credits > 0
  {
    var n := |to| - 1;
    if to[n][0].credits > 0 { r := n; } else { r := HeldOrPolled(c, to[..n]); }
  }

  /** The pair of machine 0 and machine r while one credit goes round. */
  function Round(p: Pair, k: nat): Pair
    requires p.credits > 0
  {
    var q := p.(credits := p.credits - 1);
    match k
    case 0 => p
    case 1 => q.(flight := 1)
    case 2 => q.(arrived := 1)
    case 3 => q.(unsent := 1)
    case 4 => q.(acks := [1])
    case _ => q.(polled := p.polled + [1])
  }

  lemma PutTwice(st: State, m: nat, r: nat, p: Pair, q: Pair)
    requires r < |st.to| && m < |st.to[r]|
    ensures Put(Put(st, m, r, p), m, r, q) == Put(st, m, r, q)
  {
    assert st.to[r][m := p][m := q] == st.to[r][m := q];
    assert Put(Put(st, m, r, p), m, r, q).to == Put(st, m, r, q).to;
  }

  lemma RoundSend(c: Config, st: State, r: nat)
    requires Quiet(c, st) && 0 < r < c.n && st.to[r][0].credits > 0
    ensures Next(c, st, Broadcast(0, {r}, 1)) == Put(st, 0, r, Round(st.to[r][0], 1))
  {
    assert QuietPair(c, st, 0, r);
    var st' := Next(c, st, Broadcast(0, {r}, 1));
    assert st'.to == Put(st, 0, r, Round(st.to[r][0], 1)).to;
    assert st'.ackPosted == st.ackPosted;
  }

  lemma RoundArrive(c: Config, st: State, r: nat)
    requires Quiet(c, st) && 0 < r < c.n && st.to[r][0].credits > 0 && c.wr > 0
    ensures Next(c, Put(st, 0, r, Round(st.to[r][0], 1)), Arrive(0, r)) == Put(st, 0, r, Round(st.to[r][0], 2))
  {
    var row := st.to[r];
    forall m | 0 <= m < |row| ensures row[m].arrived == 0 { assert QuietPair(c, st, m, r); }
    NoneArrived(c, row);
    RowUpdate(row, 0, Round(row[0], 1), Arrived);
    assert QuietPair(c, st, 0, r);
    PutTwice(st, 0, r, Round(row[0], 1), Round(row[0], 2));
  }

  lemma RoundHandle(c: Config, st: State, r: nat)
    requires Quiet(c, st) && 0 < r < c.n && st.to[r][0].credits > 0 && c.wr > 0
    ensures Next(c, Put(st, 0, r, Round(st.to[r][0], 2)), Handle(0, r))
            == Put(st, 0, r, Round(st.to[r][0], 3)).(posted := st.posted[r := c.wr - 1])
  {
    assert QuietPair(c, st, 0, r);
    PutTwice(st, 0, r, Round(st.to[r][0], 2), Round(st.to[r][0], 3));
  }

  lemma RoundAck(c: Config, st: State, r: nat)
    requires Quiet(c, st) && 0 < r < c.n && st.to[r][0].credits > 0 && c.wr > 0
    ensures Next(c, Put(st, 0, r, Round(st.to[r][0], 3)).(posted := st.posted[r := c.wr - 1]), SendAcks(r))
            == Put(st, 0, r, Round(st.to[r][0], 4))
  {
    var st3 := Put(st, 0, r, Round(st.to[r][0], 3)).(posted := st.posted[r := c.wr - 1]);
    var row4 := Put(st, 0, r, Round(st.to[r][0], 4)).to[r];
    forall m | 0 <= m < c.n ensures Acked(st3.to[r][m]) == row4[m] { assert QuietPair(c, st, m, r); }
    assert st3.to[r][0].unsent == 1;
    var st' := Next(c, st3, SendAcks(r));
    assert st'.to[r] == row4;
    assert st'.to == Put(st, 0, r, Round(st.to[r][0], 4)).to;
    assert st'.posted == st.posted;
  }

  /** One credit of machine 0 has gone to machine r and is back in an ack that has not been handled. */
  lemma RoundEnds(c: Config, st: State, r: nat)
    requires Quiet(c, st) && 0 < r < c.n && st.to[r][0].credits > 0
    ensures var st4 := Put(st, 0, r, Round(st.to[r][0], 4)); var st' := Next(c, st4, AckArrives(0, r, 0));
            if ColSum(st.to, 0, Polled) < c.ackWr then
              && st' == Put(st, 0, r, Round(st.to[r][0], 5)) && Quiet(c, st')
              && ColSum(st'.to, 0, Polled) == ColSum(st.to, 0, Polled) + 1
            else st'.overruns > 0
  {
    var p := st.to[r][0];
    assert QuietPair(c, st, 0, r);
    ColUpdate(st.to, 0, r, st.to[r][0 := Round(p, 4)], Polled);
    ColUpdate(st.to, 0, r, st.to[r][0 := Round(p, 5)], Polled);
    PutTwice(st, 0, r, Round(p, 4), Round(p, 5));
    assert Remove([1], 0) == [];
    var st' := Put(st, 0, r, Round(p, 5));
    forall m, q | 0 <= m < c.n && 0 <= q < c.n ensures QuietPair(c, st', m, q) {
      assert QuietPair(c, st, m, q);
    }
  }

  function RoundSteps(r: nat): seq<Step> {
    [Broadcast(0, {r}, 1), Arrive(0, r), Handle(0, r), SendAcks(r), AckArrives(0, r, 0)]
  }

  lemma RunFive(c: Config, st: State, s: seq<Step>)
    requires Shaped(c, st) && |s| == 5
    ensures Run(c, st, s) == Next(c, Next(c, Next(c, Next(c, Next(c, st, s[0]), s[1]), s[2]), s[3]), s[4])
  {
    assert s[..4][..3] == s[..3] && s[..3][..2] == s[..2] && s[..2][..1] == s[..1] && s[..1][..0] == [];
    assert Run(c, st, s[..1]) == Next(c, st, s[0]);
    assert Run(c, st, s[..2]) == Next(c, Run(c, st, s[..1]), s[1]);
    assert Run(c, st, s[..3]) == Next(c, Run(c, st, s[..2]), s[2]);
    assert Run(c, st, s[..4]) == Next(c, Run(c, st, s[..3]), s[3]);
  }

  lemma OneRound(c: Config, st: State, r: nat)
    requires Quiet(c, st) && 0 < r < c.n && st.to[r][0].credits > 0 && c.wr > 0
    ensures var st' := Run(c, st, RoundSteps(r));
            if ColSum(st.to, 0, Polled) < c.ackWr then
              Quiet(c, st') && ColSum(st'.to, 0, Polled) == ColSum(st.to, 0, Polled) + 1
            else st'.overruns > 0
  {
    RunFive(c, st, RoundSteps(r));
    RoundSend(c, st, r);
    RoundArrive(c, st, r);
    RoundHandle(c, st, r);
    RoundAck(c, st, r);
    RoundEnds(c, st, r);
  }

  /** With more credits than receives for acks, acks of one credit each come to an overrun. */
  lemma {:induction false} AcksOverrun(c: Config, st: State) returns (steps: seq<Step>)
    requires Quiet(c, st) && c.wr > 0 && ColSum(st.to, 0, Polled) <= c.ackWr < Caps(c, c.n, 0)
    ensures Run(c, st, steps).overruns > 0
    decreases c.ackWr - ColSum(st.to, 0, Polled)
  {
    forall q | 0 <= q < c.n ensures |st.to[q]| > 0 && st.to[q][0].credits + |st.to[q][0].polled| == Cap(c, 0, q) {
      assert QuietPair(c, st, 0, q);
    }
    var r := HeldOrPolled(c, st.to);
    OneRound(c, st, r);
    if ColSum(st.to, 0, Polled) < c.ackWr {
      var rest := AcksOverrun(c, Run(c, st, RoundSteps(r)));
      RunOnAll(c, st, RoundSteps(r), rest);
      steps := RoundSteps(r) + rest;
    } else {
      steps := RoundSteps(r);
    }
  }

  /* --------------------------- The exact condition --------------------------- */

  /**
    Runs are free of overruns exactly when every machine posts a receive for a message for each
    credit of the others, and a receive for an ack for each credit of its own.
  */
  lemma ReceivesNeeded(c: Config)
    requires c.n > 0
    ensures (forall steps: seq<Step> :: Run(c, Init(c), steps).overruns == 0) <==> Sized(c)
  {
    if Sized(c) {
      InitHolds(c, Init(c));
      forall steps: seq<Step> ensures Run(c, Init(c), steps).overruns == 0 {
        RunKeepsInv(c, Init(c), steps);
      }
    } else if c.wr < Times(c.n - 1, c.max) {
      var steps := MessagesOverrun(c);
      assert Run(c, Init(c), steps).overruns > 0;
    } else {
      InitIsQuiet(c);
      CapsAre(c, c.n, 0);
      var steps := AcksOverrun(c, Init(c));
      assert Run(c, Init(c), steps).overruns > 0;
    }
  }
}
