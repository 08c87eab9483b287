/** Products, quotients and remainders, one step at a time. */
module Division {

  /** k times d. */
  function Times(k: nat, d: nat): nat {
    if k == 0 then 0 else Times(k - 1, d) + d
  }

  lemma {:induction false} TimesIs(k: nat, d: nat)
    ensures Times(k, d) == k * d
  {
    if k > 0 { TimesIs(k - 1, d); }
  }

  lemma {:induction false} TimesAdd(j: nat, k: nat, d: nat)
    ensures Times(j + k, d) == Times(j, d) + Times(k, d)
  {
    if k > 0 { TimesAdd(j, k - 1, d); }
  }

  lemma {:induction false} TimesGrows(k: nat, d: nat, e: nat)
    requires 0 < d <= e
    ensures k <= Times(k, d) <= Times(k, e)
  {
    if k > 0 { TimesGrows(k - 1, d, e); }
  }

  lemma {:induction false} TimesGap(j: nat, k: nat, d: nat)
    requires j < k
    ensures Times(j, d) + d <= Times(k, d)
  {
    if j < k - 1 { TimesGap(j, k - 1, d); }
  }

  /** x / d. */
  function Quot(x: nat, d: nat): nat
    requires d > 0
  {
    if x < d then 0 else Quot(x - d, d) + 1
  }

  /** x % d. */
  function Rem(x: nat, d: nat): (r: nat)
    requires d > 0
    ensures r < d
  {
    if x < d then x else Rem(x - d, d)
  }

  lemma {:induction false} Divided(x: nat, d: nat)
    requires d > 0
    ensures x == Times(Quot(x, d), d) + Rem(x, d)
  {
    if x >= d { Divided(x - d, d); }
  }

  lemma {:induction false} QuotRemAre(x: nat, d: nat, k: nat, r: nat)
    requires r < d && x == Times(k, d) + r
    ensures Quot(x, d) == k && Rem(x, d) == r
  {
    if k > 0 { QuotRemAre(x - d, d, k - 1, r); }
  }

  /** The remainder is the operator of the language. */
  method Mod(x: nat, d: nat) returns (r: nat)
    requires d > 0
    ensures r == Rem(x, d)
  {
    r := x % d;
    ghost var k := x / d;
    assert x == k * d + r;
    TimesIs(k, d);
    QuotRemAre(x, d, k, r);
  }

  /** Counting on by one. */
  lemma {:induction false} QuotRemSucc(x: nat, d: nat)
    requires d > 0
    ensures if Rem(x, d) == d - 1 then Quot(x + 1, d) == Quot(x, d) + 1 && Rem(x + 1, d) == 0
            else Quot(x + 1, d) == Quot(x, d) && Rem(x + 1, d) == Rem(x, d) + 1
  {
    if x >= d { QuotRemSucc(x - d, d); }
  }
}
