/** What several parts of the model use: options, bytes, sequences of ids, ends of lists. */
module Common {

  datatype Option<T> = None | Some(value: T)

  /** The null link of a work request. */
  const NO_WR: int := -1

  /* --------------------------- Sequences of ids --------------------------- */

  predicate Distinct(c: seq<nat>) {
    forall i, j :: 0 <= i < j < |c| ==> c[i] != c[j]
  }

  lemma {:induction false} DistinctFits(c: seq<nat>, nodes: set<nat>)
    requires Distinct(c) && forall i :: 0 <= i < |c| ==> c[i] in nodes
    ensures |c| <= |nodes|
  {
    if |c| > 0 {
      var rest := nodes - {c[0]};
      forall i | 0 <= i < |c[1..]| ensures c[1..][i] in rest { assert c[0] != c[i + 1]; }
      DistinctFits(c[1..], rest);
    }
  }

  predicate Ascending(ids: seq<int>) {
    forall i, j :: 0 <= i < j < |ids| ==> ids[i] < ids[j]
  }

  /* --------------------------- Chains of nodes --------------------------- */

  /** The null key: a node that leads to it ends its chain. */
  const NULL: nat := 0

  /** Follows the nodes from n on until null, for at most `fuel` of them. */
  function Follow(next: map<nat, nat>, n: nat, fuel: nat): seq<nat>
    decreases fuel
  {
    if fuel == 0 || n == NULL || n !in next then [] else [n] + Follow(next, next[n], fuel - 1)
  }

  /** Each node of c leads to the next, and the last one to null. */
  ghost predicate LeadsThrough(next: map<nat, nat>, c: seq<nat>) {
    && (forall i :: 0 <= i < |c| ==> c[i] in next)
    && (forall i, j :: 0 <= i < j < |c| && j == i + 1 ==> next[c[i]] == c[j])
    && (|c| > 0 ==> next[c[|c| - 1]] == NULL)
  }

  lemma {:induction false} FollowChain(next: map<nat, nat>, c: seq<nat>, fuel: nat)
    requires LeadsThrough(next, c) && |c| <= fuel && NULL !in next
    ensures Follow(next, if c == [] then NULL else c[0], fuel) == c
  {
    if |c| > 1 {
      var d := c[1..];
      forall i, j | 0 <= i < j < |d| && j == i + 1 ensures next[d[i]] == d[j] {
        assert d[i] == c[i + 1] && d[j] == c[j + 1];
      }
      FollowChain(next, d, fuel - 1);
      assert c == [c[0]] + d;
    }
  }

  /* --------------------------- Memory --------------------------- */

  type byte = n: int | 0 <= n < 256

  /** Memory after writing `data` at a place. */
  function Write(mem: seq<byte>, at: nat, data: seq<byte>): (r: seq<byte>)
    requires at + |data| <= |mem|
    ensures |r| == |mem|
  {
    mem[..at] + data + mem[at + |data|..]
  }

  lemma WriteOne(mem: seq<byte>, at: nat, data: seq<byte>, i: nat)
    requires at + |data| <= |mem| && i < |data|
    ensures Write(mem, at, data[..i])[at + i := data[i]] == Write(mem, at, data[..i + 1])
  {
  }

  /** What is written can be read back, and what lies before it is left alone. */
  lemma WriteThenRead(mem: seq<byte>, at: nat, data: seq<byte>, from: nat, n: nat)
    requires at + |data| <= |mem| && from + n <= at
    ensures Write(mem, at, data)[at..at + |data|] == data
    ensures Write(mem, at, data)[from..from + n] == mem[from..from + n]
  {
  }
}
