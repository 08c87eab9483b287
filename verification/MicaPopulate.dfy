/**
  When the store can be populated: the exact condition, in terms of the keys alone, under which
  a run of insertions into the empty store never aborts.
*/
module MicaPopulate {
  import opened Common
  import opened Division
  import opened Mica

  /** How many slots are in use. */
  function Used(s: Bucket): nat {
    if s == [] then 0 else Used(s[..|s| - 1]) + if s[|s| - 1].inUse then 1 else 0
  }

  lemma {:induction false} UsedAdd(s: Bucket, j: nat, x: Slot)
    requires j < |s| && !s[j].inUse && x.inUse
    ensures Used(s[j := x]) == Used(s) + 1
  {
    var init := s[..|s| - 1];
    if j < |init| {
      UsedAdd(init, j, x);
      assert s[j := x][..|s| - 1] == init[j := x];
    } else {
      assert s[j := x][..|s| - 1] == init;
    }
  }

  /** A bucket has no free slot exactly when all are used. */
  lemma {:induction false} FullMeansUsed(s: Bucket)
    ensures Used(s) <= |s| && (LastFree(s, |s|) == -1 <==> Used(s) == |s|)
  {
    if s != [] {
      FullMeansUsed(s[..|s| - 1]);
      LastFreePrefix(s, |s| - 1);
    }
  }

  lemma {:induction false} LastFreePrefix(s: Bucket, n: nat)
    requires n <= |s|
    ensures LastFree(s, n) == LastFree(s[..n], n)
  {
    LastFreeSame(s, s[..n], n);
  }

  lemma {:induction false} LastFreeSame(s: Bucket, t: Bucket, n: nat)
    requires n <= |s| && n <= |t| && s[..n] == t[..n]
    ensures LastFree(s, n) == LastFree(t, n)
  {
    if n > 0 {
      assert s[n - 1] == s[..n][n - 1] == t[..n][n - 1];
      assert s[..n - 1] == s[..n][..n - 1] == t[..n][..n - 1] == t[..n - 1];
      LastFreeSame(s, t, n - 1);
    }
  }

  /** How many of the keys are in bucket b. */
  function CountIn(c: Config, ops: seq<Op>, b: nat): nat
    requires ConfigOk(c)
  {
    if ops == [] then 0
    else CountIn(c, ops[..|ops| - 1], b) + if BucketOf(c, ops[|ops| - 1].key) == b then 1 else 0
  }

  /** No two keys have both bucket and tag in common. */
  ghost predicate Separate(c: Config, ops: seq<Op>)
    requires ConfigOk(c)
  {
    forall i, j :: 0 <= i < j < |ops| ==> EntryKey(c, ops[i].key) != EntryKey(c, ops[j].key)
  }

  ghost predicate Spread(c: Config, ops: seq<Op>)
    requires ConfigOk(c)
  {
    forall b {:trigger CountIn(c, ops, b)} :: 0 <= b < c.buckets ==> CountIn(c, ops, b) <= SLOTS
  }

  /** There is room for n entries in the log, and for the test after the last one. */
  predicate Room(c: Config, n: nat) {
    n > 0 ==> Times(n, c.opSize) + 8 < OFFSETS && Times(n + 1, c.opSize) + 32 < c.cap
  }

  lemma {:induction false} RunCounts(c: Config, ops: seq<Op>, b: nat)
    requires ConfigOk(c) && forall i :: 0 <= i < |ops| ==> |ops[i].bytes| == c.opSize
    requires InsertAll(c, ops).Some? && b < c.buckets
    ensures var k := InsertAll(c, ops).value;
            Used(k.index[b]) == CountIn(c, ops, b) && k.head == Times(|ops|, c.opSize)
  {
    if ops == [] {
      NoneUsed(seq(SLOTS, j => Slot(false, 0, 0)));
      assert InsertAll(c, ops).value == Empty(c);
    } else {
      var init, op := ops[..|ops| - 1], ops[|ops| - 1];
      RunCounts(c, init, b);
      var k := InsertAll(c, init).value;
      InsertCounts(c, k, op, b);
    }
  }

  lemma InsertCounts(c: Config, k: Kvs, op: Op, b: nat)
    requires Shaped(c, k) && !Aborts(c, k, op.key) && |op.bytes| == c.opSize && b < c.buckets
    ensures var k' := Insert(c, k, op.key, op.bytes);
            && |k'.index| == c.buckets && k'.head == k.head + c.opSize
            && Used(k'.index[b]) == Used(k.index[b]) + if BucketOf(c, op.key) == b then 1 else 0
  {
    var s := k.index[BucketOf(c, op.key)];
    LastFreeIs(s, SLOTS);
    UsedAdd(s, LastFree(s, SLOTS), Slot(true, op.key.tag, k.head));
  }

  lemma {:induction false} NoneUsed(s: Bucket)
    requires forall j :: 0 <= j < |s| ==> !s[j].inUse
    ensures Used(s) == 0
  {
    if s != [] { NoneUsed(s[..|s| - 1]); }
  }

  /** The next insertion aborts exactly when its key is not new, its bucket is full, or room runs out. */
  lemma AbortsMeans(c: Config, ops: seq<Op>, key: Key)
    requires ConfigOk(c) && forall i :: 0 <= i < |ops| ==> |ops[i].bytes| == c.opSize
    requires InsertAll(c, ops).Some?
    ensures Aborts(c, InsertAll(c, ops).value, key) <==>
            || (exists i :: 0 <= i < |ops| && EntryKey(c, ops[i].key) == EntryKey(c, key))
            || CountIn(c, ops, BucketOf(c, key)) == SLOTS
            || !Room(c, |ops| + 1)
  {
    var k, b := InsertAll(c, ops).value, BucketOf(c, key);
    RunKeeps(c, ops);
    TakenMeansInserted(c, k, Contents(c, ops), key);
    ContentsAre(c, ops, EntryKey(c, key));
    RunCounts(c, ops, b);
    FullMeansUsed(k.index[b]);
  }

  lemma CountsGrow(c: Config, ops: seq<Op>)
    requires ConfigOk(c) && ops != [] && Spread(c, ops)
    ensures Spread(c, ops[..|ops| - 1])
  {
    var init := ops[..|ops| - 1];
    forall b | 0 <= b < c.buckets ensures CountIn(c, init, b) <= SLOTS {
      assert CountIn(c, ops, b) <= SLOTS;
    }
  }

  /** One more key keeps the keys separate, spread and within the room. */
  lemma GoodSnoc(c: Config, ops: seq<Op>)
    requires ConfigOk(c) && ops != []
    ensures var init, key := ops[..|ops| - 1], ops[|ops| - 1].key;
            Good(c, ops) <==>
            && Good(c, init)
            && !(exists i :: 0 <= i < |init| && EntryKey(c, init[i].key) == EntryKey(c, key))
            && CountIn(c, init, BucketOf(c, key)) < SLOTS
            && Room(c, |ops|)
  {
    var init, key := ops[..|ops| - 1], ops[|ops| - 1].key;
    SeparateSnoc(c, ops);
    SpreadSnoc(c, ops);
  }

  lemma SeparateSnoc(c: Config, ops: seq<Op>)
    requires ConfigOk(c) && ops != []
    ensures var init, key := ops[..|ops| - 1], ops[|ops| - 1].key;
            Separate(c, ops) <==>
            Separate(c, init) && !(exists i :: 0 <= i < |init| && EntryKey(c, init[i].key) == EntryKey(c, key))
  {
    var init, n := ops[..|ops| - 1], |ops| - 1;
    if Separate(c, ops) {
      forall i | 0 <= i < |init| ensures EntryKey(c, init[i].key) != EntryKey(c, ops[n].key) {
        assert init[i] == ops[i];
      }
    }
  }

  lemma SpreadSnoc(c: Config, ops: seq<Op>)
    requires ConfigOk(c) && ops != []
    ensures var init, key := ops[..|ops| - 1], ops[|ops| - 1].key;
            Spread(c, ops) <==> Spread(c, init) && CountIn(c, init, BucketOf(c, key)) < SLOTS
  {
    var init, b := ops[..|ops| - 1], BucketOf(c, ops[|ops| - 1].key);
    if Spread(c, ops) {
      CountsGrow(c, ops);
      assert CountIn(c, ops, b) <= SLOTS;
    } else {
      var b' :| 0 <= b' < c.buckets && CountIn(c, ops, b') > SLOTS;
      assert CountIn(c, init, b') <= SLOTS ==> b' == b && CountIn(c, init, b) == SLOTS;
    }
  }

  ghost predicate Good(c: Config, ops: seq<Op>)
    requires ConfigOk(c)
  {
    Separate(c, ops) && Spread(c, ops) && Room(c, |ops|)
  }

  /**
    Populating an empty store never aborts exactly when no two keys share bucket and tag, no
    bucket gets more than eight keys, and the log has room for one more entry and 32 bytes.
  */
  lemma {:induction false} PopulatesExactlyWhen(c: Config, ops: seq<Op>)
    requires ConfigOk(c) && forall i :: 0 <= i < |ops| ==> |ops[i].bytes| == c.opSize
    ensures InsertAll(c, ops).Some? <==> Good(c, ops)
  {
    if ops != [] {
      var init := ops[..|ops| - 1];
      PopulatesExactlyWhen(c, init);
      GoodSnoc(c, ops);
      if InsertAll(c, init).Some? { AbortsMeans(c, init, ops[|ops| - 1].key); }
    }
  }
}
