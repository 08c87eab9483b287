/**
  The key-value index: buckets of eight slots that hold a tag and an offset into a log, and a
  log that only grows. Keys are only ever inserted; the program aborts when a bucket is full,
  when a tag is taken in its bucket, and when the log comes to its end.
*/
module Mica {
  import opened Common
  import opened Division

  const SLOTS: nat := 8
  const ALIGNMENT: nat := 64
  /** The bits of an offset in a slot. */
  const OFFSETS: nat := 0x100_0000_0000

  /** The parts of a key that the index looks at. */
  datatype Key = Key(bkt: nat, tag: nat)

  datatype Slot = Slot(inUse: bool, tag: nat, offset: nat)

  type Bucket = seq<Slot>

  datatype Config = Config(buckets: nat, opSize: nat, cap: nat)

  datatype Kvs = Kvs(index: seq<Bucket>, log: seq<byte>, head: nat)

  predicate ConfigOk(c: Config) {
    c.buckets > 0 && 0 < c.opSize <= c.cap && c.opSize % ALIGNMENT == 0
  }

  predicate Shaped(c: Config, k: Kvs) {
    && ConfigOk(c) && |k.index| == c.buckets && |k.log| == c.cap && k.head <= c.cap
    && forall b :: 0 <= b < c.buckets ==> |k.index[b]| == SLOTS
  }

  /** The bucket of a key. */
  function BucketOf(c: Config, key: Key): (b: nat)
    requires c.buckets > 0
    ensures b < c.buckets
  {
    Rem(key.bkt, c.buckets)
  }

  /* --------------------------- Insertion --------------------------- */

  /** Some used slot has the tag. */
  predicate Taken(s: Bucket, tag: nat) {
    exists j :: 0 <= j < |s| && s[j].inUse && s[j].tag == tag
  }

  /** The last of the first n slots that is free, or -1. */
  function LastFree(s: Bucket, n: nat): (r: int)
    requires n <= |s|
    ensures -1 <= r < n
  {
    if n == 0 then -1 else if !s[n - 1].inUse then n - 1 else LastFree(s, n - 1)
  }

  /** Why an insertion would abort: a taken tag, a full bucket, or the end of the log. */
  predicate Aborts(c: Config, k: Kvs, key: Key)
    requires Shaped(c, k)
  {
    var s := k.index[BucketOf(c, key)];
    || Taken(s, key.tag) || LastFree(s, SLOTS) == -1
    || OFFSETS - k.head <= c.opSize + 8
    || c.cap - (k.head + c.opSize) <= c.opSize + 32
  }

  /** `mica_insert_one`, when it does not abort. */
  function Insert(c: Config, k: Kvs, key: Key, op: seq<byte>): Kvs
    requires Shaped(c, k) && !Aborts(c, k, key) && |op| == c.opSize
  {
    var b := BucketOf(c, key);
    var s := k.index[b];
    Kvs(k.index[b := s[LastFree(s, SLOTS) := Slot(true, key.tag, k.head)]],
        Write(k.log, k.head, op), k.head + c.opSize)
  }

  /* --------------------------- Lookup --------------------------- */

  /** The first used slot from j on with the tag, or -1. */
  function FirstTagged(s: Bucket, tag: nat, j: nat): (r: int)
    requires j <= |s|
    ensures r == -1 || (j <= r < |s| && s[r].inUse && s[r].tag == tag)
    ensures r == -1 ==> forall i :: j <= i < |s| ==> !(s[i].inUse && s[i].tag == tag)
    decreases |s| - j
  {
    if j == |s| then -1 else if s[j].inUse && s[j].tag == tag then j else FirstTagged(s, tag, j + 1)
  }

  /** `KVS_locate_one_kv_pair`: the place of the key's entry in the log. */
  function Locate(c: Config, k: Kvs, key: Key): Option<nat>
    requires Shaped(c, k)
  {
    var s := k.index[BucketOf(c, key)];
    var j := FirstTagged(s, key.tag, 0);
    if j == -1 || k.head - s[j].offset >= c.cap then None else Some(Rem(s[j].offset, c.cap))
  }

  /* --------------------------- The invariant --------------------------- */

  /** What has been inserted, by bucket and tag. */
  type Directory = map<(nat, nat), seq<byte>>

  function EntryKey(c: Config, key: Key): (nat, nat)
    requires c.buckets > 0
  {
    (BucketOf(c, key), key.tag)
  }

  /** A used slot leads to an aligned entry, which is what was inserted with its tag. */
  ghost predicate SlotOk(c: Config, k: Kvs, d: Directory, b: nat, j: nat)
    requires Shaped(c, k) && b < c.buckets && j < SLOTS
  {
    var s := k.index[b][j];
    s.inUse ==>
      && s.offset % ALIGNMENT == 0 && s.offset + c.opSize <= k.head
      && (b, s.tag) in d && k.log[s.offset..s.offset + c.opSize] == d[(b, s.tag)]
  }

  /** Used slots are at the end of the bucket, and their tags differ. */
  ghost predicate BucketOk(s: Bucket) {
    && |s| == SLOTS
    && (forall i, j :: 0 <= i < j < SLOTS && s[i].inUse ==> s[j].inUse)
    && (forall i, j :: 0 <= i < j < SLOTS && s[i].inUse && s[j].inUse ==> s[i].tag != s[j].tag)
  }

  /** Entries of different slots do not overlap. */
  ghost predicate Disjoint(c: Config, k: Kvs, b: nat, j: nat, b': nat, j': nat)
    requires Shaped(c, k) && b < c.buckets && j < SLOTS && b' < c.buckets && j' < SLOTS
  {
    var s, s' := k.index[b][j], k.index[b'][j'];
    s.inUse && s'.inUse && (b, j) != (b', j') ==>
      s.offset + c.opSize <= s'.offset || s'.offset + c.opSize <= s.offset
  }

  ghost predicate Inv(c: Config, k: Kvs, d: Directory) {
    && Shaped(c, k) && k.head % ALIGNMENT == 0 && k.head + c.opSize <= c.cap
    && (forall b {:trigger BucketOk(k.index[b])} :: 0 <= b < c.buckets ==> BucketOk(k.index[b]))
    && (forall b, j {:trigger SlotOk(c, k, d, b, j)} :: 0 <= b < c.buckets && 0 <= j < SLOTS ==> SlotOk(c, k, d, b, j))
    && (forall b, j, b', j' {:trigger Disjoint(c, k, b, j, b', j')} ::
          0 <= b < c.buckets && 0 <= j < SLOTS && 0 <= b' < c.buckets && 0 <= j' < SLOTS ==>
            Disjoint(c, k, b, j, b', j'))
    && (forall e {:trigger Indexed(c, k, e)} :: e in d ==> Indexed(c, k, e))
  }

  /** Some slot of the bucket has the tag. */
  ghost predicate Indexed(c: Config, k: Kvs, e: (nat, nat))
    requires Shaped(c, k)
  {
    e.0 < c.buckets && Taken(k.index[e.0], e.1)
  }

  lemma {:induction false} LastFreeIs(s: Bucket, n: nat)
    requires n <= |s|
    ensures var r := LastFree(s, n);
            && (r >= 0 ==> !s[r].inUse)
            && forall j :: r < j < n ==> s[j].inUse
  {
    if n > 0 && s[n - 1].inUse { LastFreeIs(s, n - 1); }
  }

  /** The bucket inserted into stays in order. */
  lemma FillBucket(s: Bucket, tag: nat, offset: nat)
    requires BucketOk(s) && !Taken(s, tag) && LastFree(s, SLOTS) >= 0
    ensures BucketOk(s[LastFree(s, SLOTS) := Slot(true, tag, offset)])
  {
    LastFreeIs(s, SLOTS);
  }

  function Added(c: Config, d: Directory, key: Key, op: seq<byte>): Directory
    requires c.buckets > 0
  {
    d[EntryKey(c, key) := op]
  }

  lemma InsertSlots(c: Config, k: Kvs, d: Directory, key: Key, op: seq<byte>, b: nat, j: nat)
    requires Inv(c, k, d) && !Aborts(c, k, key) && |op| == c.opSize && b < c.buckets && j < SLOTS
    ensures Shaped(c, Insert(c, k, key, op))
    ensures SlotOk(c, Insert(c, k, key, op), Added(c, d, key, op), b, j)
  {
    var k', t := Insert(c, k, key, op), BucketOf(c, key);
    if b == t && j == LastFree(k.index[t], SLOTS) {
      WriteThenRead(k.log, k.head, op, 0, 0);
    } else if k.index[b][j].inUse {
      assert SlotOk(c, k, d, b, j);
      WriteThenRead(k.log, k.head, op, k.index[b][j].offset, c.opSize);
      if b == t { assert k.index[t][j].tag != key.tag; }
    }
  }

  lemma InsertDisjoint(c: Config, k: Kvs, d: Directory, key: Key, op: seq<byte>, b: nat, j: nat, b': nat, j': nat)
    requires Inv(c, k, d) && !Aborts(c, k, key) && |op| == c.opSize
    requires b < c.buckets && j < SLOTS && b' < c.buckets && j' < SLOTS
    ensures Shaped(c, Insert(c, k, key, op))
    ensures Disjoint(c, Insert(c, k, key, op), b, j, b', j')
  {
    assert Disjoint(c, k, b, j, b', j');
    assert SlotOk(c, k, d, b, j) && SlotOk(c, k, d, b', j');
  }

  lemma InsertIndexed(c: Config, k: Kvs, d: Directory, key: Key, op: seq<byte>, e: (nat, nat))
    requires Inv(c, k, d) && !Aborts(c, k, key) && |op| == c.opSize && e in Added(c, d, key, op)
    ensures Shaped(c, Insert(c, k, key, op))
    ensures Indexed(c, Insert(c, k, key, op), e)
  {
    var k', t := Insert(c, k, key, op), BucketOf(c, key);
    var f := LastFree(k.index[t], SLOTS);
    LastFreeIs(k.index[t], SLOTS);
    if e == EntryKey(c, key) {
      assert k'.index[t][f].inUse && k'.index[t][f].tag == key.tag;
    } else {
      assert Indexed(c, k, e);
      var j :| 0 <= j < SLOTS && k.index[e.0][j].inUse && k.index[e.0][j].tag == e.1;
      assert k'.index[e.0][j] == k.index[e.0][j];
    }
  }

  /** An insertion that does not abort adds its entry, and keeps all the others. */
  lemma InsertKeeps(c: Config, k: Kvs, d: Directory, key: Key, op: seq<byte>)
    requires Inv(c, k, d) && !Aborts(c, k, key) && |op| == c.opSize
    ensures Inv(c, Insert(c, k, key, op), Added(c, d, key, op))
  {
    var k', d', t := Insert(c, k, key, op), Added(c, d, key, op), BucketOf(c, key);
    FillBucket(k.index[t], key.tag, k.head);
    forall b | 0 <= b < c.buckets ensures BucketOk(k'.index[b]) {
      assert BucketOk(k.index[b]);
    }
    forall b, j | 0 <= b < c.buckets && 0 <= j < SLOTS ensures SlotOk(c, k', d', b, j) {
      InsertSlots(c, k, d, key, op, b, j);
    }
    forall b, j, b', j' | 0 <= b < c.buckets && 0 <= j < SLOTS && 0 <= b' < c.buckets && 0 <= j' < SLOTS
      ensures Disjoint(c, k', b, j, b', j')
    {
      InsertDisjoint(c, k, d, key, op, b, j, b', j');
    }
    forall e | e in d' ensures Indexed(c, k', e) {
      InsertIndexed(c, k, d, key, op, e);
    }
  }

  /**
    The index agrees with the map of what was inserted: a key is found exactly when its bucket
    and tag are in the map, and what the log holds there is what was inserted with them.
  */
  lemma LocateAgrees(c: Config, k: Kvs, d: Directory, key: Key)
    requires Inv(c, k, d)
    ensures var at := Locate(c, k, key);
            && (at.Some? <==> EntryKey(c, key) in d)
            && (at.Some? ==> at.value + c.opSize <= c.cap
                             && k.log[at.value..at.value + c.opSize] == d[EntryKey(c, key)])
  {
    var b := BucketOf(c, key);
    var s := k.index[b];
    var j := FirstTagged(s, key.tag, 0);
    if EntryKey(c, key) in d { assert Indexed(c, k, EntryKey(c, key)); }
    if j != -1 {
      assert SlotOk(c, k, d, b, j);
    }
  }

  /** A tag is taken exactly when the map has it, so inserting a key twice aborts. */
  lemma TakenMeansInserted(c: Config, k: Kvs, d: Directory, key: Key)
    requires Inv(c, k, d)
    ensures Taken(k.index[BucketOf(c, key)], key.tag) <==> EntryKey(c, key) in d
  {
    var b := BucketOf(c, key);
    if Taken(k.index[b], key.tag) {
      var j :| 0 <= j < SLOTS && k.index[b][j].inUse && k.index[b][j].tag == key.tag;
      assert SlotOk(c, k, d, b, j);
    }
    if EntryKey(c, key) in d { assert Indexed(c, k, EntryKey(c, key)); }
  }

  /* --------------------------- Runs of insertions --------------------------- */

  datatype Op = Op(key: Key, bytes: seq<byte>)

  function Empty(c: Config): Kvs {
    Kvs(seq(c.buckets, b => seq(SLOTS, j => Slot(false, 0, 0))), seq(c.cap, i => 0), 0)
  }

  lemma EmptyHolds(c: Config)
    requires ConfigOk(c)
    ensures Inv(c, Empty(c), map[])
  {
    var k := Empty(c);
    forall b | 0 <= b < c.buckets ensures BucketOk(k.index[b]) {
    }
    forall b, j | 0 <= b < c.buckets && 0 <= j < SLOTS ensures SlotOk(c, k, map[], b, j) {
    }
    forall b, j, b', j' | 0 <= b < c.buckets && 0 <= j < SLOTS && 0 <= b' < c.buckets && 0 <= j' < SLOTS
      ensures Disjoint(c, k, b, j, b', j')
    {
    }
  }

  /** The index after a run of insertions, if none of them aborts. */
  function InsertAll(c: Config, ops: seq<Op>): (k: Option<Kvs>)
    requires ConfigOk(c) && forall i :: 0 <= i < |ops| ==> |ops[i].bytes| == c.opSize
    ensures k.Some? ==> Shaped(c, k.value)
  {
    if ops == [] then Some(Empty(c))
    else
      var before, op := InsertAll(c, ops[..|ops| - 1]), ops[|ops| - 1];
      if before.None? || Aborts(c, before.value, op.key) then None
      else ShapedInsert(c, before.value, op); Some(Insert(c, before.value, op.key, op.bytes))
  }

  lemma ShapedInsert(c: Config, k: Kvs, op: Op)
    requires Shaped(c, k) && !Aborts(c, k, op.key) && |op.bytes| == c.opSize
    ensures Shaped(c, Insert(c, k, op.key, op.bytes))
  {
  }

  /** What a run of insertions puts under each bucket and tag. */
  function Contents(c: Config, ops: seq<Op>): Directory
    requires ConfigOk(c)
  {
    if ops == [] then map[] else Added(c, Contents(c, ops[..|ops| - 1]), ops[|ops| - 1].key, ops[|ops| - 1].bytes)
  }

  lemma {:induction false} RunKeeps(c: Config, ops: seq<Op>)
    requires ConfigOk(c) && forall i :: 0 <= i < |ops| ==> |ops[i].bytes| == c.opSize
    requires InsertAll(c, ops).Some?
    ensures Inv(c, InsertAll(c, ops).value, Contents(c, ops))
  {
    if ops == [] {
      EmptyHolds(c);
    } else {
      var init, op := ops[..|ops| - 1], ops[|ops| - 1];
      RunKeeps(c, init);
      InsertKeeps(c, InsertAll(c, init).value, Contents(c, init), op.key, op.bytes);
    }
  }

  /** After any run without an abort, looking up an inserted key gives its own entry. */
  lemma {:induction false} InsertedAreFound(c: Config, ops: seq<Op>, i: nat)
    requires ConfigOk(c) && forall j :: 0 <= j < |ops| ==> |ops[j].bytes| == c.opSize
    requires i < |ops| && InsertAll(c, ops).Some?
    ensures var k := InsertAll(c, ops).value;
            var at := Locate(c, k, ops[i].key);
            && at.Some? && at.value % ALIGNMENT == 0 && at.value + c.opSize <= c.cap
            && k.log[at.value..at.value + c.opSize] == ops[i].bytes
  {
    RunKeeps(c, ops);
    var k := InsertAll(c, ops).value;
    ContentsHas(c, ops, i);
    LocateAgrees(c, k, Contents(c, ops), ops[i].key);
    LocateAligned(c, k, Contents(c, ops), ops[i].key);
  }

  lemma LocateAligned(c: Config, k: Kvs, d: Directory, key: Key)
    requires Inv(c, k, d) && Locate(c, k, key).Some?
    ensures Locate(c, k, key).value % ALIGNMENT == 0
  {
    var b := BucketOf(c, key);
    var s := k.index[b];
    var j := FirstTagged(s, key.tag, 0);
    assert SlotOk(c, k, d, b, j);
  }

  /** No later insertion of a run without an abort replaces an entry. */
  lemma {:induction false} ContentsHas(c: Config, ops: seq<Op>, i: nat)
    requires ConfigOk(c) && forall j :: 0 <= j < |ops| ==> |ops[j].bytes| == c.opSize
    requires i < |ops| && InsertAll(c, ops).Some?
    ensures EntryKey(c, ops[i].key) in Contents(c, ops)
    ensures Contents(c, ops)[EntryKey(c, ops[i].key)] == ops[i].bytes
  {
    var init, op := ops[..|ops| - 1], ops[|ops| - 1];
    if i < |init| {
      ContentsHas(c, init, i);
      RunKeeps(c, init);
      TakenMeansInserted(c, InsertAll(c, init).value, Contents(c, init), op.key);
    }
  }

  /** After any run without an abort, a key not inserted is reported only for one of its bucket and tag. */
  lemma {:induction false} AbsentAreNotFound(c: Config, ops: seq<Op>, key: Key)
    requires ConfigOk(c) && forall j :: 0 <= j < |ops| ==> |ops[j].bytes| == c.opSize
    requires InsertAll(c, ops).Some?
    ensures Locate(c, InsertAll(c, ops).value, key).Some?
            <==> exists i :: 0 <= i < |ops| && EntryKey(c, ops[i].key) == EntryKey(c, key)
  {
    RunKeeps(c, ops);
    LocateAgrees(c, InsertAll(c, ops).value, Contents(c, ops), key);
    ContentsAre(c, ops, EntryKey(c, key));
  }

  lemma {:induction false} ContentsAre(c: Config, ops: seq<Op>, e: (nat, nat))
    requires ConfigOk(c)
    ensures e in Contents(c, ops) <==> exists i :: 0 <= i < |ops| && EntryKey(c, ops[i].key) == e
  {
    if ops != [] {
      var init := ops[..|ops| - 1];
      ContentsAre(c, init, e);
      if e in Contents(c, init) {
        var i :| 0 <= i < |init| && EntryKey(c, init[i].key) == e;
        assert EntryKey(c, ops[i].key) == e;
      }
      if i :| 0 <= i < |ops| && EntryKey(c, ops[i].key) == e {
        if i < |init| { assert EntryKey(c, init[i].key) == e; }
      }
    }
  }

  /* --------------------------- The store --------------------------- */

  class Store {
    const buckets: nat
    const opSize: nat
    const index: array<Bucket>
    const log: array<byte>
    var head: nat
    ghost var dir: Directory

    ghost function Conf(): Config {
      Config(buckets, opSize, log.Length)
    }

    ghost function View(): Kvs
      reads this, index, log
    {
      Kvs(index[..], log[..], head)
    }

    ghost predicate Valid()
      reads this, index, log
    {
      Inv(Conf(), View(), dir)
    }

    /** `mica_init`. */
    constructor (buckets: nat, opSize: nat, cap: nat)
      requires ConfigOk(Config(buckets, opSize, cap))
      ensures Valid() && dir == map[] && Conf() == Config(buckets, opSize, cap) && fresh(index) && fresh(log)
    {
      this.buckets, this.opSize := buckets, opSize;
      index := new Bucket[buckets](b => seq(SLOTS, j => Slot(false, 0, 0)));
      log := new byte[cap](i => 0);
      head, dir := 0, map[];
      new;
      EmptyHolds(Config(buckets, opSize, cap));
      assert View() == Empty(Conf());
    }

    /** The scan of `mica_insert_one`: no slot is -1, and a taken tag is an abort. */
    method FindSlot(s: Bucket, tag: nat) returns (abort: bool, slot: int)
      requires |s| == SLOTS
      ensures abort <==> Taken(s, tag)
      ensures !abort ==> slot == LastFree(s, SLOTS)
    {
      slot := -1;
      for i := 0 to SLOTS
        invariant !Taken(s[..i], tag) && slot == LastFree(s, i)
      {
        if s[i].tag == tag || !s[i].inUse {
          slot := i;
          if s[i].inUse { return true, slot; }
        }
      }
      assert s[..SLOTS] == s;
      return false, slot;
    }

    method PasteOp(at: nat, op: seq<byte>)
      requires at + |op| <= log.Length
      modifies log
      ensures log[..] == Write(old(log[..]), at, op)
    {
      ghost var before := log[..];
      for i := 0 to |op|
        invariant log[..] == Write(before, at, op[..i])
      {
        WriteOne(before, at, op, i);
        log[at + i] := op[i];
      }
      assert op[..|op|] == op;
    }

    /** `mica_insert_one`; it answers false where the source aborts, before anything is written. */
    method InsertOne(key: Key, op: seq<byte>) returns (ok: bool)
      requires Valid() && |op| == opSize
      modifies this`head, this`dir, index, log
      ensures ok <==> !old(Aborts(Conf(), View(), key))
      ensures Valid() && dir == if ok then Added(Conf(), old(dir), key, op) else old(dir)
      ensures ok ==> EntryKey(Conf(), key) !in old(dir)
    {
      var b := Mod(key.bkt, buckets);
      var abort, slot := FindSlot(index[b], key.tag);
      if abort || slot == -1 { return false; }
      if OFFSETS - head <= opSize + 8 || log.Length - (head + opSize) <= opSize + 32 { return false; }
      InsertKeeps(Conf(), View(), dir, key, op);
      TakenMeansInserted(Conf(), View(), dir, key);
      index[b] := index[b][slot := Slot(true, key.tag, head)];
      PasteOp(head, op);
      head := head + opSize;
      dir := Added(Conf(), dir, key, op);
      return true;
    }

    /** `KVS_locate_one_kv_pair`. */
    method LocateOne(key: Key) returns (at: Option<nat>)
      requires Valid()
      ensures at.Some? <==> EntryKey(Conf(), key) in dir
      ensures at.Some? ==> at.value + opSize <= log.Length && log[at.value..at.value + opSize] == dir[EntryKey(Conf(), key)]
    {
      LocateAgrees(Conf(), View(), dir, key);
      var b := Mod(key.bkt, buckets);
      var s := index[b];
      at := None;
      for j := 0 to SLOTS
        invariant at == None && FirstTagged(s, key.tag, 0) == FirstTagged(s, key.tag, j)
      {
        if s[j].inUse && s[j].tag == key.tag {
          if head - s[j].offset < log.Length {
            var place := Mod(s[j].offset, log.Length);
            at := Some(place);
          }
          return;
        }
      }
    }
  }
}
