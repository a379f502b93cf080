/**
 The Go hub's connection registry (server/go/hub.go): 32 maps, each key in the one its FNV-1a hash picks.
 */
module ConnRegistry {
  import opened Wire

  const SHARD_COUNT := 32
  const OFFSET_BASIS: bv32 := 2166136261
  const PRIME: bv32 := 16777619

  function Octet(b: byte): bv32 {
    b as bv32
  }

  function HashStep(h: bv32, b: bv32): bv32 {
    (h ^ b) * PRIME
  }

  /** The 32-bit FNV-1a hash, wrapping around on overflow. */
  function Hash(key: Bytes): bv32 {
    if key == [] then OFFSET_BASIS else HashStep(Hash(key[..|key| - 1]), Octet(key[|key| - 1]))
  }

  function ShardOf(key: Bytes): (i: nat)
    ensures i < SHARD_COUNT
  {
    Remainder(Hash(key))
  }

  function Remainder(h: bv32): (i: nat)
    ensures i < SHARD_COUNT
  {
    (h % 32) as nat
  }

  /** getShardIndex (hub.go:42-49). */
  method GetShardIndex(key: Bytes) returns (index: nat)
    ensures index == ShardOf(key)
  {
    hide HashStep, Remainder, Octet;
    var h := OFFSET_BASIS;
    var i := 0;
    while i < |key|
      invariant i <= |key| && h == Hash(key[..i])
    {
      h := HashStep(h, Octet(key[i]));
      i := i + 1;
      assert key[..i][..i - 1] == key[..i - 1];
    }
    assert key[..|key|] == key;
    index := Remainder(h);
  }

  // ---------------------------------------------------------------- which keys share a shard

  function Low(x: bv32): bv32 {
    x & 31
  }

  predicate SameLowBits(a: Bytes, b: Bytes) {
    |a| == |b| && forall i :: 0 <= i < |a| ==> Low(Octet(a[i])) == Low(Octet(b[i]))
  }

  lemma StepLow(h: bv32, h': bv32, b: bv32, b': bv32)
    requires Low(h) == Low(h') && Low(b) == Low(b')
    ensures Low(HashStep(h, b)) == Low(HashStep(h', b'))
  {
    assert Low(h ^ b) == Low(h' ^ b');
    MultiplyLow(h ^ b, h' ^ b');
  }

  lemma MultiplyLow(x: bv32, y: bv32)
    requires Low(x) == Low(y)
    ensures Low(x * PRIME) == Low(y * PRIME)
  {
  }

  lemma RemainderLow(h: bv32, h': bv32)
    requires Low(h) == Low(h')
    ensures Remainder(h) == Remainder(h')
  {
    assert h % 32 == Low(h) && h' % 32 == Low(h');
  }

  /**
   The shard depends on the low five bits of each byte alone: keys that differ only above them, as upper and
   lower case letters do, are never spread.
   */
  lemma {:induction false} LowBitsDecide(a: Bytes, b: Bytes)
    requires SameLowBits(a, b)
    ensures ShardOf(a) == ShardOf(b)
  {
    hide Remainder, Hash, Octet, Low;
    HashLow(a, b);
    RemainderLow(Hash(a), Hash(b));
  }

  lemma {:induction false} HashLow(a: Bytes, b: Bytes)
    requires SameLowBits(a, b)
    ensures Low(Hash(a)) == Low(Hash(b))
  {
    hide Low, HashStep, Octet;
    if a != [] {
      var n := |a| - 1;
      HashLow(a[..n], b[..n]);
      StepLow(Hash(a[..n]), Hash(b[..n]), Octet(a[n]), Octet(b[n]));
    }
  }

  /** The shard of a key by five-bit arithmetic: the offset basis and the prime are 5 and 19 modulo 32. */
  function FiveBits(key: Bytes): bv32 {
    if key == [] then 5
    else ((FiveBits(key[..|key| - 1]) ^ (key[|key| - 1] as bv32 & 31)) * 19) & 31
  }

  lemma StepFive(h: bv32, b: bv32)
    ensures Low(HashStep(h, b)) == ((Low(h) ^ Low(b)) * 19) & 31
  {
    assert Low(h ^ b) == Low(h) ^ Low(b);
    PrimeFive(h ^ b);
  }

  lemma PrimeFive(x: bv32)
    ensures Low(x * PRIME) == (Low(x) * 19) & 31
  {
  }

  lemma {:induction false} HashFive(key: Bytes)
    ensures Low(Hash(key)) == FiveBits(key)
  {
    if key == [] {
      assert Low(OFFSET_BASIS) == 5;
    } else {
      var n := |key| - 1;
      HashFive(key[..n]);
      StepFive(Hash(key[..n]), Octet(key[n]));
    }
  }

  /** Which shard that is, of 32. */
  lemma ShardExact(key: Bytes)
    ensures ShardOf(key) == FiveBits(key) as nat
  {
    HashFive(key);
    var h := Hash(key);
    assert h % 32 == Low(h);
    hide Hash, FiveBits;
  }

  // ---------------------------------------------------------------- the registry

  datatype Conn = Conn(id: Bytes, handle: nat)

  /** Each key is in the shard its hash picks and in no other, and together they hold the flat map. */
  ghost predicate Split(shards: seq<map<Bytes, Conn>>, flat: map<Bytes, Conn>) {
    && |shards| == SHARD_COUNT
    && (forall id :: id in flat ==>
        flat[id].id == id && id in shards[ShardOf(id)] && shards[ShardOf(id)][id] == flat[id])
    && forall i, id :: 0 <= i < SHARD_COUNT && id in shards[i] ==> i == ShardOf(id) && id in flat
  }

  lemma SplitAdd(shards: seq<map<Bytes, Conn>>, flat: map<Bytes, Conn>, c: Conn)
    requires Split(shards, flat)
    ensures var i := ShardOf(c.id); Split(shards[i := shards[i][c.id := c]], flat[c.id := c])
  {
    hide ShardOf;
  }

  lemma SplitRemove(shards: seq<map<Bytes, Conn>>, flat: map<Bytes, Conn>, id: Bytes)
    requires Split(shards, flat)
    ensures var i := ShardOf(id); Split(shards[i := shards[i] - {id}], flat - {id})
    ensures id in shards[ShardOf(id)] <==> id in flat
  {
    hide ShardOf;
  }

  class Registry {
    const shards: array<map<Bytes, Conn>>
    /** The one map the shards stand for. */
    ghost var flat: map<Bytes, Conn>

    ghost predicate Valid()
      reads this, shards
    {
      shards.Length == SHARD_COUNT && Split(shards[..], flat)
    }

    constructor ()
      ensures Valid() && flat == map[] && fresh(shards)
    {
      shards := new map<Bytes, Conn>[SHARD_COUNT](i => map[]);
      flat := map[];
    }

    /** getConn (hub.go:123-129). */
    method GetConn(id: Bytes) returns (c: Option<Conn>)
      requires Valid()
      ensures c == if id in flat then Some(flat[id]) else None
    {
      hide ShardOf;
      var i := GetShardIndex(id);
      assert shards[i] == shards[..][i];
      c := if id in shards[i] then Some(shards[i][id]) else None;
    }

    /** addConn (hub.go:141-145): a later connection replaces an earlier one with its ID. */
    method AddConn(c: Conn)
      requires Valid()
      modifies this, shards
      ensures Valid() && flat == old(flat)[c.id := c]
    {
      hide ShardOf, Split;
      var i := GetShardIndex(c.id);
      SplitAdd(shards[..], flat, c);
      ghost var before := shards[..];
      shards[i] := shards[i][c.id := c];
      assert shards[..] == before[i := before[i][c.id := c]];
      flat := flat[c.id := c];
    }

    /** removeConn (hub.go:164-188): whether there was one to disconnect. */
    method RemoveConn(id: Bytes) returns (disconnected: bool)
      requires Valid()
      modifies this, shards
      ensures Valid() && flat == old(flat) - {id}
      ensures disconnected <==> id in old(flat)
    {
      hide ShardOf, Split;
      var i := GetShardIndex(id);
      SplitRemove(shards[..], flat, id);
      ghost var before := shards[..];
      disconnected := id in shards[i];
      if disconnected {
        shards[i] := shards[i] - {id};
      } else {
        assert before[i] - {id} == before[i];
      }
      assert shards[..] == before[i := before[i] - {id}];
      flat := flat - {id};
    }

    /** The collecting loops of Shutdown (hub.go:374-382): every registered connection, once. */
    method Collect() returns (conns: seq<Conn>)
      requires Valid()
      ensures forall c :: multiset(conns)[c] == if c.id in flat && flat[c.id] == c then 1 else 0
      ensures |conns| == |flat|
    {
      hide ShardOf;
      assert forall i :: 0 <= i < SHARD_COUNT ==> shards[i] == shards[..][i];
      conns := [];
      ghost var seen: set<Bytes> := {};
      var i := 0;
      while i < SHARD_COUNT
        invariant 0 <= i <= SHARD_COUNT
        invariant Collected(conns, seen) && forall id :: id in seen <==> id in flat && ShardOf(id) < i
      {
        var keys := shards[i].Keys;
        while keys != {}
          invariant keys <= shards[i].Keys
          invariant Collected(conns, seen)
          invariant forall id :: id in seen <==> id in flat && (ShardOf(id) < i || (ShardOf(id) == i && id !in keys))
          decreases |keys|
        {
          var id :| id in keys;
          keys := keys - {id};
          CollectOne(conns, seen, id);
          conns := conns + [shards[i][id]];
          seen := seen + {id};
        }
        i := i + 1;
      }
      assert seen == flat.Keys;
    }

    /** Exactly the connections of `ids`, once each. */
    ghost predicate Collected(conns: seq<Conn>, ids: set<Bytes>)
      reads this
    {
      && ids <= flat.Keys
      && |conns| == |ids|
      && forall c :: multiset(conns)[c] == if c.id in ids && flat[c.id] == c then 1 else 0
    }

    lemma CollectOne(conns: seq<Conn>, ids: set<Bytes>, id: Bytes)
      requires Valid() && Collected(conns, ids) && id in flat && id !in ids
      ensures Collected(conns + [flat[id]], ids + {id})
    {
      hide ShardOf;
      assert multiset(conns + [flat[id]]) == multiset(conns) + multiset{flat[id]};
    }
  }
}
