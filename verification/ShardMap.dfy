/** The key ranges of the shards and how the router finds the shard of a key. */
module ShardMap {
  import opened ByteStrings
  import opened Placement

  const FIRST: Byte := 97

  predicate Covers(s: Shard, key: Bytes) {
    (s.startKey == [] || !Less(key, s.startKey)) && (s.endKey == [] || Less(key, s.endKey))
  }

  /** The one-byte key at which shard `i` of `n` starts. */
  function Boundary(i: nat, n: nat): (b: Byte)
    requires i < n
  {
    BoundaryFits(i, n);
    FIRST + i * (26 / n)
  }

  lemma BoundaryFits(i: nat, n: nat)
    requires i < n
    ensures 0 <= i * (26 / n) < 26
  {
    var w := 26 / n;
    Scale(0, i, w);
    Scale(i + 1, n, w);
    Scale(i, i, w);
    assert n * w <= 26;
  }

  function NewShard(i: nat, n: nat): Shard
    requires i < n
  {
    Shard(i + 1, [Boundary(i, n)], if i + 1 < n then [Boundary(i + 1, n)] else [], 0, [])
  }

  function NewShards(n: nat): seq<Shard> {
    seq(n, i requires 0 <= i < n => NewShard(i, n))
  }

  /** The first shard that covers the key, or |shards|. */
  function FirstMatch(shards: seq<Shard>, key: Bytes): (i: nat)
    ensures i <= |shards|
    ensures i < |shards| ==> Covers(shards[i], key)
    ensures forall j :: 0 <= j < i ==> !Covers(shards[j], key)
  {
    if shards == [] then 0
    else
      var i := FirstMatch(shards[..|shards| - 1], key);
      assert forall j :: 0 <= j < |shards| - 1 ==> shards[..|shards| - 1][j] == shards[j];
      if i < |shards| - 1 then i
      else if Covers(shards[i], key) then i else |shards|
  }

  lemma LessOneByte(key: Bytes, b: Byte)
    ensures Less(key, [b]) <==> key == [] || key[0] < b
  {
    assert [b][1..] == [];
  }

  lemma CoversByByte(i: nat, n: nat, key: Bytes)
    requires i < n
    ensures Covers(NewShard(i, n), key) <==>
      key != [] && key[0] >= Boundary(i, n) && (i + 1 < n ==> key[0] < Boundary(i + 1, n))
  {
    LessOneByte(key, Boundary(i, n));
    if i + 1 < n { LessOneByte(key, Boundary(i + 1, n)); }
  }

  lemma BoundaryRises(i: nat, j: nat, n: nat)
    requires i <= j < n
    ensures Boundary(i, n) <= Boundary(j, n) && Boundary(0, n) == FIRST
  {
    Scale(i, j, 26 / n);
  }

  /** Of the shards up to `k`, one covers the key or the key lies past them all. */
  lemma {:induction false} SomeShard(k: nat, n: nat, key: Bytes) returns (i: nat)
    requires k < n && key != [] && key[0] >= FIRST && (k + 1 < n ==> key[0] < Boundary(k + 1, n))
    ensures i < n && Covers(NewShard(i, n), key)
  {
    hide Boundary, Covers;
    BoundaryRises(0, k, n);
    CoversByByte(k, n, key);
    if key[0] >= Boundary(k, n) {
      i := k;
    } else {
      i := SomeShard(k - 1, n, key);
    }
  }

  /** For every shard count: a key from "a" on lies in exactly one shard, the one the router's lookup
      returns; smaller keys lie in none. */
  lemma RangesPartition(n: nat, key: Bytes)
    requires n >= 1
    ensures var i := FirstMatch(NewShards(n), key);
      && (i < n <==> !Less(key, [FIRST]))
      && (forall j :: 0 <= j < n ==> (Covers(NewShards(n)[j], key) <==> j == i))
  {
    hide Boundary, Covers, Less;
    var i := FirstMatch(NewShards(n), key);
    LessOneByte(key, FIRST);
    if !Less(key, [FIRST]) {
      var k := SomeShard(n - 1, n, key);
      assert NewShards(n)[k] == NewShard(k, n);
    }
    forall j | 0 <= j < n ensures Covers(NewShards(n)[j], key) ==> j == i && !Less(key, [FIRST]) {
      if Covers(NewShards(n)[j], key) {
        CoversByByte(j, n, key);
        BoundaryRises(0, j, n);
        CoversByByte(i, n, key);
        if i < j { BoundaryRises(i + 1, j, n); }
      }
    }
  }

  /** The router's answer for every key from "a" on: the shard whose stretch of 26 / n first letters holds
      the key's, the last one taking the rest; shards are numbered from one. */
  lemma FirstLetterDecides(n: nat, key: Bytes)
    requires n >= 1 && !Less(key, [97])
    ensures var i := FirstMatch(NewShards(n), key);
      && i < n && NewShards(n)[i].id == i + 1
      && i * (26 / n) <= key[0] - 97 && (i + 1 < n ==> key[0] - 97 < (i + 1) * (26 / n))
  {
    hide Covers, Less;
    LessOneByte(key, 97);
    RangesPartition(n, key);
    CoversByByte(FirstMatch(NewShards(n), key), n, key);
  }

  lemma MatchIs(shards: seq<Shard>, key: Bytes, i: nat)
    requires i <= |shards| && (i < |shards| ==> Covers(shards[i], key))
    requires forall j :: 0 <= j < i ==> !Covers(shards[j], key)
    ensures FirstMatch(shards, key) == i
  {
    hide Covers;
  }

  /** Rebalancing never changes which shard a key is routed to. */
  lemma RebalanceKeepsRouting(alive: seq<NodeId>, shards: seq<Shard>, key: Bytes)
    requires alive != []
    ensures FirstMatch(Rebalanced(alive, shards), key) == FirstMatch(shards, key)
  {
    hide FirstMatch, Rebalanced, FillAll, Less;
    RebalanceKeeps(alive, shards);
    var r, i := Rebalanced(alive, shards), FirstMatch(shards, key);
    forall j | 0 <= j < |shards| ensures Covers(r[j], key) <==> Covers(shards[j], key) {
      assert Rebalances(alive, shards[j], r[j]);
    }
    FirstMatchIs(shards, key);
    MatchIs(r, key, i);
  }

  lemma FirstMatchIs(shards: seq<Shard>, key: Bytes)
    ensures var i := FirstMatch(shards, key);
      i <= |shards| && (i < |shards| ==> Covers(shards[i], key)) && forall j :: 0 <= j < i ==> !Covers(shards[j], key)
  {
  }

  /** After creating the shards and two passes with as many alive nodes, every key from "a" on is
      routed to a shard led by a node that was alive and holds a replica of it. */
  lemma EveryKeyServed(n: nat, alive: seq<NodeId>, later: seq<NodeId>, key: Bytes)
    requires n >= 1 && Roster(alive) && |later| == |alive| && 0 !in alive && !Less(key, [FIRST])
    ensures var shards := Rebalanced(later, Rebalanced(alive, NewShards(n))); var i := FirstMatch(shards, key);
      && i < |shards| && Spread(alive, shards[i].peers)
      && shards[i].leader == shards[i].peers[0] && shards[i].leader in alive
  {
    hide FirstMatch, Rebalanced, Less;
    var once := Rebalanced(alive, NewShards(n));
    RangesPartition(n, key);
    RebalanceKeepsRouting(alive, NewShards(n), key);
    RebalanceKeepsRouting(later, once, key);
    var lap, extra := BalancedPlacement(alive, NewShards(n));
    RebalanceKeeps(alive, NewShards(n));
    FullPass(later, once);
    var i := FirstMatch(once, key);
    assert Rebalances(alive, NewShards(n)[i], once[i]);
    assert Spread(alive, once[i].peers);
  }

  // ----- Router -----

  class Router {
    var direct: string
    var usePd: bool
    var shards: seq<Shard>
    var addrs: map<NodeId, string>

    constructor ()
      ensures direct == "" && !usePd && shards == [] && addrs == map[]
    {
      direct, usePd, shards, addrs := "", false, [], map[];
    }

    method SetDirectNode(addr: string)
      modifies this
      ensures direct == addr && !usePd && shards == old(shards) && addrs == old(addrs)
    {
      direct, usePd := addr, false;
    }

    method LoadShardMap(loaded: seq<Shard>)
      modifies this
      ensures shards == loaded && usePd && direct == old(direct) && addrs == old(addrs)
    {
      shards, usePd := loaded, true;
    }

    method UpdateLeader(shardId: nat, node: NodeId, addr: string)
      modifies this
      ensures addrs == old(addrs)[node := addr] && shards == old(shards) && usePd == old(usePd) && direct == old(direct)
    {
      addrs := addrs[node := addr];
    }

    method GetShardId(key: Bytes) returns (id: nat)
      ensures var i := FirstMatch(shards, key); id == if i < |shards| then shards[i].id else 0
    {
      for i := 0 to |shards|
        invariant forall j :: 0 <= j < i ==> !Covers(shards[j], key)
      {
        var afterStart := shards[i].startKey == [] || !Less(key, shards[i].startKey);
        var beforeEnd := shards[i].endKey == [] || Less(key, shards[i].endKey);
        if afterStart && beforeEnd {
          return shards[i].id;
        }
      }
      return 0;
    }

    method GetAddrForKey(key: Bytes) returns (addr: string)
      ensures addr ==
        if !usePd then direct
        else
          var i := FirstMatch(shards, key);
          if i < |shards| && shards[i].leader in addrs then addrs[shards[i].leader] else ""
    {
      if !usePd {
        return direct;
      }
      for i := 0 to |shards|
        invariant forall j :: 0 <= j < i ==> !Covers(shards[j], key)
      {
        var afterStart := shards[i].startKey == [] || !Less(key, shards[i].startKey);
        var beforeEnd := shards[i].endKey == [] || Less(key, shards[i].endKey);
        if afterStart && beforeEnd {
          if shards[i].leader in addrs {
            return addrs[shards[i].leader];
          }
          return "";
        }
      }
      return "";
    }
  }
}
