/** The placement driver's object: the node table and the shards it assigns. */
module ShardManagerClass {
  import opened ByteStrings
  import opened Sequences
  import opened Placement
  import opened ShardMap

  datatype NodeState = NodeState(ip: string, port: nat, leaderCount: nat, alive: bool, lastHeartbeat: int)

  const SILENCE: int := 10

  /** Filling shard `i` after those before it. */
  lemma OneMoreFilled(alive: seq<NodeId>, start: map<NodeId, nat>, led: seq<Shard>, shards: seq<Shard>,
                      counts: map<NodeId, nat>, i: nat, peers: seq<NodeId>, counts': map<NodeId, nat>)
    requires Counted(alive, start) && Counted(alive, counts) && i < |led| == |shards|
    requires FillAll(alive, start, led[..i]) == (shards[..i], counts) && shards[i..] == led[i..]
    requires (peers, counts') == Fill(alive, counts, led[i].peers)
    ensures var after := shards[i := led[i].(peers := peers)];
      FillAll(alive, start, led[..i + 1]) == (after[..i + 1], counts') && after[i + 1..] == led[i + 1..]
  {
    hide Fill;
    var after := shards[i := led[i].(peers := peers)];
    assert led[..i + 1][..i] == led[..i];
    assert after[..i + 1] == shards[..i] + [after[i]];
    assert after[i + 1..] == shards[i..][1..] && led[i + 1..] == led[i..][1..];
  }

  class ShardManager {
    var nodes: map<NodeId, NodeState>
    var nextNodeId: nat
    var shards: seq<Shard>
    var addrs: map<NodeId, string>

    /** The next id to hand out is not in use. */
    ghost predicate Valid()
      reads this
    {
      nextNodeId >= 1 && forall id :: id in nodes ==> id < nextNodeId
    }

    /** `alive` lists the alive nodes once each, in some order of the hash table. */
    ghost predicate AliveOrder(alive: seq<NodeId>)
      reads this
    {
      Distinct(alive) && forall id :: id in alive <==> id in nodes && nodes[id].alive
    }

    constructor ()
      ensures Valid() && nodes == map[] && nextNodeId == 1 && shards == [] && addrs == map[]
    {
      nodes, nextNodeId, shards, addrs := map[], 1, [], map[];
    }

    method RegisterNode(ip: string, port: nat, now: int) returns (id: NodeId)
      requires Valid()
      modifies `nodes, `nextNodeId
      ensures Valid() && id !in old(nodes) && id >= 1
      ensures nodes == old(nodes)[id := NodeState(ip, port, 0, true, now)] && nextNodeId == id + 1
    {
      id := nextNodeId;
      nextNodeId := nextNodeId + 1;
      nodes := nodes[id := NodeState(ip, port, 0, true, now)];
    }

    method ProcessHeartbeat(id: NodeId, isLeader: bool, now: int)
      requires Valid()
      modifies `nodes
      ensures Valid() && nodes.Keys == old(nodes).Keys
      ensures forall k :: k in nodes && k != id ==> nodes[k] == old(nodes)[k]
      ensures id in nodes ==>
        nodes[id] == old(nodes)[id].(alive := true, lastHeartbeat := now, leaderCount := if isLeader then 1 else 0)
    {
      if id !in nodes {
        return;
      }
      nodes := nodes[id := nodes[id].(alive := true, lastHeartbeat := now, leaderCount := if isLeader then 1 else 0)];
    }

    /** Exactly the alive nodes silent for over ten seconds die, and are listed once each. */
    method GetDeadNodes(now: int) returns (dead: seq<NodeId>)
      requires Valid()
      modifies `nodes
      ensures Valid() && nodes.Keys == old(nodes).Keys && Distinct(dead)
      ensures forall id :: id in dead <==>
        id in nodes && old(nodes)[id].alive && now - old(nodes)[id].lastHeartbeat > 10
      ensures forall id :: id in nodes ==>
        nodes[id] == if id in dead then old(nodes)[id].(alive := false) else old(nodes)[id]
    {
      dead := [];
      var rest := nodes.Keys;
      while rest != {}
        invariant rest <= nodes.Keys == old(nodes).Keys && Distinct(dead)
        invariant forall id :: id in dead <==>
          id in nodes && id !in rest && old(nodes)[id].alive && now - old(nodes)[id].lastHeartbeat > SILENCE
        invariant forall id :: id in nodes ==>
          nodes[id] == if id in dead then old(nodes)[id].(alive := false) else old(nodes)[id]
        decreases |rest|
      {
        var id :| id in rest;
        if nodes[id].alive && now - nodes[id].lastHeartbeat > SILENCE {
          nodes := nodes[id := nodes[id].(alive := false)];
          dead := dead + [id];
        }
        rest := rest - {id};
      }
    }

    /** The listed nodes start alive and have never been heard from. */
    method SetInitialNodes(ids: seq<NodeId>, addrs: map<NodeId, string>)
      requires Valid()
      modifies `nodes, `nextNodeId, `addrs
      ensures Valid() && this.addrs == addrs && nextNodeId >= old(nextNodeId)
      ensures nodes.Keys == old(nodes).Keys + (set id | id in ids)
      ensures forall id :: id in ids ==> nodes[id].alive && nodes[id].lastHeartbeat == 0
      ensures forall id :: id in nodes && id !in ids ==> nodes[id] == old(nodes)[id]
    {
      this.addrs := addrs;
      for i := 0 to |ids|
        invariant Valid() && this.addrs == addrs && nextNodeId >= old(nextNodeId)
        invariant nodes.Keys == old(nodes).Keys + (set id | id in ids[..i])
        invariant forall id :: id in ids[..i] ==> nodes[id].alive && nodes[id].lastHeartbeat == 0
        invariant forall id :: id in nodes && id !in ids[..i] ==> nodes[id] == old(nodes)[id]
      {
        var port: nat := *;
        nodes := nodes[ids[i] := NodeState("", port, 0, true, 0)];
        if ids[i] >= nextNodeId {
          nextNodeId := ids[i] + 1;
        }
      }
    }

    method InitShards(numShards: int)
      modifies `shards
      ensures shards == NewShards(if numShards < 0 then 0 else numShards)
    {
      ghost var n := if numShards < 0 then 0 else numShards;
      shards := [];
      var i := 0;
      while i < numShards
        invariant i <= n && shards == NewShards(n)[..i]
      {
        BoundaryFits(i, n);
        var end: Bytes := [];
        if i + 1 < numShards {
          BoundaryFits(i + 1, n);
          end := [FIRST + (i + 1) * (26 / numShards)];
        }
        shards := shards + [Shard(i + 1, [FIRST + i * (26 / numShards)], end, 0, [])];
        i := i + 1;
      }
    }

    /** The first shard with the id gains the node once, and the leader if asked. */
    method AssignShard(shardId: nat, node: NodeId, isLeader: bool)
      modifies `shards
      ensures |shards| == |old(shards)|
      ensures forall i :: 0 <= i < |shards| ==>
        shards[i] == (if old(shards)[i].id == shardId && forall j :: 0 <= j < i ==> old(shards)[j].id != shardId
                      then Assigned(old(shards)[i], node, isLeader) else old(shards)[i])
    {
      for i := 0 to |shards|
        invariant shards == old(shards)
        invariant forall j :: 0 <= j < i ==> shards[j].id != shardId
      {
        if shards[i].id == shardId {
          var s := shards[i];
          if isLeader {
            s := s.(leader := node);
          }
          if node !in s.peers {
            s := s.(peers := s.peers + [node]);
          }
          shards := shards[i := s];
          return;
        }
      }
    }

    static function Assigned(s: Shard, node: NodeId, isLeader: bool): (r: Shard)
      ensures r == s.(leader := r.leader, peers := r.peers)
      ensures (isLeader ==> r.leader == node) && (!isLeader ==> r.leader == s.leader)
      ensures node in r.peers && s.peers <= r.peers && forall i :: |s.peers| <= i < |r.peers| ==> r.peers[i] == node
      ensures Distinct(s.peers) ==> Distinct(r.peers)
      ensures |r.peers| == if node in s.peers then |s.peers| else |s.peers| + 1
    {
      s.(leader := if isLeader then node else s.leader,
         peers := if node in s.peers then s.peers else s.peers + [node])
    }

    method AliveNodes() returns (alive: seq<NodeId>)
      ensures AliveOrder(alive)
    {
      alive := [];
      var rest := nodes.Keys;
      while rest != {}
        invariant rest <= nodes.Keys && Distinct(alive)
        invariant forall id :: id in alive <==> id in nodes && id !in rest && nodes[id].alive
        decreases |rest|
      {
        var id :| id in rest;
        if nodes[id].alive {
          alive := alive + [id];
        }
        rest := rest - {id};
      }
    }

    method ZeroCounts(alive: seq<NodeId>) returns (counts: map<NodeId, nat>)
      ensures counts == map n | n in alive :: 0
    {
      counts := map[];
      for i := 0 to |alive|
        invariant counts == map n | n in alive[..i] :: 0
      {
        counts := counts[alive[i] := 0];
      }
    }

    method CountReplicas(alive: seq<NodeId>) returns (counts: map<NodeId, nat>)
      ensures counts == Counts(alive, shards)
    {
      counts := ZeroCounts(alive);
      for i := 0 to |shards|
        invariant counts == Counts(alive, shards[..i])
      {
        assert shards[..i + 1][..i] == shards[..i];
        counts := CountPeers(counts, shards[i].peers);
      }
      assert shards[..|shards|] == shards;
    }

    method CountPeers(counts: map<NodeId, nat>, peers: seq<NodeId>) returns (counts': map<NodeId, nat>)
      ensures counts'.Keys == counts.Keys
      ensures forall n :: n in counts ==> counts'[n] == counts[n] + Times(peers, n)
    {
      counts' := counts;
      for k := 0 to |peers|
        invariant counts'.Keys == counts.Keys
        invariant forall n :: n in counts ==> counts'[n] == counts[n] + Times(peers[..k], n)
      {
        assert peers[..k + 1][..k] == peers[..k];
        if peers[k] in counts' {
          counts' := counts'[peers[k] := counts'[peers[k]] + 1];
        }
      }
      assert peers[..|peers|] == peers;
    }

    method Pick(alive: seq<NodeId>, counts: map<NodeId, nat>, peers: seq<NodeId>) returns (best: NodeId)
      requires Counted(alive, counts)
      ensures best == Best(alive, counts, peers, |alive|)
    {
      best := alive[0];
      var bestCount := counts[best];
      for k := 0 to |alive|
        invariant best == Best(alive, counts, peers, k) && bestCount == counts[best]
      {
        var n := alive[k];
        if counts[n] < bestCount && n !in peers {
          best, bestCount := n, counts[n];
        }
      }
    }

    method NameLeaders()
      modifies `shards
      ensures shards == LedAll(old(shards))
    {
      for i := 0 to |shards|
        invariant |shards| == |old(shards)|
        invariant forall j :: 0 <= j < i ==> shards[j] == Led(old(shards)[j])
        invariant forall j :: i <= j < |shards| ==> shards[j] == old(shards)[j]
      {
        if shards[i].leader == 0 && shards[i].peers != [] {
          shards := shards[i := shards[i].(leader := shards[i].peers[0])];
        }
      }
    }

    method FillShard(alive: seq<NodeId>, counts: map<NodeId, nat>, peers: seq<NodeId>)
      returns (peers': seq<NodeId>, counts': map<NodeId, nat>)
      requires Counted(alive, counts)
      ensures (peers', counts') == Fill(alive, counts, peers) && Counted(alive, counts')
    {
      peers', counts' := peers, counts;
      while |peers'| < REPLICAS && |peers'| < |alive|
        invariant Counted(alive, counts')
        invariant Fill(alive, counts', peers') == Fill(alive, counts, peers)
        decreases REPLICAS - |peers'|
      {
        var best := Pick(alive, counts', peers');
        peers' := peers' + [best];
        counts' := counts'[best := counts'[best] + 1];
      }
    }

    /** `order` is the order in which the table listed the alive nodes. */
    method ScheduleRebalance() returns (ghost order: seq<NodeId>)
      modifies `shards
      ensures AliveOrder(order)
      ensures shards == if order == [] then old(shards) else Rebalanced(order, old(shards))
      ensures order != [] ==> |shards| == |old(shards)|
      ensures order != [] ==> forall i :: 0 <= i < |shards| ==> Rebalances(order, old(shards)[i], shards[i])
    {
      hide Rebalances;
      var alive := AliveNodes();
      order := alive;
      if |shards| == 0 || |alive| == 0 {
        return;
      }
      RebalanceKeeps(alive, shards);
      var counts := CountReplicas(alive);
      NameLeaders();
      ghost var led, start := shards, counts;
      for i := 0 to |shards|
        invariant |shards| == |led| && Counted(alive, counts) && AliveOrder(alive)
        invariant FillAll(alive, start, led[..i]) == (shards[..i], counts)
        invariant shards[i..] == led[i..]
      {
        assert shards[i] == shards[i..][0] == led[i];
        var peers, counts' := FillShard(alive, counts, shards[i].peers);
        OneMoreFilled(alive, start, led, shards, counts, i, peers, counts');
        shards := shards[i := shards[i].(peers := peers)];
        counts := counts';
      }
      assert led[..|led|] == led && shards[..|shards|] == shards;
    }
  }
}
