/** Which node the placement driver puts the next replica of a shard on. */
module Placement {
  import opened ByteStrings
  import opened Sequences

  type NodeId = nat

  datatype Shard = Shard(id: nat, startKey: Bytes, endKey: Bytes, leader: NodeId, peers: seq<NodeId>)

  const REPLICAS: nat := 3

  /** The alive nodes in the order the node table is walked. */
  predicate Roster(alive: seq<NodeId>) {
    alive != [] && Distinct(alive)
  }

  // ----- Loads -----

  function Times(peers: seq<NodeId>, n: NodeId): nat {
    if peers == [] then 0 else Times(peers[..|peers| - 1], n) + if peers[|peers| - 1] == n then 1 else 0
  }

  /** How many replicas of all shards are on node `n`. */
  function Load(shards: seq<Shard>, n: NodeId): nat {
    if shards == [] then 0 else Load(shards[..|shards| - 1], n) + Times(shards[|shards| - 1].peers, n)
  }

  /** The counter the scheduler keeps is a full recount of what is assigned. */
  ghost predicate Recount(alive: seq<NodeId>, counts: map<NodeId, nat>, shards: seq<Shard>) {
    forall n :: n in alive ==> n in counts && counts[n] == Load(shards, n)
  }

  lemma {:induction false} LoadConcat(a: seq<Shard>, b: seq<Shard>, n: NodeId)
    ensures Load(a + b, n) == Load(a, n) + Load(b, n)
  {
    if b == [] {
      assert a + b == a;
    } else {
      var front := b[..|b| - 1];
      assert (a + b)[..|a + b| - 1] == a + front;
      LoadConcat(a, front, n);
    }
  }

  lemma TimesSnoc(peers: seq<NodeId>, x: NodeId, n: NodeId)
    ensures Times(peers + [x], n) == Times(peers, n) + if x == n then 1 else 0
  {
    assert (peers + [x])[..|peers|] == peers;
  }

  lemma LoadOne(s: Shard, n: NodeId)
    ensures Load([s], n) == Times(s.peers, n)
  {
    assert [s][..0] == [];
  }

  // ----- Choosing a node -----

  /** The node the scan of the first `k` roster entries settles on. */
  function Best(alive: seq<NodeId>, counts: map<NodeId, nat>, peers: seq<NodeId>, k: nat): (b: NodeId)
    requires k <= |alive| && alive != [] && forall n :: n in alive ==> n in counts
    ensures b in alive
  {
    if k == 0 then alive[0]
    else
      var b := Best(alive, counts, peers, k - 1);
      var n := alive[k - 1];
      if counts[n] < counts[b] && n !in peers then n else b
  }

  /** The scan settles on the first node or a node the shard lacks, and on nothing heavier than any
      node the shard lacks. */
  lemma {:induction false} BestIsLight(alive: seq<NodeId>, counts: map<NodeId, nat>, peers: seq<NodeId>, k: nat, i: nat)
    requires i < k <= |alive| && alive != [] && forall n :: n in alive ==> n in counts
    ensures var b := Best(alive, counts, peers, k);
      && (b == alive[0] || (b !in peers && counts[b] < counts[alive[0]]))
      && (alive[i] !in peers ==> counts[b] <= counts[alive[i]])
    decreases k
  {
    if i < k - 1 {
      BestIsLight(alive, counts, peers, k - 1, i);
    } else if k > 1 {
      BestIsLight(alive, counts, peers, k - 1, 0);
    }
  }

  /** Of equally light nodes the scan settles on the first. */
  lemma {:induction false} BestIsFirst(alive: seq<NodeId>, counts: map<NodeId, nat>, peers: seq<NodeId>, k: nat)
    returns (j: nat)
    requires k <= |alive| && alive != [] && forall n :: n in alive ==> n in counts
    ensures j < |alive| && (j == 0 || j < k) && alive[j] == Best(alive, counts, peers, k)
    ensures forall i :: 0 <= i < j && alive[i] !in peers ==> counts[alive[i]] > counts[alive[j]]
  {
    j := 0;
    if k > 0 {
      j := BestIsFirst(alive, counts, peers, k - 1);
      var n := alive[k - 1];
      if counts[n] < counts[alive[j]] && n !in peers {
        forall i | 0 <= i < k - 1 && alive[i] !in peers ensures counts[alive[i]] > counts[n] {
          BestIsLight(alive, counts, peers, k - 1, i);
        }
        j := k - 1;
      }
    }
  }

  /** Exactly when a node is picked that already holds a replica of the shard. */
  lemma RepeatsExactlyWhen(alive: seq<NodeId>, counts: map<NodeId, nat>, peers: seq<NodeId>)
    requires alive != [] && forall n :: n in alive ==> n in counts
    ensures Best(alive, counts, peers, |alive|) in peers <==>
      alive[0] in peers && forall i :: 0 <= i < |alive| && alive[i] !in peers ==> counts[alive[0]] <= counts[alive[i]]
  {
    hide Best;
    BestIsLight(alive, counts, peers, |alive|, 0);
    forall i | 0 <= i < |alive|
      ensures alive[i] !in peers ==> counts[Best(alive, counts, peers, |alive|)] <= counts[alive[i]]
    {
      BestIsLight(alive, counts, peers, |alive|, i);
    }
    var b := Best(alive, counts, peers, |alive|);
    var j :| 0 <= j < |alive| && alive[j] == b;
  }

  // ----- Filling the shards -----

  predicate Wants(peers: seq<NodeId>, alive: seq<NodeId>) {
    |peers| < REPLICAS && |peers| < |alive|
  }

  predicate Counted(alive: seq<NodeId>, counts: map<NodeId, nat>) {
    alive != [] && forall n :: n in alive ==> n in counts
  }

  function Fill(alive: seq<NodeId>, counts: map<NodeId, nat>, peers: seq<NodeId>): (r: (seq<NodeId>, map<NodeId, nat>))
    requires Counted(alive, counts)
    ensures Counted(alive, r.1)
    decreases REPLICAS - |peers|
  {
    if !Wants(peers, alive) then (peers, counts)
    else
      var b := Best(alive, counts, peers, |alive|);
      Fill(alive, counts[b := counts[b] + 1], peers + [b])
  }

  function FillAll(alive: seq<NodeId>, counts: map<NodeId, nat>, shards: seq<Shard>)
    : (r: (seq<Shard>, map<NodeId, nat>))
    requires Counted(alive, counts)
    ensures Counted(alive, r.1) && |r.0| == |shards|
  {
    if shards == [] then ([], counts)
    else
      var n := |shards| - 1;
      var front := FillAll(alive, counts, shards[..n]);
      var last := Fill(alive, front.1, shards[n].peers);
      (front.0 + [shards[n].(peers := last.0)], last.1)
  }

  /** A shard without a leader is led by its first replica. */
  function Led(s: Shard): Shard {
    if s.leader == 0 && s.peers != [] then s.(leader := s.peers[0]) else s
  }

  function LedAll(shards: seq<Shard>): seq<Shard> {
    seq(|shards|, i requires 0 <= i < |shards| => Led(shards[i]))
  }

  function Counts(alive: seq<NodeId>, shards: seq<Shard>): map<NodeId, nat> {
    map n | n in alive :: Load(shards, n)
  }

  /** One rebalance pass. */
  function Rebalanced(alive: seq<NodeId>, shards: seq<Shard>): seq<Shard>
    requires alive != []
  {
    FillAll(alive, Counts(alive, shards), LedAll(shards)).0
  }

  // ----- From any assignment -----

  function Target(alive: seq<NodeId>): nat {
    if |alive| < REPLICAS then |alive| else REPLICAS
  }

  /** Filling appends alive nodes up to the target, counts each one, and touches nothing else. */
  lemma {:induction false} FillKeeps(alive: seq<NodeId>, counts: map<NodeId, nat>, peers: seq<NodeId>)
    requires Counted(alive, counts)
    ensures var r := Fill(alive, counts, peers);
      && peers <= r.0 && |r.0| == (if |peers| < Target(alive) then Target(alive) else |peers|)
      && (forall i :: |peers| <= i < |r.0| ==> r.0[i] in alive)
      && (forall n :: n in alive ==> r.1[n] + Times(peers, n) == counts[n] + Times(r.0, n))
    decreases REPLICAS - |peers|
  {
    if Wants(peers, alive) {
      var b := Best(alive, counts, peers, |alive|);
      FillKeeps(alive, counts[b := counts[b] + 1], peers + [b]);
      forall n | n in alive ensures Times(peers + [b], n) == Times(peers, n) + if b == n then 1 else 0 {
        TimesSnoc(peers, b, n);
      }
    }
  }

  /** After a pass over any assignment: every shard keeps its replicas in place, gains only alive ones, reaches the
      target, and the incremental counter is a full recount. */
  lemma {:induction false} FillAllKeeps(alive: seq<NodeId>, counts: map<NodeId, nat>, shards: seq<Shard>,
                                        rest: seq<Shard>)
    requires Counted(alive, counts) && Recount(alive, counts, shards + rest)
    ensures var r := FillAll(alive, counts, shards);
      && Recount(alive, r.1, r.0 + rest)
      && (forall i :: 0 <= i < |shards| ==> Grown(alive, shards[i], r.0[i]))
  {
    if shards != [] {
      var n := |shards| - 1;
      var front, s := shards[..n], shards[n];
      assert shards + rest == front + ([s] + rest);
      FillAllKeeps(alive, counts, front, [s] + rest);
      var f := FillAll(alive, counts, front);
      var last := Fill(alive, f.1, s.peers);
      FillKeeps(alive, f.1, s.peers);
      var s' := s.(peers := last.0);
      assert Grown(alive, s, s');
      forall x | x in alive ensures x in last.1 && last.1[x] == Load(f.0 + [s'] + rest, x) {
        SwapLoad(f.0, s, s', rest, x);
      }
    }
  }

  ghost predicate Grown(alive: seq<NodeId>, s: Shard, s': Shard) {
    && s' == s.(peers := s'.peers) && s.peers <= s'.peers
    && |s'.peers| == (if |s.peers| < Target(alive) then Target(alive) else |s.peers|)
    && (forall i :: |s.peers| <= i < |s'.peers| ==> s'.peers[i] in alive)
  }

  lemma SwapLoad(a: seq<Shard>, s: Shard, s': Shard, rest: seq<Shard>, n: NodeId)
    ensures Load(a + [s'] + rest, n) + Times(s.peers, n) == Load(a + ([s] + rest), n) + Times(s'.peers, n)
  {
    LoadConcat(a + [s'], rest, n);
    LoadConcat(a, [s'], n);
    LoadConcat(a, [s] + rest, n);
    LoadConcat([s], rest, n);
    LoadOne(s, n);
    LoadOne(s', n);
  }

  lemma {:induction false} LedLoad(shards: seq<Shard>, n: NodeId)
    ensures Load(LedAll(shards), n) == Load(shards, n)
  {
    if shards != [] {
      LedLoad(shards[..|shards| - 1], n);
      assert LedAll(shards)[..|shards| - 1] == LedAll(shards[..|shards| - 1]);
    }
  }

  /** What a pass may do to one shard: a set leader stays, an unset one becomes the first replica the
      shard had, if any; replicas stay in place and alive ones are added up to three or as many as are alive. */
  ghost predicate Rebalances(alive: seq<NodeId>, s: Shard, s': Shard) {
    && s'.id == s.id && s'.startKey == s.startKey && s'.endKey == s.endKey
    && (s.leader != 0 ==> s'.leader == s.leader)
    && (s.leader == 0 && s.peers != [] ==> s'.leader == s.peers[0])
    && (s.leader == 0 && s.peers == [] ==> s'.leader == 0)
    && s.peers <= s'.peers
    && (var m := if |alive| < 3 then |alive| else 3; |s'.peers| == if |s.peers| < m then m else |s.peers|)
    && (forall i :: |s.peers| <= i < |s'.peers| ==> s'.peers[i] in alive)
  }

  /** One pass over any assignment never drops or moves a replica, adds only alive nodes, brings every shard
      to three replicas or as many as are alive, leaves a set leader alone, names the first earlier replica
      where none was set, and its counter ends equal to a recount. */
  lemma RebalanceKeeps(alive: seq<NodeId>, shards: seq<Shard>)
    requires alive != []
    ensures var r := FillAll(alive, Counts(alive, shards), LedAll(shards));
      && r.0 == Rebalanced(alive, shards) && |r.0| == |shards|
      && Recount(alive, r.1, r.0)
      && (forall i :: 0 <= i < |shards| ==> Rebalances(alive, shards[i], r.0[i]))
  {
    hide FillAll, Rebalances;
    var led, counts := LedAll(shards), Counts(alive, shards);
    assert led + [] == led;
    forall n | n in alive ensures n in counts && counts[n] == Load(led + [], n) {
      LedLoad(shards, n);
    }
    FillAllKeeps(alive, counts, led, []);
    var r := FillAll(alive, counts, led);
    assert r.0 + [] == r.0;
    forall i | 0 <= i < |shards| ensures Rebalances(alive, shards[i], r.0[i]) {
      assert Grown(alive, led[i], r.0[i]);
      LedRebalances(alive, shards[i], r.0[i]);
    }
  }

  lemma LedRebalances(alive: seq<NodeId>, s: Shard, s': Shard)
    requires Grown(alive, Led(s), s')
    ensures Rebalances(alive, s, s')
  {
  }

  lemma {:induction false} FillAllIdle(alive: seq<NodeId>, counts: map<NodeId, nat>, shards: seq<Shard>)
    requires Counted(alive, counts) && forall i :: 0 <= i < |shards| ==> !Wants(shards[i].peers, alive)
    ensures FillAll(alive, counts, shards) == (shards, counts)
  {
    if shards != [] {
      var n := |shards| - 1;
      FillAllIdle(alive, counts, shards[..n]);
      assert shards == shards[..n] + [shards[n]];
    }
  }

  /** A pass over shards that have all their replicas only names leaders. */
  lemma FullPass(alive: seq<NodeId>, shards: seq<Shard>)
    requires alive != [] && forall i :: 0 <= i < |shards| ==> |shards[i].peers| >= Target(alive)
    ensures Rebalanced(alive, shards) == LedAll(shards)
  {
    forall i | 0 <= i < |shards| ensures !Wants(LedAll(shards)[i].peers, alive) {
    }
    FillAllIdle(alive, Counts(alive, shards), LedAll(shards));
  }

  /** While as many nodes stay alive, a third pass changes nothing; after two passes every shard
      has a leader, when no node has id zero. */
  lemma SettledAfterTwo(first: seq<NodeId>, second: seq<NodeId>, third: seq<NodeId>, shards: seq<Shard>)
    requires first != [] && |first| == |second| == |third|
    requires 0 !in first && forall i :: 0 <= i < |shards| ==> 0 !in shards[i].peers
    ensures var twice := Rebalanced(second, Rebalanced(first, shards));
      && Rebalanced(third, twice) == twice
      && |twice| == |shards| && forall i :: 0 <= i < |twice| ==> twice[i].leader != 0
  {
    hide Rebalanced;
    var once := Rebalanced(first, shards);
    RebalanceKeeps(first, shards);
    forall i | 0 <= i < |once| ensures |once[i].peers| >= Target(first) && once[i].peers[0] != 0 {
      assert Rebalances(first, shards[i], once[i]);
      if shards[i].peers != [] { assert shards[i].peers[0] in shards[i].peers; }
    }
    FullPass(second, once);
    var twice := LedAll(once);
    FullPass(third, twice);
    assert LedAll(twice) == twice;
  }

  // ----- From no replicas: round robin -----

  /** Every node has `lap` replicas, and those before position `j` one more. */
  ghost predicate Even(alive: seq<NodeId>, counts: map<NodeId, nat>, lap: nat, j: nat) {
    && j < |alive| && Counted(alive, counts)
    && (forall k :: 0 <= k < |alive| ==> counts[alive[k]] == lap + if k < j then 1 else 0)
  }

  /** Position `d` places before `j` on a ring of `m`. */
  function Back(m: nat, j: nat, d: nat): nat
    requires j < m && 1 <= d <= m
  {
    if d <= j then j - d else j + m - d
  }

  /** The shard's replicas are on the nodes just before position `j`. */
  ghost predicate Recent(alive: seq<NodeId>, peers: seq<NodeId>, j: nat) {
    && j < |alive| && |peers| <= |alive|
    && (forall i :: 0 <= i < |peers| ==> peers[i] == alive[Back(|alive|, j, |peers| - i)])
  }

  lemma NextIsNew(alive: seq<NodeId>, peers: seq<NodeId>, j: nat)
    requires Roster(alive) && Recent(alive, peers, j) && |peers| < |alive|
    ensures alive[j] !in peers
  {
    forall i | 0 <= i < |peers| ensures peers[i] != alive[j] {
      assert Back(|alive|, j, |peers| - i) != j;
    }
  }

  lemma {:induction false} BestInTurn(alive: seq<NodeId>, counts: map<NodeId, nat>, peers: seq<NodeId>, lap: nat,
                                      j: nat, k: nat)
    requires Roster(alive) && Even(alive, counts, lap, j) && k <= |alive| && alive[j] !in peers
    ensures Best(alive, counts, peers, k) == if k <= j then alive[0] else alive[j]
  {
    if k > 0 { BestInTurn(alive, counts, peers, lap, j, k - 1); }
  }

  ghost function Next(alive: seq<NodeId>, j: nat): nat { if j + 1 == |alive| then 0 else j + 1 }

  ghost function NextLap(alive: seq<NodeId>, lap: nat, j: nat): nat { if j + 1 == |alive| then lap + 1 else lap }

  lemma TurnCounted(alive: seq<NodeId>, counts: map<NodeId, nat>, lap: nat, j: nat)
    requires Roster(alive) && Even(alive, counts, lap, j)
    ensures Even(alive, counts[alive[j] := counts[alive[j]] + 1], NextLap(alive, lap, j), Next(alive, j))
  {
  }

  lemma TurnRecent(alive: seq<NodeId>, peers: seq<NodeId>, j: nat)
    requires Recent(alive, peers, j) && |peers| < |alive|
    ensures Recent(alive, peers + [alive[j]], Next(alive, j))
  {
  }

  lemma TurnTaken(alive: seq<NodeId>, counts: map<NodeId, nat>, peers: seq<NodeId>, lap: nat, j: nat)
    requires Roster(alive) && Even(alive, counts, lap, j) && Recent(alive, peers, j) && |peers| < |alive|
    ensures Best(alive, counts, peers, |alive|) == alive[j]
    ensures Even(alive, counts[alive[j] := counts[alive[j]] + 1], NextLap(alive, lap, j), Next(alive, j))
    ensures Recent(alive, peers + [alive[j]], Next(alive, j))
  {
    hide Recent, Best, Next;
    NextIsNew(alive, peers, j);
    BestInTurn(alive, counts, peers, lap, j, |alive|);
    TurnCounted(alive, counts, lap, j);
    TurnRecent(alive, peers, j);
  }

  lemma {:induction false} FillInTurn(alive: seq<NodeId>, counts: map<NodeId, nat>, peers: seq<NodeId>, lap: nat,
                                      j: nat)
    returns (lap': nat, j': nat)
    requires Roster(alive) && Even(alive, counts, lap, j) && Recent(alive, peers, j) && |peers| <= Target(alive)
    ensures var r := Fill(alive, counts, peers);
      && Even(alive, r.1, lap', j') && Recent(alive, r.0, j') && |r.0| == Target(alive)
    ensures lap' * |alive| + j' == lap * |alive| + j + Target(alive) - |peers|
    decreases REPLICAS - |peers|
  {
    hide Recent, Best;
    if Wants(peers, alive) {
      TurnTaken(alive, counts, peers, lap, j);
      var lap1 := if j + 1 == |alive| then lap + 1 else lap;
      lap', j' := FillInTurn(alive, counts[alive[j] := counts[alive[j]] + 1], peers + [alive[j]], lap1, Next(alive, j));
      Scale(lap, lap, |alive|);
    } else {
      lap', j' := lap, j;
    }
  }

  /** Exactly the target number of replicas, on distinct alive nodes. */
  ghost predicate Spread(alive: seq<NodeId>, peers: seq<NodeId>) {
    && |peers| == (if |alive| < 3 then |alive| else 3) && Distinct(peers)
    && (forall i :: 0 <= i < |peers| ==> peers[i] in alive)
  }

  lemma RecentSpread(alive: seq<NodeId>, peers: seq<NodeId>, j: nat)
    requires Roster(alive) && Recent(alive, peers, j) && |peers| == Target(alive)
    ensures Spread(alive, peers)
  {
    forall i, k | 0 <= i < k < |peers| ensures peers[i] != peers[k] {
      assert Back(|alive|, j, |peers| - i) != Back(|alive|, j, |peers| - k);
    }
  }

  lemma {:induction false} FillAllInTurn(alive: seq<NodeId>, counts: map<NodeId, nat>, shards: seq<Shard>)
    returns (lap: nat, j: nat)
    requires Roster(alive) && Even(alive, counts, 0, 0) && forall i :: 0 <= i < |shards| ==> shards[i].peers == []
    ensures var r := FillAll(alive, counts, shards);
      && Even(alive, r.1, lap, j) && forall i :: 0 <= i < |shards| ==> Spread(alive, r.0[i].peers)
    ensures lap * |alive| + j == |shards| * Target(alive)
  {
    hide Spread, Fill, Target;
    if shards == [] {
      lap, j := 0, 0;
    } else {
      var n := |shards| - 1;
      var lap0, j0 := FillAllInTurn(alive, counts, shards[..n]);
      var f := FillAll(alive, counts, shards[..n]);
      assert Recent(alive, shards[n].peers, j0);
      lap, j := FillInTurn(alive, f.1, shards[n].peers, lap0, j0);
      RecentSpread(alive, Fill(alive, f.1, shards[n].peers).0, j);
      Scale(n, n, Target(alive));
    }
  }

  lemma {:induction false} NoLoad(shards: seq<Shard>, n: NodeId)
    requires forall i :: 0 <= i < |shards| ==> shards[i].peers == []
    ensures Load(shards, n) == 0
  {
    if shards != [] { NoLoad(shards[..|shards| - 1], n); }
  }

  /** Placing replicas of shards that have none, on m alive nodes: every shard gets min(3, m) distinct
      alive nodes, and all loads are the quotient of the total by m, or one more. */
  lemma BalancedPlacement(alive: seq<NodeId>, shards: seq<Shard>) returns (lap: nat, extra: nat)
    requires Roster(alive) && forall i :: 0 <= i < |shards| ==> shards[i].peers == []
    ensures var r := Rebalanced(alive, shards);
      && |r| == |shards| && (forall i :: 0 <= i < |r| ==> Spread(alive, r[i].peers))
      && (forall k :: 0 <= k < |alive| ==> Load(r, alive[k]) == lap + if k < extra then 1 else 0)
    ensures extra < |alive| && lap * |alive| + extra == |shards| * if |alive| < 3 then |alive| else 3
  {
    hide FillAll, Spread;
    RebalanceKeeps(alive, shards);
    var counts := Counts(alive, shards);
    forall k | 0 <= k < |alive| ensures counts[alive[k]] == 0 { NoLoad(shards, alive[k]); }
    lap, extra := FillAllInTurn(alive, counts, LedAll(shards));
  }

  // ----- When a shard gets a node twice -----

  /** Some replica added to `peers` is on a node that already had one. */
  ghost predicate AddsTwice(peers: seq<NodeId>, filled: seq<NodeId>) {
    exists i {:trigger filled[i]} :: |peers| <= i < |filled| && filled[i] in filled[..i]
  }

  /** Nodes the shard lacks that are lighter than the first alive node. */
  ghost function Lighter(alive: seq<NodeId>, counts: map<NodeId, nat>, peers: seq<NodeId>): set<NodeId>
    requires Counted(alive, counts)
  {
    set n | n in alive && n !in peers && counts[n] < counts[alive[0]]
  }

  /** Other nodes the shard lacks that are no heavier than the first alive node. */
  ghost function NoHeavier(alive: seq<NodeId>, counts: map<NodeId, nat>, peers: seq<NodeId>): set<NodeId>
    requires Counted(alive, counts)
  {
    set n | n in alive && n !in peers && n != alive[0] && counts[n] <= counts[alive[0]]
  }

  /** How many replicas are missing; negative when there are too many. */
  function Missing(alive: seq<NodeId>, peers: seq<NodeId>): int {
    Target(alive) - |peers|
  }

  ghost predicate TooFewOthers(alive: seq<NodeId>, counts: map<NodeId, nat>, peers: seq<NodeId>)
    requires Counted(alive, counts)
  {
    if alive[0] in peers then |Lighter(alive, counts, peers)| < Missing(alive, peers)
    else |NoHeavier(alive, counts, peers)| < Missing(alive, peers) - 1
  }

  /** What one pick does to the nodes still to choose from. */
  lemma PickNarrows(alive: seq<NodeId>, counts: map<NodeId, nat>, peers: seq<NodeId>, b: NodeId)
    requires Counted(alive, counts) && b in alive && b !in peers
    requires b == alive[0] || counts[b] < counts[alive[0]]
    requires b == alive[0] ==> Lighter(alive, counts, peers) == {}
    ensures var counts' := counts[b := counts[b] + 1];
      && (b == alive[0] ==> Lighter(alive, counts', peers + [b]) == NoHeavier(alive, counts, peers))
      && (b != alive[0] && alive[0] in peers ==>
           Lighter(alive, counts', peers + [b]) == Lighter(alive, counts, peers) - {b})
      && (b != alive[0] && alive[0] !in peers ==>
           NoHeavier(alive, counts', peers + [b]) == NoHeavier(alive, counts, peers) - {b})
  {
  }

  lemma PickLeaves(alive: seq<NodeId>, counts: map<NodeId, nat>, peers: seq<NodeId>, b: NodeId)
    requires Counted(alive, counts) && b in alive && b !in peers && Wants(peers, alive)
    requires b == alive[0] || counts[b] < counts[alive[0]]
    requires b == alive[0] ==> Lighter(alive, counts, peers) == {}
    ensures Counted(alive, counts[b := counts[b] + 1])
    ensures TooFewOthers(alive, counts[b := counts[b] + 1], peers + [b]) <==> TooFewOthers(alive, counts, peers)
  {
    PickNarrows(alive, counts, peers, b);
    assert b != alive[0] ==> b in Lighter(alive, counts, peers) && b in NoHeavier(alive, counts, peers);
  }

  lemma BestIs(alive: seq<NodeId>, counts: map<NodeId, nat>, peers: seq<NodeId>)
    requires Counted(alive, counts)
    ensures var b := Best(alive, counts, peers, |alive|);
      && (b == alive[0] || (b !in peers && counts[b] < counts[alive[0]]))
      && (b == alive[0] ==> Lighter(alive, counts, peers) == {})
  {
    hide Best;
    var b := Best(alive, counts, peers, |alive|);
    BestIsLight(alive, counts, peers, |alive|, 0);
    forall n | n in alive && n !in peers ensures counts[b] <= counts[n] {
      var i :| 0 <= i < |alive| && alive[i] == n;
      BestIsLight(alive, counts, peers, |alive|, i);
    }
  }

  lemma AddsOnce(peers: seq<NodeId>, b: NodeId, filled: seq<NodeId>)
    requires peers + [b] <= filled
    ensures AddsTwice(peers, filled) <==> b in peers || AddsTwice(peers + [b], filled)
  {
    assert filled[|peers|] == b && filled[..|peers|] == peers;
    if AddsTwice(peers, filled) {
      var i :| |peers| <= i < |filled| && filled[i] in filled[..i];
      assert i == |peers| || i >= |peers + [b]|;
    }
  }

  /** Exactly when filling a shard puts two replicas on one node, in terms of what filling starts from:
      if the first alive node holds one, when fewer lighter nodes than missing replicas lack one;
      otherwise, when, beside it, fewer than the rest of the missing replicas lack one and are no heavier. */
  lemma {:induction false} FillRepeatsExactlyWhen(alive: seq<NodeId>, counts: map<NodeId, nat>, peers: seq<NodeId>)
    requires Counted(alive, counts)
    ensures AddsTwice(peers, Fill(alive, counts, peers).0) <==> TooFewOthers(alive, counts, peers)
    decreases REPLICAS - |peers|
  {
    hide Lighter, NoHeavier, AddsTwice;
    if Wants(peers, alive) {
      var b := Best(alive, counts, peers, |alive|);
      var counts' := counts[b := counts[b] + 1];
      BestIs(alive, counts, peers);
      FillKeeps(alive, counts', peers + [b]);
      AddsOnce(peers, b, Fill(alive, counts', peers + [b]).0);
      if b !in peers {
        FillRepeatsExactlyWhen(alive, counts', peers + [b]);
        PickLeaves(alive, counts, peers, b);
      }
    } else {
      AddsNone(peers);
    }
  }

  lemma AddsNone(peers: seq<NodeId>)
    ensures !AddsTwice(peers, peers)
  {
  }

  /** An assignment from which a pass gives one node two replicas of a shard. */
  lemma RepeatedReplica()
    ensures Rebalanced([1, 2], [Shard(1, [], [], 1, [1]), Shard(2, [], [], 2, [2])])[0].peers == [1, 1]
  {
    var alive: seq<NodeId> := [1, 2];
    var a, b := Shard(1, [], [], 1, [1]), Shard(2, [], [], 2, [2]);
    var shards := [a, b];
    assert shards[..1] == [a] && [a][..0] == [] && [1][..0] == [] && [2][..0] == [];
    assert Load([a], 1) == 1 && Load([a], 2) == 0;
    var counts := Counts(alive, shards);
    assert counts[1] == 1 && counts[2] == 1;
    RepeatsExactlyWhen(alive, counts, [1]);
    assert Best(alive, counts, [1], 2) == 1;
    assert Fill(alive, counts, [1]).0 == [1, 1];
    assert LedAll(shards) == shards;
    assert FillAll(alive, counts, [a]).0 == [a.(peers := [1, 1])];
  }
}
