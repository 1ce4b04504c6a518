/** A run without stale tails in which one restart loses a committed entry, because its node had
    persisted the log an even number of times, and two nodes apply different commands. */
module LostEntryRun {
  import opened ByteStrings
  import opened Engine
  import opened RaftTypes
  import opened RaftSteps
  import opened RaftCluster
  import opened ElectionSafety
  import opened RaftStore
  import opened Replica
  import opened PersistHistory
  import opened ReplicaRuns
  import opened SampleRuns
  import opened SampleCalls
  import opened FirstTerm

  const EB := Entry(2, 1, "B")

  // Node 2 stores A, node 1 commits it, and a heartbeat makes node 2 persist once more.
  const D1 := B1.(log := [SENTINEL, EA], leaderId := 1)
  const A8 := A3.(nextIndex := map[2 := 2, 3 := 1, 1 := 2], matchIndex := map[2 := 1, 3 := 0, 1 := 1])
  const A9 := A8.(commitIndex := 1, lastApplied := 1)
  // Node 2 restarts without A, so that node 3 can win term 2 with its vote and commit B.
  const E1 := C0.(term := 1, votedFor := 3, role := Candidate, votes := 1)
  const E2 := E1.(term := 2)
  const F1 := B1.(term := 2, votedFor := 3)
  const E3 := E2.(votes := 2, role := Leader, leaderId := 3,
                  nextIndex := map[1 := 1, 2 := 1, 3 := 1], matchIndex := map[1 := 0, 2 := 0, 3 := 0])
  const E4 := E3.(log := [SENTINEL, EB], nextIndex := map[1 := 1, 2 := 1, 3 := 2],
                  matchIndex := map[1 := 0, 2 := 0, 3 := 1])
  const F2 := F1.(log := [SENTINEL, EB], leaderId := 3)
  const E5 := E4.(nextIndex := map[1 := 1, 2 := 2, 3 := 2], matchIndex := map[1 := 0, 2 := 1, 3 := 1])
  const E6 := E5.(commitIndex := 1, lastApplied := 1)

  const WROTE_A := Note(true, true, [[EA]])
  const UNTRACKED := Note(true, false, [])

  const W1 := Z4.(b := D1, sent := 8, delivered := {0, 2, 5}, writes := [[], [], [EA]])
  const W2 := W1.(a := A8, delivered := {0, 2, 5, 7})
  const W3 := W2.(a := A9, doneA := [(1, "A")])
  const W4 := W3.(sent := 9, delivered := {0, 2, 3, 5, 7}, writes := [[], [], [EA], [EA]])
  const W5 := W4.(b := B1, crashFree := false)
  const W6 := W5.(c := E1, sent := 11)
  const W7 := W6.(c := E2, sent := 13)
  const W8 := W7.(b := F1, sent := 14, delivered := {0, 2, 3, 5, 7, 12}, tracked := false)
  const W9 := W8.(c := E3, sent := 16, delivered := {0, 2, 3, 5, 7, 12, 13},
                  tenures := Z4.tenures[2 := Tenure(3, [SENTINEL])])
  const W10 := W9.(c := E4, sent := 18, tenures := Z4.tenures[2 := Tenure(3, [SENTINEL, EB])])
  const W11 := W10.(b := F2, sent := 19, delivered := {0, 2, 3, 5, 7, 12, 13, 17})
  const W12 := W11.(c := E5, delivered := {0, 2, 3, 5, 7, 12, 13, 17, 18})
  const W13 := W12.(c := E6, doneC := [(1, "B")])

  // ----- A is committed -----

  lemma SnapW1()
    ensures Then(Z4, Delivery(5), D1, 1, [], WROTE_A) == W1
  {
    assert Arrives(Z4, Delivery(5)) == W1.delivered;
    assert Chronicle(Z4.tenures, D1) == W1.tenures;
  }

  lemma SnapW2()
    ensures Then(W1, Delivery(7), A8, 0, [], NOTED) == W2
  {
    assert Arrives(W1, Delivery(7)) == W2.delivered;
    assert Chronicle(W1.tenures, A8) == W2.tenures;
  }

  lemma SnapW3()
    ensures Then(W2, Clock(1, false), A9, 0, [(1, "A")], NOTED) == W3
  {
    assert Arrives(W2, Clock(1, false)) == W3.delivered;
    assert Chronicle(W2.tenures, A9) == W3.tenures;
  }

  lemma SnapW4()
    ensures Then(W3, Delivery(3), D1, 1, [], WROTE_A) == W4
  {
    assert Arrives(W3, Delivery(3)) == W4.delivered;
    assert Chronicle(W3.tenures, D1) == W4.tenures;
  }

  lemma StoresA()
    ensures var req := AppendEntries(1, 1, 0, 0, 0, [EA]);
      && HandleAppendEntries(B1, req).1.node == D1 && HandleAppendEntries(B1, req).0 == AppendReply(1, true, 1)
      && LogWrites(Handle(B1, 1, req).effects) == [[EA]] && Merge(B1.log, 0, [EA]) == [SENTINEL, EA]
  {
    var req := AppendEntries(1, 1, 0, 0, 0, [EA]);
    assert Merge([SENTINEL], 0, [EA]) == [SENTINEL, EA];
    AcceptWritesOnce(B1, 1, req);
    assert [SENTINEL, EA][1..] == [EA];
  }

  lemma TwoStores() returns (states: seq<Cluster>, actions: seq<Action>)
    ensures Reached(states, actions, W1) && Sees(states, 3, Packet(1, 2, AppendEntries(1, 1, 0, 0, 0, [])))
    ensures Sees(states, 7, Packet(2, 1, AppendReply(1, true, 1)))
  {
    hide Reached, Then, Sees, Handle, HandleAppendEntries, Merge, Packets, Applied, LogWrites;
    var ss, aa := OneAppends();
    var req := AppendEntries(1, 1, 0, 0, 0, [EA]);
    AppendCall(B1, 1, req);
    StoresA();
    assert Gives(Handle(B1, 1, req), D1, 1, []);
    states, actions := Deliver(ss, aa, Z4, 5, Packet(1, 2, req), D1, 1, [], WROTE_A);
    SnapW1();
    assert Packets(2, Handle(B1, 1, req).effects)[0] == Packet(2, 1, AppendReply(1, true, 1));
    assert Sees(states, 3, Packet(1, 2, AppendEntries(1, 1, 0, 0, 0, [])));
  }

  lemma AcksA()
    ensures ProcessAppendReply(A3, 2, AppendReply(1, true, 1)).node == A8
  {
    assert A3.nextIndex[2 := 2] == A8.nextIndex && A3.matchIndex[2 := 1] == A8.matchIndex;
  }

  lemma OneHears() returns (states: seq<Cluster>, actions: seq<Action>)
    ensures Reached(states, actions, W2) && Sees(states, 3, Packet(1, 2, AppendEntries(1, 1, 0, 0, 0, [])))
  {
    hide Reached, Then, Sees, Handle, ProcessAppendReply, Packets, Gives;
    var ss, aa := TwoStores();
    AckCall(A3, 2, AppendReply(1, true, 1));
    AcksA();
    states, actions := Deliver(ss, aa, W1, 7, Packet(2, 1, AppendReply(1, true, 1)), A8, 0, [], NOTED);
    SnapW2();
    assert Sees(states, 3, Packet(1, 2, AppendEntries(1, 1, 0, 0, 0, [])));
  }

  lemma CountsA()
    ensures AdvanceCommit(A8) == A8.(commitIndex := 1)
  {
    assert [2, 3][..1] == [2] && [2][..0] == [];
    assert Acks([2], A8.matchIndex, 1) == 1 && Acks(A8.peers, A8.matchIndex, 1) == 1;
    assert Replicated(A8, 1) && ScanCommit(A8, 1) == 1;
  }

  lemma OneCommits() returns (states: seq<Cluster>, actions: seq<Action>)
    ensures Reached(states, actions, W3) && Sees(states, 3, Packet(1, 2, AppendEntries(1, 1, 0, 0, 0, [])))
  {
    hide Reached, Then, Sees, Tick, AdvanceCommit, Packets, Gives;
    var ss, aa := OneHears();
    CountsA();
    FirstCommitCall(A8);
    states, actions := Ticks(ss, aa, W2, 1, false, A9, 0, [(1, "A")], NOTED);
    SnapW3();
    assert Sees(states, 3, Packet(1, 2, AppendEntries(1, 1, 0, 0, 0, [])));
  }

  lemma KeepsA()
    ensures var req := AppendEntries(1, 1, 0, 0, 0, []);
      && HandleAppendEntries(D1, req).1.node == D1 && HandleAppendEntries(D1, req).0 == AppendReply(1, true, 1)
      && LogWrites(Handle(D1, 1, req).effects) == [[EA]] && Merge(D1.log, 0, []) == [SENTINEL, EA]
  {
    var req := AppendEntries(1, 1, 0, 0, 0, []);
    assert Merge([SENTINEL, EA], 0, []) == [SENTINEL, EA];
    AcceptWritesOnce(D1, 1, req);
    assert [SENTINEL, EA][1..] == [EA];
  }

  lemma TwoPersistsAgain() returns (states: seq<Cluster>, actions: seq<Action>)
    ensures Reached(states, actions, W4)
  {
    hide Reached, Then, Sees, Keeps, Handle, HandleAppendEntries, Merge, Packets, Applied, LogWrites;
    var ss, aa := OneCommits();
    var req := AppendEntries(1, 1, 0, 0, 0, []);
    AppendCall(D1, 1, req);
    KeepsA();
    assert Gives(Handle(D1, 1, req), D1, 1, []);
    states, actions := Deliver(ss, aa, W3, 3, Packet(1, 2, req), D1, 1, [], WROTE_A);
    SnapW4();
  }

  // ----- Node 2 restarts -----

  const DEATH := CrashDuring(Clock(2, false), 0, [])

  /** Action `at` is the only restart, and by then node 2 has written these logs. */
  ghost predicate DiedOnce(states: seq<Cluster>, actions: seq<Action>, at: nat) {
    && at < |actions| < |states| && actions[at] == DEATH
    && (forall k :: 0 <= k < |actions| && k != at ==> actions[k].Run?)
    && LogWrites(History(IDS, states, actions, 2, at + 1)) == [[], [], [EA], [EA]]
  }

  lemma DiedBefore(states: seq<Cluster>, actions: seq<Action>, states': seq<Cluster>, actions': seq<Action>,
                   ev: Event, at: nat)
    requires DiedOnce(states, actions, at) && Grew(states, actions, states', actions', ev)
    ensures DiedOnce(states', actions', at)
  {
    hide History, LogWrites;
    HistoryPrefix(states, actions, states', actions', at + 1);
    forall k | 0 <= k < |actions'| && k != at ensures actions'[k].Run? {
      if k < |actions| { assert actions'[k] == actions[k]; }
    }
  }

  lemma TwoOnDisk(states: seq<Cluster>, actions: seq<Action>, z: Snap)
    requires Reached(states, actions, z)
    ensures Last(states).disks.Keys == IDS && Last(states).disks[2] == Disk(z.b.term, z.b.votedFor)
  {
    hide Step, LogWrites, History, AllCareful;
    RunKeepsElection(IDS, states, actions, |actions|);
  }

  /** The restart, from the disk, with no log. */
  lemma DiesAt(s: Cluster) returns (s': Cluster)
    requires At(s, W4) && s.disks.Keys == IDS && s.disks[2] == Disk(1, 1)
    ensures Step(IDS, s, DEATH, s') && At(s', W5) && s'.sent == s.sent && Part(IDS, s, DEATH, 2) == []
  {
    var o := Tick(D1, false);
    assert o == Outcome(D1, []) && o.effects[..0] == [];
    var w := Interrupted(D1, D1, Disk(1, 1), [SENTINEL] + []);
    var mid := After(s, Clock(2, false), 2, w, []);
    s' := Restarted(mid, 2, Recover(w, 1, 1, []));
    assert [SENTINEL] + [] == [SENTINEL];
    assert Recover(w, 1, 1, []) == B1;
    assert Step(IDS, s, DEATH, s');
    StepKeepsShape(IDS, s, DEATH, s');
  }

  lemma TwoDies() returns (states: seq<Cluster>, actions: seq<Action>, at: nat)
    ensures Reached(states, actions, W5) && DiedOnce(states, actions, at)
  {
    var ss, aa := TwoPersistsAgain();
    states, actions, at := DiesNow(ss, aa);
  }

  lemma DiesNow(ss: seq<Cluster>, aa: seq<Action>) returns (states: seq<Cluster>, actions: seq<Action>, at: nat)
    requires Reached(ss, aa, W4)
    ensures Reached(states, actions, W5) && DiedOnce(states, actions, at)
  {
    hide Step, Shape, Part, History, LogWrites, Interrupted, Recover, Tick, At;
    TwoOnDisk(ss, aa, W4);
    var s' := DiesAt(Last(ss));
    Extend(ss, aa, DEATH, s');
    states, actions, at := ss + [s'], aa + [DEATH], |aa|;
    assert History(IDS, ss, aa, 2, |aa|) + [] == History(IDS, ss, aa, 2, |aa|);
    assert forall k :: 0 <= k < |aa| ==> actions[k] == aa[k];
  }

  // ----- B is committed -----

  lemma SnapW6()
    ensures Then(W5, Clock(3, true), E1, 2, [], NOTED) == W6
  {
    assert Arrives(W5, Clock(3, true)) == W6.delivered;
    assert Chronicle(W5.tenures, E1) == W6.tenures;
  }

  lemma SnapW7()
    ensures Then(W6, Clock(3, true), E2, 2, [], NOTED) == W7
  {
    assert Arrives(W6, Clock(3, true)) == W7.delivered;
    assert Chronicle(W6.tenures, E2) == W7.tenures;
  }

  lemma SnapW8()
    ensures Then(W7, Delivery(12), F1, 1, [], UNTRACKED) == W8
  {
    assert Arrives(W7, Delivery(12)) == W8.delivered;
    assert Chronicle(W7.tenures, F1) == W8.tenures;
  }

  lemma SnapW9()
    ensures Then(W8, Delivery(13), E3, 2, [], UNTRACKED) == W9
  {
    assert Arrives(W8, Delivery(13)) == W9.delivered;
    assert Chronicle(W8.tenures, E3) == W9.tenures;
  }

  lemma SnapW10()
    ensures Then(W9, Proposal(3, "B"), E4, 2, [], UNTRACKED) == W10
  {
    assert Arrives(W9, Proposal(3, "B")) == W10.delivered;
    assert Chronicle(W9.tenures, E4) == W10.tenures;
  }

  lemma SnapW11()
    ensures Then(W10, Delivery(17), F2, 1, [], UNTRACKED) == W11
  {
    assert Arrives(W10, Delivery(17)) == W11.delivered;
    assert Chronicle(W10.tenures, F2) == W11.tenures;
  }

  lemma SnapW12()
    ensures Then(W11, Delivery(18), E5, 0, [], UNTRACKED) == W12
  {
    assert Arrives(W11, Delivery(18)) == W12.delivered;
    assert Chronicle(W11.tenures, E5) == W12.tenures;
  }

  lemma SnapW13()
    ensures Then(W12, Clock(3, false), E6, 0, [(1, "B")], UNTRACKED) == W13
  {
    assert Arrives(W12, Clock(3, false)) == W13.delivered;
    assert Chronicle(W12.tenures, E6) == W13.tenures;
  }

  lemma ThreeStands() returns (states: seq<Cluster>, actions: seq<Action>, at: nat)
    ensures Reached(states, actions, W6) && DiedOnce(states, actions, at)
  {
    hide Reached, DiedOnce, Grew, Then, Sees, Keeps, Tick, Packets, Gives;
    var ss, aa;
    ss, aa, at := TwoDies();
    StandCall(C0);
    states, actions := Ticks(ss, aa, W5, 3, true, E1, 2, [], NOTED);
    SnapW6();
    DiedBefore(ss, aa, states, actions, Clock(3, true), at);
  }

  lemma ThreeStandsAgain() returns (states: seq<Cluster>, actions: seq<Action>, at: nat)
    ensures Reached(states, actions, W7) && DiedOnce(states, actions, at)
    ensures Sees(states, 12, Packet(3, 2, RequestVote(2, 3, 0, 0)))
  {
    hide Reached, DiedOnce, Grew, Then, Sees, Keeps, Tick, Packets, Gives;
    var ss, aa;
    ss, aa, at := ThreeStands();
    StandCall(E1);
    states, actions := Ticks(ss, aa, W6, 3, true, E2, 2, [], NOTED);
    SnapW7();
    DiedBefore(ss, aa, states, actions, Clock(3, true), at);
    assert Packets(3, Tick(E1, true).effects)[1] == Packet(3, 2, RequestVote(2, 3, 0, 0));
  }

  lemma TwoForgot() returns (states: seq<Cluster>, actions: seq<Action>, at: nat)
    ensures Reached(states, actions, W8) && DiedOnce(states, actions, at)
    ensures Sees(states, 13, Packet(2, 3, VoteReply(2, true)))
  {
    hide Reached, DiedOnce, Grew, Then, Sees, Keeps, Handle, Packets, Gives;
    var ss, aa;
    ss, aa, at := ThreeStandsAgain();
    var req := RequestVote(2, 3, 0, 0);
    VoteCall(B1, 3, req);
    assert HandleRequestVote(B1, req).1.node == F1 && HandleRequestVote(B1, req).0 == VoteReply(2, true);
    states, actions := Deliver(ss, aa, W7, 12, Packet(3, 2, req), F1, 1, [], UNTRACKED);
    SnapW8();
    DiedBefore(ss, aa, states, actions, Delivery(12), at);
  }

  lemma WinsThree()
    ensures BecomeLeader(E2.(votes := 2)).node == E3
  {
    ResetTwo(map[], 1, 2, 1);
    ResetTwo(map[], 1, 2, 0);
  }

  lemma ThreeLeads() returns (states: seq<Cluster>, actions: seq<Action>, at: nat)
    ensures Reached(states, actions, W9) && DiedOnce(states, actions, at)
  {
    hide Reached, DiedOnce, Grew, Then, Sees, Keeps, Handle, BecomeLeader, Packets, Gives;
    var ss, aa;
    ss, aa, at := TwoForgot();
    WinCall(E2, 2);
    WinsThree();
    states, actions := Deliver(ss, aa, W8, 13, Packet(2, 3, VoteReply(2, true)), E3, 2, [], UNTRACKED);
    SnapW9();
    DiedBefore(ss, aa, states, actions, Delivery(13), at);
  }

  lemma ProposesB()
    ensures Propose(E3, "B").1.node == E4 && Get(E4.nextIndex, 2) == 1
    ensures AppendFor(E4, 2, false) == AppendEntries(2, 3, 0, 0, 0, [EB])
  {
    assert E4.log[1..] == [EB];
  }

  lemma ThreeAppends() returns (states: seq<Cluster>, actions: seq<Action>, at: nat)
    ensures Reached(states, actions, W10) && DiedOnce(states, actions, at)
    ensures Sees(states, 17, Packet(3, 2, AppendEntries(2, 3, 0, 0, 0, [EB])))
  {
    hide Reached, DiedOnce, Grew, Then, Sees, Keeps, Propose, AppendFor, Packets, Gives;
    var ss, aa;
    ss, aa, at := ThreeLeads();
    ProposeCall(E3, "B");
    ProposesB();
    states, actions := Proposes(ss, aa, W9, 3, "B", E4, 2, [], UNTRACKED);
    SnapW10();
    DiedBefore(ss, aa, states, actions, Proposal(3, "B"), at);
    assert Packets(3, Propose(E3, "B").1.effects)[1] == Packet(3, 2, AppendFor(E4, 2, false));
  }

  lemma StoresB()
    ensures var req := AppendEntries(2, 3, 0, 0, 0, [EB]);
      && HandleAppendEntries(F1, req).1.node == F2 && HandleAppendEntries(F1, req).0 == AppendReply(2, true, 1)
      && Merge(F1.log, 0, [EB]) == [SENTINEL, EB]
  {
    assert Merge([SENTINEL], 0, [EB]) == [SENTINEL, EB];
  }

  lemma TwoStoresB() returns (states: seq<Cluster>, actions: seq<Action>, at: nat)
    ensures Reached(states, actions, W11) && DiedOnce(states, actions, at)
    ensures Sees(states, 18, Packet(2, 3, AppendReply(2, true, 1)))
  {
    hide Reached, DiedOnce, Grew, Then, Sees, Keeps, Handle, HandleAppendEntries, Merge, Packets, Applied;
    var ss, aa;
    ss, aa, at := ThreeAppends();
    var req := AppendEntries(2, 3, 0, 0, 0, [EB]);
    AppendCall(F1, 3, req);
    StoresB();
    assert Gives(Handle(F1, 3, req), F2, 1, []);
    states, actions := Deliver(ss, aa, W10, 17, Packet(3, 2, req), F2, 1, [], UNTRACKED);
    SnapW11();
    DiedBefore(ss, aa, states, actions, Delivery(17), at);
    assert Packets(2, Handle(F1, 3, req).effects)[0] == Packet(2, 3, AppendReply(2, true, 1));
  }

  lemma AcksB()
    ensures ProcessAppendReply(E4, 2, AppendReply(2, true, 1)).node == E5
  {
    assert E4.nextIndex[2 := 2] == E5.nextIndex && E4.matchIndex[2 := 1] == E5.matchIndex;
  }

  lemma ThreeHears() returns (states: seq<Cluster>, actions: seq<Action>, at: nat)
    ensures Reached(states, actions, W12) && DiedOnce(states, actions, at)
  {
    hide Reached, DiedOnce, Grew, Then, Sees, Keeps, Handle, ProcessAppendReply, Packets, Gives;
    var ss, aa;
    ss, aa, at := TwoStoresB();
    AckCall(E4, 2, AppendReply(2, true, 1));
    AcksB();
    states, actions := Deliver(ss, aa, W11, 18, Packet(2, 3, AppendReply(2, true, 1)), E5, 0, [], UNTRACKED);
    SnapW12();
    DiedBefore(ss, aa, states, actions, Delivery(18), at);
  }

  lemma CountsB()
    ensures AdvanceCommit(E5) == E5.(commitIndex := 1)
  {
    assert [1, 2][..1] == [1] && [1][..0] == [];
    assert Acks([1], E5.matchIndex, 1) == 0 && Acks(E5.peers, E5.matchIndex, 1) == 1;
    assert Replicated(E5, 1) && ScanCommit(E5, 1) == 1;
  }

  lemma ThreeCommits() returns (states: seq<Cluster>, actions: seq<Action>, at: nat)
    ensures Reached(states, actions, W13) && DiedOnce(states, actions, at)
  {
    hide Reached, DiedOnce, Grew, Then, Sees, Keeps, Tick, AdvanceCommit, Packets, Gives;
    var ss, aa;
    ss, aa, at := ThreeHears();
    CountsB();
    FirstCommitCall(E5);
    states, actions := Ticks(ss, aa, W12, 3, false, E6, 0, [(1, "B")], UNTRACKED);
    SnapW13();
    DiedBefore(ss, aa, states, actions, Clock(3, false), at);
  }

  // ----- The engine forgets -----

  lemma {:induction false} LastWrite(es: seq<Effect>)
    ensures LogWrites(es) != [] ==> StoredLog([], es) == LogWrites(es)[|LogWrites(es)| - 1]
  {
    if es != [] { LastWrite(es[..|es| - 1]); }
  }

  lemma EvenStreak()
    ensures Streak([[], [], [EA], [EA]], 1) == 2
  {
    StreakStep([[], []], [EA], 1);
    StreakStep([[], [], [EA]], [EA], 1);
    assert [[], []] + [[EA]] == [[], [], [EA]] && [[], [], [EA]] + [[EA]] == [[], [], [EA], [EA]];
    assert [EA][0].index == 1;
    assert Streak([[], []], 1) == 0;
  }

  lemma OneByte()
    ensures Storable([]) && Storable([EA])
  {
    assert 1 < 255 * Pow256(7);
  }

  /** Whatever the serializer and the clients do, the engine of node 2 holds no entry when it restarts. */
  lemma EngineForgets(c: Serializer, parse: Parser, db: Store, h: seq<Effect>)
    requires Lossless(c) && ClientOnly(parse) && LogRegion(db) == {} && LogWrites(h) == [[], [], [EA], [EA]]
    ensures StoredEntries(c, EffectedAll(c, parse, db, h)) == []
  {
    hide LogWrites, Lossless, ClientOnly, StoredEntries, EffectedAll, Streak, Storable, StoredLog;
    OneByte();
    EntriesAfterHistory(c, parse, db, h);
    LastWrite(h);
    EvenStreak();
    var found := StoredEntries(c, EffectedAll(c, parse, db, h));
    assert forall e :: e in [EA] ==> e == EA && e.index == 1;
    NoMembers(found);
  }
}
