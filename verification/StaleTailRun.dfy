/** Node 1 leads the first term of every sample run, with the vote of node 2. */
module FirstTerm {
  import opened RaftTypes
  import opened RaftSteps
  import opened RaftCluster
  import opened PersistHistory
  import opened SampleRuns
  import opened SampleCalls

  const A0 := Fresh(1, [2, 3])
  const A1 := A0.(term := 1, votedFor := 1, role := Candidate, votes := 1)
  const A2 := A1.(votes := 2, role := Leader, leaderId := 1,
                  nextIndex := map[2 := 1, 3 := 1, 1 := 1], matchIndex := map[2 := 0, 3 := 0, 1 := 0])
  const B0 := Fresh(2, [1, 3])
  const B1 := B0.(term := 1, votedFor := 1)
  const C0 := Fresh(3, [1, 2])

  /** Node 1 appends A. */
  const EA := Entry(1, 1, "A")
  const A3 := A2.(log := [SENTINEL, EA], nextIndex := map[2 := 1, 3 := 1, 1 := 2],
                  matchIndex := map[2 := 0, 3 := 0, 1 := 1])

  const NOTED := Note(true, true, [])

  const Z0 := Snap(A0, B0, C0, 0, {}, [], [], [], map[], true, true, true, [])
  const Z1 := Z0.(a := A1, sent := 2)
  const Z2 := Z1.(b := B1, sent := 3, delivered := {0}, writes := [[], []])
  const Z3 := Z2.(a := A2, sent := 5, delivered := {0, 2}, tenures := map[1 := Tenure(1, [SENTINEL])])
  const Z4 := Z3.(a := A3, sent := 7, tenures := map[1 := Tenure(1, [SENTINEL, EA])])

  lemma Start() returns (states: seq<Cluster>, actions: seq<Action>)
    ensures Reached(states, actions, Z0)
  {
    var s := Cluster(map[1 := A0, 2 := B0, 3 := C0], map[1 := Disk(0, 0), 2 := Disk(0, 0), 3 := Disk(0, 0)], [], {},
                     map[1 := [], 2 := [], 3 := []], map[]);
    assert s.nodes.Keys == IDS && s.disks.Keys == IDS && s.applied.Keys == IDS;
    assert Member(IDS, 1, A0) && Member(IDS, 2, B0) && Member(IDS, 3, C0);
    states, actions := [s], [];
  }

  lemma Stands() returns (states: seq<Cluster>, actions: seq<Action>)
    ensures Reached(states, actions, Z1) && Sees(states, 0, Packet(1, 2, RequestVote(1, 1, 0, 0)))
  {
    hide Reached, Sees, Keeps, Tick, Packets, Gives;
    var ss, aa := Start();
    StandCall(A0);
    states, actions := Ticks(ss, aa, Z0, 1, true, A1, 2, [], NOTED);
    assert Then(Z0, Clock(1, true), A1, 2, [], NOTED) == Z1;
    assert Packets(1, Tick(A0, true).effects)[0] == Packet(1, 2, RequestVote(1, 1, 0, 0));
  }

  lemma TwoVotes() returns (states: seq<Cluster>, actions: seq<Action>)
    ensures Reached(states, actions, Z2) && Sees(states, 2, Packet(2, 1, VoteReply(1, true)))
  {
    hide Reached, Sees, Keeps, Handle, Packets, Gives, LogWrites;
    var ss, aa := Stands();
    var req := RequestVote(1, 1, 0, 0);
    VoteCall(B0, 1, req);
    GrantWrites(B0, 1, req);
    assert B0.log[1..] == [];
    assert HandleRequestVote(B0, req).1.node == B1 && HandleRequestVote(B0, req).0 == VoteReply(1, true);
    states, actions := Deliver(ss, aa, Z1, 0, Packet(1, 2, req), B1, 1, [], Note(true, true, [[], []]));
    assert Then(Z1, Delivery(0), B1, 1, [], Note(true, true, [[], []])) == Z2;
  }

  lemma OneLeads() returns (states: seq<Cluster>, actions: seq<Action>)
    ensures Reached(states, actions, Z3) && Sees(states, 3, Packet(1, 2, AppendEntries(1, 1, 0, 0, 0, [])))
  {
    hide Reached, Sees, Keeps, Handle, Packets, Gives;
    var ss, aa := TwoVotes();
    WinCall(A1, 2);
    ResetTwo(map[], 2, 3, 1);
    ResetTwo(map[], 2, 3, 0);
    states, actions := Deliver(ss, aa, Z2, 2, Packet(2, 1, VoteReply(1, true)), A2, 2, [], NOTED);
    assert Then(Z2, Delivery(2), A2, 2, [], NOTED) == Z3;
    assert Packets(1, Handle(A1, 2, VoteReply(1, true)).effects)[0] == Packet(1, 2, AppendFor(A2, 2, true));
  }

  lemma OneAppends() returns (states: seq<Cluster>, actions: seq<Action>)
    ensures Reached(states, actions, Z4) && Sees(states, 3, Packet(1, 2, AppendEntries(1, 1, 0, 0, 0, [])))
    ensures Sees(states, 5, Packet(1, 2, AppendEntries(1, 1, 0, 0, 0, [EA])))
  {
    hide Reached, Sees, Propose, AppendFor, Packets, Gives;
    var ss, aa := OneLeads();
    ProposeCall(A2, "A");
    ProposesA();
    states, actions := Proposes(ss, aa, Z3, 1, "A", A3, 2, [], NOTED);
    assert Then(Z3, Proposal(1, "A"), A3, 2, [], NOTED) == Z4;
    assert Packets(1, Propose(A2, "A").1.effects)[0] == Packet(1, 2, AppendFor(A3, 2, false));
    assert Sees(states, 3, Packet(1, 2, AppendEntries(1, 1, 0, 0, 0, [])));
  }

  lemma ProposesA()
    ensures Propose(A2, "A").1.node == A3 && Get(A3.nextIndex, 2) == 1
    ensures AppendFor(A3, 2, false) == AppendEntries(1, 1, 0, 0, 0, [EA])
  {
    assert A3.log[1..] == [EA];
  }
}

/** Crash-free runs in which a stale tail is committed, or reported as acknowledged. */
module StaleTailRun {
  import opened RaftTypes
  import opened RaftSteps
  import opened RaftCluster
  import opened SampleRuns
  import opened SampleCalls
  import opened FirstTerm

  const EB := Entry(2, 1, "B")

  // Nobody receives A. Node 2 wins term 2 with the vote of node 3.
  const B2 := B1.(term := 2, votedFor := 2, role := Candidate, votes := 1)
  const B3 := B2.(votes := 2, role := Leader, leaderId := 2,
                  nextIndex := map[1 := 1, 3 := 1, 2 := 1], matchIndex := map[1 := 0, 3 := 0, 2 := 0])
  const C1 := C0.(term := 2, votedFor := 2)

  const Y1 := Z4.(b := B2, sent := 9, careful := false, tracked := false)
  const Y2 := Y1.(c := C1, sent := 10, delivered := {0, 2, 8})
  const Y3 := Y2.(b := B3, sent := 12, delivered := {0, 2, 8, 9}, tenures := Z4.tenures[2 := Tenure(2, [SENTINEL])])

  // ----- The snapshots follow from each other -----

  lemma SnapY1()
    ensures Then(Z4, Clock(2, true), B2, 2, [], UNNOTED) == Y1
  {
    assert Arrives(Z4, Clock(2, true)) == Y1.delivered;
    assert Chronicle(Z4.tenures, B2) == Y1.tenures;
  }

  lemma SnapY2()
    ensures Then(Y1, Delivery(8), C1, 1, [], UNNOTED) == Y2
  {
    assert Arrives(Y1, Delivery(8)) == Y2.delivered;
    assert Chronicle(Y1.tenures, C1) == Y2.tenures;
  }

  lemma SnapY3()
    ensures Then(Y2, Delivery(9), B3, 2, [], UNNOTED) == Y3
  {
    assert Arrives(Y2, Delivery(9)) == Y3.delivered;
    assert Chronicle(Y2.tenures, B3) == Y3.tenures;
  }

  lemma SnapY4()
    ensures Then(Y3, Proposal(2, "B"), B4, 2, [], UNNOTED) == Y4
  {
    assert Arrives(Y3, Proposal(2, "B")) == Y4.delivered;
    assert Chronicle(Y3.tenures, B4) == Y4.tenures;
  }

  lemma SnapY5()
    ensures Then(Y4, Delivery(13), C2, 1, [], UNNOTED) == Y5
  {
    assert Arrives(Y4, Delivery(13)) == Y5.delivered;
    assert Chronicle(Y4.tenures, C2) == Y5.tenures;
  }

  lemma SnapY6()
    ensures Then(Y5, Delivery(14), B5, 0, [], UNNOTED) == Y6
  {
    assert Arrives(Y5, Delivery(14)) == Y6.delivered;
    assert Chronicle(Y5.tenures, B5) == Y6.tenures;
  }

  lemma SnapY7()
    ensures Then(Y6, Clock(2, false), B6, 0, [(1, "B")], UNNOTED) == Y7
  {
    assert Arrives(Y6, Clock(2, false)) == Y7.delivered;
    assert Chronicle(Y6.tenures, B6) == Y7.tenures;
  }

  lemma SnapY8()
    ensures Then(Y7, Clock(2, true), B6, 2, [], UNNOTED) == Y8
  {
    assert Arrives(Y7, Clock(2, true)) == Y8.delivered;
    assert Chronicle(Y7.tenures, B6) == Y8.tenures;
  }

  lemma SnapY9()
    ensures Then(Y8, Delivery(15), A4, 1, [(1, "A")], UNNOTED) == Y9
  {
    assert Arrives(Y8, Delivery(15)) == Y9.delivered;
    assert Chronicle(Y8.tenures, A4) == Y9.tenures;
  }

  lemma SnapX1()
    ensures Then(Y3, Delivery(10), A5, 1, [], UNNOTED) == X1
  {
    assert Arrives(Y3, Delivery(10)) == X1.delivered;
    assert Chronicle(Y3.tenures, A5) == X1.tenures;
  }

  lemma SnapX2()
    ensures Then(X1, Proposal(2, "B"), B4, 2, [], UNNOTED) == X2
  {
    assert Arrives(X1, Proposal(2, "B")) == X2.delivered;
    assert Chronicle(X1.tenures, B4) == X2.tenures;
  }

  lemma SnapX3()
    ensures Then(X2, Delivery(12), B7, 0, [], UNNOTED) == X3
  {
    assert Arrives(X2, Delivery(12)) == X3.delivered;
    assert Chronicle(X2.tenures, B7) == X3.tenures;
  }

  lemma SnapX4()
    ensures Then(X3, Clock(2, false), B8, 0, [(1, "B")], UNNOTED) == X4
  {
    assert Arrives(X3, Clock(2, false)) == X4.delivered;
    assert Chronicle(X3.tenures, B8) == X4.tenures;
  }

  lemma SnapX5()
    ensures Then(X4, Clock(1, true), A6, 2, [], UNNOTED) == X5
  {
    assert Arrives(X4, Clock(1, true)) == X5.delivered;
    assert Chronicle(X4.tenures, A6) == X5.tenures;
  }

  lemma SnapX6()
    ensures Then(X5, Delivery(16), C3, 1, [], UNNOTED) == X6
  {
    assert Arrives(X5, Delivery(16)) == X6.delivered;
    assert Chronicle(X5.tenures, C3) == X6.tenures;
  }

  lemma SnapX7()
    ensures Then(X6, Delivery(17), A7, 2, [], UNNOTED) == X7
  {
    assert Arrives(X6, Delivery(17)) == X7.delivered;
    assert Chronicle(X6.tenures, A7) == X7.tenures;
  }

  // ----- Two leaders -----

  lemma TwoStands() returns (states: seq<Cluster>, actions: seq<Action>)
    ensures Reached(states, actions, Y1) && Sees(states, 8, Packet(2, 3, RequestVote(2, 2, 0, 0)))
  {
    hide Reached, Then, Sees, Keeps, Tick, Packets, Gives;
    var ss, aa := OneAppends();
    StandCall(B1);
    states, actions := Ticks(ss, aa, Z4, 2, true, B2, 2, [], UNNOTED);
    SnapY1();
    assert Packets(2, Tick(B1, true).effects)[1] == Packet(2, 3, RequestVote(2, 2, 0, 0));
  }

  lemma ThreeVotes() returns (states: seq<Cluster>, actions: seq<Action>)
    ensures Reached(states, actions, Y2) && Sees(states, 9, Packet(3, 2, VoteReply(2, true)))
  {
    hide Reached, Then, Sees, Keeps, Handle, Packets, Gives;
    var ss, aa := TwoStands();
    var req := RequestVote(2, 2, 0, 0);
    VoteCall(C0, 2, req);
    assert HandleRequestVote(C0, req).1.node == C1 && HandleRequestVote(C0, req).0 == VoteReply(2, true);
    states, actions := Deliver(ss, aa, Y1, 8, Packet(2, 3, req), C1, 1, [], UNNOTED);
    SnapY2();
  }

  lemma WinsTwo()
    ensures BecomeLeader(B2.(votes := 2)).node == B3
  {
    ResetTwo(map[], 1, 3, 1);
    ResetTwo(map[], 1, 3, 0);
  }

  lemma TwoLeads() returns (states: seq<Cluster>, actions: seq<Action>)
    ensures Reached(states, actions, Y3) && Sees(states, 10, Packet(2, 1, AppendEntries(2, 2, 0, 0, 0, [])))
  {
    hide Reached, Then, Sees, Keeps, Handle, BecomeLeader, Packets, Gives;
    var ss, aa := ThreeVotes();
    WinCall(B2, 3);
    WinsTwo();
    states, actions := Deliver(ss, aa, Y2, 9, Packet(3, 2, VoteReply(2, true)), B3, 2, [], UNNOTED);
    SnapY3();
    assert Packets(2, Handle(B2, 3, VoteReply(2, true)).effects)[0] == Packet(2, 1, AppendFor(B3, 1, true));
  }

  // ----- A heartbeat commits what it never verified -----

  // Node 2 commits B with node 3; node 1, still holding A, hears of the commit.
  const B4 := B3.(log := [SENTINEL, EB], nextIndex := map[1 := 1, 3 := 1, 2 := 2],
                  matchIndex := map[1 := 0, 3 := 0, 2 := 1])
  const B5 := B4.(nextIndex := map[1 := 1, 3 := 2, 2 := 2], matchIndex := map[1 := 0, 3 := 1, 2 := 1])
  const B6 := B5.(commitIndex := 1, lastApplied := 1)
  const C2 := C1.(log := [SENTINEL, EB], leaderId := 2)
  const A4 := A3.(term := 2, votedFor := 0, role := Follower, leaderId := 2, commitIndex := 1, lastApplied := 1)

  const Y4 := Y3.(b := B4, sent := 14, tenures := Z4.tenures[2 := Tenure(2, [SENTINEL, EB])])
  const Y5 := Y4.(c := C2, sent := 15, delivered := {0, 2, 8, 9, 13})
  const Y6 := Y5.(b := B5, delivered := {0, 2, 8, 9, 13, 14})
  const Y7 := Y6.(b := B6, doneB := [(1, "B")])
  const Y8 := Y7.(sent := 17)
  const Y9 := Y8.(a := A4, sent := 18, delivered := {0, 2, 8, 9, 13, 14, 15}, doneA := [(1, "A")])

  lemma ProposesB()
    ensures Propose(B3, "B").1.node == B4 && Get(B4.nextIndex, 3) == 1 && Get(B4.nextIndex, 1) == 1
    ensures AppendFor(B4, 3, false) == AppendEntries(2, 2, 0, 0, 0, [EB])
  {
    assert B4.log[1..] == [EB];
  }

  lemma TwoAppends() returns (states: seq<Cluster>, actions: seq<Action>)
    ensures Reached(states, actions, Y4) && Sees(states, 13, Packet(2, 3, AppendEntries(2, 2, 0, 0, 0, [EB])))
  {
    hide Reached, Then, Sees, Keeps, Propose, AppendFor, Packets, Gives;
    var ss, aa := TwoLeads();
    ProposeCall(B3, "B");
    ProposesB();
    states, actions := Proposes(ss, aa, Y3, 2, "B", B4, 2, [], UNNOTED);
    SnapY4();
    assert Packets(2, Propose(B3, "B").1.effects)[1] == Packet(2, 3, AppendFor(B4, 3, false));
  }

  lemma StoresB()
    ensures var req := AppendEntries(2, 2, 0, 0, 0, [EB]);
      HandleAppendEntries(C1, req).1.node == C2 && HandleAppendEntries(C1, req).0 == AppendReply(2, true, 1)
  {
    assert Merge([SENTINEL], 0, [EB]) == [SENTINEL, EB];
  }

  lemma ThreeStores() returns (states: seq<Cluster>, actions: seq<Action>)
    ensures Reached(states, actions, Y5) && Sees(states, 14, Packet(3, 2, AppendReply(2, true, 1)))
  {
    hide Reached, Then, Sees, Keeps, Handle, HandleAppendEntries, Packets, Applied;
    var ss, aa := TwoAppends();
    var req := AppendEntries(2, 2, 0, 0, 0, [EB]);
    AppendCall(C1, 2, req);
    StoresB();
    assert Gives(Handle(C1, 2, req), C2, 1, []);
    states, actions := Deliver(ss, aa, Y4, 13, Packet(2, 3, req), C2, 1, [], UNNOTED);
    SnapY5();
    assert Packets(3, Handle(C1, 2, req).effects)[0] == Packet(3, 2, AppendReply(2, true, 1));
  }

  lemma AcksB()
    ensures ProcessAppendReply(B4, 3, AppendReply(2, true, 1)).node == B5
    ensures ProcessAppendReply(B4, 1, AppendReply(2, true, 1)).node == B7
  {
    assert B4.nextIndex[3 := 2] == B5.nextIndex && B4.matchIndex[3 := 1] == B5.matchIndex;
    assert B4.nextIndex[1 := 2] == B7.nextIndex && B4.matchIndex[1 := 1] == B7.matchIndex;
  }

  lemma TwoHears() returns (states: seq<Cluster>, actions: seq<Action>)
    ensures Reached(states, actions, Y6)
  {
    hide Reached, Then, Sees, Keeps, Handle, ProcessAppendReply, Packets, Gives;
    var ss, aa := ThreeStores();
    AckCall(B4, 3, AppendReply(2, true, 1));
    AcksB();
    states, actions := Deliver(ss, aa, Y5, 14, Packet(3, 2, AppendReply(2, true, 1)), B5, 0, [], UNNOTED);
    SnapY6();
  }

  lemma CountsB()
    ensures AdvanceCommit(B5) == B5.(commitIndex := 1) && AdvanceCommit(B6) == B6
  {
    assert [1, 3][..1] == [1] && [1][..0] == [];
    assert Acks([1], B5.matchIndex, 1) == 0 && Acks(B5.peers, B5.matchIndex, 1) == 1;
    assert Replicated(B5, 1) && ScanCommit(B5, 1) == 1;
  }

  lemma TwoCommits() returns (states: seq<Cluster>, actions: seq<Action>)
    ensures Reached(states, actions, Y7)
  {
    hide Reached, Then, Sees, Keeps, Tick, AdvanceCommit, Packets, Gives;
    var ss, aa := TwoHears();
    CountsB();
    FirstCommitCall(B5);
    states, actions := Ticks(ss, aa, Y6, 2, false, B6, 0, [(1, "B")], UNNOTED);
    SnapY7();
  }

  lemma BeatsB()
    ensures Gives(Tick(B6, true), B6, 2, [])
    ensures Packets(2, Tick(B6, true).effects)[0] == Packet(2, 1, AppendEntries(2, 2, 0, 0, 1, []))
  {
    CountsB();
    BroadcastReads(2, B6, true);
    assert Tick(B6, true).effects == Broadcast(B6, true) + [] == Broadcast(B6, true);
  }

  lemma TwoBeats() returns (states: seq<Cluster>, actions: seq<Action>)
    ensures Reached(states, actions, Y8) && Sees(states, 15, Packet(2, 1, AppendEntries(2, 2, 0, 0, 1, [])))
  {
    hide Reached, Then, Sees, Keeps, Tick, Packets, Gives;
    var ss, aa := TwoCommits();
    BeatsB();
    states, actions := Ticks(ss, aa, Y7, 2, true, B6, 2, [], UNNOTED);
    SnapY8();
  }

  lemma CommitsA()
    ensures var req := AppendEntries(2, 2, 0, 0, 1, []); HandleAppendEntries(A3, req).1.node == A4
  {
    assert Merge([SENTINEL, EA], 0, []) == [SENTINEL, EA];
  }

  lemma OneCommits() returns (states: seq<Cluster>, actions: seq<Action>)
    ensures Reached(states, actions, Y9)
  {
    hide Reached, Then, Sees, Keeps, Handle, HandleAppendEntries, Packets, Applied;
    var ss, aa := TwoBeats();
    var req := AppendEntries(2, 2, 0, 0, 1, []);
    AppendCall(A3, 2, req);
    CommitsA();
    assert Gives(Handle(A3, 2, req), A4, 1, [(1, "A")]);
    states, actions := Deliver(ss, aa, Y8, 15, Packet(2, 1, req), A4, 1, [(1, "A")], UNNOTED);
    SnapY9();
  }

  // ----- A heartbeat is answered for more than it verified -----

  // Node 1, still holding A, answers the first heartbeat of term 2 with index 1.
  const A5 := A3.(term := 2, votedFor := 0, role := Follower, leaderId := 2)
  // Node 2 takes that for B, commits it alone, and node 1 wins term 3 with the vote of node 3.
  const B7 := B4.(nextIndex := map[1 := 2, 3 := 1, 2 := 2], matchIndex := map[1 := 1, 3 := 0, 2 := 1])
  const B8 := B7.(commitIndex := 1, lastApplied := 1)
  const A6 := A5.(term := 3, votedFor := 1, role := Candidate, leaderId := 0, votes := 1)
  const C3 := C1.(term := 3, votedFor := 1)
  const A7 := A6.(votes := 2, role := Leader, leaderId := 1,
                  nextIndex := map[2 := 2, 3 := 2, 1 := 2], matchIndex := map[2 := 0, 3 := 0, 1 := 1])

  const X1 := Y3.(a := A5, sent := 13, delivered := {0, 2, 8, 9, 10})
  const X2 := X1.(b := B4, sent := 15, tenures := Z4.tenures[2 := Tenure(2, [SENTINEL, EB])])
  const X3 := X2.(b := B7, delivered := {0, 2, 8, 9, 10, 12})
  const X4 := X3.(b := B8, doneB := [(1, "B")])
  const X5 := X4.(a := A6, sent := 17)
  const X6 := X5.(c := C3, sent := 18, delivered := {0, 2, 8, 9, 10, 12, 16})
  const X7 := X6.(a := A7, sent := 20, delivered := {0, 2, 8, 9, 10, 12, 16, 17},
                  tenures := X2.tenures[3 := Tenure(1, [SENTINEL, EA])])

  lemma KeepsA()
    ensures var req := AppendEntries(2, 2, 0, 0, 0, []);
      HandleAppendEntries(A3, req).1.node == A5 && HandleAppendEntries(A3, req).0 == AppendReply(2, true, 1)
  {
    assert Merge([SENTINEL, EA], 0, []) == [SENTINEL, EA];
  }

  lemma OneAnswers() returns (states: seq<Cluster>, actions: seq<Action>)
    ensures Reached(states, actions, X1) && Sees(states, 12, Packet(1, 2, AppendReply(2, true, 1)))
  {
    hide Reached, Then, Sees, Keeps, Handle, HandleAppendEntries, Packets, Applied;
    var ss, aa := TwoLeads();
    var req := AppendEntries(2, 2, 0, 0, 0, []);
    AppendCall(A3, 2, req);
    KeepsA();
    assert Gives(Handle(A3, 2, req), A5, 1, []);
    states, actions := Deliver(ss, aa, Y3, 10, Packet(2, 1, req), A5, 1, [], UNNOTED);
    SnapX1();
    assert Packets(1, Handle(A3, 2, req).effects)[0] == Packet(1, 2, AppendReply(2, true, 1));
  }

  lemma TwoAppendsAlone() returns (states: seq<Cluster>, actions: seq<Action>)
    ensures Reached(states, actions, X2) && Sees(states, 12, Packet(1, 2, AppendReply(2, true, 1)))
  {
    hide Reached, Then, Sees, Propose, AppendFor, Packets, Gives;
    var ss, aa := OneAnswers();
    ProposeCall(B3, "B");
    ProposesB();
    states, actions := Proposes(ss, aa, X1, 2, "B", B4, 2, [], UNNOTED);
    SnapX2();
    assert Sees(states, 12, Packet(1, 2, AppendReply(2, true, 1)));
  }

  lemma TwoIsMisled() returns (states: seq<Cluster>, actions: seq<Action>)
    ensures Reached(states, actions, X3)
  {
    hide Reached, Then, Sees, Keeps, Handle, ProcessAppendReply, Packets, Gives;
    var ss, aa := TwoAppendsAlone();
    AckCall(B4, 1, AppendReply(2, true, 1));
    AcksB();
    states, actions := Deliver(ss, aa, X2, 12, Packet(1, 2, AppendReply(2, true, 1)), B7, 0, [], UNNOTED);
    SnapX3();
  }

  lemma CountsWrongly()
    ensures AdvanceCommit(B7) == B7.(commitIndex := 1)
  {
    assert [1, 3][..1] == [1] && [1][..0] == [];
    assert Acks([1], B7.matchIndex, 1) == 1 && Acks(B7.peers, B7.matchIndex, 1) == 1;
    assert Replicated(B7, 1) && ScanCommit(B7, 1) == 1;
  }

  lemma TwoCommitsAlone() returns (states: seq<Cluster>, actions: seq<Action>)
    ensures Reached(states, actions, X4)
  {
    hide Reached, Then, Sees, Keeps, Tick, AdvanceCommit, Packets, Gives;
    var ss, aa := TwoIsMisled();
    CountsWrongly();
    FirstCommitCall(B7);
    states, actions := Ticks(ss, aa, X3, 2, false, B8, 0, [(1, "B")], UNNOTED);
    SnapX4();
  }

  lemma OneStands() returns (states: seq<Cluster>, actions: seq<Action>)
    ensures Reached(states, actions, X5) && Sees(states, 16, Packet(1, 3, RequestVote(3, 1, 1, 1)))
  {
    hide Reached, Then, Sees, Keeps, Tick, Packets, Gives;
    var ss, aa := TwoCommitsAlone();
    StandCall(A5);
    states, actions := Ticks(ss, aa, X4, 1, true, A6, 2, [], UNNOTED);
    SnapX5();
    assert Packets(1, Tick(A5, true).effects)[1] == Packet(1, 3, RequestVote(3, 1, 1, 1));
  }

  lemma ThreeVotesAgain() returns (states: seq<Cluster>, actions: seq<Action>)
    ensures Reached(states, actions, X6) && Sees(states, 17, Packet(3, 1, VoteReply(3, true)))
  {
    hide Reached, Then, Sees, Keeps, Handle, Packets, Gives;
    var ss, aa := OneStands();
    var req := RequestVote(3, 1, 1, 1);
    VoteCall(C1, 1, req);
    assert HandleRequestVote(C1, req).1.node == C3 && HandleRequestVote(C1, req).0 == VoteReply(3, true);
    states, actions := Deliver(ss, aa, X5, 16, Packet(1, 3, req), C3, 1, [], UNNOTED);
    SnapX6();
  }

  lemma WinsThree()
    ensures BecomeLeader(A6.(votes := 2)).node == A7
  {
    ResetTwo(A6.nextIndex, 2, 3, 2);
    ResetTwo(A6.matchIndex, 2, 3, 0);
    assert A6.nextIndex[2 := 2][3 := 2][1 := 2] == A7.nextIndex
        && A6.matchIndex[2 := 0][3 := 0][1 := 1] == A7.matchIndex;
  }

  lemma OneLeadsAgain() returns (states: seq<Cluster>, actions: seq<Action>)
    ensures Reached(states, actions, X7)
  {
    hide Reached, Then, Sees, Keeps, Handle, BecomeLeader, Packets, Gives;
    var ss, aa := ThreeVotesAgain();
    WinCall(A6, 3);
    WinsThree();
    states, actions := Deliver(ss, aa, X6, 17, Packet(3, 1, VoteReply(3, true)), A7, 2, [], UNNOTED);
    SnapX7();
  }
}
