/** The client's view of a replica's store: the fold of the commands applied to it. */
module Replica {
  import opened ByteStrings
  import opened Engine
  import opened RaftTypes
  import opened RaftSteps
  import opened RaftCluster
  import opened RaftStore

  /** What a proposed command parses to; `Other` is any other request, or one that does not parse. */
  datatype Op = PutOp(key: Bytes, value: Bytes) | DeleteOp(key: Bytes) | Other

  type Parser = Command -> Op

  function Perform(db: Store, op: Op): Store {
    match op
    case PutOp(k, v) => db[k := v]
    case DeleteOp(k) => db - {k}
    case Other => db
  }

  /** Applying commands in order. */
  function Fold(parse: Parser, db: Store, cmds: seq<Command>): Store {
    if cmds == [] then db
    else Perform(Fold(parse, db, cmds[..|cmds| - 1]), parse(cmds[|cmds| - 1]))
  }

  // ----- Replay -----

  predicate Touches(op: Op, k: Bytes) {
    (op.PutOp? || op.DeleteOp?) && op.key == k
  }

  ghost predicate Touched(parse: Parser, cmds: seq<Command>, k: Bytes) {
    exists i :: 0 <= i < |cmds| && Touches(parse(cmds[i]), k)
  }

  ghost predicate SameAt(a: Store, b: Store, k: Bytes) {
    (k in a <==> k in b) && (k in a ==> a[k] == b[k])
  }

  /** A key some command writes ends with the same value from whatever store the fold starts. */
  lemma {:induction false} TouchedForgets(parse: Parser, a: Store, b: Store, cmds: seq<Command>, k: Bytes)
    requires Touched(parse, cmds, k) || SameAt(a, b, k)
    ensures SameAt(Fold(parse, a, cmds), Fold(parse, b, cmds), k)
  {
    if cmds != [] {
      var n := |cmds| - 1;
      if !Touches(parse(cmds[n]), k) {
        if Touched(parse, cmds, k) {
          var i :| 0 <= i < |cmds| && Touches(parse(cmds[i]), k);
          assert cmds[..n][i] == cmds[i];
        }
        TouchedForgets(parse, a, b, cmds[..n], k);
      }
    }
  }

  lemma {:induction false} UntouchedStays(parse: Parser, db: Store, cmds: seq<Command>, k: Bytes)
    requires !Touched(parse, cmds, k)
    ensures SameAt(Fold(parse, db, cmds), db, k)
  {
    if cmds != [] {
      var n := |cmds| - 1;
      assert !Touches(parse(cmds[n]), k);
      assert forall i :: 0 <= i < n ==> cmds[..n][i] == cmds[i];
      UntouchedStays(parse, db, cmds[..n], k);
    }
  }

  lemma SameEverywhere(a: Store, b: Store)
    requires forall k :: SameAt(a, b, k)
    ensures a == b
  {
    assert forall k :: k in a <==> k in b by {
      forall k ensures k in a <==> k in b { assert SameAt(a, b, k); }
    }
    forall k | k in a ensures a[k] == b[k] { assert SameAt(a, b, k); }
  }

  /** Command `i` is the last of `cmds` that touches the key. */
  ghost predicate LastTouch(parse: Parser, cmds: seq<Command>, k: Bytes, i: nat) {
    && i < |cmds| && Touches(parse(cmds[i]), k)
    && forall j :: i < j < |cmds| ==> !Touches(parse(cmds[j]), k)
  }

  /** Every touched key has a last command that touches it. */
  lemma {:induction false} SomeLastTouch(parse: Parser, cmds: seq<Command>, k: Bytes) returns (i: nat)
    requires Touched(parse, cmds, k)
    ensures LastTouch(parse, cmds, k, i)
  {
    var n := |cmds| - 1;
    if Touches(parse(cmds[n]), k) {
      i := n;
    } else {
      var m :| 0 <= m < |cmds| && Touches(parse(cmds[m]), k);
      assert cmds[..n][m] == cmds[m];
      i := SomeLastTouch(parse, cmds[..n], k);
      assert forall j :: 0 <= j < n ==> cmds[..n][j] == cmds[j];
    }
  }

  /** The last command that touches a key decides: a put leaves its value, a delete nothing. */
  lemma {:induction false} LastTouchDecides(parse: Parser, db: Store, cmds: seq<Command>, k: Bytes, i: nat)
    requires LastTouch(parse, cmds, k, i)
    ensures var op, r := parse(cmds[i]), Fold(parse, db, cmds);
      (k in r <==> op.PutOp?) && (op.PutOp? ==> r[k] == op.value)
  {
    var n := |cmds| - 1;
    if i < n {
      assert forall j :: 0 <= j < n ==> cmds[..n][j] == cmds[j];
      LastTouchDecides(parse, db, cmds[..n], k, i);
    }
  }

  /** Lookup in the store after a list of commands: a key has a value iff the last command that
      touches it is a put of that value, or none touches it and it had that value before. */
  lemma {:induction false} LookupAfter(parse: Parser, db: Store, cmds: seq<Command>, k: Bytes, v: Bytes)
    ensures var r := Fold(parse, db, cmds);
      (k in r && r[k] == v) <==>
        (exists i {:trigger cmds[i]} :: 0 <= i < |cmds| && parse(cmds[i]) == PutOp(k, v)
           && forall j :: i < j < |cmds| ==> !Touches(parse(cmds[j]), k))
        || ((forall j :: 0 <= j < |cmds| ==> !Touches(parse(cmds[j]), k)) && k in db && db[k] == v)
  {
    hide Fold;
    if Touched(parse, cmds, k) {
      var i := SomeLastTouch(parse, cmds, k);
      LastTouchDecides(parse, db, cmds, k, i);
      forall m | 0 <= m < |cmds| && parse(cmds[m]) == PutOp(k, v)
                 && forall j :: m < j < |cmds| ==> !Touches(parse(cmds[j]), k)
        ensures m == i
      {
        assert Touches(parse(cmds[m]), k);
      }
    } else {
      UntouchedStays(parse, db, cmds, k);
      forall m | 0 <= m < |cmds| ensures !Touches(parse(cmds[m]), k) {
      }
    }
  }

  /** Commands applied before are forgotten by a later application of commands they all occur in. */
  lemma ReplayForgets(parse: Parser, db: Store, earlier: seq<Command>, cmds: seq<Command>)
    requires forall i :: 0 <= i < |earlier| ==> earlier[i] in cmds
    ensures Fold(parse, Fold(parse, db, earlier), cmds) == Fold(parse, db, cmds)
  {
    hide Fold;
    var a, b := Fold(parse, Fold(parse, db, earlier), cmds), Fold(parse, db, cmds);
    forall x ensures SameAt(a, b, x) {
      if !Touched(parse, cmds, x) {
        assert !Touched(parse, earlier, x);
        UntouchedStays(parse, db, earlier, x);
      }
      TouchedForgets(parse, Fold(parse, db, earlier), db, cmds, x);
    }
    SameEverywhere(a, b);
  }

  /** A node that restarts with the store of any prefix of its log and applies the whole log again
      ends with the store of one application. */
  lemma ReplayChangesNothing(parse: Parser, db: Store, cmds: seq<Command>, k: nat)
    requires k <= |cmds|
    ensures Fold(parse, Fold(parse, db, cmds[..k]), cmds) == Fold(parse, db, cmds)
  {
    ReplayForgets(parse, db, cmds[..k], cmds);
  }

  lemma {:induction false} FoldConcat(parse: Parser, db: Store, a: seq<Command>, b: seq<Command>)
    ensures Fold(parse, db, a + b) == Fold(parse, Fold(parse, db, a), b)
  {
    if b == [] {
      assert a + b == a;
    } else {
      assert (a + b)[..|a + b| - 1] == a + b[..|b| - 1];
      FoldConcat(parse, db, a, b[..|b| - 1]);
    }
  }

  // ----- Raft's own writes -----

  predicate Reserved(k: Bytes) {
    k == TERM_KEY || k == VOTE_KEY || (k != [] && k[0] == 255)
  }

  function View(db: Store): Store {
    map k | k in db.Keys && !Reserved(k) :: db[k]
  }

  /** Commands name no reserved key, as the store demands of its clients. */
  ghost predicate ClientOnly(parse: Parser) {
    forall c, k :: Touches(parse(c), k) ==> !Reserved(k)
  }

  /** What one callback of the Raft node does to the engine. */
  function Effected(c: Serializer, parse: Parser, db: Store, e: Effect): Store {
    match e
    case WriteTerm(t) => db[TERM_KEY := Decimal(t)]
    case WriteVote(v) => db[VOTE_KEY := Decimal(v)]
    case WriteLog(es) => LogWritten(c, db, es)
    case Send(_, _) => db
    case Apply(_, cmd) => Perform(db, parse(cmd))
  }

  function EffectedAll(c: Serializer, parse: Parser, db: Store, es: seq<Effect>): Store {
    if es == [] then db
    else Effected(c, parse, EffectedAll(c, parse, db, es[..|es| - 1]), es[|es| - 1])
  }

  /** The three writes of a persist are what the service's persist method does. */
  lemma PersistIsPersisted(c: Serializer, parse: Parser, db: Store, n: Node)
    requires |n.log| >= 1
    ensures EffectedAll(c, parse, db, Persist(n)) == Persisted(c, db, n.term, n.votedFor, n.log[1..])
  {
    hide LogWritten;
    var es := Persist(n);
    assert es[..2] == [WriteTerm(n.term), WriteVote(n.votedFor)] && es[..2][..1] == [WriteTerm(n.term)]
        && es[..2][..1][..0] == [];
    assert EffectedAll(c, parse, db, es[..2][..1]) == db[TERM_KEY := Decimal(n.term)];
    assert EffectedAll(c, parse, db, es[..2]) == db[TERM_KEY := Decimal(n.term)][VOTE_KEY := Decimal(n.votedFor)];
  }

  function Commands(done: seq<(nat, Command)>): seq<Command> {
    seq(|done|, i requires 0 <= i < |done| => done[i].1)
  }

  lemma LogWriteHidden(c: Serializer, db: Store, es: seq<Entry>, k: Bytes)
    requires !(k != [] && k[0] == 255)
    ensures SameAt(LogWritten(c, db, es), db, k)
  {
    hide LogWritten, InRange, LogKey;
    assert !InRange(k, LOG_START, LOG_END) by {
      if InRange(k, LOG_START, LOG_END) { InRangeStarts(k); }
    }
    forall i | 0 <= i < |es| ensures LogKey(es[i].index) != k { LogKeyStarts(es[i].index); }
    WrittenKey(c, db, es, k);
  }

  lemma InRangeStarts(k: Bytes)
    requires InRange(k, LOG_START, LOG_END)
    ensures k != [] && k[0] == 255
  {
  }

  lemma LogKeyStarts(i: nat)
    ensures LogKey(i) != [] && LogKey(i)[0] == 255
  {
  }

  lemma EffectSeen(c: Serializer, parse: Parser, db: Store, e: Effect)
    requires ClientOnly(parse)
    ensures View(Effected(c, parse, db, e)) == if e.Apply? then Perform(View(db), parse(e.command)) else View(db)
  {
    hide LogWritten;
    if e.WriteLog? {
      forall k | !Reserved(k) ensures SameAt(Effected(c, parse, db, e), db, k) {
        LogWriteHidden(c, db, e.entries, k);
      }
      ViewSame(Effected(c, parse, db, e), db);
    }
    if e.Apply? {
      var op := parse(e.command);
      if op.PutOp? || op.DeleteOp? { assert Touches(op, op.key); }
    }
  }

  lemma ViewSame(a: Store, b: Store)
    requires forall k :: !Reserved(k) ==> SameAt(a, b, k)
    ensures View(a) == View(b)
  {
    forall k ensures SameAt(View(a), View(b), k) {
      if !Reserved(k) { assert SameAt(a, b, k); }
    }
    SameEverywhere(View(a), View(b));
  }

  /** After any callbacks, completed or cut short anywhere, the client sees the fold of the commands
      applied; Raft's own writes do not show. */
  lemma {:induction false} ClientSeesFold(c: Serializer, parse: Parser, db: Store, es: seq<Effect>)
    requires ClientOnly(parse)
    ensures View(EffectedAll(c, parse, db, es)) == Fold(parse, View(db), Commands(Applied(es)))
  {
    if es != [] {
      var front, e := es[..|es| - 1], es[|es| - 1];
      ClientSeesFold(c, parse, db, front);
      EffectSeen(c, parse, EffectedAll(c, parse, db, front), e);
      if e.Apply? {
        var cmds := Commands(Applied(es));
        assert cmds[..|cmds| - 1] == Commands(Applied(front)) && cmds[|cmds| - 1] == e.command;
      } else {
        assert Applied(es) == Applied(front);
      }
    }
  }

  /** The pair of numbers a restart reads is the disk of the crash model, after any callbacks cut
      short anywhere. */
  lemma {:induction false} DiskIsStored(c: Serializer, parse: Parser, db: Store, d: Disk, es: seq<Effect>)
    requires ClientOnly(parse)
    requires ReadNumber(db, TERM_KEY) == Some(d.term) && ReadNumber(db, VOTE_KEY) == Some(d.vote)
    ensures var db' := EffectedAll(c, parse, db, es); var d' := RaftCluster.Written(d, es);
      ReadNumber(db', TERM_KEY) == Some(d'.term) && ReadNumber(db', VOTE_KEY) == Some(d'.vote)
  {
    hide LogWritten, Number, Decimal;
    if es != [] {
      var front, e := es[..|es| - 1], es[|es| - 1];
      DiskIsStored(c, parse, db, d, front);
      DiskEffect(c, parse, EffectedAll(c, parse, db, front), RaftCluster.Written(d, front), e);
    }
  }

  lemma DiskEffect(c: Serializer, parse: Parser, db: Store, d: Disk, e: Effect)
    requires ClientOnly(parse)
    requires ReadNumber(db, TERM_KEY) == Some(d.term) && ReadNumber(db, VOTE_KEY) == Some(d.vote)
    ensures var db' := Effected(c, parse, db, e);
      && ReadNumber(db', TERM_KEY) == Some(if e.WriteTerm? then e.term else d.term)
      && ReadNumber(db', VOTE_KEY) == Some(if e.WriteVote? then e.vote else d.vote)
  {
    hide LogWritten, Number, Decimal;
    ReservedOutside();
    match e
    case WriteTerm(t) => DecimalRoundTrip(t);
    case WriteVote(v) => DecimalRoundTrip(v);
    case WriteLog(es) =>
      LogWriteHidden(c, db, es, TERM_KEY);
      LogWriteHidden(c, db, es, VOTE_KEY);
    case Send(_, _) =>
    case Apply(_, cmd) =>
      var op := parse(cmd);
      if op.PutOp? || op.DeleteOp? { assert Touches(parse(cmd), op.key) && !Reserved(op.key); }
  }

  /** Nothing but a log write touches the log region. */
  lemma RegionStays(c: Serializer, parse: Parser, db: Store, e: Effect)
    requires ClientOnly(parse) && !e.WriteLog?
    ensures var d := Effected(c, parse, db, e);
      && LogRegion(d) == LogRegion(db)
      && (forall k :: InRange(k, LOG_START, LOG_END) ==> SameAt(d, db, k))
  {
    hide InRange, Decimal;
    ReservedOutside();
    var d := Effected(c, parse, db, e);
    forall k | InRange(k, LOG_START, LOG_END) ensures SameAt(d, db, k) {
      InRangeStarts(k);
      if e.Apply? { assert Touches(parse(e.command), k) ==> !Reserved(k); }
    }
    forall k ensures k in LogRegion(d) <==> k in LogRegion(db) {
      if InRange(k, LOG_START, LOG_END) { assert SameAt(d, db, k); }
    }
  }

  lemma EntriesStay(c: Serializer, a: Store, b: Store)
    requires LogRegion(a) == LogRegion(b) && forall k :: InRange(k, LOG_START, LOG_END) ==> SameAt(a, b, k)
    ensures StoredEntries(c, a) == StoredEntries(c, b)
  {
    hide InRange, Decoded, Ordered;
    var ks := Ordered(LogRegion(a));
    forall i | 0 <= i < |ks| ensures ks[i] in a && ks[i] in b && a[ks[i]] == b[ks[i]] {
      assert ks[i] in LogRegion(a);
      assert SameAt(a, b, ks[i]);
    }
    assert Scanned(a, LOG_START, LOG_END, LIMIT).kvs == Scanned(b, LOG_START, LOG_END, LIMIT).kvs;
  }
}
