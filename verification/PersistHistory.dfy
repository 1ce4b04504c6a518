/** Which log entries a restart finds after any callbacks, completed or cut short. */
module PersistHistory {
  import opened ByteStrings
  import opened Engine
  import opened RaftTypes
  import opened RaftSteps
  import opened RaftCluster
  import opened RaftStore
  import opened Replica

  /** The logs written, oldest first. */
  function LogWrites(es: seq<Effect>): seq<seq<Entry>> {
    if es == [] then []
    else
      var e := es[|es| - 1];
      LogWrites(es[..|es| - 1]) + if e.WriteLog? then [e.entries] else []
  }

  predicate Mentions(es: seq<Entry>, index: nat) {
    exists i :: 0 <= i < |es| && es[i].index == index
  }

  /** How many writes in a row, up to the latest, wrote an entry with this index. */
  function Streak(logs: seq<seq<Entry>>, index: nat): nat {
    if logs == [] || !Mentions(logs[|logs| - 1], index) then 0
    else Streak(logs[..|logs| - 1], index) + 1
  }

  ghost predicate AllStorable(logs: seq<seq<Entry>>) {
    forall i :: 0 <= i < |logs| ==> Storable(logs[i])
  }

  lemma MentionsIsNames(es: seq<Entry>, index: nat)
    requires Storable(es) && index < 255 * Pow256(7)
    ensures Mentions(es, index) <==> Names(es, LogKey(index))
  {
    hide LogKey;
    if Mentions(es, index) {
      var i :| 0 <= i < |es| && es[i].index == index;
      assert LogKey(es[i].index) == LogKey(index);
    }
    if Names(es, LogKey(index)) {
      var i :| 0 <= i < |es| && LogKey(es[i].index) == LogKey(index);
      LogKeyOrder(es[i].index, index);
    }
  }

  lemma StreakStep(logs: seq<seq<Entry>>, last: seq<Entry>, index: nat)
    ensures Streak(logs + [last], index) == if Mentions(last, index) then Streak(logs, index) + 1 else 0
  {
    assert (logs + [last])[..|logs|] == logs;
  }

  lemma OneMoreWrite(c: Serializer, db: Store, last: seq<Entry>, index: nat)
    requires |LogRegion(db)| <= 100000 && Storable(last) && index < 255 * Pow256(7)
    ensures var d := LogWritten(c, db, last);
      && |LogRegion(d)| <= 100000
      && (LogKey(index) in d <==> Mentions(last, index) && LogKey(index) !in db)
  {
    hide LogKey, InRange, LogWritten;
    RegionAfter(c, db, last);
    MentionsIsNames(last, index);
    LogKeyInRange(index);
    WrittenKey(c, db, last, LogKey(index));
  }

  lemma WritesSplit(front: seq<Effect>, e: Effect)
    ensures LogWrites(front + [e]) == LogWrites(front) + if e.WriteLog? then [e.entries] else []
    ensures AllStorable(LogWrites(front + [e])) ==>
      AllStorable(LogWrites(front)) && (e.WriteLog? ==> Storable(e.entries))
  {
    hide Storable;
    assert (front + [e])[..|front|] == front;
    var all, before := LogWrites(front + [e]), LogWrites(front);
    assert forall i :: 0 <= i < |before| ==> all[i] == before[i];
    if e.WriteLog? { assert all[|before|] == e.entries; }
  }

  /** Starting from an empty log region, a key is present iff the number of consecutive latest
      writes that wrote it is odd. */
  lemma {:induction false} PresentIffOdd(c: Serializer, parse: Parser, db: Store, es: seq<Effect>, index: nat)
    requires ClientOnly(parse) && LogRegion(db) == {} && AllStorable(LogWrites(es)) && index < 255 * Pow256(7)
    ensures |LogRegion(EffectedAll(c, parse, db, es))| <= 100000
    ensures LogKey(index) in EffectedAll(c, parse, db, es) <==> Streak(LogWrites(es), index) % 2 == 1
  {
    hide LogKey, InRange, LogWritten, Storable, Streak, LogWrites, ClientOnly;
    LogKeyInRange(index);
    if es == [] {
      assert LogKey(index) !in LogRegion(db);
      NoStreak(index);
    } else {
      var front, e := es[..|es| - 1], es[|es| - 1];
      assert es == front + [e];
      WritesSplit(front, e);
      PresentIffOdd(c, parse, db, front, index);
      var before := EffectedAll(c, parse, db, front);
      if e.WriteLog? {
        OneMoreWrite(c, before, e.entries, index);
        StreakStep(LogWrites(front), e.entries, index);
      } else {
        RegionStays(c, parse, before, e);
        assert SameAt(Effected(c, parse, before, e), before, LogKey(index));
        assert LogWrites(front) + [] == LogWrites(front);
      }
    }
  }

  lemma NoStreak(index: nat)
    ensures LogWrites([]) == [] && Streak([], index) == 0
  {
  }

  lemma RegionBounded(c: Serializer, parse: Parser, db: Store, es: seq<Effect>)
    requires ClientOnly(parse) && LogRegion(db) == {} && AllStorable(LogWrites(es))
    ensures |LogRegion(EffectedAll(c, parse, db, es))| <= 100000
  {
    assert 0 < 255 * Pow256(7);
    PresentIffOdd(c, parse, db, es, 0);
  }

  /** `found` is what is left of `last` when an entry survives iff its streak is odd. */
  ghost predicate OddOnes(logs: seq<seq<Entry>>, last: seq<Entry>, found: seq<Entry>) {
    && (forall e :: e in found <==> e in last && Streak(logs, e.index) % 2 == 1)
    && (found == last <==> forall i :: 0 <= i < |last| ==> Streak(logs, last[i].index) % 2 == 1)
  }

  lemma WriteFinds(c: Serializer, parse: Parser, db: Store, front: seq<Effect>, last: seq<Entry>)
    requires Lossless(c) && ClientOnly(parse) && LogRegion(db) == {} && AllStorable(LogWrites(front)) && Storable(last)
    ensures var after := LogWritten(c, EffectedAll(c, parse, db, front), last);
      OddOnes(LogWrites(front) + [last], last, StoredEntries(c, after))
  {
    hide LogKey, InRange, LogWritten, Kept, Lossless, ClientOnly, Streak, EffectedAll, StoredEntries;
    var prev := EffectedAll(c, parse, db, front);
    var logs := LogWrites(front) + [last];
    RegionBounded(c, parse, db, front);
    EntriesAfter(c, prev, last);
    forall i | 0 <= i < |last| ensures LogKey(last[i].index) !in prev <==> Streak(logs, last[i].index) % 2 == 1 {
      PresentIffOdd(c, parse, db, front, last[i].index);
      StreakStep(LogWrites(front), last, last[i].index);
      assert Mentions(last, last[i].index);
    }
    KeptAll(prev, last);
    forall e ensures e in Kept(prev, last) <==> e in last && Streak(logs, e.index) % 2 == 1 {
      KeptMembers(prev, last, e);
    }
  }

  /** The entries on disk after any callbacks are those of the log last written whose streak is odd. */
  lemma {:induction false} EntriesAfterHistory(c: Serializer, parse: Parser, db: Store, es: seq<Effect>)
    requires Lossless(c) && ClientOnly(parse) && LogRegion(db) == {} && AllStorable(LogWrites(es))
    ensures OddOnes(LogWrites(es), StoredLog([], es), StoredEntries(c, EffectedAll(c, parse, db, es)))
  {
    hide LogWritten, Lossless, ClientOnly, Streak, LogWrites, StoredEntries, OddOnes, Storable;
    if es == [] {
      NothingStored(c, db);
    } else {
      var front, e := es[..|es| - 1], es[|es| - 1];
      assert es == front + [e];
      WritesSplit(front, e);
      if e.WriteLog? {
        WriteFinds(c, parse, db, front, e.entries);
      } else {
        EntriesAfterHistory(c, parse, db, front);
        var before := EffectedAll(c, parse, db, front);
        RegionStays(c, parse, before, e);
        EntriesStay(c, Effected(c, parse, before, e), before);
        assert LogWrites(front) + [] == LogWrites(front);
      }
    }
  }

  lemma NothingStored(c: Serializer, db: Store)
    requires LogRegion(db) == {}
    ensures OddOnes(LogWrites([]), [], StoredEntries(c, db))
  {
    assert Ordered(LogRegion(db)) == [];
    assert Scanned(db, LOG_START, LOG_END, LIMIT).kvs == [];
  }

  /** A restart after any callbacks, completed or cut short: term and vote are the latest written,
      and an entry of the log last written is read back iff its streak is odd. */
  lemma RecoverAfterHistory(c: Serializer, parse: Parser, db: Store, d: Disk, es: seq<Effect>)
    requires Lossless(c) && ClientOnly(parse) && LogRegion(db) == {} && AllStorable(LogWrites(es))
    requires ReadNumber(db, TERM_KEY) == Some(d.term) && ReadNumber(db, VOTE_KEY) == Some(d.vote)
    ensures var r := Recovered(c, EffectedAll(c, parse, db, es)); var d' := Written(d, es);
      && r.Some? && r.value.term == d'.term && r.value.vote == d'.vote
      && OddOnes(LogWrites(es), StoredLog([], es), r.value.entries)
  {
    hide Lossless, ClientOnly, EffectedAll, ReadNumber, OddOnes, StoredEntries;
    DiskIsStored(c, parse, db, d, es);
    EntriesAfterHistory(c, parse, db, es);
  }

  // ----- Persisting an unchanged state -----

  lemma PersistWrites(front: seq<Effect>, n: Node)
    requires |n.log| >= 1
    ensures LogWrites(front + Persist(n)) == LogWrites(front) + [n.log[1..]]
    ensures StoredLog([], front + Persist(n)) == n.log[1..]
  {
    var ws := Persist(n);
    assert front + ws == ((front + [ws[0]]) + [ws[1]]) + [ws[2]];
    WritesSplit(front, ws[0]);
    WritesSplit(front + [ws[0]], ws[1]);
    WritesSplit((front + [ws[0]]) + [ws[1]], ws[2]);
    assert LogWrites(front) + [] == LogWrites(front);
  }

  lemma NoMembers(es: seq<Entry>)
    ensures (forall e :: e !in es) ==> es == []
  {
    if es != [] { assert es[0] in es; }
  }

  lemma TwoStreaks(es: seq<Entry>, e: Entry)
    requires e in es
    ensures Streak([es], e.index) == 1 && Streak([es, es], e.index) == 2
  {
    var i :| 0 <= i < |es| && es[i] == e;
    assert Mentions(es, e.index);
    StreakStep([], es, e.index);
    StreakStep([es], es, e.index);
    assert [] + [es] == [es] && [es] + [es] == [es, es];
  }

  /** A node that persists an unchanged state a second time leaves nothing of its log. */
  lemma PersistTwiceForgets(c: Serializer, parse: Parser, db: Store, n: Node)
    requires Lossless(c) && ClientOnly(parse) && LogRegion(db) == {} && |n.log| >= 1 && Storable(n.log[1..])
    ensures StoredEntries(c, EffectedAll(c, parse, db, Persist(n))) == n.log[1..]
    ensures StoredEntries(c, EffectedAll(c, parse, db, Persist(n) + Persist(n))) == []
  {
    hide Lossless, ClientOnly, EffectedAll, StoredEntries, Streak, Storable, LogWrites, StoredLog;
    var es := n.log[1..];
    assert [] + Persist(n) == Persist(n) && [] + [es] == [es] && [es] + [es] == [es, es];
    NoStreak(0);
    PersistWrites([], n);
    PersistWrites(Persist(n), n);
    EntriesAfterHistory(c, parse, db, Persist(n));
    EntriesAfterHistory(c, parse, db, Persist(n) + Persist(n));
    forall e | e in es ensures Streak([es], e.index) == 1 && Streak([es, es], e.index) == 2 { TwoStreaks(es, e); }
    NoMembers(StoredEntries(c, EffectedAll(c, parse, db, Persist(n) + Persist(n))));
  }
}
