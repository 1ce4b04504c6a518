/** What a node writes to its engine when Raft asks it to persist, and what it reads back. */
module RaftStore {
  import opened ByteStrings
  import opened Engine
  import opened RaftTypes

  datatype Option<T> = None | Some(value: T)

  /** Protobuf serialization of a log entry, of which only its round trip is used. */
  datatype Serializer = Serializer(encode: Entry -> Bytes, decode: Bytes -> Option<Entry>)

  ghost predicate Lossless(c: Serializer) {
    forall e :: c.decode(c.encode(e)) == Some(e)
  }

  const TERM_KEY: Bytes := [0, 114, 97, 102, 116, 95, 116, 101, 114, 109]
  const VOTE_KEY: Bytes := [0, 114, 97, 102, 116, 95, 118, 111, 116, 101]
  const LOG_START: Bytes := [255]
  const LOG_END: Bytes := [255, 255]
  const LIMIT: nat := 100000

  // ----- Decimal text of term and vote -----

  function Decimal(n: nat): (s: Bytes)
    ensures s != []
  {
    if n < 10 then [48 + n] else Decimal(n / 10) + [48 + n % 10]
  }

  /** None where the original throws. */
  function Number(s: Bytes): Option<nat> {
    if s == [] || !(48 <= s[|s| - 1] < 58) then None
    else if |s| == 1 then Some(s[0] - 48)
    else
      match Number(s[..|s| - 1])
      case None => None
      case Some(n) => Some(10 * n + s[|s| - 1] - 48)
  }

  lemma {:induction false} DecimalRoundTrip(n: nat)
    ensures Number(Decimal(n)) == Some(n)
  {
    if n >= 10 {
      DecimalRoundTrip(n / 10);
      var s := Decimal(n);
      assert s[..|s| - 1] == Decimal(n / 10);
    }
  }

  /** What a string of digits stands for. */
  function DigitsValue(s: Bytes): int {
    if s == [] then 0 else 10 * DigitsValue(s[..|s| - 1]) + s[|s| - 1] - 48
  }

  /** The text is the number in decimal digits, without a leading zero. */
  lemma {:induction false} DecimalIs(n: nat)
    ensures var s := Decimal(n);
      && (forall i :: 0 <= i < |s| ==> 48 <= s[i] <= 57) && DigitsValue(s) == n
      && (s[0] == 48 ==> n == 0 && |s| == 1)
  {
    if n >= 10 {
      DecimalIs(n / 10);
      var s := Decimal(n);
      assert s[..|s| - 1] == Decimal(n / 10);
    } else {
      assert Decimal(n)[..0] == [];
    }
  }

  // ----- Log keys -----

  function LogKey(index: nat): Bytes {
    [255] + BigEndian(index, 8)
  }

  /** Log keys are distinct and sorted by index, for every 64-bit index. */
  lemma LogKeyOrder(i: nat, j: nat)
    requires i < Pow256(8) && j < Pow256(8)
    ensures Less(LogKey(i), LogKey(j)) <==> i < j
    ensures LogKey(i) == LogKey(j) <==> i == j
  {
    BigEndianOrder(i, j, 8);
    assert LogKey(i)[1..] == BigEndian(i, 8) && LogKey(j)[1..] == BigEndian(j, 8);
  }

  lemma {:induction false} FirstByte(x: nat, n: nat)
    requires n >= 1
    ensures x < Pow256(n) ==> (BigEndian(x, n)[0] < 255 <==> x < 255 * Pow256(n - 1))
  {
    if n > 1 { FirstByte(x / 256, n - 1); }
  }

  /** The scanned range holds the keys of exactly the indices below 255 * 2^56. */
  lemma LogKeyInRange(i: nat)
    requires i < Pow256(8)
    ensures InRange(LogKey(i), LOG_START, LOG_END) <==> i < 255 * Pow256(7)
  {
    FirstByte(i, 8);
    var k, tail := LogKey(i), BigEndian(i, 8);
    assert k[1..] == tail && LOG_END[1..] == LOG_START;
    assert Less(tail, LOG_START) <==> tail[0] < 255;
    assert Less(k, LOG_END) <==> Less(tail, LOG_START);
    assert !Less(k, LOG_START);
  }

  /** Writing one more byte of a number. */
  lemma KeyGrows(q: nat, k: nat, key: Bytes)
    requires key == [255] + BigEndian(q / 256, k)
    ensures key + [q % 256] == [255] + BigEndian(q, k + 1)
  {
    hide BigEndian;
    BigEndianSnoc(q, k);
  }

  method EncodeLogKey(index: nat) returns (key: Bytes)
    ensures key == LogKey(index)
  {
    hide BigEndian, Pow256;
    key := [255];
    BigEndianNone(index / Pow256(8));
    var i := 8;
    while i > 0
      invariant 0 <= i <= 8
      invariant key == [255] + BigEndian(index / Pow256(i), 8 - i)
    {
      i := i - 1;
      ShiftByte(index, i);
      KeyGrows(index / Pow256(i), 7 - i, key);
      key := key + [(index / Pow256(i)) % 256];
    }
    PowZero();
  }

  // ----- Persisting -----

  /** What persisting puts for each entry after the sentinel. */
  function LogPuts(c: Serializer, es: seq<Entry>): seq<(Bytes, Bytes)> {
    seq(|es|, i requires 0 <= i < |es| => (LogKey(es[i].index), c.encode(es[i])))
  }

  function Firsts(kvs: seq<(Bytes, Bytes)>): seq<Bytes> {
    seq(|kvs|, i requires 0 <= i < |kvs| => kvs[i].0)
  }

  /** The scan and the batch of a persist. */
  function LogWritten(c: Serializer, db: Store, es: seq<Entry>): Store {
    Batch(db, LogPuts(c, es), Firsts(Scanned(db, LOG_START, LOG_END, LIMIT).kvs))
  }

  function Persisted(c: Serializer, db: Store, term: nat, vote: nat, es: seq<Entry>): Store {
    LogWritten(c, db[TERM_KEY := Decimal(term)][VOTE_KEY := Decimal(vote)], es)
  }

  // ----- Recovering -----

  datatype Durable = Durable(term: nat, vote: nat, entries: seq<Entry>)

  function ReadNumber(db: Store, key: Bytes): Option<nat> {
    if key in db then Number(db[key]) else Some(0)
  }

  /** The entries that parse, in the order scanned. */
  function Decoded(c: Serializer, kvs: seq<(Bytes, Bytes)>): seq<Entry> {
    if kvs == [] then []
    else
      var rest := Decoded(c, kvs[..|kvs| - 1]);
      match c.decode(kvs[|kvs| - 1].1)
      case None => rest
      case Some(e) => rest + [e]
  }

  function StoredEntries(c: Serializer, db: Store): seq<Entry> {
    Decoded(c, Scanned(db, LOG_START, LOG_END, LIMIT).kvs)
  }

  /** None when a number does not parse, where the original throws. */
  function Recovered(c: Serializer, db: Store): Option<Durable> {
    match ReadNumber(db, TERM_KEY)
    case None => None
    case Some(term) =>
      match ReadNumber(db, VOTE_KEY)
      case None => None
      case Some(vote) => Some(Durable(term, vote, StoredEntries(c, db)))
  }

  /** The node a restart continues with: loading is skipped when there is nothing to load. */
  function Loaded(n: Node, r: Option<Durable>): Node {
    if r.Some? && (r.value.term > 0 || r.value.entries != [])
    then n.(term := r.value.term, votedFor := r.value.vote, log := [SENTINEL] + r.value.entries)
    else n
  }

  // ----- What a persist leaves in the store -----

  /** Entries as a log holds them after its sentinel: ascending indices, all in the scanned range. */
  ghost predicate Storable(es: seq<Entry>) {
    && |es| <= 100000
    && (forall i :: 0 <= i < |es| ==> es[i].index < 255 * Pow256(7))
    && (forall i, j :: 0 <= i < j < |es| ==> es[i].index < es[j].index)
  }

  ghost predicate Names(es: seq<Entry>, k: Bytes) {
    exists i :: 0 <= i < |es| && LogKey(es[i].index) == k
  }

  ghost function LogRegion(db: Store): set<Bytes> {
    Range(db, LOG_START, LOG_END)
  }

  lemma {:induction false} PutAllKeys(db: Store, puts: seq<(Bytes, Bytes)>, k: Bytes)
    ensures k in PutAll(db, puts) <==> k in db || exists i :: 0 <= i < |puts| && puts[i].0 == k
    ensures (forall i :: 0 <= i < |puts| ==> puts[i].0 != k) && k in db ==> PutAll(db, puts)[k] == db[k]
  {
    if puts != [] {
      var n := |puts| - 1;
      PutAllKeys(db, puts[..n], k);
      if exists i :: 0 <= i < |puts| && puts[i].0 == k {
        var i :| 0 <= i < |puts| && puts[i].0 == k;
        if i < n { assert puts[..n][i].0 == k; }
      }
      if k in PutAll(db, puts[..n]) && k !in db {
        var i :| 0 <= i < |puts[..n]| && puts[..n][i].0 == k;
        assert puts[i].0 == k;
      }
      assert forall i :: 0 <= i < n ==> puts[..n][i] == puts[i];
      assert puts[n].0 == k ==> exists i :: 0 <= i < |puts| && puts[i].0 == k;
    }
  }

  lemma {:induction false} PutAllFinds(db: Store, puts: seq<(Bytes, Bytes)>, i: nat)
    requires i < |puts| && (forall a, b :: 0 <= a < b < |puts| ==> puts[a].0 != puts[b].0)
    ensures puts[i].0 in PutAll(db, puts) && PutAll(db, puts)[puts[i].0] == puts[i].1
  {
    var n := |puts| - 1;
    if i < n {
      var front := puts[..n];
      assert forall a :: 0 <= a < n ==> front[a] == puts[a];
      PutAllFinds(db, front, i);
    }
  }

  lemma ReservedOutside()
    ensures !InRange(TERM_KEY, LOG_START, LOG_END) && !InRange(VOTE_KEY, LOG_START, LOG_END)
    ensures TERM_KEY != VOTE_KEY
  {
    assert TERM_KEY[6] != VOTE_KEY[6];
  }

  lemma NumbersKeepRegion(db: Store, t: Bytes, v: Bytes)
    ensures LogRegion(db[TERM_KEY := t][VOTE_KEY := v]) == LogRegion(db)
  {
    hide InRange;
    ReservedOutside();
  }

  /** The keys a scan of the log region returns are in it, and are all of it up to the limit. */
  lemma StaleKeys(db: Store, k: Bytes)
    ensures var stale := Firsts(Scanned(db, LOG_START, LOG_END, LIMIT).kvs);
      && (k in stale ==> k in LogRegion(db))
      && (|LogRegion(db)| <= 100000 ==> (k in stale <==> k in LogRegion(db)))
  {
    hide InRange, Ordered;
    var ks := Ordered(LogRegion(db));
    var kvs := Scanned(db, LOG_START, LOG_END, LIMIT).kvs;
    assert forall i :: 0 <= i < |kvs| ==> kvs[i].0 == ks[i];
    if |ks| <= 100000 && k in ks {
      var i :| 0 <= i < |ks| && ks[i] == k;
      assert Firsts(kvs)[i] == k;
    }
  }

  lemma PutKeys(c: Serializer, es: seq<Entry>, k: Bytes)
    ensures Names(es, k) <==> exists i :: 0 <= i < |LogPuts(c, es)| && LogPuts(c, es)[i].0 == k
  {
    var puts := LogPuts(c, es);
    assert forall i :: 0 <= i < |es| ==> puts[i].0 == LogKey(es[i].index);
    if Names(es, k) {
      var i :| 0 <= i < |es| && LogKey(es[i].index) == k;
      assert puts[i].0 == k;
    }
  }

  /** Where a key ends up: a log key is present iff it was written now and not before. */
  lemma WrittenKey(c: Serializer, db: Store, es: seq<Entry>, k: Bytes)
    ensures var d := LogWritten(c, db, es);
      && (InRange(k, LOG_START, LOG_END) && |LogRegion(db)| <= 100000 ==> (k in d <==> Names(es, k) && k !in db))
      && (!InRange(k, LOG_START, LOG_END) && !Names(es, k) ==> (k in d <==> k in db) && (k in d ==> d[k] == db[k]))
  {
    hide InRange, Less, Scanned, LogKey, Names;
    StaleKeys(db, k);
    PutKeys(c, es, k);
    PutAllKeys(db, LogPuts(c, es), k);
  }

  lemma NumbersNotWritten(es: seq<Entry>)
    ensures !Names(es, TERM_KEY) && !Names(es, VOTE_KEY)
  {
    assert forall i :: 0 <= i < |es| ==> LogKey(es[i].index)[0] == 255;
  }

  /** Term and vote are read back exactly, whatever the store held and whatever the log is. */
  lemma NumbersSurvive(c: Serializer, db: Store, term: nat, vote: nat, es: seq<Entry>)
    ensures var d := Persisted(c, db, term, vote, es);
      ReadNumber(d, TERM_KEY) == Some(term) && ReadNumber(d, VOTE_KEY) == Some(vote)
  {
    hide InRange, LogWritten, Names, Decimal, Number;
    var d := db[TERM_KEY := Decimal(term)][VOTE_KEY := Decimal(vote)];
    ReservedOutside();
    NumbersNotWritten(es);
    WrittenKey(c, d, es, TERM_KEY);
    WrittenKey(c, d, es, VOTE_KEY);
    DecimalRoundTrip(term);
    DecimalRoundTrip(vote);
  }

  // ----- The log that comes back -----

  /** The entries whose key was not in the store before. */
  ghost function Kept(db: Store, es: seq<Entry>): seq<Entry> {
    if es == [] then []
    else
      var last := es[|es| - 1];
      Kept(db, es[..|es| - 1]) + if LogKey(last.index) in db then [] else [last]
  }

  lemma {:induction false} KeptMembers(db: Store, es: seq<Entry>, e: Entry)
    ensures e in Kept(db, es) <==> e in es && LogKey(e.index) !in db
    ensures |Kept(db, es)| <= |es|
  {
    if es != [] {
      KeptMembers(db, es[..|es| - 1], e);
      assert es == es[..|es| - 1] + [es[|es| - 1]];
    }
  }

  lemma {:induction false} KeptAscends(db: Store, es: seq<Entry>)
    requires Storable(es)
    ensures Storable(Kept(db, es))
  {
    hide LogKey;
    if es != [] {
      var front, last := es[..|es| - 1], es[|es| - 1];
      KeptAscends(db, front);
      var kept := Kept(db, front);
      KeptMembers(db, front, last);
      forall i | 0 <= i < |kept| ensures kept[i].index < last.index {
        KeptMembers(db, front, kept[i]);
        assert kept[i] in front;
      }
    }
  }

  lemma {:induction false} KeptWhole(db: Store, es: seq<Entry>)
    requires forall i :: 0 <= i < |es| ==> LogKey(es[i].index) !in db
    ensures Kept(db, es) == es
  {
    hide LogKey;
    if es != [] {
      KeptWhole(db, es[..|es| - 1]);
      assert es == es[..|es| - 1] + [es[|es| - 1]];
    }
  }

  lemma {:induction false} KeptFewer(db: Store, es: seq<Entry>, i: nat)
    requires i < |es| && LogKey(es[i].index) in db
    ensures |Kept(db, es)| < |es|
  {
    hide LogKey;
    var n := |es| - 1;
    KeptMembers(db, es[..n], es[n]);
    if i < n { KeptFewer(db, es[..n], i); }
  }

  /** All entries are kept iff none of their keys was there. */
  lemma KeptAll(db: Store, es: seq<Entry>)
    ensures Kept(db, es) == es <==> forall i :: 0 <= i < |es| ==> LogKey(es[i].index) !in db
  {
    hide LogKey, Kept;
    if i :| 0 <= i < |es| && LogKey(es[i].index) in db {
      KeptFewer(db, es, i);
    } else {
      KeptWhole(db, es);
    }
  }

  function Keys(es: seq<Entry>): seq<Bytes> {
    seq(|es|, i requires 0 <= i < |es| => LogKey(es[i].index))
  }

  lemma KeysAscend(es: seq<Entry>)
    requires Storable(es)
    ensures Ascending(Keys(es))
    ensures forall i :: 0 <= i < |es| ==> InRange(Keys(es)[i], LOG_START, LOG_END)
  {
    hide Less, InRange, LogKey;
    forall i | 0 <= i < |es| ensures InRange(Keys(es)[i], LOG_START, LOG_END) {
      LogKeyInRange(es[i].index);
    }
    forall i, j | 0 <= i < j < |es| ensures Less(Keys(es)[i], Keys(es)[j]) {
      LogKeyOrder(es[i].index, es[j].index);
    }
  }

  /** The log region after a write, in key order. */
  lemma RegionAfter(c: Serializer, db: Store, es: seq<Entry>)
    requires Storable(es) && |LogRegion(db)| <= 100000
    ensures Ordered(LogRegion(LogWritten(c, db, es))) == Keys(Kept(db, es))
    ensures |LogRegion(LogWritten(c, db, es))| <= |es|
  {
    hide Less, InRange, LogKey, Ordered, LogWritten, Kept, Storable;
    var d, kept := LogWritten(c, db, es), Kept(db, es);
    KeptAscends(db, es);
    KeysAscend(kept);
    forall k ensures k in Keys(kept) <==> k in Ordered(LogRegion(d)) {
      KeyKept(c, db, es, k);
    }
    AscendingUnique(Keys(kept), Ordered(LogRegion(d)));
    KeptMembers(db, es, SENTINEL);
  }

  lemma KeyKept(c: Serializer, db: Store, es: seq<Entry>, k: Bytes)
    requires Storable(es) && |LogRegion(db)| <= 100000
    ensures k in Keys(Kept(db, es)) <==> k in LogRegion(LogWritten(c, db, es))
  {
    hide Less, InRange, LogKey, LogWritten, Kept;
    var kept := Kept(db, es);
    WrittenKey(c, db, es, k);
    if k in Keys(kept) {
      var i :| 0 <= i < |kept| && Keys(kept)[i] == k;
      KeptMembers(db, es, kept[i]);
      var j :| 0 <= j < |es| && es[j] == kept[i];
      LogKeyInRange(es[j].index);
    }
    if Names(es, k) && k !in db {
      var j :| 0 <= j < |es| && LogKey(es[j].index) == k;
      KeptMembers(db, es, es[j]);
      var i :| 0 <= i < |kept| && kept[i] == es[j];
      assert Keys(kept)[i] == k;
    }
  }

  lemma WrittenValue(c: Serializer, db: Store, es: seq<Entry>, e: Entry)
    requires Storable(es) && |LogRegion(db)| <= 100000 && e in Kept(db, es)
    ensures var d := LogWritten(c, db, es); LogKey(e.index) in d && d[LogKey(e.index)] == c.encode(e)
  {
    hide Less, InRange, LogKey, Kept, Scanned;
    KeptMembers(db, es, e);
    var i :| 0 <= i < |es| && es[i] == e;
    forall a, b | 0 <= a < b < |es| ensures LogPuts(c, es)[a].0 != LogPuts(c, es)[b].0 {
      LogKeyOrder(es[a].index, es[b].index);
    }
    PutAllFinds(db, LogPuts(c, es), i);
    LogKeyInRange(e.index);
    assert Names(es, LogKey(e.index));
    WrittenKey(c, db, es, LogKey(e.index));
  }

  lemma {:induction false} DecodedAll(c: Serializer, kvs: seq<(Bytes, Bytes)>, es: seq<Entry>)
    requires Lossless(c) && |kvs| == |es| && forall i :: 0 <= i < |es| ==> kvs[i].1 == c.encode(es[i])
    ensures Decoded(c, kvs) == es
  {
    if es != [] {
      var n := |es| - 1;
      DecodedAll(c, kvs[..n], es[..n]);
      assert es == es[..n] + [es[n]];
    }
  }

  /** Exactly the entries a scan reads back after a write: those whose keys were not there before. */
  lemma EntriesAfter(c: Serializer, db: Store, es: seq<Entry>)
    requires Lossless(c) && Storable(es) && |LogRegion(db)| <= 100000
    ensures StoredEntries(c, LogWritten(c, db, es)) == Kept(db, es)
  {
    hide Less, InRange, LogKey, Ordered, LogWritten, Kept, Lossless, Storable, Decoded;
    var d, kept := LogWritten(c, db, es), Kept(db, es);
    RegionAfter(c, db, es);
    KeptMembers(db, es, SENTINEL);
    SmallLog(es);
    var kvs := Scanned(d, LOG_START, LOG_END, LIMIT).kvs;
    assert |kvs| == |kept|;
    forall i | 0 <= i < |kept| ensures kvs[i].1 == c.encode(kept[i]) {
      WrittenValue(c, db, es, kept[i]);
      assert kvs[i].0 == Keys(kept)[i];
    }
    DecodedAll(c, kvs, kept);
  }

  /** A stored pair contributes its entry if it parses and nothing if it does not, whatever is around it. */
  lemma {:induction false} EachPairCounts(c: Serializer, a: seq<(Bytes, Bytes)>, b: seq<(Bytes, Bytes)>)
    ensures Decoded(c, a + b) == Decoded(c, a) + Decoded(c, b)
    ensures forall kv :: Decoded(c, [kv]) == match c.decode(kv.1) case None => [] case Some(e) => [e]
  {
    forall kv ensures Decoded(c, [kv]) == match c.decode(kv.1) case None => [] case Some(e) => [e] {
      assert [kv][..0] == [];
    }
    if b == [] {
      assert a + b == a;
    } else {
      assert (a + b)[..|a + b| - 1] == a + b[..|b| - 1];
      EachPairCounts(c, a, b[..|b| - 1]);
    }
  }

  /** A store nothing was written to leaves a node as it is. */
  lemma NothingToLoad(c: Serializer, n: Node)
    ensures Recovered(c, map[]) == Some(Durable(0, 0, [])) && Loaded(n, Recovered(c, map[])) == n
  {
    assert Range(map[], LOG_START, LOG_END) == {};
    assert Scanned(map[], LOG_START, LOG_END, LIMIT).kvs == [];
  }

  /** No more is ever read back than the scan's limit. */
  lemma {:induction false} DecodedNoMore(c: Serializer, kvs: seq<(Bytes, Bytes)>)
    ensures |Decoded(c, kvs)| <= |kvs|
  {
    if kvs != [] { DecodedNoMore(c, kvs[..|kvs| - 1]); }
  }

  lemma EntriesLimited(c: Serializer, db: Store)
    ensures |StoredEntries(c, db)| <= 100000
  {
    DecodedNoMore(c, Scanned(db, LOG_START, LOG_END, LIMIT).kvs);
  }

  lemma {:induction false} KeptSame(a: Store, b: Store, es: seq<Entry>)
    requires forall i :: 0 <= i < |es| ==> (LogKey(es[i].index) in a <==> LogKey(es[i].index) in b)
    ensures Kept(a, es) == Kept(b, es)
  {
    hide LogKey;
    if es != [] { KeptSame(a, b, es[..|es| - 1]); }
  }

  /** Exactly what a restart reads after a persist: the term, the vote, and the entries whose
      keys the store did not hold before. */
  lemma RecoverAfterPersist(c: Serializer, db: Store, term: nat, vote: nat, es: seq<Entry>)
    requires Lossless(c) && Storable(es) && |LogRegion(db)| <= 100000
    ensures Recovered(c, Persisted(c, db, term, vote, es)) == Some(Durable(term, vote, Kept(db, es)))
  {
    hide InRange, LogKey, LogWritten, Kept, Lossless, Storable, StoredEntries, Decimal, Number;
    var d := db[TERM_KEY := Decimal(term)][VOTE_KEY := Decimal(vote)];
    NumbersSurvive(c, db, term, vote, es);
    NumbersKeepRegion(db, Decimal(term), Decimal(vote));
    EntriesAfter(c, d, es);
    NumbersNotWritten(es);
    forall i | 0 <= i < |es| ensures LogKey(es[i].index) != TERM_KEY && LogKey(es[i].index) != VOTE_KEY {
      assert Names(es, LogKey(es[i].index));
    }
    KeptSame(d, db, es);
  }

  lemma SmallLog(es: seq<Entry>)
    requires Storable(es)
    ensures |es| <= 100000
  {
  }

  /** Persisting and restarting restores the whole log iff no key written was in the store before. */
  lemma RestoredIffDisjoint(c: Serializer, db: Store, term: nat, vote: nat, es: seq<Entry>)
    requires Lossless(c) && Storable(es) && |LogRegion(db)| <= 100000
    ensures Recovered(c, Persisted(c, db, term, vote, es)) == Some(Durable(term, vote, es))
      <==> LogRegion(db) !! (set i | 0 <= i < |es| :: LogKey(es[i].index))
  {
    hide Less, InRange, LogKey, Ordered, Persisted, Recovered, Kept, Lossless;
    RecoverAfterPersist(c, db, term, vote, es);
    KeptAll(db, es);
    forall i | 0 <= i < |es| ensures LogKey(es[i].index) in db <==> LogKey(es[i].index) in LogRegion(db) {
      LogKeyInRange(es[i].index);
    }
    var written := set i | 0 <= i < |es| :: LogKey(es[i].index);
    assert forall i :: 0 <= i < |es| ==> LogKey(es[i].index) in written;
  }

  /** A node that persists and restarts as a new object has its term, vote and log back iff no key
      it wrote was in the store before. */
  lemma RestartRestores(c: Serializer, db: Store, n: Node)
    requires Lossless(c) && |n.log| >= 1 && n.log[0] == SENTINEL && Storable(n.log[1..]) && |LogRegion(db)| <= 100000
    requires n.term == 0 ==> n.votedFor == 0
    ensures var m := Loaded(Fresh(n.id, n.peers), Recovered(c, Persisted(c, db, n.term, n.votedFor, n.log[1..])));
      && m.term == n.term && m.votedFor == n.votedFor
      && (m.log == n.log <==> forall i :: 1 <= i < |n.log| ==> LogKey(n.log[i].index) !in db)
  {
    hide LogKey, Persisted, Recovered, Kept, Lossless, Storable;
    var es := n.log[1..];
    RecoverAfterPersist(c, db, n.term, n.votedFor, es);
    KeptAll(db, es);
    var m := Loaded(Fresh(n.id, n.peers), Some(Durable(n.term, n.votedFor, Kept(db, es))));
    assert n.log == [SENTINEL] + es && m.log == [SENTINEL] + Kept(db, es);
    assert m.log[1..] == Kept(db, es);
    assert forall i :: 1 <= i < |n.log| ==> n.log[i] == es[i - 1];
    assert forall i :: 0 <= i < |es| ==> n.log[i + 1] == es[i];
  }
}
