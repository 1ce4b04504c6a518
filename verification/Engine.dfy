/** The storage engine: a sorted map of byte strings with range scans and ordered batches. */
module Engine {
  import opened ByteStrings

  type Store = map<Bytes, Bytes>

  /** The keys of [start, end); an empty `end` means no upper bound. */
  function Range(db: Store, start: Bytes, end: Bytes): set<Bytes> {
    set k | k in db.Keys && InRange(k, start, end)
  }

  predicate InRange(k: Bytes, start: Bytes, end: Bytes) {
    !Less(k, start) && (end == [] || Less(k, end))
  }

  datatype ScanResult = ScanResult(kvs: seq<(Bytes, Bytes)>, hasMore: bool, nextKey: Bytes)

  /** The pairs of the first `limit` keys of the range, in key order, and where to go on. */
  function Scanned(db: Store, start: Bytes, end: Bytes, limit: nat): ScanResult {
    var ks := Ordered(Range(db, start, end));
    var n := if |ks| <= limit then |ks| else limit;
    assert forall k :: k in ks[..n] ==> k in ks;
    ScanResult(Pairs(db, ks[..n]), |ks| > limit, if |ks| > limit then ks[limit] else [])
  }

  function Pairs(db: Store, ks: seq<Bytes>): seq<(Bytes, Bytes)>
    requires forall k :: k in ks ==> k in db
  {
    seq(|ks|, i requires 0 <= i < |ks| => (ks[i], db[ks[i]]))
  }

  /** A batch performs its puts in order and then its deletes: a key in both ends absent. */
  function Batch(db: Store, puts: seq<(Bytes, Bytes)>, deletes: seq<Bytes>): Store {
    PutAll(db, puts) - (set k | k in deletes)
  }

  function PutAll(db: Store, puts: seq<(Bytes, Bytes)>): Store {
    if puts == [] then db
    else
      var last := puts[|puts| - 1];
      PutAll(db, puts[..|puts| - 1])[last.0 := last.1]
  }

  /** The keys from index `lo` up to `hi` of the iteration are the range, in order. */
  lemma RangeIsSlice(db: Store, start: Bytes, end: Bytes, ks: seq<Bytes>, lo: nat, hi: nat)
    requires ks == Ordered(db.Keys) && lo <= hi <= |ks|
    requires forall i :: 0 <= i < lo ==> Less(ks[i], start)
    requires forall i :: lo <= i < hi ==> InRange(ks[i], start, end)
    requires hi < |ks| ==> end != [] && !Less(ks[hi], end)
    ensures ks[lo..hi] == Ordered(Range(db, start, end))
  {
    hide Less, Ordered;
    forall k ensures k in ks[lo..hi] <==> k in Range(db, start, end) {
      if k in ks[lo..hi] {
        assert k in ks;
      }
      if k in Range(db, start, end) {
        var i := Located(start, end, ks, lo, hi, k);
        assert ks[lo..hi][i - lo] == k;
      }
    }
    AscendingUnique(ks[lo..hi], Ordered(Range(db, start, end)));
  }

  lemma Located(start: Bytes, end: Bytes, ks: seq<Bytes>, lo: nat, hi: nat, k: Bytes) returns (i: nat)
    requires Ascending(ks) && lo <= hi <= |ks| && k in ks && InRange(k, start, end)
    requires forall i :: 0 <= i < lo ==> Less(ks[i], start)
    requires hi < |ks| ==> end != [] && !Less(ks[hi], end)
    ensures lo <= i < hi && ks[i] == k
  {
    hide Less;
    i :| 0 <= i < |ks| && ks[i] == k;
    if i > hi { BelowEnd(ks[hi], ks[i], end); }
  }

  lemma BelowEnd(a: Bytes, b: Bytes, end: Bytes)
    requires Less(a, b) && Less(b, end)
    ensures Less(a, end)
  {
    LessTrans(a, b, end);
  }

  lemma AboveStart(start: Bytes, a: Bytes, b: Bytes)
    requires Less(a, b) && !Less(a, start)
    ensures !Less(b, start)
  {
    if Less(b, start) { LessTrans(a, b, start); }
  }

  /** The scan stopped at its limit with more of the range to come. */
  lemma LimitReached(db: Store, start: Bytes, end: Bytes, limit: nat, ks: seq<Bytes>, lo: nat, i: nat, hi: nat)
    requires ks == Ordered(db.Keys) && lo <= i < hi <= |ks| && i - lo == limit
    requires forall j :: 0 <= j < lo ==> Less(ks[j], start)
    requires forall j :: lo <= j < hi ==> InRange(ks[j], start, end)
    requires hi < |ks| ==> end != [] && !Less(ks[hi], end)
    ensures Scanned(db, start, end, limit) == ScanResult(Pairs(db, ks[lo..i]), true, ks[i])
  {
    hide Less, Ordered;
    RangeIsSlice(db, start, end, ks, lo, hi);
    assert ks[lo..hi][..limit] == ks[lo..i] && ks[lo..hi][limit] == ks[i];
  }

  lemma RangeExhausted(db: Store, start: Bytes, end: Bytes, limit: nat, ks: seq<Bytes>, lo: nat, hi: nat)
    requires ks == Ordered(db.Keys) && lo <= hi <= |ks| && hi - lo <= limit
    requires forall j :: 0 <= j < lo ==> Less(ks[j], start)
    requires forall j :: lo <= j < hi ==> InRange(ks[j], start, end)
    requires hi < |ks| ==> end != [] && !Less(ks[hi], end)
    ensures Scanned(db, start, end, limit) == ScanResult(Pairs(db, ks[lo..hi]), false, [])
  {
    hide Less, Ordered;
    RangeIsSlice(db, start, end, ks, lo, hi);
    assert ks[lo..hi][..hi - lo] == ks[lo..hi];
  }

  /** A scan, in terms of the store: ascending keys of [start, end) with their values, and all of them up to
      the key to go on with, if there is one. */
  lemma ScanReads(db: Store, start: Bytes, end: Bytes, limit: nat)
    ensures var r := Scanned(db, start, end, limit);
      && |r.kvs| <= limit && (r.hasMore ==> |r.kvs| == limit)
      && (forall i, j :: 0 <= i < j < |r.kvs| ==> Less(r.kvs[i].0, r.kvs[j].0))
      && (forall i :: 0 <= i < |r.kvs| ==> r.kvs[i].0 in db && db[r.kvs[i].0] == r.kvs[i].1)
      && (forall i :: 0 <= i < |r.kvs| ==> !Less(r.kvs[i].0, start) && (end == [] || Less(r.kvs[i].0, end)))
      && (forall i :: 0 <= i < |r.kvs| && r.hasMore ==> Less(r.kvs[i].0, r.nextKey))
      && (forall k ::
            k in db && !Less(k, start) && (end == [] || Less(k, end)) && (r.hasMore ==> Less(k, r.nextKey)) ==>
            exists i :: 0 <= i < |r.kvs| && r.kvs[i] == (k, db[k]))
  {
    hide Less, Ordered;
    var ks := Ordered(Range(db, start, end));
    var r := Scanned(db, start, end, limit);
    assert forall i :: 0 <= i < |ks| ==> ks[i] in Range(db, start, end);
    forall k | k in db && !Less(k, start) && (end == [] || Less(k, end)) && (r.hasMore ==> Less(k, r.nextKey))
      ensures exists i :: 0 <= i < |r.kvs| && r.kvs[i] == (k, db[k])
    {
      assert k in Range(db, start, end);
      var i :| 0 <= i < |ks| && ks[i] == k;
      if r.hasMore && i >= limit { NotBelow(ks, limit, i); }
      assert r.kvs[i] == (k, db[k]);
    }
  }

  lemma NotBelow(ks: seq<Bytes>, a: nat, b: nat)
    requires Ascending(ks) && a <= b < |ks|
    ensures !Less(ks[b], ks[a])
  {
    if Less(ks[b], ks[a]) {
      if a < b { LessTrans(ks[a], ks[b], ks[a]); }
      LessIrreflexive(ks[a]);
    }
  }

  class RocksEngine {
    var db: Store

    constructor ()
      ensures db == map[]
    {
      db := map[];
    }

    method Put(key: Bytes, value: Bytes)
      modifies this
      ensures db == old(db)[key := value]
    {
      db := db[key := value];
    }

    method Find(key: Bytes) returns (found: bool, value: Bytes)
      ensures found == (key in db) && (found ==> value == db[key])
    {
      if key in db {
        return true, db[key];
      }
      return false, [];
    }

    method Del(key: Bytes)
      modifies this
      ensures db == old(db) - {key}
    {
      db := db - {key};
    }

    method Seek(ks: seq<Bytes>, start: Bytes) returns (i: nat)
      requires Ascending(ks)
      ensures i <= |ks|
      ensures forall j :: 0 <= j < i ==> Less(ks[j], start)
      ensures forall j :: i <= j < |ks| ==> !Less(ks[j], start)
    {
      i := 0;
      while i < |ks| && Less(ks[i], start)
        invariant i <= |ks|
        invariant forall j :: 0 <= j < i ==> Less(ks[j], start)
      {
        i := i + 1;
      }
      forall j | i <= j < |ks| ensures !Less(ks[j], start) {
        if i < j { AboveStart(start, ks[i], ks[j]); }
      }
    }

    method Scan(start: Bytes, end: Bytes, limit: nat) returns (result: ScanResult)
      ensures result == Scanned(db, start, end, limit)
    {
      hide Less, Ordered, Scanned;
      var ks := Ordered(db.Keys);
      var lo := Seek(ks, start);
      var i := lo;
      var kvs := [];
      while i < |ks|
        invariant lo <= i <= |ks| && i - lo <= limit
        invariant forall j :: lo <= j < i ==> InRange(ks[j], start, end)
        invariant kvs == Pairs(db, ks[lo..i])
      {
        if end != [] && !Less(ks[i], end) {
          break;
        }
        if i - lo >= limit {
          ghost var hi := RangeEnd(ks, start, end, lo, i);
          LimitReached(db, start, end, limit, ks, lo, i, hi);
          return ScanResult(kvs, true, ks[i]);
        }
        assert ks[lo..i + 1] == ks[lo..i] + [ks[i]];
        kvs := kvs + [(ks[i], db[ks[i]])];
        i := i + 1;
      }
      RangeExhausted(db, start, end, limit, ks, lo, i);
      return ScanResult(kvs, false, []);
    }

    /** Where the range ends, beyond the point the scan stopped at. */
    ghost method RangeEnd(ks: seq<Bytes>, start: Bytes, end: Bytes, lo: nat, i: nat) returns (hi: nat)
      requires Ascending(ks) && lo <= i < |ks|
      requires forall j :: lo <= j < |ks| ==> !Less(ks[j], start)
      requires forall j :: lo <= j <= i ==> InRange(ks[j], start, end)
      ensures i < hi <= |ks|
      ensures forall j :: lo <= j < hi ==> InRange(ks[j], start, end)
      ensures hi < |ks| ==> end != [] && !Less(ks[hi], end)
    {
      hi := i + 1;
      while hi < |ks| && InRange(ks[hi], start, end)
        invariant i < hi <= |ks|
        invariant forall j :: lo <= j < hi ==> InRange(ks[j], start, end)
      {
        hi := hi + 1;
      }
    }

    method WriteBatch(puts: seq<(Bytes, Bytes)>, deletes: seq<Bytes>)
      modifies this
      ensures db == Batch(old(db), puts, deletes)
    {
      for i := 0 to |puts|
        invariant db == PutAll(old(db), puts[..i])
      {
        assert puts[..i + 1][..i] == puts[..i];
        db := db[puts[i].0 := puts[i].1];
      }
      assert puts[..|puts|] == puts;
      ghost var full := db;
      for i := 0 to |deletes|
        invariant db == full - (set k | k in deletes[..i])
      {
        db := db - {deletes[i]};
      }
      assert deletes[..|deletes|] == deletes;
    }
  }
}
