/** The service object between a Raft node and its engine. */
module RaftServiceClass {
  import opened ByteStrings
  import opened Engine
  import opened RaftTypes
  import opened RaftNodeClass
  import opened RaftStore
  import opened Replica

  class RaftService {
    const engine: RocksEngine
    const raft: RaftNode
    const codec: Serializer
    const parse: Parser

    constructor (engine: RocksEngine, raft: RaftNode, codec: Serializer, parse: Parser)
      ensures this.engine == engine && this.raft == raft && this.codec == codec && this.parse == parse
    {
      this.engine, this.raft, this.codec, this.parse := engine, raft, codec, parse;
    }

    method OnApply(cmd: Command)
      modifies engine
      ensures engine.db == Perform(old(engine.db), parse(cmd))
      ensures var op := parse(cmd);
        && (op.PutOp? ==> op.key in engine.db && engine.db[op.key] == op.value)
        && (op.DeleteOp? ==> op.key !in engine.db)
        && (forall k :: !Touches(op, k) ==> SameAt(engine.db, old(engine.db), k))
    {
      match parse(cmd)
      case PutOp(k, v) => engine.Put(k, v);
      case DeleteOp(k) => engine.Del(k);
      case Other =>
    }

    method PersistRaftState()
      requires |raft.log| >= 1
      modifies engine
      ensures engine.db == Persisted(codec, old(engine.db), raft.currentTerm, raft.votedFor, raft.log[1..])
    {
      hide Scanned, Batch, LogKey;
      engine.Put(TERM_KEY, Decimal(raft.currentTerm));
      engine.Put(VOTE_KEY, Decimal(raft.votedFor));
      ghost var d := engine.db;
      var scan := engine.Scan(LOG_START, LOG_END, LIMIT);
      var oldKeys: seq<Bytes> := [];
      for i := 0 to |scan.kvs|
        invariant engine.db == d
        invariant oldKeys == Firsts(scan.kvs[..i])
      {
        oldKeys := oldKeys + [scan.kvs[i].0];
      }
      assert scan.kvs[..|scan.kvs|] == scan.kvs;
      var puts: seq<(Bytes, Bytes)> := [];
      for i := 1 to |raft.log|
        invariant engine.db == d
        invariant puts == LogPuts(codec, raft.log[1..i])
      {
        var key := EncodeLogKey(raft.log[i].index);
        assert raft.log[1..i + 1] == raft.log[1..i] + [raft.log[i]];
        puts := puts + [(key, codec.encode(raft.log[i]))];
      }
      assert raft.log[1..|raft.log|] == raft.log[1..];
      engine.WriteBatch(puts, oldKeys);
    }

    /** A number of the store; `ok` is false where the original throws. */
    method ReadStored(key: Bytes) returns (ok: bool, n: nat)
      ensures ReadNumber(engine.db, key) == if ok then Some(n) else None
    {
      var found, text := engine.Find(key);
      if !found {
        return true, 0;
      }
      match Number(text)
      case None => return false, 0;
      case Some(v) => return true, v;
    }

    method RecoverRaftState() returns (ok: bool)
      modifies raft
      ensures ok == Recovered(codec, engine.db).Some?
      ensures raft.calls == old(raft.calls)
      ensures raft.State() == Loaded(old(raft.State()), Recovered(codec, engine.db))
    {
      hide Scanned;
      var okTerm, term := ReadStored(TERM_KEY);
      if !okTerm {
        return false;
      }
      var okVote, vote := ReadStored(VOTE_KEY);
      if !okVote {
        return false;
      }
      var scan := engine.Scan(LOG_START, LOG_END, LIMIT);
      var entries: seq<Entry> := [];
      for i := 0 to |scan.kvs|
        invariant entries == Decoded(codec, scan.kvs[..i])
      {
        assert scan.kvs[..i + 1][..i] == scan.kvs[..i];
        match codec.decode(scan.kvs[i].1)
        case None =>
        case Some(e) => entries := entries + [e];
      }
      assert scan.kvs[..|scan.kvs|] == scan.kvs;
      if term > 0 || entries != [] {
        raft.LoadPersistedState(term, vote, entries);
      }
      ok := true;
    }
  }
}
