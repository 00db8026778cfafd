/**
  The multi-version store and the walk over it, internal/etcd. The store is a log of writes; write number r
  makes revision r. A key that is deleted and written again starts a new lifetime.
 */
module Mvcc {
  import opened Prelude

  datatype Op<K, V> = Put(key: K, value: V) | Del(key: K)

  /** What a read returns: the value, and the bookkeeping of the key's current lifetime. */
  datatype KeyValue<V> = KeyValue(value: V, createRevision: nat, modRevision: nat, version: nat)

  /** The key as it was at revision rev. */
  function At<K(==), V>(log: seq<Op<K, V>>, key: K, rev: nat): (r: Option<KeyValue<V>>)
    requires rev <= |log|
  {
    if rev == 0 then None
    else
      var prev := At(log, key, rev - 1);
      match log[rev - 1]
      case Put(k, v) =>
        if k != key then prev
        else if prev.None? then Some(KeyValue(v, rev, rev, 1))
        else Some(KeyValue(v, prev.value.createRevision, rev, prev.value.version + 1))
      case Del(k) => if k == key then None else prev
  }

  /** The key as it is now. */
  function Latest<K(==), V>(log: seq<Op<K, V>>, key: K): Option<KeyValue<V>> {
    At(log, key, |log|)
  }

  // The history of a key ----------------------------------------------------------------------------------

  datatype Combine<V> = Combine(version: nat, revision: nat, value: V)

  /** The writes of the lifetime current at rev, newest first. */
  function History<K(==), V>(log: seq<Op<K, V>>, key: K, rev: nat): seq<Combine<V>>
    requires rev <= |log|
  {
    if rev == 0 then []
    else
      var before := History(log, key, rev - 1);
      match log[rev - 1]
      case Put(k, v) => if k == key then [Combine(|before| + 1, rev, v)] + before else before
      case Del(k) => if k == key then [] else before
  }

  predicate WrittenAt<K(==), V>(log: seq<Op<K, V>>, key: K, rev: nat) {
    1 <= rev <= |log| && log[rev - 1].Put? && log[rev - 1].key == key
  }

  ghost predicate DeletedSince<K, V>(log: seq<Op<K, V>>, key: K, from: nat, to: nat)
    requires to <= |log|
  {
    exists r :: from <= r < to && log[r] == Del(key)
  }

  /** Versions count down to 1 along the list, and revisions fall. */
  ghost predicate Numbered<V>(h: seq<Combine<V>>, rev: nat) {
    && (forall i :: 0 <= i < |h| ==> h[i].version == |h| - i && 1 <= h[i].revision <= rev)
    && (forall i, j :: 0 <= i < j < |h| ==> h[j].revision < h[i].revision)
  }

  lemma NumberedCons<V>(before: seq<Combine<V>>, rev: nat, v: V)
    requires Numbered(before, rev)
    ensures Numbered(before, rev + 1) && Numbered([Combine(|before| + 1, rev + 1, v)] + before, rev + 1)
  {
  }

  lemma {:induction false} HistoryNumbered<K, V>(log: seq<Op<K, V>>, key: K, rev: nat)
    requires rev <= |log|
    ensures Numbered(History(log, key, rev), rev)
  {
    if rev > 0 {
      HistoryNumbered(log, key, rev - 1);
      var before, h := History(log, key, rev - 1), History(log, key, rev);
      if WrittenAt(log, key, rev) {
        NumberedCons(before, rev - 1, log[rev - 1].value);
        assert h == [Combine(|before| + 1, rev, log[rev - 1].value)] + before;
      } else {
        assert h == [] || h == before;
      }
    }
  }

  /** Entry e records a write of the log that no later delete before revision rev wiped out. */
  ghost predicate Records<K, V>(log: seq<Op<K, V>>, key: K, rev: nat, e: Combine<V>)
    requires rev <= |log|
  {
    && e.revision <= rev && WrittenAt(log, key, e.revision) && e.value == log[e.revision - 1].value
    && !DeletedSince(log, key, e.revision, rev)
  }

  lemma RecordsStep<K, V>(log: seq<Op<K, V>>, key: K, rev: nat, e: Combine<V>)
    requires 1 <= rev <= |log| && e.revision < rev
    ensures Records(log, key, rev, e) <==> Records(log, key, rev - 1, e) && log[rev - 1] != Del(key)
  {
  }

  /** Every entry of the history is such a write. */
  lemma {:induction false} HistorySound<K, V>(log: seq<Op<K, V>>, key: K, rev: nat)
    requires rev <= |log|
    ensures forall e :: e in History(log, key, rev) ==> Records(log, key, rev, e)
  {
    if rev > 0 {
      HistorySound(log, key, rev - 1);
      forall e | e in History(log, key, rev)
        ensures Records(log, key, rev, e)
      {
        if e in History(log, key, rev - 1) {
          RecordsStep(log, key, rev, e);
        }
      }
    }
  }

  /** And every such write is in the history. */
  lemma {:induction false} HistoryComplete<K, V>(log: seq<Op<K, V>>, key: K, rev: nat, r: nat)
    requires r <= rev <= |log| && WrittenAt(log, key, r) && !DeletedSince(log, key, r, rev)
    ensures exists e :: e in History(log, key, rev) && e.revision == r && e.value == log[r - 1].value
  {
    if r == rev {
      assert History(log, key, rev)[0].revision == r;
    } else {
      assert log[rev - 1] != Del(key);
      HistoryComplete(log, key, rev - 1, r);
      var e :| e in History(log, key, rev - 1) && e.revision == r && e.value == log[r - 1].value;
      assert e in History(log, key, rev);
    }
  }

  /** Later writes do not change what the log said before. */
  lemma {:induction false} HistoryExtend<K, V>(log: seq<Op<K, V>>, more: seq<Op<K, V>>, key: K, rev: nat)
    requires rev <= |log|
    ensures History(log + more, key, rev) == History(log, key, rev)
  {
    if rev > 0 {
      HistoryExtend(log, more, key, rev - 1);
    }
  }

  /** What one more write does to a history. */
  lemma HistoryAppend<K, V>(log: seq<Op<K, V>>, op: Op<K, V>, key: K)
    ensures var before := History(log, key, |log|);
      History(log + [op], key, |log| + 1) ==
        if op.key != key then before
        else if op.Put? then [Combine(|before| + 1, |log| + 1, op.value)] + before
        else []
  {
    HistoryExtend(log, [op], key, |log|);
  }

  lemma {:induction false} AtExtend<K, V>(log: seq<Op<K, V>>, more: seq<Op<K, V>>, key: K, rev: nat)
    requires rev <= |log|
    ensures At(log + more, key, rev) == At(log, key, rev)
  {
    if rev > 0 {
      AtExtend(log, more, key, rev - 1);
    }
  }

  /** What one more write does to a read. */
  lemma LatestAppend<K, V>(log: seq<Op<K, V>>, op: Op<K, V>, key: K)
    ensures var r := Latest(log + [op], key);
      && (op.key != key ==> r == Latest(log, key))
      && (op.key == key && op.Put? ==> r.Some? && r.value.value == op.value)
      && (op.key == key && op.Del? ==> r.None?)
  {
    AtExtend(log, [op], key, |log|);
  }

  /** A read sees the head of the history; its version counts the history. */
  lemma {:induction false} AtHistory<K, V>(log: seq<Op<K, V>>, key: K, rev: nat)
    requires rev <= |log|
    ensures var h, kv := History(log, key, rev), At(log, key, rev);
      && (h == [] <==> kv.None?)
      && (kv.Some? ==>
           && kv.value.version == |h|
           && Combine(kv.value.version, kv.value.modRevision, kv.value.value) == h[0]
           && kv.value.createRevision == h[|h| - 1].revision)
  {
    if rev > 0 {
      AtHistory(log, key, rev - 1);
    }
  }

  /** Inside the current lifetime, the history at an earlier revision is the tail of the present one. */
  lemma {:induction false} EarlierHistory<K, V>(log: seq<Op<K, V>>, key: K, r: nat, rev: nat)
    requires r <= rev <= |log| && At(log, key, rev).Some? && At(log, key, rev).value.createRevision <= r
    ensures At(log, key, r).Some?
    ensures var h, g := History(log, key, rev), History(log, key, r); |g| <= |h| && g == h[|h| - |g|..]
    decreases rev - r
  {
    if r < rev {
      AtHistory(log, key, rev - 1);
      AtHistory(log, key, rev);
      EarlierHistory(log, key, r, rev - 1);
      var h, b, g := History(log, key, rev), History(log, key, rev - 1), History(log, key, r);
      if WrittenAt(log, key, rev) {
        assert h[1..] == b;
        assert h[|h| - |g|..] == b[|b| - |g|..];
      } else {
        assert h == b;
      }
    }
  }

  /** Just after the i-th newest write, the key's version is that write's. */
  lemma {:induction false} VersionAtWrite<K, V>(log: seq<Op<K, V>>, key: K, rev: nat, i: nat)
    requires rev <= |log| && i < |History(log, key, rev)|
    ensures var h := History(log, key, rev); var r := h[i].revision;
      r <= rev && At(log, key, r).Some? && At(log, key, r).value.version == h[i].version
  {
    HistoryNumbered(log, key, rev);
    AtHistory(log, key, rev);
    var h := History(log, key, rev);
    if h[i].revision < rev {
      var b := History(log, key, rev - 1);
      VersionAtWrite(log, key, rev - 1, |b| - |h| + i);
    }
  }

  // Values alone ------------------------------------------------------------------------------------------

  /** The store after one more write; deleting a key that does not exist makes no revision. */
  function Commit<K(==), V>(log: seq<Op<K, V>>, op: Op<K, V>): seq<Op<K, V>> {
    if op.Del? && Latest(log, op.key).None? then log else log + [op]
  }

  function CommitAll<K(==), V>(log: seq<Op<K, V>>, ops: seq<Op<K, V>>): seq<Op<K, V>>
    decreases |ops|
  {
    if ops == [] then log else Commit(CommitAll(log, ops[..|ops| - 1]), ops[|ops| - 1])
  }

  function Values<V>(h: seq<Combine<V>>): (r: seq<V>)
    ensures |r| == |h| && forall i :: 0 <= i < |h| ==> r[i] == h[i].value
  {
    seq(|h|, i requires 0 <= i < |h| => h[i].value)
  }

  /** The values of the key's current lifetime, newest first. */
  function Lived<K(==), V>(log: seq<Op<K, V>>, key: K): seq<V> {
    Values(History(log, key, |log|))
  }

  /** What one write, and what several writes in order, make of the values of a key. */
  function Written<K(==), V>(h: seq<V>, op: Op<K, V>, key: K): seq<V> {
    if op.key != key then h else if op.Put? then [op.value] + h else []
  }

  function WrittenAll<K(==), V>(h: seq<V>, ops: seq<Op<K, V>>, key: K): seq<V>
    decreases |ops|
  {
    if ops == [] then h else Written(WrittenAll(h, ops[..|ops| - 1], key), ops[|ops| - 1], key)
  }

  lemma LivedAppend<K, V>(log: seq<Op<K, V>>, op: Op<K, V>, key: K)
    ensures Lived(log + [op], key) == Written(Lived(log, key), op, key)
  {
    HistoryAppend(log, op, key);
  }

  /** A delete that makes no revision would have had nothing to end. */
  lemma CommitLived<K, V>(log: seq<Op<K, V>>, op: Op<K, V>, key: K)
    ensures Lived(Commit(log, op), key) == Written(Lived(log, key), op, key)
  {
    LivedAppend(log, op, key);
    AtHistory(log, key, |log|);
  }

  lemma {:induction false} CommitAllLived<K, V>(log: seq<Op<K, V>>, ops: seq<Op<K, V>>, key: K)
    ensures Lived(CommitAll(log, ops), key) == WrittenAll(Lived(log, key), ops, key)
    decreases |ops|
  {
    if ops != [] {
      CommitAllLived(log, ops[..|ops| - 1], key);
      CommitLived(CommitAll(log, ops[..|ops| - 1]), ops[|ops| - 1], key);
    }
  }

  lemma WrittenAppend<K, V>(h: seq<V>, ops: seq<Op<K, V>>, op: Op<K, V>, key: K)
    ensures WrittenAll(h, ops + [op], key) == Written(WrittenAll(h, ops, key), op, key)
  {
    assert (ops + [op])[..|ops|] == ops;
  }

  lemma {:induction false} WrittenConcat<K, V>(h: seq<V>, a: seq<Op<K, V>>, b: seq<Op<K, V>>, key: K)
    ensures WrittenAll(h, a + b, key) == WrittenAll(WrittenAll(h, a, key), b, key)
    decreases |b|
  {
    if b == [] {
      assert a + b == a;
    } else {
      var rest, last := b[..|b| - 1], b[|b| - 1];
      WrittenConcat(h, a, rest, key);
      assert a + b == (a + rest) + [last];
      WrittenAppend(h, a + rest, last, key);
    }
  }

  /** A read is the first of the values. */
  lemma LatestLived<K, V>(log: seq<Op<K, V>>, key: K)
    ensures var kv, h := Latest(log, key), Lived(log, key);
      && (kv.None? <==> h == [])
      && (kv.Some? ==> kv.value.value == h[0] && kv.value.version == |h|)
  {
    AtHistory(log, key, |log|);
  }

  // The store and the walk --------------------------------------------------------------------------------

  lemma LifetimeBounds<K, V>(log: seq<Op<K, V>>, key: K)
    requires Latest(log, key).Some?
    ensures var h, kv := History(log, key, |log|), Latest(log, key).value;
      && h != [] && 1 <= kv.createRevision <= kv.modRevision <= |log|
      && |History(log, key, kv.modRevision)| == |h| && |History(log, key, kv.createRevision)| == 1
      && forall i :: 0 <= i < |h| ==> kv.createRevision <= h[i].revision <= kv.modRevision
  {
    var h := History(log, key, |log|);
    HistoryNumbered(log, key, |log|);
    AtHistory(log, key, |log|);
    VersionAtWrite(log, key, |log|, 0);
    VersionAtWrite(log, key, |log|, |h| - 1);
    AtHistory(log, key, h[0].revision);
    AtHistory(log, key, h[|h| - 1].revision);
  }

  /** What the read at rev adds: the entry of that version, and at most one version fewer than at rev + 1. */
  lemma WalkStep<K, V>(log: seq<Op<K, V>>, key: K, rev: nat)
    requires Latest(log, key).Some?
    requires Latest(log, key).value.createRevision <= rev <= Latest(log, key).value.modRevision
    ensures Latest(log, key).value.modRevision <= |log| && At(log, key, rev).Some?
    ensures var h, kv := History(log, key, |log|), At(log, key, rev).value;
      && kv.version == |History(log, key, rev)| && 1 <= kv.version <= |h|
      && Combine(kv.version, kv.modRevision, kv.value) == h[|h| - kv.version]
      && (rev < Latest(log, key).value.modRevision ==>
           kv.version <= |History(log, key, rev + 1)| <= kv.version + 1)
  {
    LifetimeBounds(log, key);
    EarlierHistory(log, key, rev, |log|);
    AtHistory(log, key, rev);
    if rev < Latest(log, key).value.modRevision {
      EarlierHistory(log, key, rev + 1, |log|);
    }
  }

  class Store<K(==), V> {
    var log: seq<Op<K, V>>

    constructor ()
      ensures log == []
    {
      log := [];
    }

    method Put(key: K, value: V)
      modifies this
      ensures log == Commit(old(log), Op.Put(key, value))
    {
      log := log + [Op.Put(key, value)];
    }

    /** Deleting a key that does not exist makes no revision. */
    method Del(key: K)
      modifies this
      ensures log == Commit(old(log), Op.Del(key))
    {
      if Latest(log, key).Some? {
        log := log + [Op.Del(key)];
      }
    }

    method get(key: K) returns (kv: Option<KeyValue<V>>)
      ensures kv == Latest(log, key)
    {
      kv := Latest(log, key);
    }

    method getWithRev(key: K, rev: nat) returns (kv: Option<KeyValue<V>>)
      requires rev <= |log|
      ensures kv == At(log, key, rev)
    {
      kv := At(log, key, rev);
    }

    /** The whole current lifetime, or None if the key does not exist. */
    method GetRevisionRange(key: K) returns (r: Option<seq<Combine<V>>>)
      ensures r == if Latest(log, key).None? then None else Some(History(log, key, |log|))
    {
      var first := get(key);
      if first.None? {
        return None;
      }
      var set_: seq<Combine<V>> := [];
      var modRev := first.value.modRevision;
      var createRev := first.value.createRevision;
      ghost var h := History(log, key, |log|);
      LifetimeBounds(log, key);

      var pre := 0;
      var rev := modRev;
      while rev >= createRev
        invariant createRev - 1 <= rev <= modRev
        invariant rev == modRev ==> pre == 0 && set_ == []
        invariant rev < modRev ==> pre == |History(log, key, rev + 1)| && 1 <= pre <= |h| && set_ == h[..|h| - pre + 1]
      {
        var kv := getWithRev(key, rev);
        WalkStep(log, key, rev);
        if kv.None? {
          return None;
        }
        if kv.value.version != pre {
          set_ := set_ + [Combine(kv.value.version, kv.value.modRevision, kv.value.value)];
          pre := kv.value.version;
        }
        rev := rev - 1;
      }
      assert rev < modRev && rev + 1 == createRev;
      assert set_ == h[..|h|] == h;
      return Some(set_);
    }

    /** The value written as the given version of the current lifetime, if there is one. */
    method GetRevision(key: K, version: int) returns (r: Option<V>)
      ensures r == Revision(log, key, version)
    {
      var first := get(key);
      AtHistory(log, key, |log|);
      if first.None? {
        return None;
      }
      var modRev := first.value.modRevision;
      var createRev := first.value.createRevision;
      ghost var h := History(log, key, |log|);
      LifetimeBounds(log, key);
      HistoryNumbered(log, key, |log|);
      var rev := modRev;
      while rev >= createRev
        invariant createRev - 1 <= rev <= modRev
        invariant forall q :: rev < q <= modRev && At(log, key, q).Some? ==> At(log, key, q).value.version != version
      {
        var kv := getWithRev(key, rev);
        WalkStep(log, key, rev);
        if kv.None? {
          return None;
        }
        if kv.value.version == version {
          return Some(kv.value.value);
        }
        rev := rev - 1;
      }
      if 1 <= version <= |h| {
        VersionAtWrite(log, key, |log|, |h| - version);
      }
      return None;
    }
  }

  /** Version v of the current lifetime is the v-th write since the key was created. */
  function Revision<K(==), V>(log: seq<Op<K, V>>, key: K, version: int): Option<V> {
    var h := History(log, key, |log|);
    if 1 <= version <= |h| then Some(h[|h| - version].value) else None
  }
}
