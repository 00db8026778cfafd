/**
  Items on their way to the store. They have been sent in some order, but each is written by a goroutine of its
  own, and sent again if that fails; so any of them may land next.
 */
module Landing {
  import opened Mvcc

  function Without<T>(q: seq<T>, i: nat): seq<T>
    requires i < |q|
  {
    q[..i] + q[i + 1..]
  }

  /** Nothing is on its way for this key. */
  predicate Quiet<K(==), V>(q: seq<Op<K, V>>, key: K) {
    forall i :: 0 <= i < |q| ==> q[i].key != key
  }

  /** At most one item is on its way for this key. */
  predicate AtMostOne<K(==), V>(q: seq<Op<K, V>>, key: K) {
    forall i, j :: 0 <= i < j < |q| && q[i].key == key ==> q[j].key != key
  }

  /** The values that the key will have if everything lands in the order in which it was sent. */
  function Expected<K(==), V>(log: seq<Op<K, V>>, q: seq<Op<K, V>>, key: K): seq<V> {
    WrittenAll(Lived(log, key), q, key)
  }

  lemma {:induction false} QuietWritten<K, V>(h: seq<V>, q: seq<Op<K, V>>, key: K)
    requires Quiet(q, key)
    ensures WrittenAll(h, q, key) == h
    decreases |q|
  {
    if q != [] {
      QuietWritten(h, q[..|q| - 1], key);
    }
  }

  /** One item of a queue written among others that do not concern the key. */
  lemma OneWritten<K, V>(h: seq<V>, q: seq<Op<K, V>>, i: nat, key: K)
    requires i < |q| && Quiet(Without(q, i), key)
    ensures WrittenAll(h, q, key) == Written(h, q[i], key)
  {
    var a, b := q[..i], q[i + 1..];
    assert forall j :: 0 <= j < |a| ==> a[j] == Without(q, i)[j];
    assert forall j :: 0 <= j < |b| ==> b[j] == Without(q, i)[i + j];
    assert q == (a + [q[i]]) + b;
    QuietWritten(h, a, key);
    WrittenAppend(h, a, q[i], key);
    WrittenConcat(h, a + [q[i]], b, key);
    QuietWritten(Written(h, q[i], key), b, key);
  }

  lemma WithoutOther<K, V>(h: seq<V>, q: seq<Op<K, V>>, i: nat, key: K)
    requires i < |q| && q[i].key != key
    ensures WrittenAll(h, Without(q, i), key) == WrittenAll(h, q, key)
  {
    var a, b := q[..i], q[i + 1..];
    assert q == (a + [q[i]]) + b;
    WrittenAppend(h, a, q[i], key);
    WrittenConcat(h, a + [q[i]], b, key);
    WrittenConcat(h, a, b, key);
  }

  /** Whichever item lands next: what is expected of a key stays the same, if at most one item is on its way for it. */
  lemma LandExpected<K, V>(log: seq<Op<K, V>>, q: seq<Op<K, V>>, i: nat, key: K)
    requires i < |q| && AtMostOne(q, key)
    ensures Expected(Commit(log, q[i]), Without(q, i), key) == Expected(log, q, key)
    ensures AtMostOne(Without(q, i), key)
  {
    CommitLived(log, q[i], key);
    if q[i].key == key {
      assert Quiet(Without(q, i), key);
      OneWritten(Lived(log, key), q, i, key);
      QuietWritten(Written(Lived(log, key), q[i], key), Without(q, i), key);
    } else {
      WithoutOther(Lived(log, key), q, i, key);
    }
  }

  lemma SendExpected<K, V>(log: seq<Op<K, V>>, q: seq<Op<K, V>>, op: Op<K, V>, key: K)
    ensures Expected(log, q + [op], key) == Written(Expected(log, q, key), op, key)
    ensures (op.key != key && AtMostOne(q, key)) || (op.key == key && Quiet(q, key)) ==> AtMostOne(q + [op], key)
  {
    WrittenAppend(Lived(log, key), q, op, key);
  }

  /** With nothing on its way, what is expected is what is there. */
  lemma QuietExpected<K, V>(log: seq<Op<K, V>>, q: seq<Op<K, V>>, key: K)
    requires Quiet(q, key)
    ensures Expected(log, q, key) == Lived(log, key) && AtMostOne(q, key)
  {
    QuietWritten(Lived(log, key), q, key);
  }

  // Without that discipline -------------------------------------------------------------------------------

  /** The items in sending order, except that number i comes last. */
  function Delayed<T>(q: seq<T>, i: nat): seq<T>
    requires i < |q|
  {
    Without(q, i) + [q[i]]
  }

  /** Nothing but puts for the key: all of their values are there in the end. */
  lemma {:induction false} PutsStay<K, V>(h: seq<V>, q: seq<Op<K, V>>, key: K)
    requires forall i :: 0 <= i < |q| && q[i].key == key ==> q[i].Put?
    ensures forall i :: 0 <= i < |q| && q[i].key == key ==> q[i].value in WrittenAll(h, q, key)
    decreases |q|
  {
    if q != [] {
      var rest, last := q[..|q| - 1], q[|q| - 1];
      PutsStay(h, rest, key);
      forall i | 0 <= i < |q| && q[i].key == key
        ensures q[i].value in WrittenAll(h, q, key)
      {
        if i < |q| - 1 {
          assert rest[i] == q[i] && q[i].value in WrittenAll(h, rest, key);
        }
      }
    }
  }

  lemma DelayedLast<K, V>(h: seq<V>, q: seq<Op<K, V>>, i: nat, key: K)
    requires i < |q| && q[i].key == key
    ensures var r := WrittenAll(h, Delayed(q, i), key);
      if q[i].Put? then r != [] && r[0] == q[i].value else r == []
  {
    WrittenAppend(h, Without(q, i), q[i], key);
  }
}
