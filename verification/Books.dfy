/**
  Three numbers for every name: the entry of the version map, the store's count of writes in the key's current
  lifetime, and the number written inside each record. What services do to them, and how far they drift apart.
 */
module Books {
  import opened Mvcc
  import opened Versions
  import opened Landing

  /** The version map, what the store has, and what is on its way there. */
  datatype Book<T> = Book(
    versions: map<string, nat>, log: seq<Op<string, Versioned<T>>>, queue: seq<Op<string, Versioned<T>>>)

  /** The records of name, newest first, once everything on its way has landed in sending order. */
  function Writes<T>(b: Book<T>, name: string): seq<Versioned<T>> {
    Expected(b.log, b.queue, name)
  }

  /** Names are plain and numbers positive. */
  predicate Orderly<T>(b: Book<T>) {
    forall n :: n in b.versions ==> '-' !in n && b.versions[n] >= 1
  }

  /**
    What an event does to the numbers: nothing, draw one, draw one and send a record under it, forget the entry and
    send a delete of key, or let an item land.
   */
  datatype Effect =
    | Same
    | Drawn(name: string)
    | Wrote(name: string)
    | Forgot(name: string, key: string)
    | Landed(i: nat)

  /** The item sent, with the number drawn for it. */
  ghost predicate Sent<T>(b: Book<T>, d: Book<T>, name: string, body: T) {
    d.queue == b.queue + [Put(name, Versioned(VersionOf(b.versions, name) + 1, body))]
  }

  ghost predicate Shows<T(!new)>(b: Book<T>, d: Book<T>, f: Effect) {
    match f
    case Same => d == b
    case Drawn(name) => '-' !in name && d == b.(versions := Bump(b.versions, name))
    case Wrote(name) =>
      && '-' !in name && d.versions == Bump(b.versions, name)
      && d.log == b.log && exists body :: Sent(b, d, name, body)
    case Forgot(name, key) => d == b.(versions := b.versions - {name}, queue := b.queue + [Del(key)])
    case Landed(i) => i < |b.queue| && d == b.(log := Commit(b.log, b.queue[i]), queue := Without(b.queue, i))
  }

  /** An item is sent for name only when nothing is on its way for it. */
  predicate SendsQuietly<T>(b: Book<T>, f: Effect, name: string) {
    f == Wrote(name) || (f.Forgot? && f.key == name) ==> Quiet(b.queue, name)
  }

  lemma EffectOrderly<T(!new)>(b: Book<T>, d: Book<T>, f: Effect)
    requires Orderly(b) && Shows(b, d, f)
    ensures Orderly(d)
  {
  }

  // How far the map is ahead ------------------------------------------------------------------------------

  /** By how much the entry of the version map exceeds the store's count. */
  function Gap<T>(b: Book<T>, name: string): int {
    VersionOf(b.versions, name) - |Writes(b, name)|
  }

  function GapAfter(f: Effect, name: string, gap: int): int {
    if f.Forgot? && f.name == name then 0 else if f == Drawn(name) then gap + 1 else gap
  }

  /** One record is on its way at most; the map is never behind, and while it is not ahead, records agree too. */
  predicate CountedAt<T>(b: Book<T>, name: string) {
    && AtMostOne(b.queue, name)
    && Gap(b, name) >= 0 && (Gap(b, name) == 0 ==> AgreeWith(b.versions, name, Writes(b, name)))
  }

  lemma WroteCounted<T(!new)>(b: Book<T>, d: Book<T>, n: string, name: string)
    requires CountedAt(b, name) && Shows(b, d, Wrote(n)) && SendsQuietly(b, Wrote(n), name)
    ensures CountedAt(d, name) && Gap(d, name) == Gap(b, name)
  {
    var body :| Sent(b, d, n, body);
    SendExpected(b.log, b.queue, Put(n, Versioned(VersionOf(b.versions, n) + 1, body)), name);
    if n == name && Gap(b, name) == 0 {
      AgreeDrawn(b.versions, name, Writes(b, name), body);
    }
  }

  lemma EffectCounted<T(!new)>(b: Book<T>, d: Book<T>, f: Effect, name: string)
    requires Orderly(b) && CountedAt(b, name) && Shows(b, d, f) && SendsQuietly(b, f, name)
    requires f.Forgot? ==> f.key == f.name
    ensures CountedAt(d, name) && Gap(d, name) == GapAfter(f, name, Gap(b, name))
  {
    match f
    case Same =>
    case Drawn(_) =>
    case Wrote(n) => WroteCounted(b, d, n, name);
    case Forgot(_, key) => SendExpected(b.log, b.queue, Del(key), name);
    case Landed(i) => LandExpected(b.log, b.queue, i, name);
  }

  // In step or out of it ----------------------------------------------------------------------------------

  /** Map, store and records agree for the name, and one record is on its way at most. */
  predicate InStep<T>(b: Book<T>, name: string) {
    AtMostOne(b.queue, name) && AgreeWith(b.versions, name, Writes(b, name))
  }

  /** Out of step for good: a record has the wrong number, or the next one will have. */
  predicate Broken<T>(b: Book<T>, name: string) {
    var h, v := Writes(b, name), VersionOf(b.versions, name);
    && AtMostOne(b.queue, name)
    && ((exists i :: 0 <= i < |h| && h[i].version != |h| - i) || (h != [] && (v > |h| || v == 0)))
  }

  lemma BrokenIsOut<T>(b: Book<T>, name: string)
    ensures !(Broken(b, name) && InStep(b, name))
  {
  }

  lemma BrokenStays<T>(h: seq<Versioned<T>>, r: Versioned<T>)
    requires (exists i :: 0 <= i < |h| && h[i].version != |h| - i) || r.version != |h| + 1
    ensures var g := [r] + h; exists i :: 0 <= i < |g| && g[i].version != |g| - i
  {
    var g := [r] + h;
    if r.version != |h| + 1 {
      assert g[0].version != |g| - 0;
    } else {
      var i :| 0 <= i < |h| && h[i].version != |h| - i;
      assert g[i + 1].version != |g| - (i + 1);
    }
  }

  lemma DrawnSteps<T>(b: Book<T>, d: Book<T>, name: string, body: T)
    requires d.versions == Bump(b.versions, name) && AtMostOne(d.queue, name)
    requires Writes(d, name) == [Versioned(VersionOf(b.versions, name) + 1, body)] + Writes(b, name)
    ensures (InStep(b, name) ==> InStep(d, name)) && (Broken(b, name) ==> Broken(d, name))
  {
    if Broken(b, name) {
      BrokenStays(Writes(b, name), Versioned(VersionOf(b.versions, name) + 1, body));
    } else if InStep(b, name) {
      AgreeDrawn(b.versions, name, Writes(b, name), body);
    }
  }

  lemma WroteSteps<T(!new)>(b: Book<T>, d: Book<T>, n: string, name: string)
    requires Orderly(b) && Shows(b, d, Wrote(n)) && SendsQuietly(b, Wrote(n), name)
    ensures (InStep(b, name) ==> InStep(d, name)) && (Broken(b, name) ==> Broken(d, name))
  {
    var body :| Sent(b, d, n, body);
    SendExpected(b.log, b.queue, Put(n, Versioned(VersionOf(b.versions, n) + 1, body)), name);
    if n == name {
      DrawnSteps(b, d, name, body);
    }
  }

  /** A number drawn for an existing name without a record, or an entry forgotten while its records stay. */
  predicate Drifts(f: Effect, name: string) {
    f == Drawn(name) || (f.Forgot? && f.name == name)
  }

  /** Where deletes go to other keys, one event sets a name out of step precisely when it drifts. */
  lemma EffectSteps<T(!new)>(b: Book<T>, d: Book<T>, f: Effect, name: string)
    requires Orderly(b) && Shows(b, d, f) && SendsQuietly(b, f, name)
    requires f.Drawn? || f.Forgot? ==> f.name in b.versions
    requires f.Forgot? ==> f.key != name
    ensures InStep(b, name) ==> (InStep(d, name) <==> !Drifts(f, name))
    ensures (InStep(b, name) && Drifts(f, name)) || Broken(b, name) ==> Broken(d, name)
  {
    BrokenIsOut(d, name);
    match f
    case Same =>
    case Drawn(_) =>
    case Wrote(n) => WroteSteps(b, d, n, name);
    case Forgot(_, key) => SendExpected(b.log, b.queue, Del(key), name);
    case Landed(i) =>
      if AtMostOne(b.queue, name) {
        LandExpected(b.log, b.queue, i, name);
      }
  }
}
