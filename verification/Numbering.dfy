/**
  The version map, the store and the records of every replica set over runs of the fleet, and what a rollback then
  finds.
 */
module Numbering {
  import opened Text
  import opened Sizes
  import opened Mvcc
  import opened Versions
  import opened Landing
  import opened Books
  import opened Fleet
  import opened Safety

  function BookOf(s: State): Book<Info> {
    Book(s.versions, s.log, s.queue)
  }

  /** A launch takes its number back, draws it, or draws it and sends it to the store. */
  function LaunchEffect(name: string, l: Launch, sent: bool): Effect {
    match l
    case PortsExhausted => Drawn(name)
    case CreateFailed(_) => Same
    case StartFailed(_, _) => Same
    case Launched(_) => if sent then Wrote(name) else Drawn(name)
  }

  function ReplaceEffect(name: string, how: ReplaceHow): Effect {
    match how
    case NotLaunched(l) => LaunchEffect(name, l, false)
    case Stalled(_) => Drawn(name)
    case NotStarted(_, _) => Drawn(name)
    case NotRemoved(_) => Drawn(name)
    case Replaced(_) => Wrote(name)
    case _ => Same
  }

  function EffectOf(s: State, e: Event): Effect {
    match e
    case Run(spec, _, Ran(l)) => LaunchEffect(spec.name, l, true)
    case Delete(name, Deleted(_)) => if Present(s, name) then Forgot(name, name) else Same
    case Replace(name, _, _, how) => if Replaceable(s, name) then ReplaceEffect(name, how) else Same
    case Rollback(name, version, _, _, how) => if Rollable(s, name, version) then ReplaceEffect(name, how) else Same
    case Sync(i) => Landed(i)
    case _ => Same
  }

  function GapAfterAll(s: State, es: seq<Event>, name: string, gap: int): int
    decreases es
  {
    if es == [] then gap else GapAfterAll(Next(s, es[0]), es[1..], name, GapAfter(EffectOf(s, es[0]), name, gap))
  }

  /** A legal run that sends for name only when nothing is on its way for it. */
  ghost predicate QuietRun(s: State, es: seq<Event>, name: string)
    decreases es
  {
    es != [] ==>
      && Enabled(s, es[0]) && SendsQuietly(BookOf(s), EffectOf(s, es[0]), name)
      && QuietRun(Next(s, es[0]), es[1..], name)
  }

  lemma LaunchShows(s: State, r: State, t: State, name: string, env: seq<string>, h: HostConfig, start: bool,
                    l: Launch, sent: bool)
    requires Orderly(BookOf(s)) && '-' !in name && BookOf(r) == BookOf(s)
    requires t.versions == Launching(r, name, env, h, start, l).versions && t.log == s.log
    requires t.queue == if l.Launched? && sent then s.queue + [RecordOf(r, name, env, h, l.bound)] else s.queue
    ensures Shows(BookOf(s), BookOf(t), LaunchEffect(name, l, sent))
  {
    UndoBump(s.versions, name);
    if l.Launched? && sent {
      assert Sent(BookOf(s), BookOf(t), name, RecordOf(r, name, env, h, l.bound).value.body);
    }
  }

  lemma FinishShows(s: State, r: State, name: string, key: string, c: Container, env: seq<string>, h: HostConfig,
                    how: ReplaceHow)
    requires Orderly(BookOf(s)) && '-' !in name && BookOf(r) == BookOf(s)
    requires how.Stalled? || how.NotStarted? || how.NotRemoved? || how.Replaced?
    ensures Shows(BookOf(s), BookOf(Finish(r, name, key, c, env, h, how)), ReplaceEffect(name, how))
  {
    LaunchShows(s, r, Finish(r, name, key, c, env, h, how), name, env, h, how.NotRemoved? || how.Replaced?,
                Launched(how.bound), how.Replaced?);
  }

  lemma ReplaceShows(s: State, name: string, req: Request, gpus: seq<string>, how: ReplaceHow)
    requires Orderly(BookOf(s)) && Replaceable(s, name) && ReplaceEnabled(s, name, req, gpus, how)
    ensures Shows(BookOf(s), BookOf(ReplaceNext(s, name, req, gpus, how)), ReplaceEffect(name, how))
  {
    var key := Current(s, name);
    var c, info := s.containers[key], Stored(s, name);
    var r, h := Settled(s, c, req, gpus), NewHost(s, c, req, info.host, gpus);
    if how.NotLaunched? {
      NotLaunchedFacts(s, name, req, gpus, how.launch);
      LaunchShows(s, r, ReplaceNext(s, name, req, gpus, how), name, info.env, h, false, how.launch, false);
    } else if how.Stalled? || how.NotStarted? || how.NotRemoved? || how.Replaced? {
      FinishShows(s, r, name, key, c, info.env, h, how);
    }
  }

  lemma RollbackShows(s: State, name: string, version: int, memory: Size, gpus: seq<string>, how: ReplaceHow)
    requires Orderly(BookOf(s)) && Rollable(s, name, version)
    requires RollbackEnabled(s, name, version, memory, gpus, how)
    ensures Shows(BookOf(s), BookOf(RollbackNext(s, name, version, memory, gpus, how)), ReplaceEffect(name, how))
  {
    var key := Current(s, name);
    var c, info := s.containers[key], TargetInfo(s, name, version);
    var req := AsPatch(c, info.host, memory);
    var r, h := Settled(s, c, req, gpus), NewHost(s, c, req, info.host, gpus);
    var t := RollbackNext(s, name, version, memory, gpus, how);
    if how.NotLaunched? {
      LaunchShows(s, r, t, name, info.env, h, true, how.launch, false);
    } else if how.Stalled? {
      LaunchShows(s, r, t, name, info.env, h, true, Launched(how.bound), false);
    } else if how.NotRemoved? || how.Replaced? {
      FinishShows(s, r, name, key, c, info.env, h, how);
    }
  }

  lemma RunShows(s: State, spec: RunSpec, gpus: seq<string>, ran: RunHow)
    requires Orderly(BookOf(s)) && RunEnabled(s, spec, gpus, ran)
    ensures Shows(BookOf(s), BookOf(RunNext(s, spec, gpus, ran)),
                  if ran.Ran? then LaunchEffect(spec.name, ran.launch, true) else Same)
  {
    if ran.Ran? {
      RanFacts(s, spec, gpus, ran.launch);
      LaunchShows(s, AfterApply(s, spec, gpus), RunNext(s, spec, gpus, ran), spec.name, spec.env,
                  RunHost(s, spec, gpus), true, ran.launch, true);
    }
  }

  lemma EventShows(s: State, e: Event)
    requires Orderly(BookOf(s)) && Enabled(s, e)
    ensures Shows(BookOf(s), BookOf(Next(s, e)), EffectOf(s, e))
  {
    match e
    case Run(spec, gpus, ran) => RunShows(s, spec, gpus, ran);
    case Delete(name, deleted) =>
      if Present(s, name) && deleted.Deleted? {
        SplitPlain(name, "-");
      }
    case Replace(name, req, gpus, how) =>
      if Replaceable(s, name) {
        ReplaceShows(s, name, req, gpus, how);
      }
    case Rollback(name, version, memory, gpus, how) =>
      if Rollable(s, name, version) {
        RollbackShows(s, name, version, memory, gpus, how);
      }
    case Sync(_) =>
    case Pause(_, _) =>
    case Continue(_, _) =>
    case Stop(_, _) =>
  }

  /** One event, rollbacks included: the gap grows by one, is closed, or stays. */
  lemma EventGap(s: State, e: Event, name: string)
    requires Orderly(BookOf(s)) && CountedAt(BookOf(s), name) && Enabled(s, e)
    requires SendsQuietly(BookOf(s), EffectOf(s, e), name)
    ensures var b, d := BookOf(s), BookOf(Next(s, e));
      Orderly(d) && CountedAt(d, name) && Gap(d, name) == GapAfter(EffectOf(s, e), name, Gap(b, name))
  {
    EventShows(s, e);
    EffectOrderly(BookOf(s), BookOf(Next(s, e)), EffectOf(s, e));
    EffectCounted(BookOf(s), BookOf(Next(s, e)), EffectOf(s, e), name);
  }

  /**
    Over any run in which the items of a replica set are sent one at a time, in whatever order items land, the map
    is ahead of the store by the number of drifting events since the last deletion; and the three numbers agree
    exactly when there has been no such event.
   */
  lemma {:induction false} RunGap(s: State, es: seq<Event>, name: string)
    requires Orderly(BookOf(s)) && CountedAt(BookOf(s), name) && QuietRun(s, es, name)
    ensures var d, gap := BookOf(RunAll(s, es)), GapAfterAll(s, es, name, Gap(BookOf(s), name));
      && Orderly(d) && CountedAt(d, name) && Gap(d, name) == gap
      && (AgreeWith(d.versions, name, Writes(d, name)) <==> gap == 0)
    decreases es
  {
    if es != [] {
      EventGap(s, es[0], name);
      RunGap(Next(s, es[0]), es[1..], name);
    }
  }

  // What a rollback finds ---------------------------------------------------------------------------------

  /**
    With nothing on its way and no drift, a version is found exactly when it is an earlier one, and then it is the
    record of that version. After drift, the newest numbers are not found, and a record may carry another number.
   */
  lemma RollbackFinds(s: State, name: string, version: int)
    requires CountedAt(BookOf(s), name) && Quiet(s.queue, name) && name in s.versions && version != s.versions[name]
    ensures var r, gap := RollbackTarget(s, name, version), Gap(BookOf(s), name);
      && (r.Found? <==> 1 <= version <= s.versions[name] - gap)
      && (gap == 0 ==> (r.Found? <==> 1 <= version < s.versions[name]) && (r.Found? ==> r.record.version == version))
  {
    RevisionWrites(s, name, version);
  }

  /** With nothing on its way, version v is the v-th record from the end. */
  lemma RevisionWrites(s: State, name: string, version: int)
    requires Quiet(s.queue, name)
    ensures var w, r := Writes(BookOf(s), name), Revision(s.log, name, version);
      && (r.Some? <==> 1 <= version <= |w|)
      && (r.Some? ==> r.value == w[|w| - version])
  {
    QuietExpected(s.log, s.queue, name);
    HistoryNumbered(s.log, name, |s.log|);
    var h, v := History(s.log, name, |s.log|), Lived(s.log, name);
    assert forall i :: 0 <= i < |h| ==> v[i] == h[i].value;
  }

  lemma EmptyCounted(s: State, name: string)
    requires s.versions == map[] && s.log == [] && s.queue == []
    ensures Orderly(BookOf(s)) && CountedAt(BookOf(s), name) && Gap(BookOf(s), name) == 0
  {
  }

  /**
    From an empty fleet on, over any run that sends for this replica set one item at a time, once nothing is on its
    way for it: if no event since the last deletion has drifted, a rollback finds exactly the versions before the
    current one, each with its own record. Versions that were themselves made by a rollback are no exception.
   */
  lemma RollbackAfterRun(s: State, es: seq<Event>, name: string, version: int)
    requires s.versions == map[] && s.log == [] && s.queue == [] && QuietRun(s, es, name)
    requires GapAfterAll(s, es, name, 0) == 0 && Quiet(RunAll(s, es).queue, name)
    ensures var t := RunAll(s, es);
      name in t.versions && version != t.versions[name] ==>
        var r := RollbackTarget(t, name, version);
        (r.Found? <==> 1 <= version < t.versions[name]) && (r.Found? ==> r.record.version == version)
  {
    EmptyCounted(s, name);
    RunGap(s, es, name);
    if name in RunAll(s, es).versions && version != RunAll(s, es).versions[name] {
      RollbackFinds(RunAll(s, es), name, version);
    }
  }

  // Without the discipline --------------------------------------------------------------------------------

  /** Everything on its way lands, item i last. */
  lemma {:induction false} LandDelayed(s: State, i: nat) returns (es: seq<Event>)
    requires i < |s.queue|
    ensures LegalRun(s, es) && forall e :: e in es ==> e.Sync?
    ensures RunAll(s, es) == s.(log := CommitAll(s.log, Delayed(s.queue, i)), queue := [])
    decreases |s.queue|
  {
    var q := s.queue;
    if |q| == 1 {
      es := [Sync(0)];
      assert Delayed(q, i) == [q[0]] && [q[0]][..0] == [];
      assert Without(q, 0) == [] && es[1..] == [];
    } else {
      var k: nat := if i == 0 then 1 else 0;
      var i': nat := if i == 0 then 0 else i - 1;
      var t := Next(s, Sync(k));
      assert Delayed(q, i) == [q[k]] + Delayed(t.queue, i');
      CommitFirst(s.log, q[k], Delayed(t.queue, i'));
      var rest := LandDelayed(t, i');
      es := [Sync(k)] + rest;
      assert es[1..] == rest;
    }
  }

  lemma {:induction false} CommitFirst(log: seq<Item>, op: Item, ops: seq<Item>)
    ensures CommitAll(log, [op] + ops) == CommitAll(Commit(log, op), ops)
    decreases |ops|
  {
    if ops == [] {
      assert [op] + ops == [op] && [op][..0] == [];
    } else {
      var rest := ops[..|ops| - 1];
      CommitFirst(log, op, rest);
      assert ([op] + ops)[..|ops|] == [op] + rest;
    }
  }

  /** Item i lands last, and the numbers in the store do not agree with the map. */
  lemma DelayedDisagrees(s: State, name: string, i: nat) returns (es: seq<Event>)
    requires i < |s.queue|
    requires !AgreeWith(s.versions, name, WrittenAll(Lived(s.log, name), Delayed(s.queue, i), name))
    ensures LegalRun(s, es) && (forall e :: e in es ==> e.Sync?)
    ensures var t := RunAll(s, es); t.queue == [] && t.versions == s.versions && !AgreeAt(t.versions, t.log, name)
  {
    es := LandDelayed(s, i);
    var log := CommitAll(s.log, Delayed(s.queue, i));
    CommitAllLived(s.log, Delayed(s.queue, i), name);
    AgreeLived(s.versions, log, name);
  }

  /**
    As soon as two different items of one replica set are on their way, they may land so that the map, the store's
    count and the records no longer agree, whether or not they would have in sending order.
   */
  lemma UnquietCanDisagree(s: State, name: string, i: nat, j: nat) returns (es: seq<Event>)
    requires i < |s.queue| && j < |s.queue| && s.queue[i].key == name == s.queue[j].key && s.queue[i] != s.queue[j]
    ensures LegalRun(s, es) && (forall e :: e in es ==> e.Sync?)
    ensures var t := RunAll(s, es); t.queue == [] && t.versions == s.versions && !AgreeAt(t.versions, t.log, name)
  {
    var k := OneOrderDisagrees(s.versions, Lived(s.log, name), s.queue, name, i, j);
    es := DelayedDisagrees(s, name, k);
  }

  lemma OneOrderDisagrees(versions: map<string, nat>, h: seq<Record>, q: seq<Item>, name: string, i: nat, j: nat)
    returns (k: nat)
    requires i < |q| && j < |q| && q[i].key == name == q[j].key && q[i] != q[j]
    ensures k < |q| && !AgreeWith(versions, name, WrittenAll(h, Delayed(q, k), name))
  {
    DelayedLast(h, q, i, name);
    DelayedLast(h, q, j, name);
    k := i;
    if AgreeWith(versions, name, WrittenAll(h, Delayed(q, i), name)) {
      k := j;
      if q[i].Put? {
        if d: nat :| d < |q| && q[d].key == name && q[d].Del? {
          DelayedLast(h, q, d, name);
          k := d;
        } else {
          OtherNumber(versions, h, q, name, i, j);
        }
      }
    }
  }

  /** Among puts alone, only one can come last with the number that the map has. */
  lemma OtherNumber(versions: map<string, nat>, h: seq<Record>, q: seq<Item>, name: string, i: nat, j: nat)
    requires i < |q| && j < |q| && q[i].key == name == q[j].key && q[i] != q[j]
    requires forall d :: 0 <= d < |q| && q[d].key == name ==> q[d].Put?
    requires AgreeWith(versions, name, WrittenAll(h, Delayed(q, i), name))
    ensures q[j].value.version != VersionOf(versions, name)
  {
    var d, r, y := Delayed(q, i), WrittenAll(h, Delayed(q, i), name), q[j].value;
    DelayedLast(h, q, i, name);
    assert forall m :: 0 <= m < |d| && d[m].key == name ==> d[m] in q;
    PutsStay(h, d, name);
    assert d[if j < i then j else j - 1] == q[j];
    assert y in r && r[0] != y;
  }
}
