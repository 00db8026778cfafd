/**
  Why a replica set has to be left alone until its last record has landed: a run in which every single request
  succeeds, and which ends with one GPU in two containers.
 */
module Unquiet {
  import opened Prelude
  import opened Pools
  import opened Text
  import opened Mvcc
  import opened Versions
  import opened Landing
  import Gpus = GpuScheduling
  import Cpus = CpuScheduling
  import opened Fleet
  import opened Ownership
  import opened OwnershipReplace
  import opened Safety
  import opened Runs
  import opened Numbering
  import opened PortLeaks

  /** The successor of a restart without GPUs to give back takes its device request from the record. */
  lemma RecordedDevices(t: State, name: string, bound: map<string, string>) returns (n: Container)
    requires Replaceable(t, name) && t.containers[Current(t, name)].Live()
    requires DeviceIDs(t.containers[Current(t, name)].host) == []
    requires ReplaceEnabled(t, name, Restart, [], Replaced(bound))
    ensures n.Live() && DeviceIDs(n.host) == DeviceIDs(Stored(t, name).host) && Upcoming(t, name) !in t.containers
    ensures ReplaceNext(t, name, Restart, [], Replaced(bound)).containers ==
      t.containers[Upcoming(t, name) := n] - {Current(t, name)}
  {
    LateFacts(t, name, Restart, [], Replaced(bound));
    var c, info := t.containers[Current(t, name)], Stored(t, name);
    var r, h := Settled(t, c, Restart, []), NewHost(t, c, Restart, info.host, []);
    KeptDevices(t, c, info.host);
    var u := FinishedSucceeds(t, r, name, Current(t, name), info.env, h, bound);
    n := NewContainer(r, name, info.env, h, Running, bound);
  }

  /** Restarting from a stale record that still lists a GPU hands it to the successor, whoever has it by now. */
  lemma StaleRecordDoubleBooks(t: State, name: string, other: string, u: string, bound: map<string, string>)
    requires Replaceable(t, name) && t.containers[Current(t, name)].Live()
    requires DeviceIDs(t.containers[Current(t, name)].host) == [] && u in DeviceIDs(Stored(t, name).host)
    requires other in t.containers && other != Current(t, name)
    requires t.containers[other].Live() && u in DeviceIDs(t.containers[other].host)
    requires ReplaceEnabled(t, name, Restart, [], Replaced(bound))
    ensures !Owned(ReplaceNext(t, name, Restart, [], Replaced(bound)))
  {
    var n := RecordedDevices(t, name, bound);
    SuccessorShares(t, ReplaceNext(t, name, Restart, [], Replaced(bound)), name, n, other, u);
  }

  lemma KeptDevices(s: State, c: Container, h: HostConfig)
    requires DeviceIDs(c.host) == []
    ensures NewHost(s, c, Restart, h, []).deviceIDs == h.deviceIDs
  {
  }

  lemma SuccessorShares(t: State, next: State, name: string, n: Container, other: string, u: string)
    requires next.containers == t.containers[Upcoming(t, name) := n] - {Current(t, name)}
    requires Upcoming(t, name) !in t.containers && Upcoming(t, name) != Current(t, name)
    requires other in t.containers && other != Current(t, name) && t.containers[other].Live() && n.Live()
    requires u in DeviceIDs(t.containers[other].host) && u in DeviceIDs(n.host)
    ensures !Owned(next)
  {
    SharedNotOwned(next, Upcoming(t, name), other, u);
  }

  lemma SharedNotOwned(t: State, a: string, b: string, u: string)
    requires a in t.containers && b in t.containers && a != b && t.containers[a].Live() && t.containers[b].Live()
    requires u in DeviceIDs(t.containers[a].host) && u in DeviceIDs(t.containers[b].host)
    ensures !Owned(t)
  {
    var held := Held(G, t.containers);
    assert u in held[a] && u in held[b];
  }

  // The run -----------------------------------------------------------------------------------------------

  /** Nothing is known about this name anywhere. */
  ghost predicate Untouched(s: State, name: string) {
    && '-' !in name && name !in s.versions && Lived(s.log, name) == []
    && forall v: nat :: VersionedName(name, v) !in s.containers
  }

  lemma UntouchedSame(s: State, t: State, name: string)
    requires Untouched(s, name) && t.versions == s.versions && t.log == s.log && t.containers == s.containers
    ensures Untouched(t, name)
  {
  }

  /** A run with the given GPUs and one processor, without ports. */
  function Small(name: string, gpus: seq<string>): RunSpec {
    RunSpec(name, |gpus|, 1, None, {}, [], [])
  }

  function SmallRun(name: string, gpus: seq<string>): Event {
    Run(Small(name, gpus), gpus, Ran(Launched(map[])))
  }

  /** t is s with the new container up, which has the GPUs and processors given; item is its record. */
  predicate Added(s: State, t: State, name: string, gpus: seq<string>, c: Container, item: Item) {
    && t.versions == Bump(s.versions, name) && t.log == s.log && t.queue == s.queue + [item]
    && t.containers == s.containers[Upcoming(s, name) := c] && c.Live()
    && DeviceIDs(c.host) == gpus && c.host.cpusetCpus != "" && |CpuNames(c.host)| == 1 && c.host.portBindings == map[]
    && item.Put? && item.key == name && item.value.body.host == c.host && t.ports == s.ports
    && t.cpu == Cpus.Take(s.cpu, 1) && t.gpu == if gpus == [] then s.gpu else s.gpu.Mark(Elems(gpus), 1)
  }

  lemma SmallEnabled(s: State, name: string, gpus: seq<string>)
    requires Owned(s) && '-' !in name && Upcoming(s, name) !in s.containers
    requires |gpus| <= 1 && Elems(gpus) <= s.gpu.Free() && Cpus.CanTake(s.cpu, 1)
    ensures RunEnabled(s, Small(name, gpus), gpus, Ran(Launched(map[])))
  {
    GpusThere(s.gpu, gpus);
    assert Bindable(s.ports, RunHost(s, Small(name, gpus), gpus), map[]);
  }

  /** The container of such a run. */
  function Started(s: State, name: string, gpus: seq<string>): Container {
    NewContainer(AfterApply(s, Small(name, gpus), gpus), name, [], RunHost(s, Small(name, gpus), gpus), Running, map[])
  }

  lemma SmallHost(s: State, name: string, gpus: seq<string>)
    requires Cpus.Sound(s.cpu) && Cpus.CanTake(s.cpu, 1)
    ensures var h := Started(s, name, gpus).host;
      DeviceIDs(h) == gpus && h.cpusetCpus != "" && |CpuNames(h)| == 1 && h.portBindings == map[]
  {
    FreshCpus(s.cpu, 1);
  }

  function SmallNext(s: State, name: string, gpus: seq<string>): State {
    RunNext(s, Small(name, gpus), gpus, Ran(Launched(map[])))
  }

  lemma SmallState(s: State, name: string, gpus: seq<string>)
    ensures var t, spec := SmallNext(s, name, gpus), Small(name, gpus);
      var r, h := AfterApply(s, spec, gpus), RunHost(s, spec, gpus);
      && t.versions == Bump(s.versions, name) && t.log == s.log
      && t.queue == s.queue + [RecordOf(r, name, [], h, map[])]
      && t.containers == s.containers[Upcoming(r, name) := Started(s, name, gpus)]
      && t.ports == s.ports && t.cpu == Cpus.Take(s.cpu, 1)
      && t.gpu == if gpus == [] then s.gpu else s.gpu.Mark(Elems(gpus), 1)
  {
    var spec, l := Small(name, gpus), Launched(map[]);
    RanFacts(s, spec, gpus, l);
    RanPorts(s, spec, gpus, l);
    RanCpus(s, spec, gpus, l);
    assert s.ports.used + {} == s.ports.used;
  }

  lemma RanCpus(s: State, spec: RunSpec, gpus: seq<string>, l: Launch)
    requires l.Launched?
    ensures var t := RunNext(s, spec, gpus, Ran(l)); t.cpu == RunCpu(s, spec) && t.gpu == RunGpu(s, spec, gpus)
  {
  }

  lemma SmallOwned(s: State, name: string, gpus: seq<string>)
    requires Owned(s) && RunEnabled(s, Small(name, gpus), gpus, Ran(Launched(map[])))
    ensures Owned(SmallNext(s, name, gpus))
  {
    RunOwnedIff(s, Small(name, gpus), gpus, Ran(Launched(map[])));
  }

  lemma SmallAdded(s: State, name: string, gpus: seq<string>) returns (c: Container, item: Item)
    requires Cpus.Sound(s.cpu) && Cpus.CanTake(s.cpu, 1)
    ensures Added(s, SmallNext(s, name, gpus), name, gpus, c, item)
  {
    SmallHost(s, name, gpus);
    SmallState(s, name, gpus);
    var spec := Small(name, gpus);
    var r, h := AfterApply(s, spec, gpus), RunHost(s, spec, gpus);
    c, item := Started(s, name, gpus), RecordOf(r, name, [], h, map[]);
    assert Upcoming(r, name) == Upcoming(s, name);
  }

  lemma SmallRuns(s: State, name: string, gpus: seq<string>) returns (t: State, c: Container, item: Item)
    requires Owned(s) && '-' !in name && Upcoming(s, name) !in s.containers
    requires |gpus| <= 1 && Elems(gpus) <= s.gpu.Free() && Cpus.CanTake(s.cpu, 1)
    ensures Enabled(s, SmallRun(name, gpus))
    ensures t == SmallNext(s, name, gpus) && Owned(t) && Added(s, t, name, gpus, c, item)
  {
    SmallEnabled(s, name, gpus);
    SmallOwned(s, name, gpus);
    c, item := SmallAdded(s, name, gpus);
    t := SmallNext(s, name, gpus);
  }

  lemma GpusThere(p: Pool, gpus: seq<string>)
    requires p.total == |p.status| && |gpus| <= 1 && Elems(gpus) <= p.Free()
    ensures gpus != [] ==> Gpus.CanTake(p, |gpus|) && Gpus.IsGrant(p, |gpus|, gpus)
  {
    if gpus != [] {
      assert gpus[0] in Elems(gpus);
      FreeAndUsed(p);
      assert p.Free() >= {gpus[0]};
      SubsetSize({gpus[0]}, p.Free());
    }
  }

  /** At least so many processors are free. */
  ghost predicate Spare(p: Pool, n: nat) {
    Cpus.Sound(p) && n <= p.total && n <= |p.Free()|
  }

  lemma TakeSpare(p: Pool, n: nat)
    requires Spare(p, n + 1)
    ensures Cpus.CanTake(p, 1) && Spare(Cpus.Take(p, 1), n)
  {
    Cpus.TakeIffEnough(p, 1);
    Cpus.WalkGrants(p, 1);
    var units := Elems(Cpus.Names(Cpus.Walk(p, 1)));
    NoDupSize(Cpus.Names(Cpus.Walk(p, 1)));
    MarkUsed(p, units);
    assert p.Free() == (p.Free() - units) + units;
  }

  lemma FreedSpare(p: Pool, h: HostConfig, n: nat)
    requires Spare(p, n) && IsCpuList(h.cpusetCpus, p.total)
    ensures Spare(CpuBack(p, h), n)
  {
    CpuBackUsed(p, h);
    var q := CpuBack(p, h);
    assert p.Free() <= q.Free();
    SubsetSize(p.Free(), q.Free());
  }

  lemma RunCons(s: State, e: Event, es: seq<Event>)
    requires Enabled(s, e) && LegalRun(Next(s, e), es)
    ensures LegalRun(s, [e] + es) && RunAll(s, [e] + es) == RunAll(Next(s, e), es)
  {
    assert ([e] + es)[1..] == es;
  }

  /** Run a with the GPU, then delete it: everything is as before, but two items are on their way. */
  lemma RunAndDelete(s: State, a: string, u: string, n: nat) returns (t: State, item: Item, host: HostConfig)
    requires Owned(s) && Untouched(s, a) && u in s.gpu.Free() && Spare(s.cpu, n + 1)
    ensures Enabled(s, SmallRun(a, [u])) && t == DeleteNext(SmallNext(s, a, [u]), a, Deleted(true))
    ensures Owned(t) && u in t.gpu.Free() && Spare(t.cpu, n) && t.versions == s.versions && t.log == s.log
    ensures t.containers == s.containers && t.queue == s.queue + [item] + [Del(a)]
    ensures item.Put? && item.key == a && item.value.body.host == host
    ensures DeviceIDs(host) == [u] && host.portBindings == map[]
  {
    TakeSpare(s.cpu, n);
    var r, c;
    r, c, item := SmallRuns(s, a, [u]);
    host := c.host;
    t := DeletedAgain(s, r, a, u, c, item, n);
  }

  lemma DeletedAgain(s: State, r: State, a: string, u: string, c: Container, item: Item, n: nat) returns (t: State)
    requires Owned(r) && Untouched(s, a) && Spare(r.cpu, n) && Added(s, r, a, [u], c, item)
    ensures t == DeleteNext(r, a, Deleted(true))
    ensures Owned(t) && u in t.gpu.Free() && Spare(t.cpu, n) && t.versions == s.versions && t.log == s.log
    ensures t.containers == s.containers && t.queue == s.queue + [item] + [Del(a)]
  {
    t := DeleteNext(r, a, Deleted(true));
    DeletedState(s, r, a, u, c, item);
    DeletedOwned(r, a, c);
    DeletedUnits(r, a, u, c, n);
  }

  lemma DeletedOwned(r: State, a: string, c: Container)
    requires Owned(r) && Present(r, a) && r.containers[Current(r, a)] == c && c.Live() && c.host.cpusetCpus != ""
    ensures Owned(DeleteNext(r, a, Deleted(true)))
  {
    DeleteOwnedIff(r, a, Deleted(true));
  }

  /** The first number of an unknown name. */
  lemma FirstNumber(s: State, r: State, a: string)
    requires Untouched(s, a) && r.versions == Bump(s.versions, a)
    ensures Upcoming(s, a) == VersionedName(a, 1) && Upcoming(s, a) !in s.containers
    ensures a in r.versions && Current(r, a) == Upcoming(s, a) && r.versions - {a} == s.versions
  {
  }

  lemma DeletedState(s: State, r: State, a: string, u: string, c: Container, item: Item)
    requires Untouched(s, a) && Added(s, r, a, [u], c, item)
    ensures Present(r, a) && r.containers[Current(r, a)] == c
    ensures var t := DeleteNext(r, a, Deleted(true));
      && t.versions == s.versions && t.log == s.log
      && t.containers == s.containers && t.queue == s.queue + [item] + [Del(a)]
  {
    FirstNumber(s, r, a);
    SplitPlain(a, "-");
    PutAndDrop(s.containers, Upcoming(s, a), c);
  }

  lemma PutAndDrop(cs: map<string, Container>, k: string, c: Container)
    requires k !in cs
    ensures cs[k := c] - {k} == cs
  {
  }

  lemma DeletedUnits(r: State, a: string, u: string, c: Container, n: nat)
    requires Owned(r) && Present(r, a) && r.containers[Current(r, a)] == c && c.Live()
    requires DeviceIDs(c.host) == [u] && c.host.cpusetCpus != "" && Spare(r.cpu, n)
    ensures var t := DeleteNext(r, a, Deleted(true)); u in t.gpu.Free() && Spare(t.cpu, n)
  {
    assert ShapedHost(r, c.host);
    GpuBackUsed(r.gpu, c.host);
    FreedSpare(r.cpu, c.host, n);
    assert u in Units(G, c.host);
  }

  /** a is set up anew without the GPU, which b has got meanwhile. */
  lemma RunBoth(s: State, a: string, b: string, u: string, n: nat)
    returns (r: State, t: State, other: Item, item: Item)
    requires Owned(s) && Untouched(s, a) && Untouched(s, b) && a != b && u in s.gpu.Free() && Spare(s.cpu, n + 2)
    ensures r == SmallNext(s, b, [u]) && Enabled(s, SmallRun(b, [u]))
    ensures t == SmallNext(r, a, []) && Enabled(r, SmallRun(a, []))
    ensures Owned(t) && Spare(t.cpu, n) && t.log == s.log && t.queue == s.queue + [other] + [item]
    ensures other.key == b && item.key == a && Holding(t, a, b, u)
  {
    TakeSpare(s.cpu, n + 1);
    var c, d;
    r, c, other := SmallRuns(s, b, [u]);
    StillFirst(s, r, a, b, u, c, other);
    t, d, item := RunAgain(r, a, n);
    BothHold(s, r, t, a, b, u, c, d, other, item);
  }

  lemma RunAgain(r: State, a: string, n: nat) returns (t: State, d: Container, item: Item)
    requires Owned(r) && '-' !in a && Upcoming(r, a) !in r.containers && Spare(r.cpu, n + 1)
    ensures t == SmallNext(r, a, []) && Enabled(r, SmallRun(a, []))
    ensures Owned(t) && Spare(t.cpu, n) && Added(r, t, a, [], d, item)
  {
    TakeSpare(r.cpu, n);
    t, d, item := SmallRuns(r, a, []);
  }

  lemma StillFirst(s: State, r: State, a: string, b: string, u: string, c: Container, other: Item)
    requires Untouched(s, a) && Untouched(s, b) && a != b && Added(s, r, b, [u], c, other)
    ensures Upcoming(r, a) == VersionedName(a, 1) && Upcoming(r, a) !in r.containers
  {
    NamesApart(a, b);
    assert Upcoming(s, b) == VersionedName(b, 1);
  }

  lemma BothHold(s: State, r: State, t: State, a: string, b: string, u: string, c: Container, d: Container,
                 other: Item, item: Item)
    requires Untouched(s, a) && Untouched(s, b) && a != b
    requires Added(s, r, b, [u], c, other) && Added(r, t, a, [], d, item)
    ensures Holding(t, a, b, u)
  {
    NamesApart(a, b);
    assert Upcoming(s, b) == VersionedName(b, 1) && Upcoming(r, a) == VersionedName(a, 1);
    NotSecond(a);
  }

  lemma NamesApart(a: string, b: string)
    requires a != b
    ensures VersionedName(a, 1) != VersionedName(b, 1) && VersionedName(a, 2) != VersionedName(b, 1)
  {
    if VersionedName(a, 1) == VersionedName(b, 1) {
      VersionedNameInjective(a, 1, b, 1);
    }
    if VersionedName(a, 2) == VersionedName(b, 1) {
      VersionedNameInjective(a, 2, b, 1);
    }
  }

  lemma NotSecond(a: string)
    ensures VersionedName(a, 2) != VersionedName(a, 1)
  {
    if VersionedName(a, 2) == VersionedName(a, 1) {
      VersionedNameInjective(a, 2, a, 1);
    }
  }

  /** Version 1 of a is live without GPUs, version 1 of b with u; there is no version 2 of a. */
  predicate Holding(t: State, a: string, b: string, u: string) {
    && a in t.versions && t.versions[a] == 1 && VersionedName(a, 1) in t.containers
    && VersionedName(b, 1) in t.containers && VersionedName(a, 1) != VersionedName(b, 1)
    && VersionedName(a, 2) !in t.containers
    && var c, d := t.containers[VersionedName(a, 1)], t.containers[VersionedName(b, 1)];
    && c.Live() && DeviceIDs(c.host) == [] && c.host.cpusetCpus != "" && |CpuNames(c.host)| == 1
    && d.Live() && DeviceIDs(d.host) == [u]
  }

  /** Everything lands, the first record of a last; that is the record a restart then reads. */
  lemma FirstRecordLast(s: State, a: string, b: string, item: Item, other: Item, last: Item) returns (es: seq<Event>)
    requires s.queue == [item, Del(a), other, last] && item.Put? && item.key == a
    ensures LegalRun(s, es)
    ensures RunAll(s, es) == s.(log := CommitAll(s.log, Delayed(s.queue, 0)), queue := [])
    ensures Latest(CommitAll(s.log, Delayed(s.queue, 0)), a).Some?
    ensures Latest(CommitAll(s.log, Delayed(s.queue, 0)), a).value.value == item.value
  {
    es := LandDelayed(s, 0);
    var log := CommitAll(s.log, Delayed(s.queue, 0));
    CommitAllLived(s.log, Delayed(s.queue, 0), a);
    DelayedLast(Lived(s.log, a), s.queue, 0, a);
    LatestLived(log, a);
  }

  /** Nothing stands in the way of that restart. */
  lemma StaleRestart(t: State, a: string, b: string, u: string)
    requires Owned(t) && t.queue == [] && Holding(t, a, b, u) && Spare(t.cpu, 1)
    requires Latest(t.log, a).Some?
    requires DeviceIDs(Latest(t.log, a).value.value.body.host) == [u]
    requires Latest(t.log, a).value.value.body.host.portBindings == map[]
    ensures ReplaceEnabled(t, a, Restart, [], Replaced(map[])) && Plain(t, Replace(a, Restart, [], Replaced(map[])))
  {
    var c, h := t.containers[Current(t, a)], Stored(t, a).host;
    assert ShapedHost(t, c.host);
    FreedSpare(t.cpu, c.host, 1);
    Cpus.TakeIffEnough(CpuFreed(t, c), 1);
    SameClaims(t, c, Restart, h, []);
    assert Bindable(t.ports, NewHost(t, c, Restart, h, []), map[]);
  }

  /** With nothing on its way, a restart of a succeeds and loses ownership. */
  ghost predicate Misled(t: State, a: string) {
    var e := Replace(a, Restart, [], Replaced(map[]));
    t.queue == [] && Owned(t) && Enabled(t, e) && Plain(t, e) && !Owned(Next(t, e))
  }

  /** Items landing do not touch what is owned. */
  lemma LandedOwned(s: State, t: State)
    requires Owned(s) && t == s.(log := t.log, queue := t.queue)
    ensures Owned(t)
  {
    ShapedFrom(s, t);
  }

  lemma MisledByLast(s: State, a: string, b: string, u: string, first: Item, other: Item, last: Item)
    returns (es: seq<Event>)
    requires Owned(s) && Holding(s, a, b, u) && Spare(s.cpu, 1)
    requires s.queue == [first] + [Del(a)] + [other] + [last] && first.Put? && first.key == a
    requires DeviceIDs(first.value.body.host) == [u] && first.value.body.host.portBindings == map[]
    ensures LegalRun(s, es) && Misled(RunAll(s, es), a)
  {
    es := FirstRecordLast(s, a, b, first, other, last);
    var t := RunAll(s, es);
    LandedOwned(s, t);
    RestartMisled(t, a, b, u);
  }

  lemma RestartMisled(t: State, a: string, b: string, u: string)
    requires Owned(t) && t.queue == [] && Holding(t, a, b, u) && Spare(t.cpu, 1)
    requires Latest(t.log, a).Some?
    requires DeviceIDs(Latest(t.log, a).value.value.body.host) == [u]
    requires Latest(t.log, a).value.value.body.host.portBindings == map[]
    ensures Misled(t, a)
  {
    StaleRestart(t, a, b, u);
    StaleRecordDoubleBooks(t, a, VersionedName(b, 1), u, map[]);
  }

  /** The second half: b gets the GPU, a is set up again, everything lands. */
  lemma RestMisleads(s: State, a: string, b: string, u: string, first: Item) returns (es: seq<Event>)
    requires Owned(s) && Untouched(s, a) && Untouched(s, b) && a != b && u in s.gpu.Free() && Spare(s.cpu, 3)
    requires s.queue == [first] + [Del(a)] && first.Put? && first.key == a
    requires DeviceIDs(first.value.body.host) == [u] && first.value.body.host.portBindings == map[]
    ensures |es| >= 2 && es[0] == SmallRun(b, [u]) && es[1] == SmallRun(a, [])
    ensures LegalRun(s, es) && Misled(RunAll(s, es), a)
  {
    var r, t, other, last := RunBoth(s, a, b, u, 1);
    var landing := MisledByLast(t, a, b, u, first, other, last);
    RunCons(r, SmallRun(a, []), landing);
    RunCons(s, SmallRun(b, [u]), [SmallRun(a, [])] + landing);
    es := [SmallRun(b, [u])] + ([SmallRun(a, [])] + landing);
  }

  lemma SecondHalf(s: State, t: State, a: string, b: string, u: string, first: Item) returns (es: seq<Event>)
    requires Untouched(s, a) && Untouched(s, b) && a != b && s.queue == []
    requires t.versions == s.versions && t.log == s.log && t.containers == s.containers
    requires Owned(t) && u in t.gpu.Free() && Spare(t.cpu, 3)
    requires t.queue == s.queue + [first] + [Del(a)] && first.Put? && first.key == a
    requires DeviceIDs(first.value.body.host) == [u] && first.value.body.host.portBindings == map[]
    ensures |es| >= 2 && es[0] == SmallRun(b, [u]) && es[1] == SmallRun(a, [])
    ensures LegalRun(t, es) && Misled(RunAll(t, es), a)
  {
    UntouchedSame(s, t, a);
    UntouchedSame(s, t, b);
    assert s.queue + [first] == [first];
    es := RestMisleads(t, a, b, u, first);
  }

  /**
    On every machine with a GPU and some processors to spare: run a with the GPU, delete it, run b, which gets the
    GPU, and run a again without one. All four requests succeed. If the first record of a fails to be written and is
    sent again, it may land last; then a restart of a, which succeeds too, gives it b's GPU.
   */
  lemma UnquietRunDoubleBooks(s: State, a: string, b: string, u: string) returns (es: seq<Event>)
    requires Owned(s) && s.queue == [] && Untouched(s, a) && Untouched(s, b) && a != b
    requires u in s.gpu.Free() && Spare(s.cpu, 4)
    ensures |es| >= 4 && es[0] == SmallRun(a, [u]) && es[1] == Delete(a, Deleted(true))
    ensures es[2] == SmallRun(b, [u]) && es[3] == SmallRun(a, [])
    ensures LegalRun(s, es) && Misled(RunAll(s, es), a)
  {
    var t, first, host := RunAndDelete(s, a, u, 3);
    var rest := SecondHalf(s, t, a, b, u, first);
    RunCons(SmallNext(s, a, [u]), Delete(a, Deleted(true)), rest);
    RunCons(s, SmallRun(a, [u]), [Delete(a, Deleted(true))] + rest);
    es := [SmallRun(a, [u])] + ([Delete(a, Deleted(true))] + rest);
  }
}
