/** Ownership over whole runs of the fleet. */
module Runs {
  import opened Prelude
  import opened Text
  import opened Sizes
  import opened Mvcc
  import opened Versions
  import opened Landing
  import opened PortScheduling
  import Gpus = GpuScheduling
  import Cpus = CpuScheduling
  import opened Fleet
  import opened Ownership
  import opened OwnershipReplace
  import opened OwnershipRollback
  import opened Safety

  // Records keep up with containers -----------------------------------------------------------------------

  /** The newest record that has been stored for name or is on its way there. */
  function Newest(s: State, name: string): Option<Record> {
    var h := Expected(s.log, s.queue, name);
    if h == [] then None else Some(h[0])
  }

  /**
    At most one record is on its way for the name. The name is plain, its number positive, and its newest record
    describes its container, if that is live.
   */
  predicate TrackedAt(s: State, name: string) {
    && AtMostOne(s.queue, name)
    && (name in s.versions ==>
         && '-' !in name && s.versions[name] >= 1
         && (Current(s, name) in s.containers && s.containers[Current(s, name)].Live() ==>
              Newest(s, name).Some? && Newest(s, name).value.body.host == s.containers[Current(s, name)].host))
  }

  ghost predicate Tracked(s: State) {
    forall name :: TrackedAt(s, name)
  }

  /** Nothing runs under the next number. */
  predicate UpcomingIdle(s: State, name: string) {
    Upcoming(s, name) in s.containers ==> !s.containers[Upcoming(s, name)].Live()
  }

  /** Restart and Patch read a stored record that is up to date, and nothing newer is on its way. */
  ghost predicate RecordReady(s: State, name: string) {
    Quiet(s.queue, name) && (Present(s, name) ==> s.containers[Current(s, name)].Live() || Recorded(s, name))
  }

  /**
    Conditions under which an event leaves every record up to date. A request that sends something to the store
    does so only when nothing is on its way there for the same replica set.
   */
  ghost predicate Tracks(s: State, e: Event) {
    match e
    case Run(spec, _, ran) =>
      && (ran.Ran? && ran.launch.PortsExhausted? ==> UpcomingIdle(s, spec.name))
      && (ran.Ran? && ran.launch.Launched? ==> Quiet(s.queue, spec.name))
    case Continue(name, ok) => ok && Present(s, name) ==> s.containers[Current(s, name)].Live()
    case Delete(name, deleted) => Present(s, name) && deleted.Deleted? ==> Quiet(s.queue, name)
    case Replace(name, _, _, how) =>
      && RecordReady(s, name) && !how.NotRemoved?
      && (how.NotLaunched? && how.launch.PortsExhausted? ==> UpcomingIdle(s, name))
    case Rollback(name, _, _, _, how) =>
      && !how.Stalled? && !how.NotRemoved? && (how.Replaced? ==> Quiet(s.queue, name))
      && (how.NotLaunched? && how.launch.PortsExhausted? ==> UpcomingIdle(s, name))
    case _ => true
  }

  lemma NewestAppend(s: State, t: State, op: Item, name: string)
    requires t.log == s.log && t.queue == s.queue + [op]
    requires if op.key == name then Quiet(s.queue, name) else AtMostOne(s.queue, name)
    ensures AtMostOne(t.queue, name)
    ensures op.key != name ==> Newest(t, name) == Newest(s, name)
    ensures op.key == name && op.Put? ==> Newest(t, name) == Some(op.value)
  {
    SendExpected(s.log, s.queue, op, name);
  }

  /** Changing one replica set leaves the others tracked. */
  lemma TrackedOthers(s: State, t: State, name: string, n: string)
    requires TrackedAt(s, n) && n != name
    requires n in t.versions ==> n in s.versions && t.versions[n] == s.versions[n]
    requires t.log == s.log && (t.queue == s.queue || exists op :: t.queue == s.queue + [op] && op.key == name)
    requires forall k :: k in t.containers && (forall v :: k != VersionedName(name, v)) ==>
      k in s.containers && t.containers[k] == s.containers[k]
    ensures TrackedAt(t, n)
  {
    if t.queue != s.queue {
      var op :| t.queue == s.queue + [op] && op.key == name;
      NewestAppend(s, t, op, n);
    }
    if n in t.versions {
      var k := Current(t, n);
      forall v
        ensures k != VersionedName(name, v)
      {
        if k == VersionedName(name, v) {
          VersionedNameInjective(n, VersionOf(t.versions, n), name, v);
        }
      }
    }
  }

  /** Containers appear, change and go only under names of this replica set, and so do numbers and records. */
  ghost predicate OnlyTouches(s: State, t: State, name: string) {
    && (forall n :: n in t.versions && n != name ==> n in s.versions && t.versions[n] == s.versions[n])
    && t.log == s.log && (t.queue == s.queue || exists op :: t.queue == s.queue + [op] && op.key == name)
    && forall k :: k in t.containers && (k in s.containers ==> t.containers[k] != s.containers[k]) ==>
         exists v :: k == VersionedName(name, v)
  }

  lemma TrackedFrom(s: State, t: State, name: string)
    requires Tracked(s) && OnlyTouches(s, t, name) && TrackedAt(t, name)
    ensures Tracked(t)
  {
    forall n
      ensures TrackedAt(t, n)
    {
      assert TrackedAt(s, n);
      if n != name {
        TrackedOthers(s, t, name, n);
      }
    }
  }

  lemma UpcomingIsNot(s: State, name: string)
    ensures Upcoming(s, name) != Current(s, name)
  {
    if Upcoming(s, name) == Current(s, name) {
      VersionedNameInjective(name, Number(s, name), name, VersionOf(s.versions, name));
    }
  }

  /** A launch from r, which is s with other pools. */
  lemma LaunchTracked(s: State, r: State, t: State, name: string, env: seq<string>, h: HostConfig, start: bool,
                      l: Launch)
    requires Tracked(s) && r == s.(gpu := r.gpu, cpu := r.cpu) && '-' !in name
    requires l.PortsExhausted? ==> UpcomingIdle(s, name)
    requires l.Launched? && start ==> Quiet(s.queue, name)
    requires var u := Launching(r, name, env, h, start, l);
      && t.versions == u.versions && t.containers == u.containers && t.log == s.log
      && t.queue == if l.Launched? && start then s.queue + [RecordOf(r, name, env, h, l.bound)] else s.queue
    ensures Tracked(t)
  {
    var up := Upcoming(s, name);
    assert TrackedAt(s, name) && Upcoming(r, name) == up;
    UpcomingIsNot(s, name);
    if l.Launched? && start {
      NewestAppend(s, t, RecordOf(r, name, env, h, l.bound), name);
    }
    TrackedFrom(s, t, name);
  }

  lemma PoolsTracked(s: State, t: State)
    requires Tracked(s) && t == s.(gpu := t.gpu, cpu := t.cpu)
    ensures Tracked(t)
  {
    forall n
      ensures TrackedAt(t, n)
    {
      assert TrackedAt(s, n);
    }
  }

  /** The new number names no container, or one that is not live. */
  lemma NotStartedTracked(s: State, t: State, name: string, up: string, n: Container)
    requires Tracked(s) && '-' !in name && up == Upcoming(s, name) && !n.Live()
    requires t.versions == Bump(s.versions, name) && t.log == s.log && t.queue == s.queue
    requires t.containers == s.containers[up := n] || t.containers == s.containers[up := n] - {up}
    ensures Tracked(t)
  {
    assert Current(t, name) == up && TrackedAt(s, name);
    TrackedFrom(s, t, name);
  }

  lemma ReplacedTracked(s: State, t: State, name: string, up: string, n: Container, op: Item)
    requires Tracked(s) && '-' !in name && up == Upcoming(s, name) && Quiet(s.queue, name)
    requires t.versions == Bump(s.versions, name) && t.log == s.log && t.queue == s.queue + [op]
    requires op.Put? && op.key == name && op.value.body.host == n.host
    requires t.containers == s.containers[up := n] - {Current(s, name)}
    ensures Tracked(t)
  {
    assert Current(t, name) == up;
    NewestAppend(s, t, op, name);
    TrackedFrom(s, t, name);
  }

  lemma FinishTracked(s: State, r: State, name: string, c: Container, env: seq<string>, h: HostConfig, how: ReplaceHow)
    requires Tracked(s) && r == s.(gpu := r.gpu, cpu := r.cpu) && '-' !in name
    requires how.Stalled? || how.NotStarted? || (how.Replaced? && Quiet(s.queue, name))
    ensures Tracked(Finish(r, name, Current(s, name), c, env, h, how))
  {
    var t, up := Finish(r, name, Current(s, name), c, env, h, how), Upcoming(s, name);
    assert Upcoming(r, name) == up;
    if how.Replaced? {
      FinishedState(r, name, Current(s, name), c, env, h, how.bound);
      var n, op := NewContainer(r, name, env, h, Running, how.bound), RecordOf(r, name, env, h, how.bound);
      ReplacedTracked(s, t, name, up, n, op);
    } else {
      NotStartedTracked(s, t, name, up, NewContainer(r, name, env, h, Created, how.bound));
    }
  }

  lemma ReplaceTracked(s: State, name: string, req: Request, gpus: seq<string>, how: ReplaceHow)
    requires Tracked(s) && ReplaceEnabled(s, name, req, gpus, how) && Tracks(s, Replace(name, req, gpus, how))
    ensures Tracked(ReplaceNext(s, name, req, gpus, how))
  {
    if Replaceable(s, name) {
      assert TrackedAt(s, name);
      var c, info := s.containers[Current(s, name)], Stored(s, name);
      var r, h := Settled(s, c, req, gpus), NewHost(s, c, req, info.host, gpus);
      var t := ReplaceNext(s, name, req, gpus, how);
      match how
      case NotLaunched(l) => LaunchTracked(s, r, t, name, info.env, h, false, l);
      case Stalled(_) => FinishTracked(s, r, name, c, info.env, h, how);
      case NotStarted(_, _) => FinishTracked(s, r, name, c, info.env, h, how);
      case Replaced(_) => FinishTracked(s, r, name, c, info.env, h, how);
      case _ => PoolsTracked(s, t);
    }
  }

  lemma RollbackTracked(s: State, name: string, version: int, memory: Size, gpus: seq<string>, how: ReplaceHow)
    requires Tracked(s) && RollbackEnabled(s, name, version, memory, gpus, how)
    requires Tracks(s, Rollback(name, version, memory, gpus, how))
    ensures Tracked(RollbackNext(s, name, version, memory, gpus, how))
  {
    if Rollable(s, name, version) {
      assert TrackedAt(s, name);
      var c, info := s.containers[Current(s, name)], TargetInfo(s, name, version);
      var req := AsPatch(c, info.host, memory);
      var r, h := Settled(s, c, req, gpus), NewHost(s, c, req, info.host, gpus);
      var t := RollbackNext(s, name, version, memory, gpus, how);
      match how
      case NotLaunched(l) => LaunchTracked(s, r, t, name, info.env, h, true, l);
      case Replaced(_) => FinishTracked(s, r, name, c, info.env, h, how);
      case _ => PoolsTracked(s, t);
    }
  }

  lemma DeleteTracked(s: State, name: string, deleted: DeleteHow)
    requires Tracked(s) && (Present(s, name) && deleted.Deleted? ==> Quiet(s.queue, name))
    ensures Tracked(DeleteNext(s, name, deleted))
  {
    if Present(s, name) {
      var t := DeleteNext(s, name, deleted);
      assert TrackedAt(s, name);
      SplitPlain(name, "-");
      if deleted.Deleted? {
        NewestAppend(s, t, Del(name), name);
      }
      TrackedFrom(s, t, name);
    }
  }

  lemma StatusTracked(s: State, t: State, name: string, status: Status)
    requires Tracked(s) && name in s.versions && t.versions == s.versions && t.log == s.log && t.queue == s.queue
    requires t.containers == s.containers || t.containers == SetStatus(s, Current(s, name), status).containers
    requires status.Exited? || (Present(s, name) ==> s.containers[Current(s, name)].Live())
    ensures Tracked(t)
  {
    assert TrackedAt(s, name);
    TrackedFrom(s, t, name);
  }

  /** Whichever item lands. */
  lemma SyncTracked(s: State, i: nat)
    requires Tracked(s) && i < |s.queue|
    ensures Tracked(Next(s, Sync(i)))
  {
    forall n
      ensures TrackedAt(Next(s, Sync(i)), n)
    {
      assert TrackedAt(s, n);
      LandExpected(s.log, s.queue, i, n);
    }
  }

  lemma RunTracked(s: State, spec: RunSpec, gpus: seq<string>, ran: RunHow)
    requires Tracked(s) && RunEnabled(s, spec, gpus, ran) && Tracks(s, Run(spec, gpus, ran))
    ensures Tracked(RunNext(s, spec, gpus, ran))
  {
    var t := RunNext(s, spec, gpus, ran);
    if ran.Ran? {
      RanFacts(s, spec, gpus, ran.launch);
      LaunchTracked(s, AfterApply(s, spec, gpus), t, spec.name, spec.env, RunHost(s, spec, gpus), true, ran.launch);
    } else {
      PoolsTracked(s, t);
    }
  }

  lemma TracksNext(s: State, e: Event)
    requires Tracked(s) && Enabled(s, e) && Tracks(s, e)
    ensures Tracked(Next(s, e))
  {
    var t := Next(s, e);
    match e
    case Run(spec, gpus, ran) => RunTracked(s, spec, gpus, ran);
    case Pause(name, ok) =>
      if ok {
        StatusTracked(s, t, name, Paused);
      }
    case Continue(name, ok) =>
      if ok {
        StatusTracked(s, t, name, Running);
      }
    case Stop(name, ok) =>
      if name in s.versions {
        StatusTracked(s, t, name, Exited);
      }
    case Delete(name, deleted) => DeleteTracked(s, name, deleted);
    case Replace(name, req, gpus, how) => ReplaceTracked(s, name, req, gpus, how);
    case Rollback(name, version, memory, gpus, how) => RollbackTracked(s, name, version, memory, gpus, how);
    case Sync(i) => SyncTracked(s, i);
  }

  /** With nothing on its way for the name, what is tracked is recorded. */
  lemma TrackedRecorded(s: State, name: string)
    requires Tracked(s) && RecordReady(s, name)
    ensures Recorded(s, name)
  {
    assert TrackedAt(s, name);
    QuietExpected(s.log, s.queue, name);
    LatestLived(s.log, name);
  }

  // Runs --------------------------------------------------------------------------------------------------

  ghost predicate TrackedRun(s: State, es: seq<Event>)
    decreases es
  {
    es == [] || (Enabled(s, es[0]) && Tracks(s, es[0]) && TrackedRun(Next(s, es[0]), es[1..]))
  }

  ghost predicate OwnedThroughout(s: State, es: seq<Event>)
    decreases es
  {
    Owned(s) && (es == [] || OwnedThroughout(Next(s, es[0]), es[1..]))
  }

  ghost predicate KeepsThroughout(s: State, es: seq<Event>)
    decreases es
  {
    es == [] || (Keeps(s, es[0]) && KeepsThroughout(Next(s, es[0]), es[1..]))
  }

  /** A run that starts owned stays owned all the way exactly when every one of its events keeps ownership. */
  lemma {:induction false} RunOwnedThroughoutIff(s: State, es: seq<Event>)
    requires Owned(s) && Tracked(s) && TrackedRun(s, es)
    ensures OwnedThroughout(s, es) <==> KeepsThroughout(s, es)
    decreases es
  {
    if es != [] {
      var e, t := es[0], Next(s, es[0]);
      if e.Replace? {
        TrackedRecorded(s, e.name);
      }
      OwnedIff(s, e);
      if Keeps(s, e) {
        TracksNext(s, e);
        RunOwnedThroughoutIff(t, es[1..]);
      } else if es[1..] == [] {
        assert !Owned(t);
      }
    }
  }

  // The plain discipline ----------------------------------------------------------------------------------

  /** Every container has processors of its own. */
  predicate Pinned(s: State) {
    forall k :: k in s.containers ==> s.containers[k].host.cpusetCpus != ""
  }

  predicate LiveNow(s: State, name: string) {
    Present(s, name) && s.containers[Current(s, name)].Live()
  }

  /** The numbers under which the name has live containers. */
  ghost predicate RunsAs(s: State, name: string, version: nat) {
    VersionedName(name, version) in s.containers && s.containers[VersionedName(name, version)].Live()
  }

  /** No live container has a number above the current one. */
  ghost predicate HeadedAt(s: State, name: string) {
    forall v: nat :: v > VersionOf(s.versions, name) ==> !RunsAs(s, name, v)
  }

  ghost predicate Headed(s: State) {
    forall name :: HeadedAt(s, name)
  }

  /** No other live container has the name. */
  ghost predicate OnlyCurrent(s: State, name: string) {
    forall v: nat :: v != VersionOf(s.versions, name) ==> !RunsAs(s, name, v)
  }

  /** Where a rollback keeps the units of container c, the record h lists them. */
  predicate ListsKept(c: Container, req: Request, h: HostConfig) {
    && (GpuKept(req, c) ==> DeviceIDs(h) == DeviceIDs(c.host))
    && (CpuKept(req, c) ==> GpuHost(c, req, h, []).cpusetCpus == c.host.cpusetCpus)
  }

  /**
    What an operator can check before or sees at once: a run asks for a processor; a replica set is run, deleted,
    restarted, patched or rolled back only when nothing is on its way to the store for it; only live containers are
    stopped, restarted, patched, rolled back or continued, and those requests succeed; a replica set is deleted only
    if no other container of its name is live. A patch that gives up the GPUs must change the processor count as
    well, and a rollback that does not change a count must go back to a record that lists the units in use.
   */
  ghost predicate Plain(s: State, e: Event) {
    match e
    case Run(spec, _, _) => spec.cpuCount >= 1 && Quiet(s.queue, spec.name)
    case Pause(_, _) => true
    case Continue(name, ok) => LiveNow(s, name)
    case Stop(name, ok) => LiveNow(s, name) && ok
    case Delete(name, deleted) =>
      && Quiet(s.queue, name) && (LiveNow(s, name) ==> deleted == Deleted(true))
      && (Present(s, name) ==> OnlyCurrent(s, name))
    case Replace(name, req, _, how) =>
      && Quiet(s.queue, name) && LiveNow(s, name) && how.Replaced?
      && !(CpuKept(req, s.containers[Current(s, name)]) && GpuDropped(req, s.containers[Current(s, name)]))
    case Rollback(name, version, memory, _, how) =>
      how.Refused? || (
        && Quiet(s.queue, name) && LiveNow(s, name) && how.Replaced?
        && (Rollable(s, name, version) ==>
             ListsKept(s.containers[Current(s, name)], BackRequest(s, name, version, memory),
                       TargetInfo(s, name, version).host)))
    case Sync(_) => true
  }

  ghost predicate PlainRun(s: State, es: seq<Event>)
    decreases es
  {
    es == [] || (Enabled(s, es[0]) && Plain(s, es[0]) && PlainRun(Next(s, es[0]), es[1..]))
  }

  /** All that a plain run keeps. */
  ghost predicate Tended(s: State) {
    Owned(s) && Tracked(s) && Pinned(s) && Headed(s)
  }

  lemma HeadedIdle(s: State, name: string)
    requires Headed(s)
    ensures UpcomingIdle(s, name)
  {
    assert HeadedAt(s, name) && !RunsAs(s, name, Number(s, name));
  }

  /** The configuration claims what it would claim if the record were that of the container. */
  lemma KeptClaims(s: State, c: Container, req: Request, h: HostConfig, gpus: seq<string>)
    requires req.Patch? && ListsKept(c, req, h) && !(CpuKept(req, c) && GpuDropped(req, c))
    ensures var x, y := NewHost(s, c, req, h, gpus), NewHost(s, c, req, c.host, gpus);
      DeviceIDs(x) == DeviceIDs(y) && x.cpusetCpus == y.cpusetCpus
  {
    SameClaims(s, c, req, h, gpus);
    SameClaims(s, c, req, c.host, gpus);
  }

  lemma RollbackPlainKeeps(s: State, name: string, version: int, memory: Size, gpus: seq<string>,
                           bound: map<string, string>)
    requires Pinned(s) && Returning(s, name, version, memory, gpus, Replaced(bound))
    requires Plain(s, Rollback(name, version, memory, gpus, Replaced(bound)))
    ensures Keeps(s, Rollback(name, version, memory, gpus, Replaced(bound)))
  {
    var k := Current(s, name);
    BackFacts(s, name, version, memory, gpus, Replaced(bound));
    ListedKeeps(s, k, s.containers[k], BackRequest(s, name, version, memory), TargetInfo(s, name, version).host, gpus,
                bound);
  }

  lemma ListedKeeps(s: State, k: string, c: Container, req: Request, h: HostConfig, gpus: seq<string>,
                    bound: map<string, string>)
    requires Settling(s, k, c, req, gpus) && c.Live() && c.host.cpusetCpus != "" && ListsKept(c, req, h)
    ensures RollbackKeeps(s, c, req, gpus, NewHost(s, c, req, h, gpus), Replaced(bound))
  {
    KeptClaims(s, c, req, h, gpus);
    SettlesGpu(s, k, c, req, gpus);
    SettlesCpu(s, k, c, req, gpus);
    SettlesFaithful(s, k, c, req, gpus);
    SameUnits(s, NewHost(s, c, req, h, gpus), NewHost(s, c, req, c.host, gpus));
  }

  lemma SameUnits(s: State, x: HostConfig, y: HostConfig)
    requires DeviceIDs(x) == DeviceIDs(y) && x.cpusetCpus == y.cpusetCpus
    ensures Units(G, x) == Units(G, y) && Units(C, x) == Units(C, y)
    ensures LimitsShaped(s.gpu, s.cpu, x) == LimitsShaped(s.gpu, s.cpu, y)
  {
  }

  lemma PlainKeeps(s: State, e: Event)
    requires Tended(s) && Enabled(s, e) && Plain(s, e)
    ensures Keeps(s, e) && Tracks(s, e) && (e.Replace? ==> Recorded(s, e.name))
  {
    match e
    case Run(spec, _, _) => HeadedIdle(s, spec.name);
    case Replace(name, _, _, _) => TrackedRecorded(s, name);
    case Rollback(name, version, memory, gpus, how) =>
      if Rollable(s, name, version) {
        RollbackPlainKeeps(s, name, version, memory, gpus, how.bound);
      }
    case _ =>
  }

  lemma LaunchPinned(r: State, name: string, env: seq<string>, h: HostConfig, start: bool, l: Launch)
    requires Pinned(r) && h.cpusetCpus != ""
    ensures Pinned(Launching(r, name, env, h, start, l))
  {
  }

  lemma RunPinned(s: State, spec: RunSpec, gpus: seq<string>, ran: RunHow)
    requires Owned(s) && Pinned(s) && RunEnabled(s, spec, gpus, ran) && spec.cpuCount >= 1
    ensures Pinned(RunNext(s, spec, gpus, ran))
  {
    if ran.Ran? {
      FreshCpus(s.cpu, spec.cpuCount);
      LaunchPinned(AfterApply(s, spec, gpus), spec.name, spec.env, RunHost(s, spec, gpus), true, ran.launch);
    }
  }

  /** The processors of the successor, when the cpuset is faithful. */
  lemma SuccessorPinned(s: State, k: string, c: Container, req: Request, gpus: seq<string>)
    requires Owned(s) && k in s.containers && c == s.containers[k] && c.Live() && c.host.cpusetCpus != ""
    requires CpuFaithful(c, req) && (CpuKept(req, c) || Cpus.CanTake(CpuFreed(s, c), CpuTarget(req, c)))
    ensures NewHost(s, c, req, c.host, gpus).cpusetCpus != ""
  {
    SameClaims(s, c, req, c.host, gpus);
    CpuStage(s, k, c, req, GpuHost(c, req, c.host, gpus));
  }

  lemma ReplacedPinned(s: State, name: string, req: Request, gpus: seq<string>, bound: map<string, string>)
    requires Owned(s) && Pinned(s) && Recorded(s, name) && LiveNow(s, name)
    requires ReplaceEnabled(s, name, req, gpus, Replaced(bound))
    requires CpuFaithful(s.containers[Current(s, name)], req)
    ensures Pinned(ReplaceNext(s, name, req, gpus, Replaced(bound)))
  {
    if Replaceable(s, name) {
      var k := Current(s, name);
      var c, info := s.containers[k], Stored(s, name);
      LateFacts(s, name, req, gpus, Replaced(bound));
      SuccessorPinned(s, k, c, req, gpus);
      var h := NewHost(s, c, req, info.host, gpus);
      LaunchPinned(Settled(s, c, req, gpus), name, info.env, h, true, Launched(bound));
    }
  }

  lemma RolledBackPinned(s: State, name: string, version: int, memory: Size, gpus: seq<string>,
                         bound: map<string, string>)
    requires Pinned(s) && Returning(s, name, version, memory, gpus, Replaced(bound))
    requires Plain(s, Rollback(name, version, memory, gpus, Replaced(bound)))
    ensures Pinned(RollbackNext(s, name, version, memory, gpus, Replaced(bound)))
  {
    var k := Current(s, name);
    var c, req, h := s.containers[k], BackRequest(s, name, version, memory), TargetInfo(s, name, version).host;
    BackFacts(s, name, version, memory, gpus, Replaced(bound));
    KeptClaims(s, c, req, h, gpus);
    SuccessorPinned(s, k, c, req, gpus);
    LaunchPinned(Settled(s, c, req, gpus), name, TargetInfo(s, name, version).env,
                 BackHost(s, name, version, memory, gpus), true, Launched(bound));
  }

  /** Nothing new is created. */
  lemma OthersPinned(s: State, e: Event)
    requires Pinned(s) && !e.Run? && !e.Replace? && !e.Rollback?
    ensures Pinned(Next(s, e))
  {
    OthersHosts(s, e);
  }

  lemma OthersHosts(s: State, e: Event)
    requires !e.Run? && !e.Replace? && !e.Rollback?
    ensures forall k :: k in Next(s, e).containers ==>
      k in s.containers && Next(s, e).containers[k].host == s.containers[k].host
  {
    match e
    case Pause(_, _) =>
    case Continue(_, _) =>
    case Stop(_, _) =>
    case Delete(_, _) =>
    case Sync(_) =>
  }

  lemma PlainPinned(s: State, e: Event)
    requires Tended(s) && Enabled(s, e) && Plain(s, e)
    ensures Pinned(Next(s, e))
  {
    match e
    case Run(spec, gpus, ran) => RunPinned(s, spec, gpus, ran);
    case Replace(name, req, gpus, how) =>
      TrackedRecorded(s, name);
      ReplacedPinned(s, name, req, gpus, how.bound);
    case Rollback(name, version, memory, gpus, how) =>
      if Rollable(s, name, version) {
        RolledBackPinned(s, name, version, memory, gpus, how.bound);
      }
    case _ => OthersPinned(s, e);
  }

  // No live container above the current number ------------------------------------------------------------

  /** Only containers of this name change, and only its number. */
  lemma HeadedFrom(s: State, t: State, name: string)
    requires Headed(s) && HeadedAt(t, name)
    requires forall n :: n != name ==> VersionOf(t.versions, n) == VersionOf(s.versions, n)
    requires forall k :: k in t.containers && t.containers[k].Live() && (forall v :: k != VersionedName(name, v)) ==>
      k in s.containers && s.containers[k].Live()
    ensures Headed(t)
  {
    forall n
      ensures HeadedAt(t, n)
    {
      if n != name {
        forall v: nat | v > VersionOf(t.versions, n)
          ensures !RunsAs(t, n, v)
        {
          assert HeadedAt(s, n) && !RunsAs(s, n, v);
          NotOf(n, v, name);
        }
      }
    }
  }

  lemma NotOf(n: string, v: nat, name: string)
    requires n != name
    ensures forall w :: VersionedName(n, v) != VersionedName(name, w)
  {
    forall w
      ensures VersionedName(n, v) != VersionedName(name, w)
    {
      if VersionedName(n, v) == VersionedName(name, w) {
        VersionedNameInjective(n, v, name, w);
      }
    }
  }

  /** At most one container comes, under the next number, and then that number is taken. */
  lemma HeadedUp(s: State, t: State, name: string)
    requires Headed(s) && (t.versions == s.versions || t.versions == Bump(s.versions, name))
    requires forall k :: k in t.containers && t.containers[k].Live() ==>
      (k in s.containers && s.containers[k].Live()) ||
      (k == Upcoming(s, name) && t.versions == Bump(s.versions, name))
    ensures Headed(t)
  {
    assert HeadedAt(s, name);
    forall v: nat | v > VersionOf(t.versions, name)
      ensures !RunsAs(t, name, v)
    {
      assert !RunsAs(s, name, v);
      if VersionedName(name, v) == Upcoming(s, name) {
        VersionedNameInjective(name, v, name, Number(s, name));
      }
    }
    HeadedFrom(s, t, name);
  }

  lemma LaunchHeaded(s: State, r: State, t: State, name: string, env: seq<string>, h: HostConfig, start: bool,
                     l: Launch)
    requires Headed(s) && r.versions == s.versions && r.containers == s.containers
    requires name in s.versions ==> s.versions[name] >= 1
    requires var u := Launching(r, name, env, h, start, l);
      && t.versions == u.versions
      && forall k :: k in t.containers ==> k in u.containers && t.containers[k] == u.containers[k]
    ensures Headed(t)
  {
    UndoBump(s.versions, name);
    assert Upcoming(r, name) == Upcoming(s, name);
    HeadedUp(s, t, name);
  }

  lemma RunHeaded(s: State, spec: RunSpec, gpus: seq<string>, ran: RunHow)
    requires Headed(s) && Tracked(s)
    ensures Headed(RunNext(s, spec, gpus, ran))
  {
    if ran.Ran? {
      assert TrackedAt(s, spec.name);
      RanFacts(s, spec, gpus, ran.launch);
      LaunchHeaded(s, AfterApply(s, spec, gpus), RunNext(s, spec, gpus, ran), spec.name, spec.env,
                   RunHost(s, spec, gpus), true, ran.launch);
    } else {
      HeadedUp(s, RunNext(s, spec, gpus, ran), spec.name);
    }
  }

  lemma FinishHeaded(s: State, r: State, name: string, c: Container, env: seq<string>, h: HostConfig,
                     bound: map<string, string>)
    requires Headed(s) && Tracked(s) && r.versions == s.versions && r.containers == s.containers
    ensures Headed(Finish(r, name, Current(s, name), c, env, h, Replaced(bound)))
  {
    assert TrackedAt(s, name);
    LaunchHeaded(s, r, Finish(r, name, Current(s, name), c, env, h, Replaced(bound)), name, env, h, true,
                 Launched(bound));
  }

  lemma ReplacedHeaded(s: State, name: string, req: Request, gpus: seq<string>, bound: map<string, string>)
    requires Headed(s) && Tracked(s) && Replaceable(s, name) && ReplaceEnabled(s, name, req, gpus, Replaced(bound))
    ensures Headed(ReplaceNext(s, name, req, gpus, Replaced(bound)))
  {
    var c, info := s.containers[Current(s, name)], Stored(s, name);
    LateFacts(s, name, req, gpus, Replaced(bound));
    FinishHeaded(s, Settled(s, c, req, gpus), name, c, info.env, NewHost(s, c, req, info.host, gpus), bound);
  }

  lemma RolledBackHeaded(s: State, name: string, version: int, memory: Size, gpus: seq<string>,
                         bound: map<string, string>)
    requires Headed(s) && Tracked(s) && Returning(s, name, version, memory, gpus, Replaced(bound))
    ensures Headed(RollbackNext(s, name, version, memory, gpus, Replaced(bound)))
  {
    var c, req := s.containers[Current(s, name)], BackRequest(s, name, version, memory);
    BackFacts(s, name, version, memory, gpus, Replaced(bound));
    FinishHeaded(s, Settled(s, c, req, gpus), name, c, TargetInfo(s, name, version).env,
                 BackHost(s, name, version, memory, gpus), bound);
  }

  lemma StatusHeaded(s: State, name: string, status: Status)
    requires Headed(s) && LiveNow(s, name)
    ensures Headed(SetStatus(s, Current(s, name), status))
  {
    HeadedUp(s, SetStatus(s, Current(s, name), status), name);
  }

  lemma StopHeaded(s: State, name: string)
    requires Headed(s) && LiveNow(s, name)
    ensures Headed(StopNext(s, Current(s, name), true))
  {
    HeadedUp(s, StopNext(s, Current(s, name), true), name);
  }

  lemma DeleteHeaded(s: State, name: string, deleted: DeleteHow)
    requires Headed(s) && Tracked(s) && Plain(s, Delete(name, deleted))
    ensures Headed(DeleteNext(s, name, deleted))
  {
    if Present(s, name) {
      var t := DeleteNext(s, name, deleted);
      assert TrackedAt(s, name) && HeadedAt(s, name);
      SplitPlain(name, "-");
      forall v: nat
        ensures deleted.Deleted? ==> !RunsAs(t, name, v)
      {
        assert v != VersionOf(s.versions, name) ==> !RunsAs(s, name, v);
      }
      forall v: nat | v > VersionOf(t.versions, name)
        ensures !RunsAs(t, name, v)
      {
        assert deleted.MergeDirFailed? ==> RunsAs(t, name, v) == RunsAs(s, name, v);
      }
      HeadedFrom(s, t, name);
    }
  }

  lemma PlainHeaded(s: State, e: Event)
    requires Tended(s) && Enabled(s, e) && Plain(s, e)
    ensures Headed(Next(s, e))
  {
    var t := Next(s, e);
    match e
    case Run(spec, gpus, ran) => RunHeaded(s, spec, gpus, ran);
    case Pause(name, ok) =>
      if ok {
        StatusHeaded(s, name, Paused);
      }
    case Continue(name, ok) =>
      if ok {
        StatusHeaded(s, name, Running);
      }
    case Stop(name, _) => StopHeaded(s, name);
    case Delete(name, deleted) => DeleteHeaded(s, name, deleted);
    case Replace(name, req, gpus, how) =>
      if Replaceable(s, name) {
        ReplacedHeaded(s, name, req, gpus, how.bound);
      }
    case Rollback(name, version, memory, gpus, how) =>
      if Rollable(s, name, version) {
        RolledBackHeaded(s, name, version, memory, gpus, how.bound);
      }
    case Sync(_) => HeadedUp(s, t, "");
  }

  lemma PlainStep(s: State, e: Event)
    requires Tended(s) && Enabled(s, e) && Plain(s, e)
    ensures Tended(Next(s, e))
  {
    PlainKeeps(s, e);
    OwnedIff(s, e);
    TracksNext(s, e);
    PlainPinned(s, e);
    PlainHeaded(s, e);
  }

  /** Plain runs keep ownership: no GPU, processor or port ever has two live holders, and none is lost. */
  lemma {:induction false} PlainRunOwned(s: State, es: seq<Event>)
    requires Tended(s) && PlainRun(s, es)
    ensures OwnedThroughout(s, es) && Tended(RunAll(s, es))
    decreases es
  {
    if es != [] {
      PlainStep(s, es[0]);
      PlainRunOwned(Next(s, es[0]), es[1..]);
    }
  }

  /** A machine on which nothing has been run. */
  function Fresh(gpus: seq<Gpus.Gpu>, cpus: nat, start: nat, end: int): State {
    State(Gpus.Initial(gpus), Cpus.Initial(cpus), Ports(start, end, end - start + 1, {}), map[], map[], [], [])
  }

  lemma FreshOwned(gpus: seq<Gpus.Gpu>, cpus: nat, start: nat, end: int)
    requires |gpus| == |Gpus.Ids(gpus)| && start <= end
    ensures Tended(Fresh(gpus, cpus, start, end))
  {
    var s := Fresh(gpus, cpus, start, end);
    assert s.gpu.status.Keys == Gpus.Ids(gpus) && |s.gpu.status| == |s.gpu.status.Keys|;
    assert s.gpu.Used() == {} && s.cpu.Used() == {};
  }

  /** From a fresh machine on, every plain run is safe. */
  lemma PlainFromFresh(gpus: seq<Gpus.Gpu>, cpus: nat, start: nat, end: int, es: seq<Event>)
    requires |gpus| == |Gpus.Ids(gpus)| && start <= end && PlainRun(Fresh(gpus, cpus, start, end), es)
    ensures OwnedThroughout(Fresh(gpus, cpus, start, end), es)
  {
    FreshOwned(gpus, cpus, start, end);
    PlainRunOwned(Fresh(gpus, cpus, start, end), es);
  }
}
