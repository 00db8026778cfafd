/** For every event, exactly when it keeps ownership. */
module Safety {
  import opened Sizes
  import Cpus = CpuScheduling
  import opened Fleet
  import opened Ownership
  import opened OwnershipReplace
  import opened OwnershipFailed
  import opened OwnershipRollback

  /**
    When Restart or Patch of container c keeps ownership. A live container: completely, unless the GPUs were given
    up while the processors were kept; or not completely, if what was marked happens to be what c holds. Another:
    whenever it fails early enough to give everything back, or none of its former host ports is taken by now.
   */
  ghost predicate ReplaceKeeps(s: State, c: Container, req: Request, gpus: seq<string>, how: ReplaceHow) {
    match how
    case Refused => true
    case NoGpus => !c.Live() || DeviceIDs(c.host) == []
    case NoCpus => !c.Live() && (req.Patch? || GpuMarked(c, req, gpus) == {})
    case NoMemory => !c.Live()
    case NotLaunched(_) => !c.Live()
    case Stalled(_) => GrantUnchanged(s, c, req, gpus)
    case NotStarted(_, _) => GrantUnchanged(s, c, req, gpus)
    case NotRemoved(bound) =>
      if !c.Live() then PortsFree(s, c.host, bound)
      else
        && Units(G, c.host) == {} && Units(P, c.host) == {}
        && CpuKept(req, c) && (GpuDropped(req, c) || c.host.cpusetCpus == "")
    case Replaced(bound) => if c.Live() then CpuFaithful(c, req) else PortsFree(s, c.host, bound)
  }

  ghost predicate GrantUnchanged(s: State, c: Container, req: Request, gpus: seq<string>) {
    && c.Live() && (CpuKept(req, c) || c.host.cpusetCpus != "")
    && GpuMarked(c, req, gpus) == Units(G, c.host) && CpuMarked(s, c, req) == Units(C, c.host)
  }

  /** The common part of the hypotheses: the container and its record. */
  ghost predicate Starting(s: State, name: string, req: Request, gpus: seq<string>, how: ReplaceHow) {
    && Owned(s) && Replaceable(s, name) && Recorded(s, name) && ReplaceEnabled(s, name, req, gpus, how)
  }

  lemma NoCpusIff(s: State, name: string, req: Request, gpus: seq<string>)
    requires Starting(s, name, req, gpus, NoCpus)
    ensures var c := s.containers[Current(s, name)];
      Owned(ReplaceNext(s, name, req, gpus, NoCpus)) <==> ReplaceKeeps(s, c, req, gpus, NoCpus)
  {
    var k := Current(s, name);
    var c, t := s.containers[k], ReplaceNext(s, name, req, gpus, NoCpus);
    if c.Live() {
      RefusedGone(s, k, c, req);
      CpuLost(s, t, k);
    } else {
      IdleRefused(s, c, req, Stored(s, name).host, gpus);
      assert t == if req.Patch? then s else s.(gpu := Settled(s, c, req, gpus).gpu);
    }
  }

  lemma NoMemoryIff(s: State, name: string, req: Request, gpus: seq<string>)
    requires Starting(s, name, req, gpus, NoMemory)
    ensures var c := s.containers[Current(s, name)];
      Owned(ReplaceNext(s, name, req, gpus, NoMemory)) <==> ReplaceKeeps(s, c, req, gpus, NoMemory)
  {
    var k := Current(s, name);
    var c, h, t := s.containers[k], Stored(s, name).host, ReplaceNext(s, name, req, gpus, NoMemory);
    if c.Live() {
      BackGone(s, k, c, req, GpuHost(c, req, h, gpus), LimitsHost(s, c, req, h, gpus));
      CpuLost(s, t, k);
    } else {
      IdleSettled(s, c, req, h, gpus);
      assert t == s;
    }
  }

  lemma NotLaunchedFacts(s: State, name: string, req: Request, gpus: seq<string>, l: Launch)
    requires Replaceable(s, name)
    ensures var c, info := s.containers[Current(s, name)], Stored(s, name);
      var r, h := Settled(s, c, req, gpus), NewHost(s, c, req, info.host, gpus);
      ReplaceNext(s, name, req, gpus, NotLaunched(l)) ==
        Launching(r, name, info.env, h, false, l).(gpu := GpuBack(r.gpu, h), cpu := CpuBack(r.cpu, h))
  {
  }

  /** A launch that only creates, and fails, leaves the containers and the records alone. */
  lemma CreatedNothing(r: State, name: string, env: seq<string>, h: HostConfig, l: Launch)
    requires l.PortsExhausted? || l.CreateFailed?
    ensures var u := Launching(r, name, env, h, false, l);
      u.containers == r.containers && u.log == r.log && u.queue == r.queue
  {
  }

  lemma NotLaunchedIff(s: State, name: string, req: Request, gpus: seq<string>, l: Launch)
    requires Starting(s, name, req, gpus, NotLaunched(l))
    ensures var c := s.containers[Current(s, name)];
      Owned(ReplaceNext(s, name, req, gpus, NotLaunched(l))) <==> ReplaceKeeps(s, c, req, gpus, NotLaunched(l))
  {
    var k := Current(s, name);
    var c, h, t := s.containers[k], Stored(s, name).host, ReplaceNext(s, name, req, gpus, NotLaunched(l));
    var r, x := Settled(s, c, req, gpus), NewHost(s, c, req, h, gpus);
    NotLaunchedFacts(s, name, req, gpus, l);
    if c.Live() {
      SameClaims(s, c, req, h, gpus);
      BackGone(s, k, c, req, GpuHost(c, req, h, gpus), x);
      CreatedNothing(r, name, Stored(s, name).env, x, l);
      CpuLost(s, t, k);
    } else {
      IdleSettled(s, c, req, h, gpus);
      LaunchSame(s, r, name, x, false, l);
      IdleNotLaunched(s, r, name, Stored(s, name).env, x, l);
    }
  }

  /** What a run that got to runContainer leaves behind. */
  lemma RanFacts(s: State, spec: RunSpec, gpus: seq<string>, l: Launch)
    ensures var r, h, t := AfterApply(s, spec, gpus), RunHost(s, spec, gpus), RunNext(s, spec, gpus, Ran(l));
      var u := Launching(r, spec.name, spec.env, h, true, l);
      && t.versions == u.versions && t.containers == u.containers && t.log == s.log
      && t.queue == if l.Launched? then s.queue + [RecordOf(r, spec.name, spec.env, h, l.bound)] else s.queue
  {
  }

  /** What a replacement that got past runContainer has gone through. */
  lemma LateFacts(s: State, name: string, req: Request, gpus: seq<string>, how: ReplaceHow)
    requires Replaceable(s, name) && ReplaceEnabled(s, name, req, gpus, how)
    requires how.Stalled? || how.NotStarted? || how.NotRemoved? || how.Replaced?
    ensures var key := Current(s, name);
      var c, info := s.containers[key], Stored(s, name);
      var r, h := Settled(s, c, req, gpus), NewHost(s, c, req, info.host, gpus);
      && GpuGranted(s, c, req, gpus) && (CpuKept(req, c) || Cpus.CanTake(CpuFreed(s, c), CpuTarget(req, c)))
      && Upcoming(s, name) !in s.containers && Bindable(s.ports, h, how.bound)
      && ReplaceNext(s, name, req, gpus, how) == Finish(r, name, key, c, info.env, h, how)
  {
  }

  /** Finish, as far as containers and records go. */
  lemma FinishFacts(r: State, name: string, key: string, c: Container, env: seq<string>, h: HostConfig, how: ReplaceHow)
    requires how.Stalled? || how.NotStarted? || how.NotRemoved? || how.Replaced?
    ensures var t := Finish(r, name, key, c, env, h, how);
      var u := Launching(r, name, env, h, how.NotRemoved? || how.Replaced?, Launched(how.bound));
      && t.log == r.log
      && t.queue == (if how.Replaced? then r.queue + [RecordOf(r, name, env, h, how.bound)] else r.queue)
      && forall k :: k in t.containers ==> k in u.containers && t.containers[k] == u.containers[k]
  {
  }

  lemma ParkedIff(s: State, name: string, req: Request, gpus: seq<string>, how: ReplaceHow)
    requires Starting(s, name, req, gpus, how) && (how.Stalled? || how.NotStarted?)
    ensures var c := s.containers[Current(s, name)];
      Owned(ReplaceNext(s, name, req, gpus, how)) <==> ReplaceKeeps(s, c, req, gpus, how)
  {
    LateFacts(s, name, req, gpus, how);
    var k, up := Current(s, name), Upcoming(s, name);
    var c, info := s.containers[k], Stored(s, name);
    var r, h := Settled(s, c, req, gpus), NewHost(s, c, req, info.host, gpus);
    var t := FinishedParked(s, r, name, k, c, info.env, h, how);
    if c.Live() {
      StalledOwnedIff(s, t, k, c, up, req, gpus, how.bound);
    } else {
      IdleSettled(s, c, req, info.host, gpus);
      IdleParked(s, r, t, up, h, how.bound);
    }
  }

  lemma NotRemovedIff(s: State, name: string, req: Request, gpus: seq<string>, bound: map<string, string>)
    requires Starting(s, name, req, gpus, NotRemoved(bound))
    ensures var c := s.containers[Current(s, name)];
      Owned(ReplaceNext(s, name, req, gpus, NotRemoved(bound))) <==> ReplaceKeeps(s, c, req, gpus, NotRemoved(bound))
  {
    LateFacts(s, name, req, gpus, NotRemoved(bound));
    var k, up := Current(s, name), Upcoming(s, name);
    var c, info := s.containers[k], Stored(s, name);
    var r, h := Settled(s, c, req, gpus), NewHost(s, c, req, info.host, gpus);
    var t := FinishedDoubles(s, r, name, k, info.env, h, bound);
    if c.Live() {
      DoubledOwnedIff(s, t, name, k, c, up, NewContainer(r, name, info.env, h, Running, bound), req, gpus, bound);
    } else {
      IdleSettled(s, c, req, info.host, gpus);
      assert Upcoming(r, name) == up;
      IdleFinished(s, r, t, name, k, info.env, h, bound, false);
    }
  }

  lemma ReplacedIff(s: State, name: string, req: Request, gpus: seq<string>, bound: map<string, string>)
    requires Starting(s, name, req, gpus, Replaced(bound))
    ensures var c := s.containers[Current(s, name)];
      Owned(ReplaceNext(s, name, req, gpus, Replaced(bound))) <==> ReplaceKeeps(s, c, req, gpus, Replaced(bound))
  {
    LateFacts(s, name, req, gpus, Replaced(bound));
    var k, up := Current(s, name), Upcoming(s, name);
    var c, info := s.containers[k], Stored(s, name);
    var r, h := Settled(s, c, req, gpus), NewHost(s, c, req, info.host, gpus);
    if c.Live() {
      SuccessorOwnedIff(s, name, k, c, req, gpus, info.env, bound);
    } else {
      var t := Finish(r, name, k, c, info.env, h, Replaced(bound));
      IdleSettled(s, c, req, info.host, gpus);
      assert Upcoming(r, name) == up;
      IdleFinished(s, r, t, name, k, info.env, h, bound, true);
    }
  }

  lemma ReplaceOwnedIff(s: State, name: string, req: Request, gpus: seq<string>, how: ReplaceHow)
    requires Starting(s, name, req, gpus, how)
    ensures Owned(ReplaceNext(s, name, req, gpus, how)) <==>
      ReplaceKeeps(s, s.containers[Current(s, name)], req, gpus, how)
  {
    match how
    case Refused =>
    case NoGpus => NoGpusOwnedIff(s, Current(s, name), s.containers[Current(s, name)]);
    case NoCpus => NoCpusIff(s, name, req, gpus);
    case NoMemory => NoMemoryIff(s, name, req, gpus);
    case NotLaunched(l) => NotLaunchedIff(s, name, req, gpus, l);
    case Stalled(_) => ParkedIff(s, name, req, gpus, how);
    case NotStarted(_, _) => ParkedIff(s, name, req, gpus, how);
    case NotRemoved(bound) => NotRemovedIff(s, name, req, gpus, bound);
    case Replaced(bound) => ReplacedIff(s, name, req, gpus, bound);
  }

  // Rollback ----------------------------------------------------------------------------------------------

  /** The rollback has a record to go back to and a container to replace, and may go this way. */
  ghost predicate Returning(s: State, name: string, version: int, memory: Size, gpus: seq<string>, how: ReplaceHow) {
    Owned(s) && Rollable(s, name, version) && RollbackEnabled(s, name, version, memory, gpus, how)
  }

  /** The request that its stages amount to, and the configuration of the successor. */
  function BackRequest(s: State, name: string, version: int, memory: Size): Request
    requires Rollable(s, name, version)
  {
    AsPatch(s.containers[Current(s, name)], TargetInfo(s, name, version).host, memory)
  }

  function BackHost(s: State, name: string, version: int, memory: Size, gpus: seq<string>): HostConfig
    requires Rollable(s, name, version)
  {
    NewHost(s, s.containers[Current(s, name)], BackRequest(s, name, version, memory),
            TargetInfo(s, name, version).host, gpus)
  }

  /** What a rollback that has settled its resources has gone through. */
  lemma BackFacts(s: State, name: string, version: int, memory: Size, gpus: seq<string>, how: ReplaceHow)
    requires Returning(s, name, version, memory, gpus, how) && !how.NoGpus? && !how.NoCpus?
    ensures var k := Current(s, name);
      var c, req := s.containers[k], BackRequest(s, name, version, memory);
      var r, h := Settled(s, c, req, gpus), BackHost(s, name, version, memory, gpus);
      var env := TargetInfo(s, name, version).env;
      && Settling(s, k, c, req, gpus)
      && RollbackNext(s, name, version, memory, gpus, how) ==
           match how
           case NotLaunched(l) => Launching(r, name, env, h, true, l)
           case Stalled(bound) => Launching(r, name, env, h, true, Launched(bound))
           case NotRemoved(_) => Finish(r, name, k, c, env, h, how)
           case Replaced(_) => Finish(r, name, k, c, env, h, how)
           case _ => r
  {
  }

  lemma BackLaunch(s: State, name: string, version: int, memory: Size, gpus: seq<string>, how: ReplaceHow)
    requires Returning(s, name, version, memory, gpus, how)
    ensures var h := BackHost(s, name, version, memory, gpus);
      && (how.NotLaunched? ==> !how.launch.Launched? && CanLaunch(s, name, h, true, how.launch))
      && (how.Stalled? || how.NotRemoved? || how.Replaced? ==> CanLaunch(s, name, h, true, Launched(how.bound)))
  {
  }

  /** A launch from r that fails leaves the ports drawn and at most one container that is not live. */
  lemma FailedParks(s: State, r: State, name: string, env: seq<string>, h: HostConfig, l: Launch) returns (t: State)
    requires r == s.(gpu := r.gpu, cpu := r.cpu)
    requires (l.CreateFailed? || l.StartFailed?) && CanLaunch(s, name, h, true, l)
    ensures t == Launching(r, name, env, h, true, l) && Parked(s, r, t, Upcoming(s, name), h, l.bound)
    ensures t.containers == s.containers <==> !(l.StartFailed? && l.lingering)
  {
    t := Launching(r, name, env, h, true, l);
    assert Upcoming(r, name) == Upcoming(s, name);
  }

  lemma BackNotLaunchedIff(s: State, name: string, version: int, memory: Size, gpus: seq<string>, l: Launch)
    requires Returning(s, name, version, memory, gpus, NotLaunched(l))
    ensures var c, req := s.containers[Current(s, name)], BackRequest(s, name, version, memory);
      Owned(RollbackNext(s, name, version, memory, gpus, NotLaunched(l))) <==>
      RollbackKeeps(s, c, req, gpus, BackHost(s, name, version, memory, gpus), NotLaunched(l))
  {
    BackFacts(s, name, version, memory, gpus, NotLaunched(l));
    BackLaunch(s, name, version, memory, gpus, NotLaunched(l));
    var k := Current(s, name);
    var c, req, h := s.containers[k], BackRequest(s, name, version, memory), BackHost(s, name, version, memory, gpus);
    var r, env := Settled(s, c, req, gpus), TargetInfo(s, name, version).env;
    if l.PortsExhausted? {
      BackEarly(s, Launching(r, name, env, h, true, l), k, c, req, gpus);
    } else {
      var t := FailedParks(s, r, name, env, h, l);
      BackParked(s, t, k, c, req, gpus, Upcoming(s, name), h, l.bound);
    }
  }

  /** The successor runs: its name, its host and the ports. */
  lemma BackRuns(s: State, r: State, name: string, env: seq<string>, h: HostConfig, bound: map<string, string>)
    returns (n: Container)
    requires r == s.(gpu := r.gpu, cpu := r.cpu) && CanLaunch(s, name, h, true, Launched(bound))
    ensures var u := Launching(r, name, env, h, true, Launched(bound));
      && u.gpu == r.gpu && u.cpu == r.cpu && u.ports == s.ports.(used := s.ports.used + bound.Values)
      && u.containers == s.containers[Upcoming(s, name) := n]
    ensures n.Live() && n.host == Bind(h, bound) && Upcoming(s, name) !in s.containers && Bindable(s.ports, h, bound)
  {
    n := NewContainer(r, name, env, h, Running, bound);
    assert Upcoming(r, name) == Upcoming(s, name);
  }

  lemma BackRunningIff(s: State, name: string, version: int, memory: Size, gpus: seq<string>, how: ReplaceHow)
    requires Returning(s, name, version, memory, gpus, how) && (how.Stalled? || how.NotRemoved? || how.Replaced?)
    ensures var c, req := s.containers[Current(s, name)], BackRequest(s, name, version, memory);
      Owned(RollbackNext(s, name, version, memory, gpus, how)) <==>
      RollbackKeeps(s, c, req, gpus, BackHost(s, name, version, memory, gpus), how)
  {
    BackFacts(s, name, version, memory, gpus, how);
    BackLaunch(s, name, version, memory, gpus, how);
    var k, up := Current(s, name), Upcoming(s, name);
    var c, req, h := s.containers[k], BackRequest(s, name, version, memory), BackHost(s, name, version, memory, gpus);
    var r, env := Settled(s, c, req, gpus), TargetInfo(s, name, version).env;
    var n := BackRuns(s, r, name, env, h, how.bound);
    var t := RollbackNext(s, name, version, memory, gpus, how);
    match how
    case Stalled(bound) => BackBeside(s, t, k, c, req, gpus, up, n, h, bound, false);
    case NotRemoved(bound) => BackBeside(s, t, k, c, req, gpus, up, n, h, bound, true);
    case Replaced(bound) => BackInstead(s, t, k, c, req, gpus, up, n, h, bound);
  }

  /** Every outcome of a rollback, whatever the record says. */
  lemma RollbackOwnedIff(s: State, name: string, version: int, memory: Size, gpus: seq<string>, how: ReplaceHow)
    requires Returning(s, name, version, memory, gpus, how)
    ensures var c, req := s.containers[Current(s, name)], BackRequest(s, name, version, memory);
      Owned(RollbackNext(s, name, version, memory, gpus, how)) <==>
      RollbackKeeps(s, c, req, gpus, BackHost(s, name, version, memory, gpus), how)
  {
    var k := Current(s, name);
    var c, req := s.containers[k], BackRequest(s, name, version, memory);
    match how
    case NoGpus => NoGpusOwnedIff(s, k, c);
    case NoCpus => BackNoCpus(s, k, c, req, gpus);
    case NoMemory =>
      BackFacts(s, name, version, memory, gpus, how);
      BackEarly(s, Settled(s, c, req, gpus), k, c, req, gpus);
    case NotLaunched(l) => BackNotLaunchedIff(s, name, version, memory, gpus, l);
    case _ => BackRunningIff(s, name, version, memory, gpus, how);
  }

  /** The exact condition, event by event, in terms of the state before and of how the event goes. */
  ghost predicate Keeps(s: State, e: Event) {
    match e
    case Run(spec, _, ran) => ran.Ran? && !ran.launch.Launched? ==> spec.cpuCount > 0
    case Pause(_, _) => true
    case Continue(name, ok) =>
      ok && Present(s, name) ==>
        var c := s.containers[Current(s, name)]; c.Live() || ClaimsNothing(s, c.host)
    case Stop(name, ok) =>
      Present(s, name) ==>
        var c := s.containers[Current(s, name)];
        c.host.cpusetCpus != "" && (if c.Live() then ok else NobodyHolds(s, c.host))
    case Delete(name, deleted) =>
      Present(s, name) ==>
        var c := s.containers[Current(s, name)];
        (c.Live() ==> c.host.cpusetCpus != "" && deleted == Deleted(true))
    case Replace(name, req, gpus, how) =>
      Replaceable(s, name) ==> ReplaceKeeps(s, s.containers[Current(s, name)], req, gpus, how)
    case Rollback(name, version, memory, gpus, how) =>
      Rollable(s, name, version) ==>
        RollbackKeeps(s, s.containers[Current(s, name)], BackRequest(s, name, version, memory), gpus,
                      BackHost(s, name, version, memory, gpus), how)
    case Sync(_) => true
  }

  /** Every request, however it goes, keeps the ownership invariant exactly when Keeps says so. */
  lemma OwnedIff(s: State, e: Event)
    requires Owned(s) && Enabled(s, e) && (e.Replace? ==> Recorded(s, e.name))
    ensures Owned(Next(s, e)) <==> Keeps(s, e)
  {
    match e
    case Run(spec, gpus, ran) => RunOwnedIff(s, spec, gpus, ran);
    case Pause(name, ok) => PauseOwned(s, name, ok);
    case Continue(name, ok) =>
      if ok {
        ContinueOwnedIff(s, name);
      }
    case Stop(name, ok) =>
      if Present(s, name) {
        StopOwnedIff(s, name, ok);
      }
    case Delete(name, deleted) =>
      if Present(s, name) {
        DeleteOwnedIff(s, name, deleted);
      }
    case Replace(name, req, gpus, how) =>
      if Replaceable(s, name) {
        ReplaceOwnedIff(s, name, req, gpus, how);
      }
    case Rollback(name, version, memory, gpus, how) =>
      if Rollable(s, name, version) {
        RollbackOwnedIff(s, name, version, memory, gpus, how);
      }
    case Sync(_) => ShapedFrom(s, Next(s, e));
  }
}
