/** The methods of ReplicaSetService; each states which event of the fleet it has been. */
module ReplicaSetServices {
  import opened Prelude
  import opened Pools
  import opened Text
  import opened Sizes
  import opened Mvcc
  import opened Versions
  import opened Channels
  import Gpus = GpuScheduling
  import Cpus = CpuScheduling
  import opened PortScheduling
  import opened Fleet
  import opened ReplicaSets

  /** The body of a run request; memory may be empty. */
  datatype ContainerRun = ContainerRun(
    name: string, gpuCount: int, cpuCount: int, memory: string,
    containerPorts: set<string>, env: seq<string>, binds: seq<string>)

  /** A size string as the request carries it: read only if it is there. */
  function ReadSize(parse: Parser, memory: Option<string>): Option<Size> {
    if memory.Some? then Some(ToBytes(parse, memory.value)) else None
  }

  function SpecOf(parse: Parser, r: ContainerRun): RunSpec {
    RunSpec(r.name, r.gpuCount, r.cpuCount, ReadSize(parse, if r.memory != "" then Some(r.memory) else None),
            r.containerPorts, r.env, r.binds)
  }

  /** The grants for a run that got past its resources. */
  ghost predicate Reserved(s: State, spec: RunSpec, gpus: seq<string>) {
    && '-' !in spec.name && Sliceable(spec.memory) && !BadSize(spec.memory)
    && (spec.gpuCount <= 0 || Gpus.CanTake(s.gpu, spec.gpuCount))
    && (spec.cpuCount <= 0 || Cpus.CanTake(s.cpu, spec.cpuCount))
    && (if spec.gpuCount > 0 then Gpus.IsGrant(s.gpu, spec.gpuCount, gpus) else gpus == [])
  }

  lemma ReservedLaunch(s: State, spec: RunSpec, gpus: seq<string>, l: Launch)
    requires Reserved(s, spec, gpus) && CanLaunch(AfterApply(s, spec, gpus), spec.name, RunHost(s, spec, gpus), true, l)
    ensures RunEnabled(s, spec, gpus, Ran(l))
    ensures var r, h := AfterApply(s, spec, gpus), RunHost(s, spec, gpus);
      var t := Launching(r, spec.name, spec.env, h, true, l);
      RunNext(s, spec, gpus, Ran(l)) ==
        if l.Launched? then t.(queue := r.queue + [RecordOf(r, spec.name, spec.env, h, l.bound)])
        else t.(gpu := GpuBack(r.gpu, h), cpu := CpuBack(r.cpu, h))
  {
  }

  /** How a stage of Restart or Patch deals with the GPUs; s is the state before, c the old container. */
  ghost predicate GpusSettled(s: State, c: Container, req: Request, ok: bool, gpus: seq<string>, p: Pool,
                              h: HostConfig, x: HostConfig) {
    && (ok <==> GpuWanted(req, c) ==> Gpus.CanTake(GpuFreed(s, c), GpuTarget(req, c)))
    && if ok then GpuGranted(s, c, req, gpus) && p == NewGpu(s, c, req, gpus) && x == GpuHost(c, req, h, gpus)
       else gpus == [] && p == GpuFreed(s, c) && x == h
  }

  ghost predicate CpusSettled(s: State, c: Container, req: Request, ok: bool, p: Pool, h: HostConfig, x: HostConfig) {
    && (ok <==> CpuKept(req, c) || Cpus.CanTake(CpuFreed(s, c), CpuTarget(req, c)))
    && p == NewCpu(s, c, req) && x == if ok then CpuHost(s, c, req, h) else h
  }

  /** The event's last part, from runContainer on; s has the new pools already. */
  ghost predicate Recreated(s: State, t: State, name: string, key: string, c: Container, env: seq<string>,
                            h: HostConfig, how: ReplaceHow) {
    match how
    case NotLaunched(l) =>
      && (l.PortsExhausted? || l.CreateFailed?) && CanLaunch(s, name, h, false, l)
      && t == Launching(s, name, env, h, false, l).(gpu := GpuBack(s.gpu, h), cpu := CpuBack(s.cpu, h))
    case Stalled(bound) => CanLaunch(s, name, h, false, Launched(bound)) && t == Finish(s, name, key, c, env, h, how)
    case NotStarted(bound, _) =>
      CanLaunch(s, name, h, false, Launched(bound)) && t == Finish(s, name, key, c, env, h, how)
    case NotRemoved(bound) => CanLaunch(s, name, h, false, Launched(bound)) && t == Finish(s, name, key, c, env, h, how)
    case Replaced(bound) => CanLaunch(s, name, h, false, Launched(bound)) && t == Finish(s, name, key, c, env, h, how)
    case _ => false
  }

  /** From the state in which the new container has been created but not started. */
  function CutOver(u: State, key: string, up: string, kv: Item, how: ReplaceHow): State
    requires key in u.containers && up in u.containers
  {
    var running := u.containers[up := u.containers[up].(status := Running)];
    match how
    case NotStarted(_, lingering) => if lingering then u else u.(containers := u.containers - {up})
    case NotRemoved(_) => u.(containers := running, ports := PortsBack(u.ports, u.containers[key].host))
    case Replaced(_) =>
      u.(containers := running - {key}, ports := PortsBack(u.ports, u.containers[key].host), queue := u.queue + [kv])
    case _ => u
  }

  lemma CutOverBound(u: State, key: string, up: string, kv: Item, how: ReplaceHow)
    requires key in u.containers && up in u.containers && AllBound(u.containers)
    ensures AllBound(CutOver(u, key, up, kv, how).containers)
  {
  }

  lemma CutOverFinishes(s: State, name: string, key: string, env: seq<string>, h: HostConfig, how: ReplaceHow)
    requires key in s.containers && Upcoming(s, name) != key
    requires how.Stalled? || how.NotStarted? || how.NotRemoved? || how.Replaced?
    ensures var u := Launching(s, name, env, h, false, Launched(how.bound));
      CutOver(u, key, Upcoming(s, name), RecordOf(s, name, env, h, how.bound), how) ==
      Finish(s, name, key, s.containers[key], env, h, how)
  {
  }

  /** The container that a stop is about. */
  function StopKey(s: State, name: string, isLatest: bool): Option<string> {
    var key := if isLatest then Current(s, name) else name;
    if (isLatest && name !in s.versions) || key !in s.containers then None else Some(key)
  }

  function Releasing(s: State, h: HostConfig, gpu: bool, cpu: bool, port: bool): State {
    s.(gpu := if gpu then GpuBack(s.gpu, h) else s.gpu, cpu := if cpu then CpuBack(s.cpu, h) else s.cpu,
       ports := if port then PortsBack(s.ports, h) else s.ports)
  }

  /** A stop that gives back only some of the resources; after a failure it gives the same ones back again. */
  function Stopping(s: State, key: string, gpu: bool, cpu: bool, port: bool, ok: bool): State
    requires key in s.containers
  {
    var c := s.containers[key];
    var t := Releasing(s, c.host, gpu, cpu, port);
    if ok then (if c.Live() then SetStatus(t, key, Exited) else t)
    else t.(gpu := if gpu then GpuBack(t.gpu, c.host) else t.gpu, cpu := if cpu then CpuBack(t.cpu, c.host) else t.cpu)
  }

  lemma StoppingAll(s: State, name: string)
    ensures match StopKey(s, name, true)
      case None => Next(s, Stop(name, false)) == s
      case Some(key) => forall ok :: Next(s, Stop(name, ok)) == Stopping(s, key, true, true, true, ok)
  {
  }

  lemma GiveNothing(p: Pool, q: Pool)
    ensures Gpus.Give(p, []) == p && Cpus.Give(q, []) == q
  {
    MarkNone(q, 0);
  }

  /** No container has a port binding without a host port: runContainer has filled all of them. */
  predicate AllBound(cs: map<string, Container>) {
    forall k :: k in cs ==> forall p :: p in cs[k].host.portBindings ==> cs[k].host.portBindings[p] != []
  }

  /** The stages before the memory, passed. */
  ghost predicate UnitsSettled(s: State, t: State, name: string, req: Request, gpus: seq<string>, h: HostConfig) {
    && Replaceable(s, name)
    && var c := s.containers[Current(s, name)];
    && (GpuWanted(req, c) ==> Gpus.CanTake(GpuFreed(s, c), GpuTarget(req, c))) && GpuGranted(s, c, req, gpus)
    && (CpuKept(req, c) || Cpus.CanTake(CpuFreed(s, c), CpuTarget(req, c)))
    && t == Settled(s, c, req, gpus) && h == LimitsHost(s, c, req, Stored(s, name).host, gpus)
  }

  /** All stages before runContainer, passed: t is the state then, h the configuration. */
  ghost predicate LimitsSettled(s: State, t: State, name: string, req: Request, gpus: seq<string>, h: HostConfig) {
    && Replaceable(s, name) && (req.Patch? ==> Sliceable(req.memory) && !BadSize(req.memory))
    && var c := s.containers[Current(s, name)];
    && UnitsSettled(s, t, name, req, gpus, LimitsHost(s, c, req, Stored(s, name).host, gpus))
    && h == NewHost(s, c, req, Stored(s, name).host, gpus)
  }

  /** One of them has failed. */
  ghost predicate LimitsFailed(s: State, t: State, name: string, req: Request, gpus: seq<string>, how: ReplaceHow) {
    && (how.NoGpus? || how.NoCpus? || how.NoMemory?)
    && ReplaceEnabled(s, name, req, gpus, how) && t == ReplaceNext(s, name, req, gpus, how)
  }

  lemma PatchNoCpus(s: State, t: State, name: string, req: Request, gpus: seq<string>)
    requires Replaceable(s, name) && req.Patch? && Sliceable(req.memory)
    requires var c := s.containers[Current(s, name)];
      && (GpuWanted(req, c) ==> Gpus.CanTake(GpuFreed(s, c), GpuTarget(req, c))) && GpuGranted(s, c, req, gpus)
      && !CpuKept(req, c) && !Cpus.CanTake(CpuFreed(s, c), CpuTarget(req, c))
      && t == s.(gpu := GpuBack(NewGpu(s, c, req, gpus), GpuHost(c, req, Stored(s, name).host, gpus)),
                 cpu := NewCpu(s, c, req))
    ensures LimitsFailed(s, t, name, req, gpus, NoCpus)
  {
  }

  lemma PatchNoMemory(s: State, r: State, t: State, name: string, req: Request, gpus: seq<string>, h: HostConfig)
    requires UnitsSettled(s, r, name, req, gpus, h) && req.Patch? && Sliceable(req.memory) && BadSize(req.memory)
    requires t == r.(gpu := GpuBack(r.gpu, h), cpu := CpuBack(r.cpu, h))
    ensures LimitsFailed(s, t, name, req, gpus, NoMemory)
  {
  }

  lemma RestartNoCpus(s: State, t: State, name: string, gpus: seq<string>)
    requires Replaceable(s, name)
    requires var c := s.containers[Current(s, name)];
      && (GpuWanted(Restart, c) ==> Gpus.CanTake(GpuFreed(s, c), GpuTarget(Restart, c)))
      && GpuGranted(s, c, Restart, gpus) && !Cpus.CanTake(CpuFreed(s, c), CpuTarget(Restart, c))
      && t == Settled(s, c, Restart, gpus)
    ensures LimitsFailed(s, t, name, Restart, gpus, NoCpus)
  {
  }

  lemma RestartMemory(s: State, r: State, name: string, gpus: seq<string>, h: HostConfig, x: HostConfig)
    requires UnitsSettled(s, r, name, Restart, gpus, h)
    requires var c := s.containers[Current(s, name)];
      x == if c.host.memory != 0 then h.(memory := c.host.memory) else h
    ensures LimitsSettled(s, r, name, Restart, gpus, x)
  {
  }

  lemma LateReplace(s: State, r: State, t: State, name: string, req: Request, gpus: seq<string>, h: HostConfig,
                    how: ReplaceHow)
    requires LimitsSettled(s, r, name, req, gpus, h)
    requires Recreated(r, t, name, Current(s, name), s.containers[Current(s, name)], Stored(s, name).env, h, how)
    ensures ReplaceEnabled(s, name, req, gpus, how) && t == ReplaceNext(s, name, req, gpus, how)
  {
  }

  /** The request and the configuration that a rollback has arrived at after its stages, and the state t then. */
  ghost predicate BackSettled(s: State, t: State, name: string, version: int, memory: Size, gpus: seq<string>,
                              h: HostConfig) {
    && Rollable(s, name, version) && memory.Bytes?
    && var c := s.containers[Current(s, name)];
    var target := TargetInfo(s, name, version).host;
    var req := AsPatch(c, target, memory);
    && BackUnits(s, t, c, req, target, gpus, LimitsHost(s, c, req, target, gpus))
    && h == NewHost(s, c, req, target, gpus)
  }

  /** The stages before the memory, passed. */
  ghost predicate BackUnits(s: State, t: State, c: Container, req: Request, target: HostConfig, gpus: seq<string>,
                            h: HostConfig) {
    && (GpuWanted(req, c) ==> Gpus.CanTake(GpuFreed(s, c), GpuTarget(req, c))) && GpuGranted(s, c, req, gpus)
    && (CpuKept(req, c) || Cpus.CanTake(CpuFreed(s, c), CpuTarget(req, c)))
    && t == Settled(s, c, req, gpus) && h == LimitsHost(s, c, req, target, gpus)
  }

  /** The rollback has been one that ended this way. */
  ghost predicate BackEnded(s: State, t: State, name: string, version: int, memory: Size, gpus: seq<string>,
                            how: ReplaceHow) {
    RollbackEnabled(s, name, version, memory, gpus, how) && t == RollbackNext(s, name, version, memory, gpus, how)
  }

  lemma BackNoGpus(s: State, name: string, version: int, memory: Size)
    requires Rollable(s, name, version) && !memory.Panic?
    requires var c := s.containers[Current(s, name)];
      var req := AsPatch(c, TargetInfo(s, name, version).host, memory);
      GpuWanted(req, c) && !Gpus.CanTake(GpuFreed(s, c), GpuTarget(req, c))
    ensures var c := s.containers[Current(s, name)];
      BackEnded(s, s.(gpu := GpuFreed(s, c)), name, version, memory, [], NoGpus)
  {
  }

  lemma BackNoCpus(s: State, t: State, name: string, version: int, memory: Size, gpus: seq<string>)
    requires Rollable(s, name, version) && !memory.Panic?
    requires var c := s.containers[Current(s, name)];
      var req := AsPatch(c, TargetInfo(s, name, version).host, memory);
      && (GpuWanted(req, c) ==> Gpus.CanTake(GpuFreed(s, c), GpuTarget(req, c))) && GpuGranted(s, c, req, gpus)
      && !CpuKept(req, c) && !Cpus.CanTake(CpuFreed(s, c), CpuTarget(req, c)) && t == Settled(s, c, req, gpus)
    ensures BackEnded(s, t, name, version, memory, gpus, NoCpus)
  {
  }

  lemma BackNoMemory(s: State, t: State, name: string, version: int, memory: Size, gpus: seq<string>, h: HostConfig)
    requires Rollable(s, name, version) && !memory.Panic? && !memory.Bytes?
    requires var c, target := s.containers[Current(s, name)], TargetInfo(s, name, version).host;
      BackUnits(s, t, c, AsPatch(c, target, memory), target, gpus, h)
    ensures BackEnded(s, t, name, version, memory, gpus, NoMemory)
  {
  }

  /** The last part of a rollback, from runContainer on; s has the new pools already. */
  ghost predicate Relaunched(s: State, t: State, name: string, key: string, c: Container, env: seq<string>,
                             h: HostConfig, how: ReplaceHow) {
    match how
    case NotLaunched(l) => !l.Launched? && CanLaunch(s, name, h, true, l) && t == Launching(s, name, env, h, true, l)
    case Stalled(bound) =>
      CanLaunch(s, name, h, true, Launched(bound)) && t == Launching(s, name, env, h, true, Launched(bound))
    case NotRemoved(bound) => CanLaunch(s, name, h, true, Launched(bound)) && t == Finish(s, name, key, c, env, h, how)
    case Replaced(bound) => CanLaunch(s, name, h, true, Launched(bound)) && t == Finish(s, name, key, c, env, h, how)
    case _ => false
  }

  lemma LateRollback(s: State, r: State, t: State, name: string, version: int, memory: Size, gpus: seq<string>,
                     h: HostConfig, how: ReplaceHow)
    requires BackSettled(s, r, name, version, memory, gpus, h)
    requires Relaunched(r, t, name, Current(s, name), s.containers[Current(s, name)],
                        TargetInfo(s, name, version).env, h, how)
    ensures BackEnded(s, t, name, version, memory, gpus, how)
  {
    LateEnabled(s, r, name, version, memory, gpus, h, how);
    RollbackState(s, name, version, memory, gpus, how);
  }

  lemma LateEnabled(s: State, r: State, name: string, version: int, memory: Size, gpus: seq<string>, h: HostConfig,
                    how: ReplaceHow)
    requires BackSettled(s, r, name, version, memory, gpus, h)
    requires how.NotLaunched? || how.Stalled? || how.NotRemoved? || how.Replaced?
    requires how.NotLaunched? ==> !how.launch.Launched? && CanLaunch(r, name, h, true, how.launch)
    requires !how.NotLaunched? ==> CanLaunch(r, name, h, true, Launched(how.bound))
    ensures RollbackEnabled(s, name, version, memory, gpus, how)
  {
    LaunchSame(s, r, name, h, true, if how.NotLaunched? then how.launch else Launched(how.bound));
  }

  /** With no ports to assign there is nothing to draw. */
  lemma NoPorts(p: Ports, h: HostConfig)
    requires h.portBindings == map[]
    ensures var none: map<string, string> := map[];
      Bindable(p, h, none) && Bind(h, none) == h && p.(used := p.used + none.Values) == p
  {
    var none: map<string, string> := map[];
    assert p.used + none.Values == p.used && Bind(h, none).portBindings == map[];
  }

  class ReplicaSetService {
    const gpuScheduler: Gpus.GpuScheduler
    const cpuScheduler: Cpus.CpuScheduler
    const portScheduler: PortScheduler
    const versionMap: VersionMap
    const docker: ContainerHost
    const queue: Channel<Item>
    const etcd: Store<string, Record>
    const parseFloat: Parser

    ghost function Abs(): State
      reads this, gpuScheduler, cpuScheduler, portScheduler, versionMap, docker, queue, etcd
    {
      State(gpuScheduler.Abs(), cpuScheduler.Abs(), portScheduler.Abs(), versionMap.entries, docker.containers,
            etcd.log, queue.items)
    }

    ghost predicate Valid()
      reads this, portScheduler, docker
    {
      portScheduler.Valid() && AllBound(docker.containers)
    }

    constructor (gpus: Gpus.GpuScheduler, cpus: Cpus.CpuScheduler, ports: PortScheduler, parseFloat: Parser)
      requires ports.Valid()
      ensures Valid() && gpuScheduler == gpus && cpuScheduler == cpus && portScheduler == ports
      ensures Abs() == State(gpus.Abs(), cpus.Abs(), ports.Abs(), map[], map[], [], [])
    {
      gpuScheduler, cpuScheduler, portScheduler, this.parseFloat := gpus, cpus, ports, parseFloat;
      versionMap := new VersionMap();
      docker := new ContainerHost();
      queue := new Channel();
      etcd := new Store();
    }

    // runContainer ----------------------------------------------------------------------------------------

    method startContainer(name: string) returns (ok: bool, ghost lingering: bool)
      modifies docker
      ensures ok ==> name in old(docker.containers)
      ensures docker.containers ==
        if ok then old(docker.containers)[name := old(docker.containers)[name].(status := Running)]
        else if lingering then old(docker.containers) else old(docker.containers) - {name}
    {
      lingering := false;
      ok := docker.ContainerStart(name);
      if !ok {
        var removed := docker.ContainerRemove(name);
        lingering := !removed;
      }
    }

    /** The ports of runContainer. The error of Apply goes to a new variable that the deferred function does not see. */
    method assignPorts(info: ContainerInfo) returns (ok: bool, ghost bound: map<string, string>)
      requires portScheduler.Valid()
      modifies info`host, portScheduler
      ensures portScheduler.Valid()
      ensures var p, h := old(portScheduler.Abs()), old(info.host);
        if ok then
          && Bindable(p, h, bound) && portScheduler.Abs() == p.(used := p.used + bound.Values)
          && info.host == Bind(h, bound)
        else h.portBindings != map[] && !CanTake(p, |h.portBindings|) && portScheduler.Abs() == p && info.host == h
    {
      ok, bound := true, map[];
      ghost var p := portScheduler.Abs();
      if |info.host.portBindings| > 0 {
        var availableOSPorts := portScheduler.Apply(|info.host.portBindings|);
        if availableOSPorts.Err? {
          return false, map[];
        }
        bound := info.bindPorts(availableOSPorts.value);
      } else {
        NoPorts(p, info.host);
      }
    }

    method drawVersion(name: string, info: ContainerInfo) returns (version: nat)
      modifies info`env, versionMap
      ensures version == Number(old(Abs()), name)
      ensures versionMap.entries == Bump(old(versionMap.entries), name)
      ensures info.env == RewriteEnv(old(info.env), version)
    {
      var latest, _ := versionMap.Get(name);
      version := latest + 1;
      versionMap.Set(name, version);
      info.setVersion(version);
    }

    method undoVersion(name: string, version: nat)
      requires version >= 1
      modifies versionMap
      ensures versionMap.entries == Undo(old(versionMap.entries), name, version)
    {
      if version == 1 {
        versionMap.Remove(name);
      } else {
        versionMap.Set(name, version - 1);
      }
    }

    /** Creates the container and, unless told otherwise, starts it. */
    method createContainer(name: string, info: ContainerInfo, onlyCreate: bool)
      returns (created: bool, ok: bool, ghost lingering: bool)
      modifies docker
      ensures created ==> name !in old(docker.containers)
      ensures (ok ==> created) && (created && !ok ==> !onlyCreate)
      ensures docker.containers ==
        var c := Container(if onlyCreate then Created else Running, info.env, info.host);
        if ok then old(docker.containers)[name := c]
        else if created && lingering then old(docker.containers)[name := Container(Created, info.env, info.host)]
        else old(docker.containers)
    {
      ghost var was := docker.containers;
      lingering := false;
      created := docker.ContainerCreate(name, info.env, info.host);
      ok := created;
      if created && !onlyCreate {
        assert was[name := Container(Created, info.env, info.host)] - {name} == was;
        ok, lingering := startContainer(name);
      }
    }

    method runContainer(name: string, info: ContainerInfo, onlyCreate: bool) returns (kv: Option<Item>, ghost l: Launch)
      requires Valid()
      modifies info, versionMap, portScheduler, docker
      ensures Valid()
      ensures CanLaunch(old(Abs()), name, old(info.host), !onlyCreate, l)
      ensures Abs() == Launching(old(Abs()), name, old(info.env), old(info.host), !onlyCreate, l)
      ensures kv ==
        if l.Launched? then Some(RecordOf(old(Abs()), name, old(info.env), old(info.host), l.bound)) else None
      ensures info.host == if l.PortsExhausted? then old(info.host) else Bind(old(info.host), l.bound)
    {
      var version := drawVersion(name, info);
      var ctrVersionName := VersionedName(name, version);

      var ok; ghost var bound;
      ok, bound := assignPorts(info);
      if !ok {
        return None, PortsExhausted;
      }

      var created; ghost var lingering;
      created, ok, lingering := createContainer(ctrVersionName, info, onlyCreate);
      if !ok {
        undoVersion(name, version);
        l := if created then StartFailed(bound, lingering) else CreateFailed(bound);
        return None, l;
      }
      return Some(Put(name, Versioned(version, Info(ctrVersionName, info.env, info.host)))), Launched(bound);
    }

    // Run -------------------------------------------------------------------------------------------------

    method applyGpus(gpuCount: int) returns (ok: bool, uuids: seq<string>)
      modifies gpuScheduler
      ensures var p := old(gpuScheduler.Abs());
        && ok == (gpuCount <= 0 || Gpus.CanTake(p, gpuCount))
        && (if ok && gpuCount > 0 then Gpus.IsGrant(p, gpuCount, uuids) else uuids == [])
        && gpuScheduler.Abs() == if ok && gpuCount > 0 then p.Mark(Elems(uuids), 1) else p
    {
      ok, uuids := true, [];
      if gpuCount > 0 {
        var r := gpuScheduler.Apply(gpuCount);
        ok := r.Ok?;
        uuids := if ok then r.value else [];
      }
    }

    method applyCpus(cpuCount: int) returns (ok: bool, cpusets: string)
      modifies cpuScheduler
      ensures var p := old(cpuScheduler.Abs());
        && ok == (cpuCount <= 0 || Cpus.CanTake(p, cpuCount))
        && (ok ==> cpusets == if cpuCount > 0 then Cpus.CpuSet(Cpus.Walk(p, cpuCount)) else "")
        && cpuScheduler.Abs() == if cpuCount > 0 then Cpus.Take(p, cpuCount) else p
    {
      ok, cpusets := true, "";
      if cpuCount > 0 {
        var r := cpuScheduler.Apply(cpuCount);
        ok := r.Ok?;
        cpusets := if ok then r.value else "";
      }
    }

    /** What callers of runContainer do when it fails; nothing happens without a device request. */
    method giveBack(h: HostConfig)
      modifies gpuScheduler, cpuScheduler
      ensures gpuScheduler.Abs() == GpuBack(old(gpuScheduler.Abs()), h)
      ensures cpuScheduler.Abs() == CpuBack(old(cpuScheduler.Abs()), h)
    {
      if h.deviceIDs.Some? {
        gpuScheduler.Restore(h.deviceIDs.value);
      }
      cpuScheduler.Restore(Split(h.cpusetCpus, ","));
    }

    /** The part of RunGpuContainer that reserves resources; it undoes its own failures. */
    method reserve(r: ContainerRun) returns (ok: bool, host: HostConfig, ghost gpus: seq<string>, ghost ran: RunHow)
      requires Valid() && '-' !in r.name && |r.memory| != 1
      modifies gpuScheduler, cpuScheduler
      ensures var s, spec := old(Abs()), SpecOf(parseFloat, r);
        if ok then Reserved(s, spec, gpus) && Abs() == AfterApply(s, spec, gpus) && host == RunHost(s, spec, gpus)
        else !ran.Ran? && !ran.Exists? && RunEnabled(s, spec, gpus, ran) && Abs() == RunNext(s, spec, gpus, ran)
    {
      gpus, ran := [], GpuShort;
      host := HostConfig(None, "", 0, map k | k in r.containerPorts :: [], r.binds);
      var uuids;
      ok, uuids := applyGpus(r.gpuCount);
      gpus := uuids;
      if !ok {
        return false, host, gpus, GpuShort;
      }
      if r.gpuCount > 0 {
        host := host.(deviceIDs := Some(uuids));
      }
      var cpusets;
      ok, cpusets := applyCpus(r.cpuCount);
      if !ok {
        if r.gpuCount > 0 {
          gpuScheduler.Restore(uuids);
        }
        return false, host, gpus, CpuShort;
      }
      host := host.(cpusetCpus := cpusets);
      if r.memory != "" {
        var memory := ToBytes(parseFloat, r.memory);
        if !memory.Bytes? {
          if r.gpuCount > 0 {
            gpuScheduler.Restore(uuids);
          }
          if r.cpuCount > 0 {
            cpuScheduler.Restore(Split(host.cpusetCpus, ","));
          }
          return false, host, gpus, BadMemory;
        }
        host := host.(memory := memory.n);
      }
    }

    method RunGpuContainer(r: ContainerRun) returns (ok: bool, ghost gpus: seq<string>, ghost ran: RunHow)
      requires Valid() && '-' !in r.name && |r.memory| != 1
      modifies gpuScheduler, cpuScheduler, portScheduler, versionMap, docker, queue
      ensures Valid()
      ensures Enabled(old(Abs()), Run(SpecOf(parseFloat, r), gpus, ran))
      ensures Abs() == Next(old(Abs()), Run(SpecOf(parseFloat, r), gpus, ran))
      ensures ok == (ran.Ran? && ran.launch.Launched?)
    {
      var exists_ := docker.ContainerList(r.name + "-");
      if exists_ {
        return false, [], Exists;
      }
      ghost var s, spec := Abs(), SpecOf(parseFloat, r);
      var host;
      ok, host, gpus, ran := reserve(r);
      if ok {
        ghost var launch;
        ok, launch := launchNew(r.name, r.env, host);
        ran := Ran(launch);
        ReservedLaunch(s, spec, gpus, launch);
      }
    }

    /** The end of RunGpuContainer. */
    method launchNew(name: string, env: seq<string>, host: HostConfig) returns (ok: bool, ghost l: Launch)
      requires Valid()
      modifies gpuScheduler, cpuScheduler, portScheduler, versionMap, docker, queue
      ensures Valid() && ok == l.Launched?
      ensures CanLaunch(old(Abs()), name, host, true, l)
      ensures var s := old(Abs()); var t := Launching(s, name, env, host, true, l);
        Abs() == if l.Launched? then t.(queue := s.queue + [RecordOf(s, name, env, host, l.bound)])
                 else t.(gpu := GpuBack(s.gpu, host), cpu := CpuBack(s.cpu, host))
    {
      var info := new ContainerInfo(env, host);
      var kv;
      kv, l := runContainer(name, info, false);
      ok := kv.Some?;
      if !ok {
        giveBack(info.host);
      } else {
        queue.Send(kv.value);
      }
    }

    // Pause, Continue, Stop, Delete -----------------------------------------------------------------------

    method PauseContainer(name: string) returns (ok: bool)
      requires Valid()
      modifies docker
      ensures Valid() && Enabled(old(Abs()), Pause(name, ok)) && Abs() == Next(old(Abs()), Pause(name, ok))
    {
      var version, found := versionMap.Get(name);
      if !found {
        return false;
      }
      ok := docker.ContainerPause(VersionedName(name, version));
    }

    method StartupContainer(name: string) returns (ok: bool)
      requires Valid()
      modifies docker
      ensures Valid() && Enabled(old(Abs()), Continue(name, ok)) && Abs() == Next(old(Abs()), Continue(name, ok))
    {
      var version, found := versionMap.Get(name);
      if !found {
        return false;
      }
      ok := docker.ContainerRestart(VersionedName(name, version));
    }

    method containerDeviceRequestsDeviceIDs(name: string) returns (uuids: Option<seq<string>>)
      ensures uuids == if name in docker.containers then Some(DeviceIDs(docker.containers[name].host)) else None
    {
      var c := docker.ContainerInspect(name);
      uuids := if c.None? then None else if c.value.host.deviceIDs.None? then Some([]) else c.value.host.deviceIDs;
    }

    method containerCpusetCpus(name: string) returns (cpusets: Option<seq<string>>)
      ensures cpusets == if name in docker.containers then Some(CpuNames(docker.containers[name].host)) else None
    {
      var c := docker.ContainerInspect(name);
      cpusets := if c.None? then None else Some(Split(c.value.host.cpusetCpus, ","));
    }

    method containerMemory(name: string) returns (memory: Option<int>)
      ensures memory == if name in docker.containers then Some(docker.containers[name].host.memory) else None
    {
      var c := docker.ContainerInspect(name);
      memory := if c.None? then None else Some(c.value.host.memory);
    }

    /** Running includes paused. */
    method containerLive(name: string) returns (live: Option<bool>)
      ensures live == if name in docker.containers then Some(docker.containers[name].Live()) else None
    {
      var c := docker.ContainerInspect(name);
      live := if c.None? then None else Some(c.value.status.Running? || c.value.status.Paused?);
    }

    /** The host ports, in the order in which Go visits the map. */
    method containerPortBindings(name: string) returns (ports: Option<seq<string>>)
      requires AllBound(docker.containers)
      ensures ports.Some? <==> name in docker.containers
      ensures ports.Some? ==>
        forall p: Ports :: PortScheduling.Give(p, ports.value) == PortsBack(p, docker.containers[name].host)
    {
      var c := docker.ContainerInspect(name);
      if c.None? {
        return None;
      }
      var bindings := c.value.host.portBindings;
      var list: seq<string> := [];
      var pending := bindings.Keys;
      while pending != {}
        invariant pending <= bindings.Keys && |list| + |pending| == |bindings.Keys|
        invariant Elems(list) == set k | k in bindings.Keys - pending :: bindings[k][0]
        decreases pending
      {
        var k :| k in pending;
        AppendNew(list, bindings[k][0]);
        assert bindings.Keys - (pending - {k}) == (bindings.Keys - pending) + {k};
        list := list + [bindings[k][0]];
        pending := pending - {k};
      }
      assert |bindings| == |bindings.Keys|;
      assert Elems(list) == HostPorts(c.value.host) by {
        assert bindings.Keys - pending == bindings.Keys;
      }
      return Some(list);
    }

    /** The Restore calls that StopContainer and DeleteContainer make. */
    method release(key: string, restoreGpu: bool, restoreCpu: bool, restorePort: bool)
      returns (uuids: seq<string>, cpusets: seq<string>)
      requires Valid() && key in docker.containers
      modifies gpuScheduler, cpuScheduler, portScheduler
      ensures Valid()
      ensures Abs() == Releasing(old(Abs()), docker.containers[key].host, restoreGpu, restoreCpu, restorePort)
      ensures uuids == if restoreGpu then DeviceIDs(docker.containers[key].host) else []
      ensures cpusets == if restoreCpu then CpuNames(docker.containers[key].host) else []
    {
      uuids, cpusets := [], [];
      if restoreGpu {
        var ids := containerDeviceRequestsDeviceIDs(key);
        uuids := ids.value;
        gpuScheduler.Restore(uuids);
      }
      if restoreCpu {
        var cpus := containerCpusetCpus(key);
        cpusets := cpus.value;
        cpuScheduler.Restore(cpusets);
      }
      if restorePort {
        var ports := containerPortBindings(key);
        portScheduler.Restore(ports.value);
      }
    }

    /** Docker's part of StopContainer, and giving back once more if it fails. */
    method stopReleased(key: string, uuids: seq<string>, cpusets: seq<string>) returns (ok: bool)
      requires Valid() && key in docker.containers
      modifies gpuScheduler, cpuScheduler, docker
      ensures Valid()
      ensures var t := old(Abs());
        Abs() ==
          if ok then (if t.containers[key].Live() then SetStatus(t, key, Exited) else t)
          else t.(gpu := Gpus.Give(t.gpu, uuids), cpu := Cpus.Give(t.cpu, cpusets))
    {
      ok := docker.ContainerStop(key);
      if !ok {
        gpuScheduler.Restore(uuids);
        cpuScheduler.Restore(cpusets);
      }
    }

    /**
      With the flag isLatest, name is a replica set, else a container. The only caller sets all flags, which makes
      it one Stop event.
     */
    method StopContainer(name: string, restoreGpu: bool, restoreCpu: bool, restorePort: bool, isLatest: bool)
      returns (ok: bool)
      requires Valid()
      modifies gpuScheduler, cpuScheduler, portScheduler, docker
      ensures Valid()
      ensures ok ==> StopKey(old(Abs()), name, isLatest).Some?
      ensures match StopKey(old(Abs()), name, isLatest)
        case None => Abs() == old(Abs())
        case Some(key) => Abs() == Stopping(old(Abs()), key, restoreGpu, restoreCpu, restorePort, ok)
      ensures restoreGpu && restoreCpu && restorePort && isLatest ==>
        Enabled(old(Abs()), Stop(name, ok)) && Abs() == Next(old(Abs()), Stop(name, ok))
    {
      ok := false;
      var key := name;
      if isLatest {
        var version, found := versionMap.Get(name);
        if !found {
          return;
        }
        key := VersionedName(name, version);
      }
      StoppingAll(Abs(), name);
      var inspected := docker.ContainerInspect(key);
      if inspected.None? {
        return;
      }
      var uuids, cpusets := release(key, restoreGpu, restoreCpu, restorePort);
      GiveNothing(gpuScheduler.Abs(), cpuScheduler.Abs());
      ok := stopReleased(key, uuids, cpusets);
    }

    method deleteMergeMap(name: string) returns (ok: bool)
    {
      ok := *;
    }

    method DeleteContainer(name: string) returns (ok: bool, ghost deleted: DeleteHow)
      requires Valid()
      modifies gpuScheduler, cpuScheduler, portScheduler, versionMap, docker, queue
      ensures Valid() && Enabled(old(Abs()), Delete(name, deleted)) && Abs() == Next(old(Abs()), Delete(name, deleted))
      ensures ok == (deleted == Deleted(true) && Present(old(Abs()), name))
    {
      ok, deleted := false, MergeDirFailed;
      var version, found := versionMap.Get(name);
      if !found {
        return;
      }
      var key := VersionedName(name, version);
      var live := containerLive(key);
      if live.None? {
        return;
      }
      if live.value {
        var _, _ := release(key, true, true, true);
      }
      var merged := deleteMergeMap(name);
      if !merged {
        return;
      }
      versionMap.Remove(Split(name, "-")[0]);
      queue.Send(Del(name));
      ok := docker.ContainerRemove(key);
      deleted := Deleted(ok);
    }

    /** Any one item of the work queue reaches the store, internal/workQueue/workQueue.go. */
    method applyItem(i: nat)
      requires i < |queue.items|
      modifies queue, etcd
      ensures Enabled(old(Abs()), Sync(i)) && Abs() == Next(old(Abs()), Sync(i))
    {
      var item := queue.Take(i);
      match item {
        case Put(key, value) => etcd.Put(key, value);
        case Del(key) => etcd.Del(key);
      }
    }

    // Restart and Patch -----------------------------------------------------------------------------------

    /** Restart: the same number of GPUs again. */
    method reapplyGpus(key: string, info: ContainerInfo) returns (ok: bool, ghost gpus: seq<string>)
      requires key in docker.containers
      modifies gpuScheduler, info`host
      ensures GpusSettled(old(Abs()), docker.containers[key], Restart, ok, gpus, gpuScheduler.Abs(),
                          old(info.host), info.host)
    {
      ok, gpus := true, [];
      var uuids := containerDeviceRequestsDeviceIDs(key);
      var live := containerLive(key);
      if |uuids.value| != 0 {
        if live.value {
          gpuScheduler.Restore(uuids.value);
        }
        var availableGpus := gpuScheduler.Apply(|uuids.value|);
        if availableGpus.Err? {
          return false, [];
        }
        gpus := availableGpus.value;
        info.host := info.host.(deviceIDs := Some(availableGpus.value), cpusetCpus := "", memory := 0);
      }
    }

    method patchGpu(key: string, spec: Option<int>, info: ContainerInfo, ghost req: Request)
      returns (ok: bool, ghost gpus: seq<string>)
      requires req.Patch? && req.gpu == spec
      modifies gpuScheduler, info`host
      ensures if key in docker.containers then
                GpusSettled(old(Abs()), docker.containers[key], req, ok, gpus, gpuScheduler.Abs(),
                            old(info.host), info.host)
              else !ok && gpus == [] && gpuScheduler.Abs() == old(gpuScheduler.Abs()) && info.host == old(info.host)
    {
      ok, gpus := true, [];
      var live := containerLive(key);
      if live.None? {
        return false, [];
      }
      var uuids := containerDeviceRequestsDeviceIDs(key);
      if spec.Some? && |uuids.value| == spec.value && live.value {
        return;
      }
      var count := if spec.None? then |uuids.value| else spec.value;
      if live.value {
        gpuScheduler.Restore(uuids.value);
      }
      if count == 0 {
        info.host := info.host.(deviceIDs := None, cpusetCpus := "");
      } else {
        var r := gpuScheduler.Apply(count);
        if r.Err? {
          return false, [];
        }
        gpus := r.value;
        info.host := info.host.(deviceIDs := Some(r.value));
      }
    }

    method reapplyCpus(key: string, info: ContainerInfo) returns (ok: bool)
      requires key in docker.containers
      modifies cpuScheduler, info`host
      ensures CpusSettled(old(Abs()), docker.containers[key], Restart, ok, cpuScheduler.Abs(),
                          old(info.host), info.host)
    {
      ok := true;
      var cpus := containerCpusetCpus(key);
      var live := containerLive(key);
      if |cpus.value| != 0 {
        if live.value {
          cpuScheduler.Restore(cpus.value);
        }
        var availableCpus := cpuScheduler.Apply(|cpus.value|);
        if availableCpus.Err? {
          return false;
        }
        info.host := info.host.(cpusetCpus := availableCpus.value);
      }
    }

    method patchCpu(key: string, spec: Option<int>, info: ContainerInfo, ghost req: Request) returns (ok: bool)
      requires req.Patch? && req.cpu == spec
      modifies cpuScheduler, info`host
      ensures if key in docker.containers then
                CpusSettled(old(Abs()), docker.containers[key], req, ok, cpuScheduler.Abs(), old(info.host), info.host)
              else !ok && cpuScheduler.Abs() == old(cpuScheduler.Abs()) && info.host == old(info.host)
    {
      ok := true;
      var live := containerLive(key);
      if live.None? {
        return false;
      }
      var cpuset := containerCpusetCpus(key);
      if spec.Some? && |cpuset.value| == spec.value && live.value {
        return;
      }
      var count := if spec.None? then |cpuset.value| else spec.value;
      if live.value {
        cpuScheduler.Restore(cpuset.value);
      }
      ghost var freed := cpuScheduler.Abs();
      var cpusets := cpuScheduler.Apply(count);
      if cpusets.Err? {
        return false;
      }
      Cpus.TrimTwice(Cpus.Walk(freed, count));
      info.host := info.host.(cpusetCpus := TrimLeft(Trim(cpusets.value, ','), ','));
    }

    method patchMemory(key: string, spec: Option<string>, info: ContainerInfo, ghost req: Request) returns (ok: bool)
      requires req.Patch? && req.memory == ReadSize(parseFloat, spec) && Sliceable(req.memory)
      modifies info`host
      ensures ok <==> spec.None? || (key in docker.containers && !BadSize(req.memory))
      ensures info.host ==
        if ok && spec.Some? then MemoryHost(docker.containers[key], req, old(info.host)) else old(info.host)
    {
      if spec.None? {
        return true;
      }
      var memory := containerMemory(key);
      if memory.None? {
        return false;
      }
      var applymemory := ToBytes(parseFloat, spec.value);
      if !applymemory.Bytes? {
        return false;
      }
      if memory.value != applymemory.n {
        info.host := info.host.(memory := applymemory.n);
      }
      ok := true;
    }

    /** Ballast stones and merged directories. */
    method copyMerged(from: string, to: string) returns (ok: bool)
    {
      ok := *;
    }

    method DeleteContainerForUpdate(key: string) returns (ok: bool)
      requires AllBound(docker.containers)
      modifies portScheduler`UsedPortSet, docker
      ensures portScheduler.Abs() ==
        if key in old(docker.containers) then PortsBack(old(portScheduler.Abs()), old(docker.containers)[key].host)
        else old(portScheduler.Abs())
      ensures (ok ==> key in old(docker.containers)) &&
        docker.containers == if ok then old(docker.containers) - {key} else old(docker.containers)
    {
      ok := false;
      var ports := containerPortBindings(key);
      if ports.None? {
        return;
      }
      portScheduler.Restore(ports.value);
      ok := docker.ContainerRemove(key);
    }

    /** What RestartContainer and PatchContainer both do once the new container up has been created. */
    method cutOver(key: string, up: string, kv: Item, ghost bound: map<string, string>)
      returns (ok: bool, ghost how: ReplaceHow)
      requires Valid() && key in docker.containers && up in docker.containers && up != key
      modifies portScheduler`UsedPortSet, docker, queue
      ensures portScheduler.Valid() && ok == how.Replaced?
      ensures how.Stalled? || how.NotStarted? || how.NotRemoved? || how.Replaced?
      ensures how.bound == bound && Abs() == CutOver(old(Abs()), key, up, kv, how)
    {
      ok := false;
      var copied := copyMerged(key, up);
      if !copied {
        return false, Stalled(bound);
      }
      var started; ghost var lingering;
      started, lingering := startContainer(up);
      if !started {
        return false, NotStarted(bound, lingering);
      }
      ok := retire(key, kv);
      how := if ok then Replaced(bound) else NotRemoved(bound);
    }

    method retire(key: string, kv: Item) returns (ok: bool)
      requires AllBound(docker.containers) && key in docker.containers
      modifies portScheduler`UsedPortSet, docker, queue
      ensures var s := old(Abs()); var t := s.(ports := PortsBack(s.ports, s.containers[key].host));
        Abs() == if ok then t.(containers := s.containers - {key}, queue := s.queue + [kv]) else t
    {
      ok := DeleteContainerForUpdate(key);
      if ok {
        queue.Send(kv);
      }
    }

    /** What RestartContainer and PatchContainer both end with. */
    method recreate(name: string, key: string, info: ContainerInfo) returns (ok: bool, ghost how: ReplaceHow)
      requires Valid() && key in docker.containers
      modifies gpuScheduler, cpuScheduler, portScheduler, versionMap, docker, queue, info
      ensures Valid() && ok == how.Replaced?
      ensures Recreated(old(Abs()), Abs(), name, key, old(docker.containers)[key], old(info.env), old(info.host), how)
    {
      ghost var s, env, h := Abs(), info.env, info.host;
      var kv; ghost var l;
      kv, l := runContainer(name, info, true);
      if kv.None? {
        giveBack(info.host);
        return false, NotLaunched(l);
      }
      ghost var u := Abs();
      ok, how := cutOver(key, kv.value.value.body.containerName, kv.value, l.bound);
      CutOverBound(u, key, kv.value.value.body.containerName, kv.value, how);
      CutOverFinishes(s, name, key, env, h, how);
    }

    /** The record that Restart and Patch start from. */
    method currentInfo(name: string) returns (key: string, info: ContainerInfo?)
      ensures info == null <==> !Replaceable(Abs(), name)
      ensures info != null ==>
        && fresh(info) && key == Current(Abs(), name)
        && info.env == Stored(Abs(), name).env && info.host == Stored(Abs(), name).host
    {
      key, info := "", null;
      var version, found := versionMap.Get(name);
      if !found {
        return;
      }
      key := VersionedName(name, version);
      var inspected := docker.ContainerInspect(key);
      if inspected.None? {
        return;
      }
      var kvs := etcd.get(name);
      if kvs.Some? {
        info := new ContainerInfo(kvs.value.value.body.env, kvs.value.value.body.host);
      }
    }

    method restartUnits(name: string, key: string, info: ContainerInfo)
      returns (ok: bool, ghost gpus: seq<string>, ghost how: ReplaceHow)
      requires Valid() && Replaceable(Abs(), name) && key == Current(Abs(), name)
      requires info.host == Stored(Abs(), name).host
      modifies gpuScheduler, cpuScheduler, info`host
      ensures if ok then UnitsSettled(old(Abs()), Abs(), name, Restart, gpus, info.host)
              else LimitsFailed(old(Abs()), Abs(), name, Restart, gpus, how)
    {
      ghost var s := Abs();
      how := NoGpus;
      ok, gpus := reapplyGpus(key, info);
      if !ok {
        return;
      }
      ok := reapplyCpus(key, info);
      if !ok {
        how := NoCpus;
        RestartNoCpus(s, Abs(), name, gpus);
      }
    }

    method restartLimits(name: string, key: string, info: ContainerInfo)
      returns (ok: bool, ghost gpus: seq<string>, ghost how: ReplaceHow)
      requires Valid() && Replaceable(Abs(), name) && key == Current(Abs(), name)
      requires info.host == Stored(Abs(), name).host
      modifies gpuScheduler, cpuScheduler, info`host
      ensures if ok then LimitsSettled(old(Abs()), Abs(), name, Restart, gpus, info.host)
              else LimitsFailed(old(Abs()), Abs(), name, Restart, gpus, how)
    {
      ok, gpus, how := restartUnits(name, key, info);
      if !ok {
        return;
      }
      ghost var r, h := Abs(), info.host;
      var memory := containerMemory(key);
      if memory.value != 0 {
        info.host := info.host.(memory := memory.value);
      }
      RestartMemory(old(Abs()), r, name, gpus, h, info.host);
    }

    method RestartContainer(name: string) returns (ok: bool, ghost gpus: seq<string>, ghost how: ReplaceHow)
      requires Valid()
      modifies gpuScheduler, cpuScheduler, portScheduler, versionMap, docker, queue
      ensures Valid() && ok == how.Replaced?
      ensures Enabled(old(Abs()), Replace(name, Restart, gpus, how))
      ensures Abs() == Next(old(Abs()), Replace(name, Restart, gpus, how))
    {
      ok, gpus, how := false, [], Refused;
      var key, info := currentInfo(name);
      if info != null {
        ok, gpus, how := restartLimits(name, key, info);
        if ok {
          ghost var r, h := Abs(), info.host;
          ok, how := recreate(name, key, info);
          LateReplace(old(Abs()), r, Abs(), name, Restart, gpus, h, how);
        }
      }
    }

    method patchUnits(name: string, key: string, info: ContainerInfo, gpu: Option<int>, cpu: Option<int>,
                      ghost req: Request)
      returns (ok: bool, ghost gpus: seq<string>, ghost how: ReplaceHow)
      requires Valid() && Replaceable(Abs(), name) && key == Current(Abs(), name)
      requires info.host == Stored(Abs(), name).host
      requires req.Patch? && req.gpu == gpu && req.cpu == cpu && Sliceable(req.memory)
      modifies gpuScheduler, cpuScheduler, info`host
      ensures if ok then UnitsSettled(old(Abs()), Abs(), name, req, gpus, info.host)
              else LimitsFailed(old(Abs()), Abs(), name, req, gpus, how)
    {
      ghost var s := Abs();
      how := NoGpus;
      ok, gpus := patchGpu(key, gpu, info, req);
      if !ok {
        return;
      }
      ok := patchCpu(key, cpu, info, req);
      if !ok {
        how := NoCpus;
        if info.host.deviceIDs.Some? {
          gpuScheduler.Restore(info.host.deviceIDs.value);
        }
        PatchNoCpus(s, Abs(), name, req, gpus);
      }
    }

    method patchLimits(name: string, key: string, info: ContainerInfo, gpu: Option<int>, cpu: Option<int>,
                       memory: Option<string>, volume: Option<(string, string)>, ghost req: Request)
      returns (ok: bool, ghost gpus: seq<string>, ghost how: ReplaceHow)
      requires Valid() && Replaceable(Abs(), name) && key == Current(Abs(), name)
      requires info.host == Stored(Abs(), name).host
      requires req == Patch(gpu, cpu, ReadSize(parseFloat, memory), volume) && Sliceable(req.memory)
      modifies gpuScheduler, cpuScheduler, info`host
      ensures if ok then LimitsSettled(old(Abs()), Abs(), name, req, gpus, info.host)
              else LimitsFailed(old(Abs()), Abs(), name, req, gpus, how)
    {
      ghost var s := Abs();
      ok, gpus, how := patchUnits(name, key, info, gpu, cpu, req);
      if !ok {
        return;
      }
      ghost var r := Abs();
      ok := patchMemory(key, memory, info, req);
      if !ok {
        how := NoMemory;
        giveBack(info.host);
        PatchNoMemory(s, r, Abs(), name, req, gpus, info.host);
        return;
      }
      info.patchVolume(volume, req);
    }

    /** The bind mounts of a volume patch are already formatted; the router has rejected sizes of one character. */
    method PatchContainer(name: string, gpu: Option<int>, cpu: Option<int>, memory: Option<string>,
                          volume: Option<(string, string)>)
      returns (ok: bool, ghost gpus: seq<string>, ghost how: ReplaceHow)
      requires Valid() && (memory.Some? ==> |memory.value| >= 2)
      modifies gpuScheduler, cpuScheduler, portScheduler, versionMap, docker, queue
      ensures Valid() && ok == how.Replaced?
      ensures var e := Replace(name, Patch(gpu, cpu, ReadSize(parseFloat, memory), volume), gpus, how);
        Enabled(old(Abs()), e) && Abs() == Next(old(Abs()), e)
    {
      ok, gpus, how := false, [], Refused;
      ghost var req := Patch(gpu, cpu, ReadSize(parseFloat, memory), volume);
      var key, info := currentInfo(name);
      if info != null {
        ok, gpus, how := patchLimits(name, key, info, gpu, cpu, memory, volume, req);
        if ok {
          ghost var r, h := Abs(), info.host;
          ok, how := recreate(name, key, info);
          LateReplace(old(Abs()), r, Abs(), name, req, gpus, h, how);
        }
      }
    }

    // Rollback --------------------------------------------------------------------------------------------

    /** The first part of RollbackContainer, up to the record it goes back to. */
    method rollbackTarget(name: string, version: int) returns (target: Target)
      ensures target == RollbackTarget(Abs(), name, version)
    {
      var latest, found := versionMap.Get(name);
      if !found {
        return NoEntry;
      }
      if version == latest {
        return NoRollbackRequired;
      }
      var value := etcd.GetRevision(name, version);
      target := if value.None? then NotFound else Target.Found(value.value);
    }

    method rollbackUnits(name: string, version: int, key: string, info: ContainerInfo, ghost memory: Size)
      returns (ok: bool, ghost gpus: seq<string>, ghost how: ReplaceHow)
      requires RollbackTarget(Abs(), name, version).Found? && key == Current(Abs(), name) && !memory.Panic?
      requires info.host == RollbackTarget(Abs(), name, version).record.body.host
      modifies gpuScheduler, cpuScheduler, info`host
      ensures if ok then
                && Rollable(old(Abs()), name, version)
                && var c, target := old(docker.containers)[key], TargetInfo(old(Abs()), name, version).host;
                BackUnits(old(Abs()), Abs(), c, AsPatch(c, target, memory), target, gpus, info.host)
              else BackEnded(old(Abs()), Abs(), name, version, memory, gpus, how)
    {
      how := Refused;
      ghost var s, h := Abs(), info.host;
      var gpuCount := if info.host.deviceIDs.Some? then |info.host.deviceIDs.value| else 0;
      ghost var req :=
        if key in docker.containers then AsPatch(docker.containers[key], h, memory) else GpuPatch(h);
      ok, gpus := patchGpu(key, Some(gpuCount), info, req);
      if !ok {
        if key in docker.containers {
          how := NoGpus;
          BackNoGpus(s, name, version, memory);
        }
        return;
      }
      ok := patchCpu(key, Some(|Split(info.host.cpusetCpus, ",")|), info, req);
      if !ok {
        how := NoCpus;
        BackNoCpus(s, Abs(), name, version, memory, gpus);
      }
    }

    method rollbackLimits(name: string, version: int, key: string, info: ContainerInfo)
      returns (ok: bool, ghost memory: Size, ghost gpus: seq<string>, ghost how: ReplaceHow)
      requires RollbackTarget(Abs(), name, version).Found? && key == Current(Abs(), name)
      requires info.host == RollbackTarget(Abs(), name, version).record.body.host
      modifies gpuScheduler, cpuScheduler, info`host
      ensures memory == ToBytes(parseFloat, Gigabytes(old(info.host).memory))
      ensures if ok then BackSettled(old(Abs()), Abs(), name, version, memory, gpus, info.host)
              else BackEnded(old(Abs()), Abs(), name, version, memory, gpus, how)
    {
      ghost var s, target := Abs(), info.host;
      memory := ToBytes(parseFloat, Gigabytes(info.host.memory));
      ok, gpus, how := rollbackUnits(name, version, key, info, memory);
      if !ok {
        return;
      }
      ghost var h, req := info.host, AsPatch(docker.containers[key], target, memory);
      ok := patchMemory(key, Some(Gigabytes(info.host.memory)), info, req);
      if !ok {
        how := NoMemory;
        BackNoMemory(s, Abs(), name, version, memory, gpus, h);
      }
    }

    /** What RollbackContainer ends with: the new container is started at once, and nothing is given back. */
    method relaunch(name: string, key: string, info: ContainerInfo) returns (ok: bool, ghost how: ReplaceHow)
      requires Valid() && key in docker.containers
      modifies portScheduler, versionMap, docker, queue, info
      ensures Valid() && ok == how.Replaced?
      ensures Relaunched(old(Abs()), Abs(), name, key, old(docker.containers)[key], old(info.env), old(info.host), how)
    {
      var kv; ghost var l;
      kv, l := runContainer(name, info, false);
      if kv.None? {
        return false, NotLaunched(l);
      }
      var copied := copyMerged(key, kv.value.value.body.containerName);
      if !copied {
        return false, Stalled(l.bound);
      }
      ok := retire(key, kv.value);
      how := if ok then Replaced(l.bound) else NotRemoved(l.bound);
    }

    /** Back to the record found. */
    method rollbackTo(name: string, version: int, record: Record)
      returns (ok: bool, ghost memory: Size, ghost gpus: seq<string>, ghost how: ReplaceHow)
      requires Valid() && RollbackTarget(Abs(), name, version) == Target.Found(record)
      modifies gpuScheduler, cpuScheduler, portScheduler, versionMap, docker, queue
      ensures Valid() && ok == how.Replaced? && memory == ToBytes(parseFloat, Gigabytes(record.body.host.memory))
      ensures BackEnded(old(Abs()), Abs(), name, version, memory, gpus, how)
    {
      var latest, _ := versionMap.Get(name);
      var key := VersionedName(name, latest);
      var info := new ContainerInfo(record.body.env, record.body.host);
      ok, memory, gpus, how := rollbackLimits(name, version, key, info);
      if ok {
        ghost var r, h := Abs(), info.host;
        ok, how := relaunch(name, key, info);
        LateRollback(old(Abs()), r, Abs(), name, version, memory, gpus, h, how);
      }
    }

    method RollbackContainer(name: string, version: int)
      returns (ok: bool, ghost memory: Size, ghost gpus: seq<string>, ghost how: ReplaceHow)
      requires Valid()
      modifies gpuScheduler, cpuScheduler, portScheduler, versionMap, docker, queue
      ensures Valid() && ok == how.Replaced?
      ensures Rollable(old(Abs()), name, version) ==>
        memory == ToBytes(parseFloat, Gigabytes(TargetInfo(old(Abs()), name, version).host.memory))
      ensures var e := Rollback(name, version, memory, gpus, how);
        Enabled(old(Abs()), e) && Abs() == Next(old(Abs()), e)
    {
      ok, memory, gpus, how := false, Bytes(0), [], Refused;
      var target := rollbackTarget(name, version);
      if target.Found? {
        ok, memory, gpus, how := rollbackTo(name, version, target.record);
      }
    }
  }
}
