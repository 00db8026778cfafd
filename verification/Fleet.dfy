/**
  internal/services/replicaset.go and replicaset_nomock.go as states and events. A state is everything the service
  reads or writes; an event is one request together with what the outside world decided while it was served:
  which free GPUs the map iteration met, which ports were drawn, and which Docker calls failed.
 */
module Fleet {
  import opened Prelude
  import opened Pools
  import opened Text
  import opened Sizes
  import opened Mvcc
  import opened Versions
  import opened Landing
  import Gpus = GpuScheduling
  import Cpus = CpuScheduling
  import opened PortScheduling

  datatype Status = Created | Running | Paused | Exited

  /**
    deviceIDs: the one device request, if any; cpusetCpus and memory: the other limits; portBindings: container port
    to host ports, an empty list until runContainer assigns one.
   */
  datatype HostConfig = HostConfig(
    deviceIDs: Option<seq<string>>, cpusetCpus: string, memory: int,
    portBindings: map<string, seq<string>>, binds: seq<string>)

  datatype Container = Container(status: Status, env: seq<string>, host: HostConfig) {
    predicate Live() {
      status.Running? || status.Paused?
    }
  }

  /** The stored creation info, without its version and time. */
  datatype Info = Info(containerName: string, env: seq<string>, host: HostConfig)

  type Record = Versioned<Info>
  type Item = Op<string, Record>

  datatype State = State(
    gpu: Pool, cpu: Pool, ports: Ports, versions: map<string, nat>,
    containers: map<string, Container>, log: seq<Item>, queue: seq<Item>)

  function Number(s: State, name: string): nat {
    VersionOf(s.versions, name) + 1
  }

  /** The container a replica set currently stands for, and the one it will stand for next. */
  function Current(s: State, name: string): string {
    VersionedName(name, VersionOf(s.versions, name))
  }

  function Upcoming(s: State, name: string): string {
    VersionedName(name, Number(s, name))
  }

  predicate Present(s: State, name: string) {
    name in s.versions && Current(s, name) in s.containers
  }

  // What a container holds --------------------------------------------------------------------------------

  function DeviceIDs(h: HostConfig): seq<string> {
    if h.deviceIDs.Some? then h.deviceIDs.value else []
  }

  /** strings.Split of the cpuset: never empty, and one empty name for the empty cpuset. */
  function CpuNames(h: HostConfig): seq<string> {
    Split(h.cpusetCpus, ",")
  }

  function HostPorts(h: HostConfig): set<string> {
    set k | k in h.portBindings && h.portBindings[k] != [] :: h.portBindings[k][0]
  }

  function GpuBack(p: Pool, h: HostConfig): Pool {
    Gpus.Give(p, DeviceIDs(h))
  }

  function CpuBack(p: Pool, h: HostConfig): Pool {
    Cpus.Give(p, CpuNames(h))
  }

  function PortsBack(p: Ports, h: HostConfig): Ports {
    var n := |h.portBindings|;
    if n <= 0 || n > p.count then p else p.(used := p.used - HostPorts(h))
  }

  // The environment ---------------------------------------------------------------------------------------

  const VERSION_PREFIX := "CONTAINER_VERSION="

  function VersionEntry(version: nat): string {
    VERSION_PREFIX + Itoa(version)
  }

  predicate IsVersionEntry(e: string) {
    VERSION_PREFIX <= e
  }

  /** The first version entry is overwritten; without one, an entry is appended. */
  function RewriteEnv(env: seq<string>, version: nat): (r: seq<string>)
    ensures |r| >= |env|
  {
    if env == [] then [VersionEntry(version)]
    else if IsVersionEntry(env[0]) then [VersionEntry(version)] + env[1..]
    else [env[0]] + RewriteEnv(env[1..], version)
  }

  // runContainer ------------------------------------------------------------------------------------------

  /** How runContainer ends; bound are the host ports it assigned. */
  datatype Launch =
    | PortsExhausted
    | CreateFailed(bound: map<string, string>)
    | StartFailed(bound: map<string, string>, lingering: bool)
    | Launched(bound: map<string, string>)

  predicate Injective(m: map<string, string>) {
    forall a, b :: a in m && b in m && a != b ==> m[a] != m[b]
  }

  /** A possible assignment: one fresh port of the range for every container port. */
  predicate Bindable(p: Ports, h: HostConfig, bound: map<string, string>) {
    && bound.Keys == h.portBindings.Keys && Injective(bound)
    && (bound != map[] ==> CanTake(p, |h.portBindings|))
    && bound.Values !! p.used && bound.Values <= Range(p.start, p.Width())
  }

  function Bind(h: HostConfig, bound: map<string, string>): HostConfig {
    h.(portBindings := map k | k in bound :: if k in bound then [bound[k]] else [])
  }

  predicate CanLaunch(s: State, name: string, h: HostConfig, start: bool, l: Launch) {
    match l
    case PortsExhausted => h.portBindings != map[] && !CanTake(s.ports, |h.portBindings|)
    case CreateFailed(bound) => Bindable(s.ports, h, bound)
    case StartFailed(bound, _) => start && Bindable(s.ports, h, bound) && Upcoming(s, name) !in s.containers
    case Launched(bound) => Bindable(s.ports, h, bound) && Upcoming(s, name) !in s.containers
  }

  /** Other pools make no difference to what a launch may do. */
  lemma LaunchSame(s: State, r: State, name: string, h: HostConfig, start: bool, l: Launch)
    requires r == s.(gpu := r.gpu, cpu := r.cpu)
    ensures CanLaunch(r, name, h, start, l) == CanLaunch(s, name, h, start, l)
  {
  }

  function NewContainer(s: State, name: string, env: seq<string>, h: HostConfig, status: Status,
                        bound: map<string, string>): Container {
    Container(status, RewriteEnv(env, Number(s, name)), Bind(h, bound))
  }

  /**
    The ports drawn stay marked whatever happens afterwards; the version number is taken back after a failed
    create or start, but not when the ports run out.
   */
  function Launching(s: State, name: string, env: seq<string>, h: HostConfig, start: bool, l: Launch): State {
    match l
    case PortsExhausted => s.(versions := Bump(s.versions, name))
    case CreateFailed(bound) =>
      s.(ports := s.ports.(used := s.ports.used + bound.Values),
         versions := Undo(Bump(s.versions, name), name, Number(s, name)))
    case StartFailed(bound, lingering) =>
      s.(ports := s.ports.(used := s.ports.used + bound.Values),
         versions := Undo(Bump(s.versions, name), name, Number(s, name)),
         containers :=
           if lingering then s.containers[Upcoming(s, name) := NewContainer(s, name, env, h, Created, bound)]
                       else s.containers)
    case Launched(bound) =>
      s.(ports := s.ports.(used := s.ports.used + bound.Values),
         versions := Bump(s.versions, name),
         containers := s.containers[Upcoming(s, name) :=
           NewContainer(s, name, env, h, if start then Running else Created, bound)])
  }

  function RecordOf(s: State, name: string, env: seq<string>, h: HostConfig, bound: map<string, string>): Item {
    Put(name, Versioned(Number(s, name), Info(Upcoming(s, name), RewriteEnv(env, Number(s, name)), Bind(h, bound))))
  }

  // Requests ----------------------------------------------------------------------------------------------

  /** memory: what reading the size gave, if a size was asked for. */
  datatype RunSpec = RunSpec(
    name: string, gpuCount: int, cpuCount: int, memory: Option<Size>,
    containerPorts: set<string>, env: seq<string>, binds: seq<string>)

  datatype RunHow = Exists | GpuShort | CpuShort | BadMemory | Ran(launch: Launch)

  datatype DeleteHow = MergeDirFailed | Deleted(removed: bool)

  /** volume: the two formatted binds. */
  datatype Request =
    | Restart
    | Patch(gpu: Option<int>, cpu: Option<int>, memory: Option<Size>, volume: Option<(string, string)>)

  datatype ReplaceHow =
    | Refused
    | NoGpus
    | NoCpus
    | NoMemory
    | NotLaunched(launch: Launch)
    | Stalled(bound: map<string, string>)
    | NotStarted(bound: map<string, string>, lingering: bool)
    | NotRemoved(bound: map<string, string>)
    | Replaced(bound: map<string, string>)

  datatype Event =
    | Run(spec: RunSpec, gpus: seq<string>, ran: RunHow)
    | Pause(name: string, ok: bool)
    | Continue(name: string, ok: bool)
    | Stop(name: string, ok: bool)
    | Delete(name: string, deleted: DeleteHow)
    | Replace(name: string, req: Request, gpus: seq<string>, how: ReplaceHow)
    | Rollback(name: string, version: int, memory: Size, gpus: seq<string>, how: ReplaceHow)
    | Sync(i: nat)

  // Run ---------------------------------------------------------------------------------------------------

  /** The pools after the two Apply calls of RunGpuContainer, and the host configuration built so far. */
  function RunGpu(s: State, spec: RunSpec, gpus: seq<string>): Pool {
    if spec.gpuCount > 0 then s.gpu.Mark(Elems(gpus), 1) else s.gpu
  }

  function RunCpu(s: State, spec: RunSpec): Pool {
    if spec.cpuCount > 0 then Cpus.Take(s.cpu, spec.cpuCount) else s.cpu
  }

  function AfterApply(s: State, spec: RunSpec, gpus: seq<string>): State {
    s.(gpu := RunGpu(s, spec, gpus), cpu := RunCpu(s, spec))
  }

  function RunCpuSet(s: State, spec: RunSpec): string {
    if spec.cpuCount > 0 then Cpus.CpuSet(Cpus.Walk(s.cpu, spec.cpuCount)) else ""
  }

  function RunHost(s: State, spec: RunSpec, gpus: seq<string>): HostConfig {
    HostConfig(
      if spec.gpuCount > 0 then Some(gpus) else None, RunCpuSet(s, spec),
      if spec.memory.Some? then OrZero(spec.memory.value) else 0,
      map k | k in spec.containerPorts :: [], spec.binds)
  }

  /** existContainer: a live container's name starts with the name and a dash; a failing list counts as no. */
  predicate ListedAs(s: State, name: string) {
    exists key :: key in s.containers && s.containers[key].Live() && name + "-" <= key
  }

  predicate BadSize(m: Option<Size>) {
    m.Some? && !m.value.Bytes?
  }

  /** The router rejects sizes that are too short to slice. */
  predicate Sliceable(m: Option<Size>) {
    m.Some? ==> !m.value.Panic?
  }

  ghost predicate RunEnabled(s: State, spec: RunSpec, gpus: seq<string>, ran: RunHow) {
    var gpuOk := spec.gpuCount <= 0 || Gpus.CanTake(s.gpu, spec.gpuCount);
    var cpuOk := spec.cpuCount <= 0 || Cpus.CanTake(s.cpu, spec.cpuCount);
    && '-' !in spec.name && Sliceable(spec.memory)
    && (ran.Exists? ==> ListedAs(s, spec.name))
    && (ran.GpuShort? ==> !gpuOk)
    && (ran.CpuShort? ==> gpuOk && !cpuOk)
    && (ran.BadMemory? ==> gpuOk && cpuOk && BadSize(spec.memory))
    && (ran.Ran? ==> gpuOk && cpuOk && !BadSize(spec.memory))
    && (if gpuOk && spec.gpuCount > 0 && !ran.Exists? then Gpus.IsGrant(s.gpu, spec.gpuCount, gpus) else gpus == [])
    && (ran.Ran? ==> CanLaunch(s, spec.name, RunHost(s, spec, gpus), true, ran.launch))
  }

  function RunNext(s: State, spec: RunSpec, gpus: seq<string>, ran: RunHow): State {
    var h := RunHost(s, spec, gpus);
    var g, c := RunGpu(s, spec, gpus), RunCpu(s, spec);
    match ran
    case Exists => s
    case GpuShort => s
    case CpuShort => s.(gpu := if spec.gpuCount > 0 then Gpus.Give(g, gpus) else g, cpu := c)
    case BadMemory =>
      s.(gpu := if spec.gpuCount > 0 then Gpus.Give(g, gpus) else g,
         cpu := if spec.cpuCount > 0 then CpuBack(c, h) else c)
    case Ran(l) =>
      var t := Launching(AfterApply(s, spec, gpus), spec.name, spec.env, h, true, l);
      if l.Launched? then t.(queue := s.queue + [RecordOf(s, spec.name, spec.env, h, l.bound)])
      else t.(gpu := GpuBack(g, h), cpu := CpuBack(c, h))
  }

  // Pause, Continue, Stop, Delete -------------------------------------------------------------------------

  function SetStatus(s: State, key: string, status: Status): State {
    if key in s.containers then s.(containers := s.containers[key := s.containers[key].(status := status)]) else s
  }

  function Release(s: State, h: HostConfig): State {
    s.(gpu := GpuBack(s.gpu, h), cpu := CpuBack(s.cpu, h), ports := PortsBack(s.ports, h))
  }

  function StopNext(s: State, key: string, ok: bool): State {
    if key !in s.containers then s
    else
      var c := s.containers[key];
      var t := Release(s, c.host);
      if ok then (if c.Live() then SetStatus(t, key, Exited) else t)
      else t.(gpu := GpuBack(t.gpu, c.host), cpu := CpuBack(t.cpu, c.host))
  }

  function DeleteNext(s: State, name: string, deleted: DeleteHow): State {
    if !Present(s, name) then s
    else
      var key := Current(s, name);
      var c := s.containers[key];
      var t := if c.Live() then Release(s, c.host) else s;
      match deleted
      case MergeDirFailed => t
      case Deleted(removed) =>
        t.(versions := s.versions - {Split(name, "-")[0]}, queue := s.queue + [Del(name)],
           containers := if removed then s.containers - {key} else s.containers)
  }

  // Restart and Patch -------------------------------------------------------------------------------------

  function GpuTarget(req: Request, c: Container): int {
    if req.Patch? && req.gpu.Some? then req.gpu.value else |DeviceIDs(c.host)|
  }

  /** The GPUs stay as they are. */
  predicate GpuKept(req: Request, c: Container) {
    match req
    case Restart => DeviceIDs(c.host) == []
    case Patch(gpu, _, _, _) => gpu.Some? && |DeviceIDs(c.host)| == gpu.value && c.Live()
  }

  /** The branch that gives up all GPUs, and replaces the whole resource block. */
  predicate GpuDropped(req: Request, c: Container) {
    req.Patch? && !GpuKept(req, c) && GpuTarget(req, c) == 0
  }

  predicate GpuWanted(req: Request, c: Container) {
    !GpuKept(req, c) && !GpuDropped(req, c)
  }

  function GpuFreed(s: State, c: Container): Pool {
    if c.Live() then GpuBack(s.gpu, c.host) else s.gpu
  }

  /** The grant that Apply returned, if it was called. */
  ghost predicate GpuGranted(s: State, c: Container, req: Request, gpus: seq<string>) {
    if GpuWanted(req, c) then Gpus.IsGrant(GpuFreed(s, c), GpuTarget(req, c), gpus) else gpus == []
  }

  function NewGpu(s: State, c: Container, req: Request, gpus: seq<string>): Pool {
    if GpuKept(req, c) then s.gpu
    else if GpuDropped(req, c) then GpuFreed(s, c)
    else GpuFreed(s, c).Mark(Elems(gpus), 1)
  }

  function GpuHost(c: Container, req: Request, h: HostConfig, gpus: seq<string>): HostConfig {
    if GpuKept(req, c) then h
    else if GpuDropped(req, c) then h.(deviceIDs := None, cpusetCpus := "")
    else if req.Restart? then h.(deviceIDs := Some(gpus), cpusetCpus := "", memory := 0)
    else h.(deviceIDs := Some(gpus))
  }

  function CpuTarget(req: Request, c: Container): int {
    if req.Patch? && req.cpu.Some? then req.cpu.value else |CpuNames(c.host)|
  }

  predicate CpuKept(req: Request, c: Container) {
    req.Patch? && req.cpu.Some? && |CpuNames(c.host)| == req.cpu.value && c.Live()
  }

  function CpuFreed(s: State, c: Container): Pool {
    if c.Live() then CpuBack(s.cpu, c.host) else s.cpu
  }

  function NewCpu(s: State, c: Container, req: Request): Pool {
    if CpuKept(req, c) then s.cpu else Cpus.Take(CpuFreed(s, c), CpuTarget(req, c))
  }

  /** The processors that the new container is given by Apply. */
  function CpuPicks(s: State, c: Container, req: Request): seq<nat> {
    var n := CpuTarget(req, c);
    if n >= 0 then Cpus.Walk(CpuFreed(s, c), n) else []
  }

  function CpuHost(s: State, c: Container, req: Request, h: HostConfig): HostConfig {
    if CpuKept(req, c) then h else h.(cpusetCpus := Cpus.CpuSet(CpuPicks(s, c, req)))
  }

  function MemoryHost(c: Container, req: Request, h: HostConfig): HostConfig {
    match req
    case Restart => if c.host.memory != 0 then h.(memory := c.host.memory) else h
    case Patch(_, _, memory, _) =>
      if memory.Some? && memory.value.Bytes? && memory.value.n != c.host.memory then h.(memory := memory.value.n) else h
  }

  /** The first bind equal to the old one is overwritten. */
  function RewriteBinds(binds: seq<string>, from: string, to: string): seq<string> {
    if binds == [] then []
    else if binds[0] == from then [to] + binds[1..]
    else [binds[0]] + RewriteBinds(binds[1..], from, to)
  }

  function VolumeHost(req: Request, h: HostConfig): HostConfig {
    if req.Patch? && req.volume.Some? && req.volume.value.0 != req.volume.value.1 then
      h.(binds := RewriteBinds(h.binds, req.volume.value.0, req.volume.value.1))
    else h
  }

  /** The configuration after the GPUs and processors have been settled, and the final one. */
  function LimitsHost(s: State, c: Container, req: Request, h: HostConfig, gpus: seq<string>): HostConfig {
    CpuHost(s, c, req, GpuHost(c, req, h, gpus))
  }

  function NewHost(s: State, c: Container, req: Request, h: HostConfig, gpus: seq<string>): HostConfig {
    VolumeHost(req, MemoryHost(c, req, LimitsHost(s, c, req, h, gpus)))
  }

  predicate Replaceable(s: State, name: string) {
    Present(s, name) && Latest(s.log, name).Some?
  }

  /** The creation info that the store has. */
  function Stored(s: State, name: string): Info
    requires Replaceable(s, name)
  {
    Latest(s.log, name).value.value.body
  }

  ghost predicate ReplaceEnabled(s: State, name: string, req: Request, gpus: seq<string>, how: ReplaceHow) {
    && (req.Patch? ==> Sliceable(req.memory))
    && if !Replaceable(s, name) then how.Refused? && gpus == []
    else
      var c, info := s.containers[Current(s, name)], Stored(s, name);
      var gpuOk := GpuWanted(req, c) ==> Gpus.CanTake(GpuFreed(s, c), GpuTarget(req, c));
      var cpuOk := !CpuKept(req, c) ==> Cpus.CanTake(CpuFreed(s, c), CpuTarget(req, c));
      var h := NewHost(s, c, req, info.host, gpus);
      && !how.Refused?
      && (how.NoGpus? <==> !gpuOk)
      && (how.NoCpus? <==> gpuOk && !cpuOk)
      && (how.NoMemory? <==> gpuOk && cpuOk && req.Patch? && BadSize(req.memory))
      && (if gpuOk then GpuGranted(s, c, req, gpus) else gpus == [])
      && (how.NotLaunched? ==>
           (how.launch.PortsExhausted? || how.launch.CreateFailed?) && CanLaunch(s, name, h, false, how.launch))
      && (how.Stalled? || how.NotStarted? || how.NotRemoved? || how.Replaced? ==>
           CanLaunch(s, name, h, false, Launched(how.bound)))
  }

  /**
    The end of RestartContainer and PatchContainer, from runContainer on; s has the new pools already, key is the
    old container. A container that has been created and then started is the same as one created running.
   */
  function Finish(s: State, name: string, key: string, c: Container, env: seq<string>, h: HostConfig,
                  how: ReplaceHow): State
    requires how.Stalled? || how.NotStarted? || how.NotRemoved? || how.Replaced?
  {
    match how
    case Stalled(bound) => Launching(s, name, env, h, false, Launched(bound))
    case NotStarted(bound, lingering) =>
      var u := Launching(s, name, env, h, false, Launched(bound));
      if lingering then u else u.(containers := u.containers - {Upcoming(s, name)})
    case NotRemoved(bound) =>
      var u := Launching(s, name, env, h, true, Launched(bound));
      u.(ports := PortsBack(u.ports, c.host))
    case Replaced(bound) =>
      var u := Launching(s, name, env, h, true, Launched(bound));
      u.(ports := PortsBack(u.ports, c.host), containers := u.containers - {key},
         queue := s.queue + [RecordOf(s, name, env, h, bound)])
  }

  /** The state after the GPUs and processors have been settled. */
  function Settled(s: State, c: Container, req: Request, gpus: seq<string>): State {
    s.(gpu := NewGpu(s, c, req, gpus), cpu := NewCpu(s, c, req))
  }

  function ReplaceNext(s: State, name: string, req: Request, gpus: seq<string>, how: ReplaceHow): State {
    if !Replaceable(s, name) then s
    else
      var key := Current(s, name);
      var c, info := s.containers[key], Stored(s, name);
      var t := Settled(s, c, req, gpus);
      var mid, h := LimitsHost(s, c, req, info.host, gpus), NewHost(s, c, req, info.host, gpus);
      match how
      case Refused => s
      case NoGpus => s.(gpu := GpuFreed(s, c))
      case NoCpus =>
        t.(gpu := if req.Patch? then GpuBack(t.gpu, GpuHost(c, req, info.host, gpus)) else t.gpu)
      case NoMemory => t.(gpu := GpuBack(t.gpu, mid), cpu := CpuBack(t.cpu, mid))
      case NotLaunched(l) =>
        Launching(t, name, info.env, h, false, l).(gpu := GpuBack(t.gpu, h), cpu := CpuBack(t.cpu, h))
      case _ => Finish(t, name, key, c, info.env, h, how)
  }

  // Rollback ----------------------------------------------------------------------------------------------

  datatype Target = NoEntry | NoRollbackRequired | NotFound | Found(record: Record)

  /** The first part of RollbackContainer: which record it goes back to. */
  function RollbackTarget(s: State, name: string, version: int): Target {
    if name !in s.versions then NoEntry
    else if version == s.versions[name] then NoRollbackRequired
    else
      match Revision(s.log, name, version)
      case None => NotFound
      case Some(record) => Found(record)
  }

  /** There is a record to go back to, and a container to replace. */
  predicate Rollable(s: State, name: string, version: int) {
    RollbackTarget(s, name, version).Found? && Current(s, name) in s.containers
  }

  /** The creation info of that record. */
  function TargetInfo(s: State, name: string, version: int): Info
    requires Rollable(s, name, version)
  {
    RollbackTarget(s, name, version).record.body
  }

  /** The GPU stage sees how many GPUs the record lists. */
  function GpuPatch(h: HostConfig): Request {
    Patch(Some(|DeviceIDs(h)|), None, None, None)
  }

  /**
    The patch that the stages of a rollback of c to the configuration h amount to. The processors are counted after
    the GPUs have been settled; memory is what reading the printed memory gave.
   */
  function AsPatch(c: Container, h: HostConfig, memory: Size): Request {
    Patch(Some(|DeviceIDs(h)|), Some(|CpuNames(GpuHost(c, GpuPatch(h), h, []))|), Some(memory), None)
  }

  /** Nothing is given back by a rollback that fails, and runContainer starts the container itself. */
  ghost predicate RollbackEnabled(s: State, name: string, version: int, memory: Size, gpus: seq<string>,
                                  how: ReplaceHow) {
    if !Rollable(s, name, version) then how.Refused? && gpus == []
    else
      var c, info := s.containers[Current(s, name)], TargetInfo(s, name, version);
      var req := AsPatch(c, info.host, memory);
      var gpuOk := GpuWanted(req, c) ==> Gpus.CanTake(GpuFreed(s, c), GpuTarget(req, c));
      var cpuOk := !CpuKept(req, c) ==> Cpus.CanTake(CpuFreed(s, c), CpuTarget(req, c));
      var h := NewHost(s, c, req, info.host, gpus);
      && !memory.Panic? && !how.Refused? && !how.NotStarted?
      && (how.NoGpus? <==> !gpuOk)
      && (how.NoCpus? <==> gpuOk && !cpuOk)
      && (how.NoMemory? <==> gpuOk && cpuOk && !memory.Bytes?)
      && (if gpuOk then GpuGranted(s, c, req, gpus) else gpus == [])
      && (how.NotLaunched? ==> !how.launch.Launched? && CanLaunch(s, name, h, true, how.launch))
      && (how.Stalled? || how.NotRemoved? || how.Replaced? ==> CanLaunch(s, name, h, true, Launched(how.bound)))
  }

  function RollbackNext(s: State, name: string, version: int, memory: Size, gpus: seq<string>, how: ReplaceHow): State {
    if !Rollable(s, name, version) then s
    else
      var key := Current(s, name);
      var c, info := s.containers[key], TargetInfo(s, name, version);
      var req := AsPatch(c, info.host, memory);
      var t, h := Settled(s, c, req, gpus), NewHost(s, c, req, info.host, gpus);
      match how
      case Refused => s
      case NoGpus => s.(gpu := GpuFreed(s, c))
      case NoCpus => t
      case NoMemory => t
      case NotLaunched(l) => Launching(t, name, info.env, h, true, l)
      case Stalled(bound) => Launching(t, name, info.env, h, true, Launched(bound))
      case _ => Finish(t, name, key, c, info.env, h, how)
  }

  /** What a rollback that gets to runContainer leaves behind. */
  lemma RollbackState(s: State, name: string, version: int, memory: Size, gpus: seq<string>, how: ReplaceHow)
    requires Rollable(s, name, version)
    requires how.NotLaunched? || how.Stalled? || how.NotStarted? || how.NotRemoved? || how.Replaced?
    ensures var key := Current(s, name);
      var c, info := s.containers[key], TargetInfo(s, name, version);
      var req := AsPatch(c, info.host, memory);
      var r, h := Settled(s, c, req, gpus), NewHost(s, c, req, info.host, gpus);
      RollbackNext(s, name, version, memory, gpus, how) ==
        match how
        case NotLaunched(l) => Launching(r, name, info.env, h, true, l)
        case Stalled(bound) => Launching(r, name, info.env, h, true, Launched(bound))
        case _ => Finish(r, name, key, c, info.env, h, how)
  {
  }

  // Runs --------------------------------------------------------------------------------------------------

  ghost predicate Enabled(s: State, e: Event) {
    match e
    case Run(spec, gpus, ran) => RunEnabled(s, spec, gpus, ran)
    case Pause(name, ok) => ok ==> Present(s, name) && s.containers[Current(s, name)].status.Running?
    case Continue(name, ok) => ok ==> Present(s, name)
    case Stop(name, ok) => ok ==> Present(s, name)
    case Delete(name, deleted) => true
    case Replace(name, req, gpus, how) => ReplaceEnabled(s, name, req, gpus, how)
    case Rollback(name, version, memory, gpus, how) => RollbackEnabled(s, name, version, memory, gpus, how)
    case Sync(i) => i < |s.queue|
  }

  function Next(s: State, e: Event): State {
    match e
    case Run(spec, gpus, ran) => RunNext(s, spec, gpus, ran)
    case Pause(name, ok) => if ok then SetStatus(s, Current(s, name), Paused) else s
    case Continue(name, ok) => if ok then SetStatus(s, Current(s, name), Running) else s
    case Stop(name, ok) => if name in s.versions then StopNext(s, Current(s, name), ok) else s
    case Delete(name, deleted) => DeleteNext(s, name, deleted)
    case Replace(name, req, gpus, how) => ReplaceNext(s, name, req, gpus, how)
    case Rollback(name, version, memory, gpus, how) => RollbackNext(s, name, version, memory, gpus, how)
    case Sync(i) => if i < |s.queue| then s.(log := Commit(s.log, s.queue[i]), queue := Without(s.queue, i)) else s
  }

  ghost predicate LegalRun(s: State, es: seq<Event>)
    decreases es
  {
    es == [] || (Enabled(s, es[0]) && LegalRun(Next(s, es[0]), es[1..]))
  }

  function RunAll(s: State, es: seq<Event>): State
    decreases es
  {
    if es == [] then s else RunAll(Next(s, es[0]), es[1..])
  }
}
