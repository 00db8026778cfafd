/** What a container hands to the container that replaces it: processors, host ports and environment. */
module Successors {
  import opened Prelude
  import opened Pools
  import opened PortScheduling
  import Gpus = GpuScheduling
  import Cpus = CpuScheduling
  import opened Fleet
  import opened Ownership
  import opened OwnershipReplace
  import opened Safety

  // Processors --------------------------------------------------------------------------------------------

  /** The same number of processors, none of them above the one it takes the place of. */
  ghost predicate Compacted(was: seq<nat>, now: seq<nat>) {
    Cpus.Ascending(now) && |now| == |was| && forall i :: 0 <= i < |was| ==> now[i] <= was[i]
  }

  lemma RegrantGpus(p: Pool, h: HostConfig)
    requires p.total == |p.status| && NoDup(DeviceIDs(h)) && Elems(DeviceIDs(h)) <= p.status.Keys && DeviceIDs(h) != []
    ensures Gpus.CanTake(GpuBack(p, h), |DeviceIDs(h)|)
  {
    GpuBackUsed(p, h);
    var ids, q := DeviceIDs(h), GpuBack(p, h);
    NoDupSize(ids);
    assert |q.status| == |q.status.Keys|;
    SubsetSize(Elems(ids), q.status.Keys);
    assert Elems(ids) <= q.Free();
    SubsetSize(Elems(ids), q.Free());
  }

  /**
    Restarting a live container never runs short of GPUs or processors, and moves its processors down at most.
   */
  lemma RestartNeverShort(s: State, name: string, gpus: seq<string>, how: ReplaceHow)
    returns (was: seq<nat>, now: seq<nat>)
    requires Starting(s, name, Restart, gpus, how)
    requires var c := s.containers[Current(s, name)]; c.Live() && c.host.cpusetCpus != ""
    ensures !how.NoGpus? && !how.NoCpus?
    ensures var c := s.containers[Current(s, name)];
      && c.host.cpusetCpus == Cpus.CpuSet(was) && Compacted(was, now)
      && NewHost(s, c, Restart, Stored(s, name).host, gpus).cpusetCpus == Cpus.CpuSet(now)
  {
    var c := s.containers[Current(s, name)];
    assert ShapedHost(s, c.host);
    if DeviceIDs(c.host) != [] {
      RegrantGpus(s.gpu, c.host);
    }
    was :| GoodList(was, s.cpu.total) && c.host.cpusetCpus == Cpus.CpuSet(was);
    Cpus.ReapplyCompacts(s.cpu, was);
    Cpus.SplitCpuSet(was);
    now := CpuPicks(s, c, Restart);
    SameClaims(s, c, Restart, Stored(s, name).host, gpus);
  }

  // What was asked for ------------------------------------------------------------------------------------

  /** The processors that the new configuration names are as many as Apply was asked for. */
  lemma GrantedCpus(s: State, c: Container, req: Request, h: HostConfig)
    requires !CpuKept(req, c) && Cpus.CanTake(CpuFreed(s, c), CpuTarget(req, c))
    ensures |CpuNames(CpuHost(s, c, req, h))| == CpuTarget(req, c) && CpuHost(s, c, req, h).cpusetCpus != ""
  {
    Cpus.SplitCpuSet(CpuPicks(s, c, req));
    Cpus.TrimCpuSet(CpuPicks(s, c, req));
  }

  /** The successor of a restart has as many GPUs and processors as before, the same memory and the same binds. */
  lemma RestartKeepsConfiguration(s: State, name: string, gpus: seq<string>, bound: map<string, string>)
    requires Starting(s, name, Restart, gpus, Replaced(bound))
    ensures var c := s.containers[Current(s, name)];
      var h := NewHost(s, c, Restart, Stored(s, name).host, gpus);
      && |DeviceIDs(h)| == |DeviceIDs(c.host)| && |CpuNames(h)| == |CpuNames(c.host)| && h.cpusetCpus != ""
      && h.memory == c.host.memory && h.binds == c.host.binds
  {
    LateFacts(s, name, Restart, gpus, Replaced(bound));
    var c, h := s.containers[Current(s, name)], Stored(s, name).host;
    GrantedCpus(s, c, Restart, GpuHost(c, Restart, h, gpus));
  }

  /** The number asked for, or the old one. */
  function Asked(n: Option<int>, old_: int): int {
    if n.Some? then n.value else old_
  }

  /**
    The successor of a patch has the GPUs, the memory and the binds that were asked for, and keeps the rest. It has
    the processors asked for too, except when they were to stay as they are while the GPUs were given up: then the
    cpuset is empty.
   */
  lemma PatchMeetsRequest(s: State, name: string, req: Request, gpus: seq<string>, bound: map<string, string>)
    requires req.Patch? && Starting(s, name, req, gpus, Replaced(bound))
    ensures var c := s.containers[Current(s, name)];
      var h := NewHost(s, c, req, Stored(s, name).host, gpus);
      && |DeviceIDs(h)| == Asked(req.gpu, |DeviceIDs(c.host)|)
      && (if CpuKept(req, c) && GpuDropped(req, c) then h.cpusetCpus == ""
          else |CpuNames(h)| == Asked(req.cpu, |CpuNames(c.host)|))
      && h.memory == (if req.memory.Some? then req.memory.value.n else c.host.memory)
      && h.binds == VolumeHost(req, c.host).binds
  {
    LateFacts(s, name, req, gpus, Replaced(bound));
    assert !BadSize(req.memory) && Sliceable(req.memory);
    var c, h := s.containers[Current(s, name)], Stored(s, name).host;
    PatchedGpus(s, c, req, gpus);
    PatchedLimits(s, c, req, h, gpus);
    if !CpuKept(req, c) {
      GrantedCpus(s, c, req, GpuHost(c, req, h, gpus));
    }
  }

  lemma PatchedGpus(s: State, c: Container, req: Request, gpus: seq<string>)
    requires req.Patch? && GpuGranted(s, c, req, gpus)
    ensures |DeviceIDs(GpuHost(c, req, c.host, gpus))| == Asked(req.gpu, |DeviceIDs(c.host)|)
  {
  }

  /** What becomes of the other fields of the record's configuration h. */
  lemma PatchedLimits(s: State, c: Container, req: Request, h: HostConfig, gpus: seq<string>)
    requires req.Patch? && !BadSize(req.memory)
    ensures var x, mid := NewHost(s, c, req, h, gpus), LimitsHost(s, c, req, h, gpus);
      && x.deviceIDs == GpuHost(c, req, h, gpus).deviceIDs && x.cpusetCpus == mid.cpusetCpus
      && (CpuKept(req, c) ==> x.cpusetCpus == if GpuDropped(req, c) then "" else h.cpusetCpus)
      && (h.memory == c.host.memory ==> x.memory == if req.memory.Some? then req.memory.value.n else h.memory)
      && x.binds == VolumeHost(req, h).binds
  {
  }

  // Host ports --------------------------------------------------------------------------------------------

  /**
    A replacement binds the same container ports, one to one, to host ports of which the old container had none;
    the number of ports in use stays the same, and every other live container's ports stay reserved.
   */
  lemma ReplacedPortsConserved(s: State, name: string, req: Request, gpus: seq<string>, bound: map<string, string>)
    returns (n: Container)
    requires Starting(s, name, req, gpus, Replaced(bound)) && s.containers[Current(s, name)].Live()
    ensures var key, t := Current(s, name), ReplaceNext(s, name, req, gpus, Replaced(bound));
      && t.containers == s.containers[Upcoming(s, name) := n] - {key}
      && var was, now := s.containers[key].host, n.host;
      && now.portBindings.Keys == was.portBindings.Keys && HostPorts(now) !! HostPorts(was) && PortsShaped(s.ports, now)
      && t.ports.used == (s.ports.used - HostPorts(was)) + HostPorts(now) && |t.ports.used| == |s.ports.used|
      && forall k :: k in s.containers && k != key && s.containers[k].Live() ==>
           HostPorts(s.containers[k].host) <= t.ports.used
  {
    var t, h;
    t, h, n := ReplacedSucceeds(s, name, req, gpus, bound);
    SuccessorPorts(s, t, Current(s, name), Upcoming(s, name), n, h, bound);
    OthersApart(s, Current(s, name));
  }

  lemma ReplacedSucceeds(s: State, name: string, req: Request, gpus: seq<string>, bound: map<string, string>)
    returns (t: State, h: HostConfig, n: Container)
    requires Starting(s, name, req, gpus, Replaced(bound)) && s.containers[Current(s, name)].Live()
    ensures t == ReplaceNext(s, name, req, gpus, Replaced(bound))
    ensures Succeeded(s, t, Current(s, name), Upcoming(s, name), n, h, bound)
    ensures h.portBindings == s.containers[Current(s, name)].host.portBindings
  {
    LateFacts(s, name, req, gpus, Replaced(bound));
    var k := Current(s, name);
    var c, info := s.containers[k], Stored(s, name);
    h := NewHost(s, c, req, info.host, gpus);
    assert h.portBindings == info.host.portBindings by {
      SameClaims(s, c, req, info.host, gpus);
    }
    n := NewContainer(Settled(s, c, req, gpus), name, info.env, h, Running, bound);
    t := FinishedSucceeds(s, Settled(s, c, req, gpus), name, k, info.env, h, bound);
  }

  lemma SameCount(p: Ports, a: HostConfig, b: HostConfig)
    requires PortsShaped(p, a) && PortsShaped(p, b) && a.portBindings.Keys == b.portBindings.Keys
    ensures |HostPorts(a)| == |HostPorts(b)|
  {
    PortCount(p, a);
    PortCount(p, b);
    assert |a.portBindings| == |a.portBindings.Keys| && |b.portBindings| == |b.portBindings.Keys|;
  }

  /** As many ports as before, and other ones. */
  lemma HandedSize(s: State, k: string, h: HostConfig, bound: map<string, string>)
    requires Owned(s) && k in s.containers && s.containers[k].Live() && Bindable(s.ports, h, bound)
    requires h.portBindings.Keys == s.containers[k].host.portBindings.Keys
    ensures var was, now := s.containers[k].host, Bind(h, bound);
      && HostPorts(was) <= s.ports.used && HostPorts(now) !! s.ports.used
      && |HostPorts(was)| == |HostPorts(now)| && HostPorts(now) == bound.Values
      && now.portBindings.Keys == was.portBindings.Keys && PortsShaped(s.ports, now)
  {
    var was, now := s.containers[k].host, Bind(h, bound);
    BoundPorts(s.ports, h, bound);
    assert ShapedHost(s, was);
    HoldsMarked(s.ports.used, s.containers, P, k);
    assert now.portBindings.Keys == bound.Keys;
    SameCount(s.ports, was, now);
  }

  lemma HandedBack(s: State, k: string, h: HostConfig, bound: map<string, string>)
    requires Owned(s) && k in s.containers && Bindable(s.ports, h, bound)
    ensures var was := s.containers[k].host;
      var q := PortsBack(s.ports.(used := s.ports.used + bound.Values), was);
      q.used == (s.ports.used + bound.Values) - HostPorts(was)
  {
    assert ShapedHost(s, s.containers[k].host);
    PortsBackUsed(s.ports.(used := s.ports.used + bound.Values), s.containers[k].host);
  }

  lemma SuccessorPorts(s: State, t: State, k: string, up: string, n: Container, h: HostConfig,
                       bound: map<string, string>)
    requires Owned(s) && Succeeded(s, t, k, up, n, h, bound)
    requires h.portBindings.Keys == s.containers[k].host.portBindings.Keys
    ensures var was, now := s.containers[k].host, n.host;
      && now.portBindings.Keys == was.portBindings.Keys && HostPorts(now) !! HostPorts(was) && PortsShaped(s.ports, now)
      && t.ports.used == (s.ports.used - HostPorts(was)) + HostPorts(now) && |t.ports.used| == |s.ports.used|
  {
    HandedSize(s, k, h, bound);
    HandedBack(s, k, h, bound);
    SwapSize(s.ports.used, HostPorts(s.containers[k].host), HostPorts(n.host));
  }

  lemma SwapSize(used: set<string>, was: set<string>, now: set<string>)
    requires was <= used && now !! used && |was| == |now|
    ensures (used + now) - was == (used - was) + now && |(used - was) + now| == |used|
  {
  }

  lemma OthersApart(s: State, k: string)
    requires PortsOwned(s) && k in s.containers && s.containers[k].Live()
    ensures forall o :: o in s.containers && o != k && s.containers[o].Live() ==>
      HostPorts(s.containers[o].host) <= s.ports.used - HostPorts(s.containers[k].host)
  {
    forall o | o in s.containers && o != k && s.containers[o].Live()
      ensures HostPorts(s.containers[o].host) <= s.ports.used - HostPorts(s.containers[k].host)
    {
      var held := Held(P, s.containers);
      assert held[o] !! held[k] && held[o] <= s.ports.used;
    }
  }
}
