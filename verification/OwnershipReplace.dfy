/** Ownership through Restart and Patch: one live container hands over to its successor. */
module OwnershipReplace {
  import opened Prelude
  import opened Pools
  import opened Text
  import opened Ledger
  import opened Versions
  import Gpus = GpuScheduling
  import Cpus = CpuScheduling
  import opened PortScheduling
  import opened Fleet
  import opened Ownership

  /** The GPUs marked in the end for the successor: the old ones if they are kept, else the fresh grant. */
  function GpuMarked(c: Container, req: Request, gpus: seq<string>): set<string> {
    if GpuKept(req, c) then Units(G, c.host) else Elems(gpus)
  }

  function CpuMarked(s: State, c: Container, req: Request): set<string> {
    if CpuKept(req, c) then Units(C, c.host) else Elems(Cpus.Names(CpuPicks(s, c, req)))
  }

  lemma HoldsMarked(used: set<string>, cs: map<string, Container>, kind: Kind, k: string)
    requires Covered(used, Held(kind, cs)) && k in cs && cs[k].Live()
    ensures Units(kind, cs[k].host) <= used
  {
    assert Held(kind, cs)[k] <= used;
  }

  /** Fresh GPUs taken from a pool. */
  lemma GrantAfter(p: Pool, n: int, gpus: seq<string>)
    requires p.total == |p.status| && Gpus.IsGrant(p, n, gpus)
    ensures var q := p.Mark(Elems(gpus), 1);
      && q.Used() == p.Used() + Elems(gpus) && Elems(gpus) !! p.Used()
      && q.total == |q.status| && q.total == p.total && q.status.Keys == p.status.Keys
      && Elems(gpus) <= p.status.Keys
  {
    MarkUsed(p, Elems(gpus));
    FreeAndUsed(p);
    SameKeys(p, p.Mark(Elems(gpus), 1));
  }

  /** g is the GPU pool in which marked took the place of what c held, and h claims just that. */
  ghost predicate GpuHanded(s: State, c: Container, g: Pool, h: HostConfig, marked: set<string>) {
    var others := s.gpu.Used() - Units(G, c.host);
    && g.Used() == others + marked && marked !! others
    && g.total == |g.status| && g.total == s.gpu.total && g.status.Keys == s.gpu.status.Keys
    && NoDup(DeviceIDs(h)) && marked <= s.gpu.status.Keys && Units(G, h) == marked
  }

  lemma GpuStageKept(s: State, c: Container)
    requires GpuOwned(s) && Units(G, c.host) <= s.gpu.Used() && NoDup(DeviceIDs(c.host))
    ensures GpuHanded(s, c, s.gpu, c.host, Units(G, c.host))
  {
  }

  lemma GpuStageGranted(s: State, c: Container, n: int, gpus: seq<string>, h: HostConfig)
    requires GpuOwned(s) && NoDup(DeviceIDs(c.host)) && Units(G, c.host) <= s.gpu.status.Keys
    requires Gpus.IsGrant(GpuBack(s.gpu, c.host), n, gpus) && DeviceIDs(h) == gpus
    ensures GpuHanded(s, c, GpuBack(s.gpu, c.host).Mark(Elems(gpus), 1), h, Elems(gpus))
  {
    GpuBackUsed(s.gpu, c.host);
    GrantAfter(GpuBack(s.gpu, c.host), n, gpus);
  }

  lemma GpuStageDropped(s: State, c: Container, h: HostConfig)
    requires GpuOwned(s) && NoDup(DeviceIDs(c.host)) && Units(G, c.host) <= s.gpu.status.Keys && DeviceIDs(h) == []
    ensures GpuHanded(s, c, GpuBack(s.gpu, c.host), h, Elems([]))
  {
    GpuBackUsed(s.gpu, c.host);
    SameKeys(s.gpu, GpuBack(s.gpu, c.host));
  }

  /** The GPU pool once the old grant is settled. */
  lemma GpuStage(s: State, k: string, c: Container, req: Request, gpus: seq<string>)
    requires Owned(s) && k in s.containers && c == s.containers[k] && c.Live() && GpuGranted(s, c, req, gpus)
    ensures GpuHanded(s, c, NewGpu(s, c, req, gpus), GpuHost(c, req, c.host, gpus), GpuMarked(c, req, gpus))
  {
    assert ShapedHost(s, c.host);
    HoldsMarked(s.gpu.Used(), s.containers, G, k);
    if GpuKept(req, c) {
      GpuStageKept(s, c);
    } else if GpuWanted(req, c) {
      GpuStageGranted(s, c, GpuTarget(req, c), gpus, GpuHost(c, req, c.host, gpus));
    } else {
      GpuStageDropped(s, c, GpuHost(c, req, c.host, gpus));
    }
  }

  /** A shaped cpuset given back and walked again. */
  lemma WalkAfter(p: Pool, h: HostConfig, n: int)
    requires Cpus.Sound(p) && IsCpuList(h.cpusetCpus, p.total)
    requires Cpus.CanTake(CpuBack(p, h), n)
    ensures var freed := CpuBack(p, h); var ks := Cpus.Walk(freed, n); var q := Cpus.Take(freed, n);
      && GoodList(ks, p.total) && Cpus.Sound(q) && q.total == p.total
      && Elems(Cpus.Names(ks)) !! (p.Used() - Units(C, h))
      && q.Used() == (p.Used() - Units(C, h)) + Elems(Cpus.Names(ks))
      && Cpus.Give(q, Split(Cpus.CpuSet(ks), ",")) == freed
  {
    CpuBackUsed(p, h);
    FreshCpus(CpuBack(p, h), n);
  }

  /** The processor pool once the old cpuset is settled, when there is one to give back or it is kept. */
  lemma CpuStage(s: State, k: string, c: Container, req: Request, h: HostConfig)
    requires Owned(s) && k in s.containers && c == s.containers[k] && c.Live()
    requires CpuKept(req, c) || (c.host.cpusetCpus != "" && Cpus.CanTake(CpuFreed(s, c), CpuTarget(req, c)))
    requires h.cpusetCpus == "" || h.cpusetCpus == c.host.cpusetCpus
    ensures var p, r := NewCpu(s, c, req), CpuHost(s, c, req, h);
      && var others := s.cpu.Used() - Units(C, c.host);
      && p.Used() == others + CpuMarked(s, c, req) && CpuMarked(s, c, req) !! others
      && Cpus.Sound(p) && p.total == s.cpu.total
      && (r.cpusetCpus == "" || IsCpuList(r.cpusetCpus, s.cpu.total))
      && (CpuKept(req, c) ==> Units(C, r) == Units(C, h))
      && (!CpuKept(req, c) ==>
           Units(C, r) == CpuMarked(s, c, req) && r.cpusetCpus != "" && CpuBack(p, r) == CpuFreed(s, c))
  {
    assert ShapedHost(s, c.host);
    HoldsMarked(s.cpu.Used(), s.containers, C, k);
    if !CpuKept(req, c) {
      var ks := CpuPicks(s, c, req);
      WalkAfter(s.cpu, c.host, CpuTarget(req, c));
      CpuListSplit(ks, s.cpu.total);
      assert IsCpuList(Cpus.CpuSet(ks), s.cpu.total);
    }
  }

  /** Memory and binds do not touch what is owned. */
  lemma SameClaims(s: State, c: Container, req: Request, h: HostConfig, gpus: seq<string>)
    ensures var mid, last := LimitsHost(s, c, req, h, gpus), NewHost(s, c, req, h, gpus);
      && last.deviceIDs == mid.deviceIDs && last.cpusetCpus == mid.cpusetCpus && last.portBindings == mid.portBindings
      && mid.portBindings == h.portBindings
      && mid.deviceIDs == GpuHost(c, req, h, gpus).deviceIDs
  {
  }

  /** The stored record of a replica set describes its current container. */
  ghost predicate Recorded(s: State, name: string) {
    Replaceable(s, name) ==>
      Stored(s, name).host == s.containers[Current(s, name)].host
  }

  /** The processors settled so that the successor's cpuset is what was marked for it. */
  predicate CpuFaithful(c: Container, req: Request) {
    if CpuKept(req, c) then !GpuDropped(req, c) || c.host.cpusetCpus == "" else c.host.cpusetCpus != ""
  }

  /** Freeing an empty cpuset spoils the key set, whatever is applied afterwards. */
  lemma EmptySpoils(s: State, c: Container, req: Request)
    requires c.Live() && c.host.cpusetCpus == "" && !CpuKept(req, c)
    ensures "" in NewCpu(s, c, req).status && !Cpus.Sound(NewCpu(s, c, req))
  {
  }

  // A completed replacement -------------------------------------------------------------------------------

  /** Everything about the successor spelled out; r has the new pools. */
  lemma FinishedState(r: State, name: string, key: string, c: Container, env: seq<string>, h: HostConfig,
                      bound: map<string, string>)
    ensures var t := Finish(r, name, key, c, env, h, Replaced(bound));
      && t.gpu == r.gpu && t.cpu == r.cpu && t.log == r.log
      && t.containers == r.containers[Upcoming(r, name) := NewContainer(r, name, env, h, Running, bound)] - {key}
      && t.ports == PortsBack(r.ports.(used := r.ports.used + bound.Values), c.host)
      && t.versions == Bump(r.versions, name) && t.queue == r.queue + [RecordOf(r, name, env, h, bound)]
  {
  }

  lemma ReplacedPorts(s: State, k: string, up: string, n: Container, bound: map<string, string>, h: HostConfig)
    requires PortsOwned(s) && Shaped(s) && k in s.containers && s.containers[k].Live() && up !in s.containers
    requires Bindable(s.ports, h, bound) && n.Live() && n.host == Bind(h, bound)
    ensures var q := PortsBack(s.ports.(used := s.ports.used + bound.Values), s.containers[k].host);
      && PortScheduling.Sound(q) && Covered(q.used, Held(P, s.containers[up := n] - {k}))
      && q == s.ports.(used := (s.ports.used + bound.Values) - Units(P, s.containers[k].host))
  {
    BoundPorts(s.ports, h, bound);
    assert ShapedHost(s, s.containers[k].host);
    SwapPorts(s.ports.used, s.containers, k, up, n);
    PortsBackUsed(s.ports.(used := s.ports.used + bound.Values), s.containers[k].host);
  }

  /** c is the processor pool in which marked took the place of what the old container held. */
  ghost predicate CpuHanded(s: State, c: Container, p: Pool, marked: set<string>) {
    var others := s.cpu.Used() - Units(C, c.host);
    p.Used() == others + marked && marked !! others && Cpus.Sound(p) && p.total == s.cpu.total
  }

  lemma HandedGpu(s: State, t: State, k: string, up: string, n: Container, h: HostConfig, marked: set<string>)
    requires GpuOwned(s) && k in s.containers && s.containers[k].Live() && up !in s.containers && n.Live()
    requires GpuHanded(s, s.containers[k], t.gpu, h, marked) && Units(G, n.host) == Units(G, h)
    requires t.containers == s.containers[up := n] - {k}
    ensures GpuOwned(t)
  {
    Swap(G, s.gpu.Used(), s.containers, k, up, n, marked);
  }

  lemma HandedCpu(s: State, t: State, k: string, up: string, n: Container, marked: set<string>)
    requires CpuOwned(s) && k in s.containers && s.containers[k].Live() && up !in s.containers && n.Live()
    requires CpuHanded(s, s.containers[k], t.cpu, marked)
    requires t.containers == s.containers[up := n] - {k}
    ensures CpuOwned(t) <==> Units(C, n.host) == marked
  {
    Swap(C, s.cpu.Used(), s.containers, k, up, n, marked);
  }

  lemma HandedPorts(s: State, t: State, k: string, up: string, n: Container, h: HostConfig, bound: map<string, string>)
    requires PortsOwned(s) && Shaped(s) && k in s.containers && s.containers[k].Live() && up !in s.containers
    requires Bindable(s.ports, h, bound) && n.Live() && n.host == Bind(h, bound) && LimitsShaped(s.gpu, s.cpu, h)
    requires t.gpu.total == s.gpu.total && t.gpu.status.Keys == s.gpu.status.Keys && t.cpu.total == s.cpu.total
    requires t.containers == s.containers[up := n] - {k}
    requires t.ports == PortsBack(s.ports.(used := s.ports.used + bound.Values), s.containers[k].host)
    ensures PortsOwned(t) && Shaped(t)
  {
    ReplacedPorts(s, k, up, n, bound, h);
    BoundPorts(s.ports, h, bound);
    assert ShapedHost(s, n.host);
    ShapedFrom(s, t);
  }

  /** The pools and the configuration, when the old cpuset is either kept or there to be given back. */
  lemma Settles(s: State, k: string, c: Container, req: Request, gpus: seq<string>)
    requires Owned(s) && k in s.containers && c == s.containers[k] && c.Live() && GpuGranted(s, c, req, gpus)
    requires CpuKept(req, c) || (c.host.cpusetCpus != "" && Cpus.CanTake(CpuFreed(s, c), CpuTarget(req, c)))
    ensures var r, h := Settled(s, c, req, gpus), NewHost(s, c, req, c.host, gpus);
      && GpuHanded(s, c, r.gpu, h, GpuMarked(c, req, gpus)) && CpuHanded(s, c, r.cpu, CpuMarked(s, c, req))
      && SameMachine(s, r) && LimitsShaped(s.gpu, s.cpu, h)
      && (Units(C, h) == CpuMarked(s, c, req) <==> CpuFaithful(c, req))
      && (!CpuKept(req, c) ==> CpuBack(r.cpu, h) == CpuFreed(s, c))
  {
    SettlesGpu(s, k, c, req, gpus);
    SettlesCpu(s, k, c, req, gpus);
    SettlesFaithful(s, k, c, req, gpus);
  }

  lemma SettlesGpu(s: State, k: string, c: Container, req: Request, gpus: seq<string>)
    requires Owned(s) && k in s.containers && c == s.containers[k] && c.Live() && GpuGranted(s, c, req, gpus)
    ensures var r, h := Settled(s, c, req, gpus), NewHost(s, c, req, c.host, gpus);
      GpuHanded(s, c, r.gpu, h, GpuMarked(c, req, gpus))
  {
    SameClaims(s, c, req, c.host, gpus);
    GpuStage(s, k, c, req, gpus);
  }

  lemma SettlesCpu(s: State, k: string, c: Container, req: Request, gpus: seq<string>)
    requires Owned(s) && k in s.containers && c == s.containers[k] && c.Live()
    requires CpuKept(req, c) || (c.host.cpusetCpus != "" && Cpus.CanTake(CpuFreed(s, c), CpuTarget(req, c)))
    ensures var r, h := Settled(s, c, req, gpus), NewHost(s, c, req, c.host, gpus);
      && CpuHanded(s, c, r.cpu, CpuMarked(s, c, req)) && (h.cpusetCpus == "" || IsCpuList(h.cpusetCpus, s.cpu.total))
      && (!CpuKept(req, c) ==> CpuBack(r.cpu, h) == CpuFreed(s, c))
  {
    SameClaims(s, c, req, c.host, gpus);
    CpuStage(s, k, c, req, GpuHost(c, req, c.host, gpus));
  }

  lemma SettlesFaithful(s: State, k: string, c: Container, req: Request, gpus: seq<string>)
    requires Owned(s) && k in s.containers && c == s.containers[k] && c.Live()
    requires CpuKept(req, c) || (c.host.cpusetCpus != "" && Cpus.CanTake(CpuFreed(s, c), CpuTarget(req, c)))
    ensures Units(C, NewHost(s, c, req, c.host, gpus)) == CpuMarked(s, c, req) <==> CpuFaithful(c, req)
  {
    SameClaims(s, c, req, c.host, gpus);
    CpuStage(s, k, c, req, GpuHost(c, req, c.host, gpus));
    assert ShapedHost(s, c.host);
    if c.host.cpusetCpus != "" {
      CpuBackUsed(s.cpu, c.host);
    }
  }

  /** t is s with key k replaced by the container n under the name up, as far as ownership goes. */
  ghost predicate Succeeded(s: State, t: State, k: string, up: string, n: Container, h: HostConfig,
                            bound: map<string, string>) {
    && k in s.containers && s.containers[k].Live() && up !in s.containers && n.Live()
    && Bindable(s.ports, h, bound) && n.host == Bind(h, bound)
    && t.containers == s.containers[up := n] - {k}
    && t.ports == PortsBack(s.ports.(used := s.ports.used + bound.Values), s.containers[k].host)
  }

  /** Assigning ports leaves the other limits alone. */
  lemma BindLimits(h: HostConfig, bound: map<string, string>)
    ensures Units(G, Bind(h, bound)) == Units(G, h) && Units(C, Bind(h, bound)) == Units(C, h)
  {
  }

  lemma HandedOwnedIff(s: State, t: State, k: string, up: string, n: Container, h: HostConfig,
                       bound: map<string, string>, gpus: set<string>, cpus: set<string>)
    requires Owned(s) && Succeeded(s, t, k, up, n, h, bound) && LimitsShaped(s.gpu, s.cpu, h)
    requires GpuHanded(s, s.containers[k], t.gpu, h, gpus) && CpuHanded(s, s.containers[k], t.cpu, cpus)
    ensures Owned(t) <==> Units(C, h) == cpus
  {
    BindLimits(h, bound);
    HandedGpu(s, t, k, up, n, h, gpus);
    HandedCpu(s, t, k, up, n, cpus);
    HandedPorts(s, t, k, up, n, h, bound);
  }

  lemma FinishedSucceeds(s: State, r: State, name: string, key: string, env: seq<string>, h: HostConfig,
                         bound: map<string, string>) returns (t: State)
    requires r == s.(gpu := r.gpu, cpu := r.cpu) && key in s.containers && s.containers[key].Live()
    requires Upcoming(s, name) !in s.containers && Bindable(s.ports, h, bound)
    ensures t == Finish(r, name, key, s.containers[key], env, h, Replaced(bound)) && t.gpu == r.gpu && t.cpu == r.cpu
    ensures Succeeded(s, t, key, Upcoming(s, name), NewContainer(r, name, env, h, Running, bound), h, bound)
  {
    FinishedState(r, name, key, s.containers[key], env, h, bound);
    t := Finish(r, name, key, s.containers[key], env, h, Replaced(bound));
    assert Upcoming(r, name) == Upcoming(s, name);
  }

  /** A completed Restart or Patch of a live container keeps ownership precisely when the cpuset is faithful. */
  lemma SuccessorOwnedIff(s: State, name: string, k: string, c: Container, req: Request, gpus: seq<string>,
                          env: seq<string>, bound: map<string, string>)
    requires Owned(s) && k in s.containers && c == s.containers[k] && c.Live() && Upcoming(s, name) !in s.containers
    requires GpuGranted(s, c, req, gpus) && (CpuKept(req, c) || Cpus.CanTake(CpuFreed(s, c), CpuTarget(req, c)))
    requires Bindable(s.ports, NewHost(s, c, req, c.host, gpus), bound)
    ensures var r, h := Settled(s, c, req, gpus), NewHost(s, c, req, c.host, gpus);
      Owned(Finish(r, name, k, c, env, h, Replaced(bound))) <==> CpuFaithful(c, req)
  {
    var r, h := Settled(s, c, req, gpus), NewHost(s, c, req, c.host, gpus);
    var t := FinishedSucceeds(s, r, name, k, env, h, bound);
    if !CpuKept(req, c) && c.host.cpusetCpus == "" {
      EmptySpoils(s, c, req);
    } else {
      Settles(s, k, c, req, gpus);
      HandedOwnedIff(s, t, k, Upcoming(s, name), NewContainer(r, name, env, h, Running, bound), h, bound,
                     GpuMarked(c, req, gpus), CpuMarked(s, c, req));
    }
  }
}
