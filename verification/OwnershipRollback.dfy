/**
  Ownership through a rollback. Its resources are settled as for a patch, but the configuration is that of an older
  record, which may list units that somebody else holds by now; and nothing is given back when it fails.
 */
module OwnershipRollback {
  import opened Pools
  import opened Ledger
  import Cpus = CpuScheduling
  import opened PortScheduling
  import opened Fleet
  import opened Ownership
  import opened OwnershipReplace
  import opened OwnershipFailed

  /** What c holds. */
  function Was(kind: Kind, c: Container): set<string> {
    if c.Live() then Units(kind, c.host) else {}
  }

  /** No empty cpuset is given back. */
  predicate Returnable(c: Container, req: Request) {
    c.Live() ==> CpuKept(req, c) || c.host.cpusetCpus != ""
  }

  /** The GPUs and processors of c have been settled without a refusal. */
  ghost predicate Settling(s: State, k: string, c: Container, req: Request, gpus: seq<string>) {
    && Owned(s) && k in s.containers && c == s.containers[k] && req.Patch? && GpuGranted(s, c, req, gpus)
    && (CpuKept(req, c) || Cpus.CanTake(CpuFreed(s, c), CpuTarget(req, c)))
  }

  /** What is marked in the end is what c holds. */
  predicate Unmoved(s: State, c: Container, req: Request, gpus: seq<string>) {
    GpuMarked(c, req, gpus) == Was(G, c) && CpuMarked(s, c, req) == Was(C, c)
  }

  /** It is what c and a container configured as h hold, without overlap. */
  predicate Beside(s: State, c: Container, req: Request, gpus: seq<string>, h: HostConfig) {
    && GpuMarked(c, req, gpus) == Was(G, c) + Units(G, h) && Was(G, c) !! Units(G, h)
    && CpuMarked(s, c, req) == Was(C, c) + Units(C, h) && Was(C, c) !! Units(C, h)
  }

  /** It is what a container configured as h holds. */
  predicate Instead(s: State, c: Container, req: Request, gpus: seq<string>, h: HostConfig) {
    GpuMarked(c, req, gpus) == Units(G, h) && CpuMarked(s, c, req) == Units(C, h)
  }

  // The pools ---------------------------------------------------------------------------------------------

  ghost predicate Pooled(p: Pool, q: Pool, was: set<string>, marked: set<string>) {
    q.Used() == (p.Used() - was) + marked && marked !! (p.Used() - was)
  }

  lemma SettledGpus(s: State, k: string, c: Container, req: Request, gpus: seq<string>)
    requires Settling(s, k, c, req, gpus)
    ensures var p := NewGpu(s, c, req, gpus);
      && Pooled(s.gpu, p, Was(G, c), GpuMarked(c, req, gpus))
      && p.total == |p.status| && p.total == s.gpu.total && p.status.Keys == s.gpu.status.Keys
  {
    if c.Live() {
      GpuStage(s, k, c, req, gpus);
    } else {
      IdleGpu(s, c, req, c.host, gpus);
      SameKeys(s.gpu, NewGpu(s, c, req, gpus));
    }
  }

  lemma SettledCpus(s: State, k: string, c: Container, req: Request, gpus: seq<string>)
    requires Settling(s, k, c, req, gpus) && Returnable(c, req)
    ensures var p := NewCpu(s, c, req);
      Pooled(s.cpu, p, Was(C, c), CpuMarked(s, c, req)) && Cpus.Sound(p) && p.total == s.cpu.total
  {
    if c.Live() {
      CpuStage(s, k, c, req, c.host);
    } else {
      FreshPool(s, c, req);
    }
  }

  lemma FreshPool(s: State, c: Container, req: Request)
    requires CpuOwned(s) && !c.Live() && req.Patch? && Cpus.CanTake(s.cpu, CpuTarget(req, c))
    ensures var p := NewCpu(s, c, req);
      Pooled(s.cpu, p, {}, CpuMarked(s, c, req)) && Cpus.Sound(p) && p.total == s.cpu.total
  {
    FreshCpus(s.cpu, CpuTarget(req, c));
  }

  lemma SettledMachine(s: State, k: string, c: Container, req: Request, gpus: seq<string>)
    requires Settling(s, k, c, req, gpus) && Returnable(c, req)
    ensures SameMachine(s, Settled(s, c, req, gpus))
  {
    SettledGpus(s, k, c, req, gpus);
    SettledCpus(s, k, c, req, gpus);
  }

  lemma SettledSpoilt(s: State, t: State, c: Container, req: Request)
    requires !Returnable(c, req) && t.cpu == NewCpu(s, c, req)
    ensures !Owned(t)
  {
    EmptySpoils(s, c, req);
  }

  // One ledger --------------------------------------------------------------------------------------------

  /** Nobody comes and nobody goes. */
  lemma StayedIff(kind: Kind, used: set<string>, cs: map<string, Container>, k: string, marked: set<string>)
    requires k in cs && Exact(used, Held(kind, cs)) && marked !! (used - Was(kind, cs[k]))
    ensures Exact((used - Was(kind, cs[k])) + marked, Held(kind, cs)) <==> marked == Was(kind, cs[k])
  {
    if cs[k].Live() {
      HandOverStalled(used, Held(kind, cs), k, marked);
    } else {
      assert used - {} == used;
      UnheldIff(used, Held(kind, cs), marked);
    }
  }

  /** A newcomer has the ledger right exactly when it holds what was marked. */
  lemma FreshIff(kind: Kind, used: set<string>, cs: map<string, Container>, up: string, n: Container,
                 marked: set<string>)
    requires up !in cs && n.Live() && Exact(used, Held(kind, cs)) && marked !! used
    ensures Exact(used + marked, Held(kind, cs[up := n])) <==> marked == Units(kind, n.host)
  {
    HeldNew(kind, cs, up, n);
    var held, after, units := Held(kind, cs), Held(kind, cs[up := n]), Units(kind, n.host);
    if marked == units {
      Arrive(kind, used, cs, up, n);
    }
    if Exact(used + marked, after) {
      forall u | u in marked
        ensures u in units
      {
        var p :| p in after && u in after[p];
        assert p != up ==> held[p] <= used;
      }
      forall u | u in units
        ensures u in marked
      {
        forall p | p in held
          ensures u !in held[p]
        {
          assert p in after && up in after && p != up;
        }
        assert u in after[up];
      }
    }
  }

  /** The newcomer beside the old container. */
  lemma CameIff(kind: Kind, used: set<string>, cs: map<string, Container>, k: string, up: string, n: Container,
                marked: set<string>)
    requires k in cs && up !in cs && n.Live()
    requires Exact(used, Held(kind, cs)) && marked !! (used - Was(kind, cs[k]))
    ensures Exact((used - Was(kind, cs[k])) + marked, Held(kind, cs[up := n])) <==>
      marked == Was(kind, cs[k]) + Units(kind, n.host) && Was(kind, cs[k]) !! Units(kind, n.host)
  {
    if cs[k].Live() {
      BothHold(kind, used, cs, k, up, n, marked);
    } else {
      assert used - {} == used && {} + Units(kind, n.host) == Units(kind, n.host);
      FreshIff(kind, used, cs, up, n, marked);
    }
  }

  /** The newcomer in place of the old container. */
  lemma SwappedIff(kind: Kind, used: set<string>, cs: map<string, Container>, k: string, up: string, n: Container,
                   marked: set<string>)
    requires k in cs && up !in cs && n.Live()
    requires Exact(used, Held(kind, cs)) && marked !! (used - Was(kind, cs[k]))
    ensures Exact((used - Was(kind, cs[k])) + marked, Held(kind, cs[up := n] - {k})) <==> marked == Units(kind, n.host)
  {
    if cs[k].Live() {
      Swap(kind, used, cs, k, up, n, marked);
    } else {
      assert used - {} == used;
      FreshIff(kind, used, cs, up, n, marked);
      HeldDrop(kind, cs[up := n], k);
    }
  }

  // Both ledgers ------------------------------------------------------------------------------------------

  lemma UnmovedIff(s: State, t: State, k: string, c: Container, req: Request, gpus: seq<string>)
    requires Settling(s, k, c, req, gpus) && Returnable(c, req)
    requires t.gpu == NewGpu(s, c, req, gpus) && t.cpu == NewCpu(s, c, req)
    requires Held(G, t.containers) == Held(G, s.containers) && Held(C, t.containers) == Held(C, s.containers)
    ensures GpuOwned(t) && CpuOwned(t) <==> Unmoved(s, c, req, gpus)
  {
    SettledGpus(s, k, c, req, gpus);
    SettledCpus(s, k, c, req, gpus);
    StayedIff(G, s.gpu.Used(), s.containers, k, GpuMarked(c, req, gpus));
    StayedIff(C, s.cpu.Used(), s.containers, k, CpuMarked(s, c, req));
  }

  lemma BesideIff(s: State, t: State, k: string, c: Container, req: Request, gpus: seq<string>, up: string,
                  n: Container, h: HostConfig)
    requires Settling(s, k, c, req, gpus) && Returnable(c, req) && up !in s.containers && n.Live()
    requires t.gpu == NewGpu(s, c, req, gpus) && t.cpu == NewCpu(s, c, req) && t.containers == s.containers[up := n]
    requires Units(G, n.host) == Units(G, h) && Units(C, n.host) == Units(C, h)
    ensures GpuOwned(t) && CpuOwned(t) <==> Beside(s, c, req, gpus, h)
  {
    SettledGpus(s, k, c, req, gpus);
    SettledCpus(s, k, c, req, gpus);
    CameIff(G, s.gpu.Used(), s.containers, k, up, n, GpuMarked(c, req, gpus));
    CameIff(C, s.cpu.Used(), s.containers, k, up, n, CpuMarked(s, c, req));
  }

  lemma InsteadIff(s: State, t: State, k: string, c: Container, req: Request, gpus: seq<string>, up: string,
                   n: Container, h: HostConfig)
    requires Settling(s, k, c, req, gpus) && Returnable(c, req) && up !in s.containers && n.Live()
    requires t.gpu == NewGpu(s, c, req, gpus) && t.cpu == NewCpu(s, c, req)
    requires t.containers == s.containers[up := n] - {k}
    requires Units(G, n.host) == Units(G, h) && Units(C, n.host) == Units(C, h)
    ensures GpuOwned(t) && CpuOwned(t) <==> Instead(s, c, req, gpus, h)
  {
    SettledGpus(s, k, c, req, gpus);
    SettledCpus(s, k, c, req, gpus);
    SwappedIff(G, s.gpu.Used(), s.containers, k, up, n, GpuMarked(c, req, gpus));
    SwappedIff(C, s.cpu.Used(), s.containers, k, up, n, CpuMarked(s, c, req));
  }

  // Shapes and ports --------------------------------------------------------------------------------------

  /** With one more container, the shape is right exactly when the record's limits are ones this machine has. */
  lemma ShapedWith(s: State, t: State, up: string, h: HostConfig, bound: map<string, string>)
    requires Shaped(s) && SameMachine(s, t) && Bindable(s.ports, h, bound)
    requires up in t.containers && t.containers[up].host == Bind(h, bound)
    requires forall k :: k in t.containers && k != up ==>
      k in s.containers && t.containers[k].host == s.containers[k].host
    ensures Shaped(t) <==> LimitsShaped(s.gpu, s.cpu, h)
  {
    BoundPorts(s.ports, h, bound);
    if LimitsShaped(s.gpu, s.cpu, h) {
      assert ShapedHost(s, Bind(h, bound));
      ShapedFrom(s, t);
    }
    if Shaped(t) {
      assert ShapedHost(t, t.containers[up].host);
      SameLimits(s, t, h, bound);
    }
  }

  lemma SameLimits(s: State, t: State, h: HostConfig, bound: map<string, string>)
    requires SameMachine(s, t) && LimitsShaped(t.gpu, t.cpu, Bind(h, bound))
    ensures LimitsShaped(s.gpu, s.cpu, h)
  {
  }

  /** The old container's ports are given back; somebody else may have them by now. */
  ghost predicate PortsReturn(s: State, c: Container, bound: map<string, string>, gone: bool) {
    if c.Live() then gone || HostPorts(c.host) == {} else PortsFree(s, c.host, bound)
  }

  lemma ReturnedPorts(s: State, t: State, k: string, c: Container, up: string, n: Container, h: HostConfig,
                      bound: map<string, string>, gone: bool)
    requires PortsOwned(s) && Shaped(s) && k in s.containers && c == s.containers[k] && up !in s.containers
    requires Bindable(s.ports, h, bound) && n.Live() && n.host == Bind(h, bound)
    requires t.ports == PortsBack(s.ports.(used := s.ports.used + bound.Values), c.host)
    requires t.containers == if gone then s.containers[up := n] - {k} else s.containers[up := n]
    ensures PortsOwned(t) <==> PortsReturn(s, c, bound, gone)
  {
    var cs, used := s.containers[up := n], s.ports.used + bound.Values;
    BoundPorts(s.ports, h, bound);
    assert ShapedHost(s, c.host);
    PortsBackUsed(s.ports.(used := used), c.host);
    Arrive(P, s.ports.used, s.containers, up, n);
    HeldDrop(P, cs, k);
    if c.Live() && gone {
      Depart(P, used, cs, k);
    } else {
      ReleasePorts(used, Held(P, cs), HostPorts(c.host));
      KeptPorts(s, k, c, up, n, bound);
    }
  }

  lemma KeptPorts(s: State, k: string, c: Container, up: string, n: Container, bound: map<string, string>)
    requires PortsOwned(s) && k in s.containers && c == s.containers[k] && up !in s.containers && n.Live()
    requires HostPorts(n.host) == bound.Values && bound.Values !! s.ports.used
    ensures Apart(Held(P, s.containers[up := n]), HostPorts(c.host)) <==> PortsReturn(s, c, bound, false)
  {
    HeldNew(P, s.containers, up, n);
    var held := Held(P, s.containers);
    ApartFrom(held, up, bound.Values, HostPorts(c.host));
    if c.Live() {
      assert held[k] == HostPorts(c.host) && held[k] <= s.ports.used;
    }
  }

  // The outcomes ------------------------------------------------------------------------------------------

  /**
    When a rollback of container c to the configuration h keeps ownership, outcome by outcome. Refused GPUs lose those
    that c had, refused processors lose what c had or had been granted. Later failures leave the new grant marked, so
    it has to be what c has. A successor that runs has to find its configuration's units marked for it.
   */
  ghost predicate RollbackKeeps(s: State, c: Container, req: Request, gpus: seq<string>, h: HostConfig,
                                how: ReplaceHow) {
    match how
    case Refused => true
    case NoGpus => !c.Live() || DeviceIDs(c.host) == []
    case NoCpus => !c.Live() && GpuMarked(c, req, gpus) == {}
    case NoMemory => Returnable(c, req) && Unmoved(s, c, req, gpus)
    case NotLaunched(l) =>
      && Returnable(c, req) && Unmoved(s, c, req, gpus)
      && (l.StartFailed? && l.lingering ==> LimitsShaped(s.gpu, s.cpu, h))
    case Stalled(_) => Returnable(c, req) && LimitsShaped(s.gpu, s.cpu, h) && Beside(s, c, req, gpus, h)
    case NotStarted(_, _) => true
    case NotRemoved(bound) =>
      && Returnable(c, req) && LimitsShaped(s.gpu, s.cpu, h) && Beside(s, c, req, gpus, h)
      && PortsReturn(s, c, bound, false)
    case Replaced(bound) =>
      && Returnable(c, req) && LimitsShaped(s.gpu, s.cpu, h) && Instead(s, c, req, gpus, h)
      && PortsReturn(s, c, bound, true)
  }

  lemma BackNoCpus(s: State, k: string, c: Container, req: Request, gpus: seq<string>)
    requires Owned(s) && k in s.containers && c == s.containers[k] && req.Patch? && GpuGranted(s, c, req, gpus)
    requires !CpuKept(req, c) && !Cpus.CanTake(CpuFreed(s, c), CpuTarget(req, c))
    ensures Owned(Settled(s, c, req, gpus)) <==> !c.Live() && GpuMarked(c, req, gpus) == {}
  {
    var r := Settled(s, c, req, gpus);
    if c.Live() {
      RefusedGone(s, k, c, req);
      CpuLost(s, r, k);
    } else {
      IdleRefused(s, c, req, c.host, gpus);
      assert r == s.(gpu := r.gpu);
    }
  }

  /** Nothing but the pools has changed. */
  lemma BackEarly(s: State, t: State, k: string, c: Container, req: Request, gpus: seq<string>)
    requires Settling(s, k, c, req, gpus) && t.gpu == NewGpu(s, c, req, gpus) && t.cpu == NewCpu(s, c, req)
    requires t.containers == s.containers && t.ports == s.ports
    ensures Owned(t) <==> Returnable(c, req) && Unmoved(s, c, req, gpus)
  {
    if Returnable(c, req) {
      UnmovedIff(s, t, k, c, req, gpus);
      SettledMachine(s, k, c, req, gpus);
      ShapedFrom(s, t);
    } else {
      SettledSpoilt(s, t, c, req);
    }
  }

  /** Ports have been drawn, and a container that is not live may linger. */
  lemma BackParked(s: State, t: State, k: string, c: Container, req: Request, gpus: seq<string>, up: string,
                   h: HostConfig, bound: map<string, string>)
    requires Settling(s, k, c, req, gpus) && Parked(s, Settled(s, c, req, gpus), t, up, h, bound)
    ensures Owned(t) <==>
      && Returnable(c, req) && Unmoved(s, c, req, gpus)
      && (t.containers == s.containers || LimitsShaped(s.gpu, s.cpu, h))
  {
    if Returnable(c, req) {
      ParkedHolds(s, Settled(s, c, req, gpus), t, up, h, bound);
      UnmovedIff(s, t, k, c, req, gpus);
      SettledMachine(s, k, c, req, gpus);
      if t.containers == s.containers {
        ShapedFrom(s, t);
      } else {
        ShapedWith(s, t, up, h, bound);
      }
    } else {
      SettledSpoilt(s, t, c, req);
    }
  }

  /** The successor runs beside the old container; back says whether the old one's ports have been given back. */
  lemma BackBeside(s: State, t: State, k: string, c: Container, req: Request, gpus: seq<string>, up: string,
                   n: Container, h: HostConfig, bound: map<string, string>, back: bool)
    requires Settling(s, k, c, req, gpus) && t.gpu == NewGpu(s, c, req, gpus) && t.cpu == NewCpu(s, c, req)
    requires up !in s.containers && Bindable(s.ports, h, bound) && n.Live() && n.host == Bind(h, bound)
    requires t.containers == s.containers[up := n]
    requires var p := s.ports.(used := s.ports.used + bound.Values); t.ports == if back then PortsBack(p, c.host) else p
    ensures Owned(t) <==>
      && Returnable(c, req) && LimitsShaped(s.gpu, s.cpu, h) && Beside(s, c, req, gpus, h)
      && (back ==> PortsReturn(s, c, bound, false))
  {
    if Returnable(c, req) {
      BindLimits(h, bound);
      BesideIff(s, t, k, c, req, gpus, up, n, h);
      SettledMachine(s, k, c, req, gpus);
      DrawnPorts(s, t, k, c, up, n, h, bound, back);
      ShapedWith(s, t, up, h, bound);
    } else {
      SettledSpoilt(s, t, c, req);
    }
  }

  lemma DrawnPorts(s: State, t: State, k: string, c: Container, up: string, n: Container, h: HostConfig,
                   bound: map<string, string>, back: bool)
    requires PortsOwned(s) && Shaped(s) && k in s.containers && c == s.containers[k] && up !in s.containers
    requires Bindable(s.ports, h, bound) && n.Live() && n.host == Bind(h, bound)
    requires t.containers == s.containers[up := n]
    requires var p := s.ports.(used := s.ports.used + bound.Values); t.ports == if back then PortsBack(p, c.host) else p
    ensures PortsOwned(t) <==> (back ==> PortsReturn(s, c, bound, false))
    ensures t.ports.start == s.ports.start && t.ports.end == s.ports.end && t.ports.count == s.ports.count
  {
    if back {
      ReturnedPorts(s, t, k, c, up, n, h, bound, false);
    } else {
      BoundPorts(s.ports, h, bound);
      Arrive(P, s.ports.used, s.containers, up, n);
    }
  }

  lemma InsteadShape(s: State, t: State, k: string, c: Container, up: string, n: Container, h: HostConfig,
                     bound: map<string, string>)
    requires PortsOwned(s) && Shaped(s) && k in s.containers && c == s.containers[k] && up !in s.containers
    requires Bindable(s.ports, h, bound) && n.Live() && n.host == Bind(h, bound)
    requires t.containers == s.containers[up := n] - {k}
    requires t.ports == PortsBack(s.ports.(used := s.ports.used + bound.Values), c.host)
    requires t.gpu.total == s.gpu.total && t.gpu.status.Keys == s.gpu.status.Keys && t.cpu.total == s.cpu.total
    ensures PortsOwned(t) <==> PortsReturn(s, c, bound, true)
    ensures Shaped(t) <==> LimitsShaped(s.gpu, s.cpu, h)
  {
    ReturnedPorts(s, t, k, c, up, n, h, bound, true);
    SameRange(s.ports.(used := s.ports.used + bound.Values), c.host);
    assert SameMachine(s, t);
    InsteadShaped(s, t, k, up, n, h, bound);
  }

  lemma InsteadShaped(s: State, t: State, k: string, up: string, n: Container, h: HostConfig,
                      bound: map<string, string>)
    requires Shaped(s) && SameMachine(s, t) && k in s.containers && up !in s.containers
    requires Bindable(s.ports, h, bound) && n.host == Bind(h, bound)
    requires t.containers == s.containers[up := n] - {k}
    ensures Shaped(t) <==> LimitsShaped(s.gpu, s.cpu, h)
  {
    assert up != k && t.containers[up] == n;
    ShapedWith(s, t, up, h, bound);
  }

  lemma SameRange(p: Ports, h: HostConfig)
    ensures var q := PortsBack(p, h); q.start == p.start && q.end == p.end && q.count == p.count
  {
  }

  /** The successor runs and the old container has gone. */
  lemma BackInstead(s: State, t: State, k: string, c: Container, req: Request, gpus: seq<string>, up: string,
                    n: Container, h: HostConfig, bound: map<string, string>)
    requires Settling(s, k, c, req, gpus) && t.gpu == NewGpu(s, c, req, gpus) && t.cpu == NewCpu(s, c, req)
    requires up !in s.containers && Bindable(s.ports, h, bound) && n.Live() && n.host == Bind(h, bound)
    requires t.containers == s.containers[up := n] - {k}
    requires t.ports == PortsBack(s.ports.(used := s.ports.used + bound.Values), c.host)
    ensures Owned(t) <==>
      && Returnable(c, req) && LimitsShaped(s.gpu, s.cpu, h) && Instead(s, c, req, gpus, h)
      && PortsReturn(s, c, bound, true)
  {
    if Returnable(c, req) {
      BindLimits(h, bound);
      InsteadIff(s, t, k, c, req, gpus, up, n, h);
      SettledMachine(s, k, c, req, gpus);
      InsteadShape(s, t, k, c, up, n, h, bound);
    } else {
      SettledSpoilt(s, t, c, req);
    }
  }
}
