/** Ownership when Restart or Patch does not complete, and when the container it starts from is not live. */
module OwnershipFailed {
  import opened Prelude
  import opened Pools
  import opened Ledger
  import Gpus = GpuScheduling
  import Cpus = CpuScheduling
  import opened PortScheduling
  import opened Fleet
  import opened Ownership
  import opened OwnershipReplace

  // The container was live and stays so -------------------------------------------------------------------

  /** The processors of c are no longer marked, or the empty key has spoiled the pool. */
  ghost predicate CpuGone(s: State, p: Pool, c: Container) {
    "" in p.status || (c.host.cpusetCpus != "" && p.Used() == s.cpu.Used() - Units(C, c.host))
  }

  lemma CpuLost(s: State, t: State, k: string)
    requires Owned(s) && k in s.containers && s.containers[k].Live()
    requires Held(C, t.containers) == Held(C, s.containers) && CpuGone(s, t.cpu, s.containers[k])
    ensures !Owned(t)
  {
    if "" in t.cpu.status {
      Unsound(t.cpu);
    } else {
      assert ShapedHost(s, s.containers[k].host);
      CpuBackUsed(s.cpu, s.containers[k].host);
      ReleaseKept(s.cpu.Used(), Held(C, s.containers), k);
    }
  }

  lemma NoGpusOwnedIff(s: State, k: string, c: Container)
    requires Owned(s) && k in s.containers && c == s.containers[k]
    ensures Owned(s.(gpu := GpuFreed(s, c))) <==> !c.Live() || DeviceIDs(c.host) == []
  {
    var t := s.(gpu := GpuFreed(s, c));
    assert ShapedHost(s, c.host);
    if c.Live() {
      GpuBackUsed(s.gpu, c.host);
      ReleaseKept(s.gpu.Used(), Held(G, s.containers), k);
      assert DeviceIDs(c.host) != [] ==> DeviceIDs(c.host)[0] in Units(G, c.host);
      ShapedFrom(s, t);
    } else {
      assert t == s;
    }
  }

  lemma RefusedGone(s: State, k: string, c: Container, req: Request)
    requires Owned(s) && k in s.containers && c == s.containers[k] && c.Live()
    requires !CpuKept(req, c) && !Cpus.CanTake(CpuFreed(s, c), CpuTarget(req, c))
    ensures CpuGone(s, NewCpu(s, c, req), c)
  {
    assert ShapedHost(s, c.host);
    if c.host.cpusetCpus == "" {
      EmptySpoils(s, c, req);
    } else {
      CpuBackUsed(s.cpu, c.host);
      Cpus.RefusedUnchanged(CpuFreed(s, c), CpuTarget(req, c));
    }
  }

  /** Giving back what was just settled for the successor, x being its configuration. */
  lemma BackGone(s: State, k: string, c: Container, req: Request, h: HostConfig, x: HostConfig)
    requires Owned(s) && k in s.containers && c == s.containers[k] && c.Live()
    requires CpuKept(req, c) || Cpus.CanTake(CpuFreed(s, c), CpuTarget(req, c))
    requires h.cpusetCpus == "" || h.cpusetCpus == c.host.cpusetCpus
    requires x.cpusetCpus == CpuHost(s, c, req, h).cpusetCpus
    ensures CpuGone(s, CpuBack(NewCpu(s, c, req), x), c)
  {
    assert ShapedHost(s, c.host);
    if !CpuKept(req, c) && c.host.cpusetCpus == "" {
      EmptySpoils(s, c, req);
      KeyStays(NewCpu(s, c, req), 0, x);
    } else if !CpuKept(req, c) {
      CpuStage(s, k, c, req, h);
      CpuBackUsed(s.cpu, c.host);
    } else if x.cpusetCpus == "" {
      CpuBackEmpty(s.cpu, x);
    } else {
      CpuBackUsed(s.cpu, c.host);
    }
  }

  /** t has r's pools, the ports drawn, and at most a container more that is not live. */
  ghost predicate Parked(s: State, r: State, t: State, up: string, h: HostConfig, bound: map<string, string>) {
    && Bindable(s.ports, h, bound)
    && t.gpu == r.gpu && t.cpu == r.cpu && t.ports == s.ports.(used := s.ports.used + bound.Values)
    && (t.containers == s.containers ||
         (up !in s.containers && up in t.containers && !t.containers[up].Live() &&
          t.containers[up].host == Bind(h, bound) && t.containers == s.containers[up := t.containers[up]]))
  }

  lemma ParkedHolds(s: State, r: State, t: State, up: string, h: HostConfig, bound: map<string, string>)
    requires Owned(s) && Parked(s, r, t, up, h, bound)
    ensures forall kind: Kind :: Held(kind, t.containers) == Held(kind, s.containers)
    ensures PortScheduling.Sound(t.ports) && Covered(t.ports.used, Held(P, t.containers))
    ensures SameMachine(s, r) && LimitsShaped(s.gpu, s.cpu, h) ==> Shaped(t)
  {
    BoundPorts(s.ports, h, bound);
    if t.containers != s.containers {
      forall kind: Kind
        ensures Held(kind, t.containers) == Held(kind, s.containers)
      {
        Idle(kind, s.containers, up, t.containers[up]);
      }
    }
    if SameMachine(s, r) && LimitsShaped(s.gpu, s.cpu, h) {
      assert ShapedHost(s, Bind(h, bound));
      ShapedFrom(s, t);
    }
  }

  lemma ParkedFrom(s: State, r: State, t: State, up: string, n: Container, h: HostConfig, bound: map<string, string>)
    requires up !in s.containers && Bindable(s.ports, h, bound) && !n.Live() && n.host == Bind(h, bound)
    requires t.gpu == r.gpu && t.cpu == r.cpu && t.ports == s.ports.(used := s.ports.used + bound.Values)
    requires t.containers == s.containers[up := n] || t.containers == s.containers[up := n] - {up}
    ensures Parked(s, r, t, up, h, bound)
  {
    assert s.containers[up := n] - {up} == s.containers;
  }

  lemma FinishedParked(s: State, r: State, name: string, key: string, c: Container, env: seq<string>, h: HostConfig,
                       how: ReplaceHow) returns (t: State)
    requires r == s.(gpu := r.gpu, cpu := r.cpu) && (how.Stalled? || how.NotStarted?)
    requires Upcoming(s, name) !in s.containers && Bindable(s.ports, h, how.bound)
    ensures t == Finish(r, name, key, c, env, h, how) && Parked(s, r, t, Upcoming(s, name), h, how.bound)
  {
    ParkedState(r, name, key, c, env, h, how);
    t := Finish(r, name, key, c, env, h, how);
    ParkedFrom(s, r, t, Upcoming(s, name), NewContainer(r, name, env, h, Created, how.bound), h, how.bound);
  }

  lemma ParkedState(r: State, name: string, key: string, c: Container, env: seq<string>, h: HostConfig, how: ReplaceHow)
    requires how.Stalled? || how.NotStarted?
    ensures var t, up := Finish(r, name, key, c, env, h, how), Upcoming(r, name);
      var more := r.containers[up := NewContainer(r, name, env, h, Created, how.bound)];
      && t.gpu == r.gpu && t.cpu == r.cpu && t.ports == r.ports.(used := r.ports.used + how.bound.Values)
      && t.containers == if how.Stalled? || how.lingering then more else more - {up}
  {
  }

  /** The successor is never started: ownership is kept precisely when the grant did not change at all. */
  lemma StalledOwnedIff(s: State, t: State, k: string, c: Container, up: string, req: Request, gpus: seq<string>,
                        bound: map<string, string>)
    requires Owned(s) && k in s.containers && c == s.containers[k] && c.Live() && GpuGranted(s, c, req, gpus)
    requires CpuKept(req, c) || Cpus.CanTake(CpuFreed(s, c), CpuTarget(req, c))
    requires Parked(s, Settled(s, c, req, gpus), t, up, NewHost(s, c, req, c.host, gpus), bound)
    ensures Owned(t) <==>
      && (CpuKept(req, c) || c.host.cpusetCpus != "")
      && GpuMarked(c, req, gpus) == Units(G, c.host) && CpuMarked(s, c, req) == Units(C, c.host)
  {
    var r, h := Settled(s, c, req, gpus), NewHost(s, c, req, c.host, gpus);
    ParkedHolds(s, r, t, up, h, bound);
    if !CpuKept(req, c) && c.host.cpusetCpus == "" {
      EmptySpoils(s, c, req);
    } else {
      Settles(s, k, c, req, gpus);
      StalledUnits(s, t, k, h, GpuMarked(c, req, gpus), CpuMarked(s, c, req));
    }
  }

  lemma StalledUnits(s: State, t: State, k: string, h: HostConfig, gpus: set<string>, cpus: set<string>)
    requires Owned(s) && k in s.containers && s.containers[k].Live()
    requires Held(G, t.containers) == Held(G, s.containers) && Held(C, t.containers) == Held(C, s.containers)
    requires GpuHanded(s, s.containers[k], t.gpu, h, gpus) && CpuHanded(s, s.containers[k], t.cpu, cpus)
    ensures GpuOwned(t) && CpuOwned(t) <==>
      gpus == Units(G, s.containers[k].host) && cpus == Units(C, s.containers[k].host)
  {
    HandOverStalled(s.gpu.Used(), Held(G, s.containers), k, gpus);
    HandOverStalled(s.cpu.Used(), Held(C, s.containers), k, cpus);
  }

  // Both containers live ----------------------------------------------------------------------------------

  lemma BothHold(kind: Kind, used: set<string>, cs: map<string, Container>, k: string, up: string, n: Container,
                 marked: set<string>)
    requires k in cs && cs[k].Live() && up !in cs && n.Live()
    requires Exact(used, Held(kind, cs)) && marked !! (used - Units(kind, cs[k].host))
    ensures Exact((used - Units(kind, cs[k].host)) + marked, Held(kind, cs[up := n])) <==>
      marked == Units(kind, cs[k].host) + Units(kind, n.host) && Units(kind, cs[k].host) !! Units(kind, n.host)
  {
    var old_, new_ := Units(kind, cs[k].host), Units(kind, n.host);
    var others := used - old_;
    HeldNew(kind, cs, up, n);
    HoldsMarked(used, cs, kind, k);
    var held, after := Held(kind, cs), Held(kind, cs[up := n]);
    if marked == old_ + new_ && old_ !! new_ {
      assert others + marked == used + new_;
      assert new_ !! used;
      Arrive(kind, used, cs, up, n);
    }
    if Exact(others + marked, after) {
      assert after[k] !! after[up] && after[k] <= others + marked && after[up] <= others + marked;
      forall u | u in marked
        ensures u in old_ + new_
      {
        var p :| p in after && u in after[p];
        assert p == up || held[p] <= used;
        if p != up && p != k {
          assert held[p] !! held[k];
        }
      }
      forall u | u in new_
        ensures u !in used
      {
        forall p | p in held
          ensures u !in held[p]
        {
          assert p in after && after[p] !! after[up];
        }
      }
      assert marked == old_ + new_;
    }
  }

  lemma BothHoldPorts(used: set<string>, cs: map<string, Container>, k: string, up: string, n: Container)
    requires k in cs && cs[k].Live() && up !in cs && n.Live() && Covered(used, Held(P, cs)) && Units(P, n.host) !! used
    ensures Covered((used + Units(P, n.host)) - Units(P, cs[k].host), Held(P, cs[up := n])) <==>
      Units(P, cs[k].host) == {}
  {
    Arrive(P, used, cs, up, n);
    ReleasePorts(used + Units(P, n.host), Held(P, cs[up := n]), Units(P, cs[k].host));
    var held := Held(P, cs[up := n]);
    assert held[k] == Units(P, cs[k].host);
    if Units(P, cs[k].host) != {} {
      assert !(held[k] !! Units(P, cs[k].host));
    }
  }

  /** As Succeeded, but the old container has not gone. */
  ghost predicate Doubled(s: State, t: State, k: string, up: string, n: Container, h: HostConfig,
                          bound: map<string, string>) {
    && k in s.containers && up !in s.containers && n.Live()
    && Bindable(s.ports, h, bound) && n.host == Bind(h, bound)
    && t.containers == s.containers[up := n]
    && t.ports == PortsBack(s.ports.(used := s.ports.used + bound.Values), s.containers[k].host)
  }

  lemma FinishedDoubles(s: State, r: State, name: string, key: string, env: seq<string>, h: HostConfig,
                        bound: map<string, string>) returns (t: State)
    requires r == s.(gpu := r.gpu, cpu := r.cpu) && key in s.containers
    requires Upcoming(s, name) !in s.containers && Bindable(s.ports, h, bound)
    ensures t == Finish(r, name, key, s.containers[key], env, h, NotRemoved(bound)) && t.gpu == r.gpu && t.cpu == r.cpu
    ensures Doubled(s, t, key, Upcoming(s, name), NewContainer(r, name, env, h, Running, bound), h, bound)
  {
    t := Finish(r, name, key, s.containers[key], env, h, NotRemoved(bound));
    assert Upcoming(r, name) == Upcoming(s, name);
  }

  lemma DoubledPorts(s: State, t: State, k: string, up: string, n: Container, h: HostConfig, bound: map<string, string>)
    requires Owned(s) && Doubled(s, t, k, up, n, h, bound) && LimitsShaped(s.gpu, s.cpu, h) && s.containers[k].Live()
    requires t.gpu.total == s.gpu.total && t.gpu.status.Keys == s.gpu.status.Keys && t.cpu.total == s.cpu.total
    ensures Shaped(t) && (PortsOwned(t) <==> Units(P, s.containers[k].host) == {})
  {
    BoundPorts(s.ports, h, bound);
    assert ShapedHost(s, s.containers[k].host);
    PortsBackUsed(s.ports.(used := s.ports.used + bound.Values), s.containers[k].host);
    BothHoldPorts(s.ports.used, s.containers, k, up, n);
    assert ShapedHost(s, n.host);
    ShapedFrom(s, t);
  }

  lemma DoubledUnits(s: State, t: State, k: string, up: string, n: Container, h: HostConfig,
                     bound: map<string, string>, gpus: set<string>, cpus: set<string>)
    requires Owned(s) && Doubled(s, t, k, up, n, h, bound) && LimitsShaped(s.gpu, s.cpu, h) && s.containers[k].Live()
    requires GpuHanded(s, s.containers[k], t.gpu, h, gpus) && CpuHanded(s, s.containers[k], t.cpu, cpus)
    ensures var was := s.containers[k].host;
      Owned(t) <==>
      && Units(G, was) == {} && Units(P, was) == {}
      && cpus == Units(C, was) + Units(C, h) && Units(C, was) !! Units(C, h)
  {
    assert Units(G, n.host) == Units(G, h) && Units(C, n.host) == Units(C, h);
    DoubledPorts(s, t, k, up, n, h, bound);
    BothHold(G, s.gpu.Used(), s.containers, k, up, n, gpus);
    BothHold(C, s.cpu.Used(), s.containers, k, up, n, cpus);
  }

  lemma DoubledCpus(s: State, k: string, c: Container, req: Request, gpus: seq<string>)
    requires Owned(s) && k in s.containers && c == s.containers[k] && c.Live() && GpuGranted(s, c, req, gpus)
    requires CpuKept(req, c) || (c.host.cpusetCpus != "" && Cpus.CanTake(CpuFreed(s, c), CpuTarget(req, c)))
    ensures var h, cpus := NewHost(s, c, req, c.host, gpus), CpuMarked(s, c, req);
      cpus == Units(C, c.host) + Units(C, h) && Units(C, c.host) !! Units(C, h) <==>
      CpuKept(req, c) && (GpuDropped(req, c) || c.host.cpusetCpus == "")
  {
    var h := NewHost(s, c, req, c.host, gpus);
    var was, now := Units(C, c.host), Units(C, h);
    SameClaims(s, c, req, c.host, gpus);
    assert ShapedHost(s, c.host);
    if c.host.cpusetCpus != "" {
      CpuBackUsed(s.cpu, c.host);
      assert was != {};
    }
    if CpuKept(req, c) {
      assert now == if GpuDropped(req, c) then {} else was;
    } else {
      CpuStage(s, k, c, req, GpuHost(c, req, c.host, gpus));
      assert now == CpuMarked(s, c, req);
    }
  }

  lemma DoubledOwnedIff(s: State, t: State, name: string, k: string, c: Container, up: string, n: Container,
                        req: Request, gpus: seq<string>, bound: map<string, string>)
    requires Owned(s) && k in s.containers && c == s.containers[k] && c.Live() && GpuGranted(s, c, req, gpus)
    requires CpuKept(req, c) || Cpus.CanTake(CpuFreed(s, c), CpuTarget(req, c))
    requires Doubled(s, t, k, up, n, NewHost(s, c, req, c.host, gpus), bound)
    requires t.gpu == NewGpu(s, c, req, gpus) && t.cpu == NewCpu(s, c, req)
    ensures Owned(t) <==>
      && Units(G, c.host) == {} && Units(P, c.host) == {}
      && CpuKept(req, c) && (GpuDropped(req, c) || c.host.cpusetCpus == "")
  {
    var h := NewHost(s, c, req, c.host, gpus);
    if !CpuKept(req, c) && c.host.cpusetCpus == "" {
      EmptySpoils(s, c, req);
    } else {
      Settles(s, k, c, req, gpus);
      DoubledUnits(s, t, k, up, n, h, bound, GpuMarked(c, req, gpus), CpuMarked(s, c, req));
      DoubledCpus(s, k, c, req, gpus);
    }
  }

  // The container was not live ----------------------------------------------------------------------------

  lemma GrantBack(p: Pool, n: int, gpus: seq<string>, h: HostConfig)
    requires p.total == |p.status| && Gpus.IsGrant(p, n, gpus) && DeviceIDs(h) == gpus
    ensures GpuBack(p.Mark(Elems(gpus), 1), h) == p
  {
    MarkUsed(p, Elems(gpus));
    NoDupSize(gpus);
    FreeAndUsed(p);
    SubsetSize(Elems(gpus), p.Free());
    MarkNone(p, 1);
  }

  lemma IdleGpu(s: State, c: Container, req: Request, h: HostConfig, gpus: seq<string>)
    requires GpuOwned(s) && !c.Live() && GpuGranted(s, c, req, gpus) && h.deviceIDs == c.host.deviceIDs
    ensures var p, x := NewGpu(s, c, req, gpus), GpuHost(c, req, h, gpus);
      && GpuBack(p, x) == s.gpu && p.Used() == s.gpu.Used() + Units(G, x) && Units(G, x) !! s.gpu.Used()
      && NoDup(DeviceIDs(x)) && Units(G, x) <= s.gpu.status.Keys && p.total == s.gpu.total
      && p.status.Keys == s.gpu.status.Keys
  {
    if GpuWanted(req, c) {
      GrantAfter(s.gpu, GpuTarget(req, c), gpus);
      GrantBack(s.gpu, GpuTarget(req, c), gpus, GpuHost(c, req, h, gpus));
    } else {
      assert s.gpu.Used() + {} == s.gpu.Used();
    }
  }

  lemma IdleCpu(s: State, c: Container, req: Request, h: HostConfig)
    requires CpuOwned(s) && !c.Live() && Cpus.CanTake(s.cpu, CpuTarget(req, c))
    ensures var p, x := NewCpu(s, c, req), CpuHost(s, c, req, h);
      && CpuBack(p, x) == s.cpu && p.Used() == s.cpu.Used() + Units(C, x) && Units(C, x) !! s.cpu.Used()
      && IsCpuList(x.cpusetCpus, s.cpu.total) && Units(C, x) != {} && Cpus.Sound(p) && p.total == s.cpu.total
  {
    FreshCpus(s.cpu, CpuTarget(req, c));
    assert GoodList(CpuPicks(s, c, req), s.cpu.total);
  }

  /** Nothing is released for a container that is not live; what is applied is fresh. */
  lemma IdleSettled(s: State, c: Container, req: Request, h: HostConfig, gpus: seq<string>)
    requires Owned(s) && !c.Live() && GpuGranted(s, c, req, gpus) && h.deviceIDs == c.host.deviceIDs
    requires Cpus.CanTake(s.cpu, CpuTarget(req, c))
    ensures var r, x := Settled(s, c, req, gpus), NewHost(s, c, req, h, gpus);
      && Marked(s, r, x) && GpuBack(r.gpu, x) == s.gpu && CpuBack(r.cpu, x) == s.cpu && Units(C, x) != {}
    ensures var r, x := Settled(s, c, req, gpus), LimitsHost(s, c, req, h, gpus);
      && GpuBack(r.gpu, x) == s.gpu && CpuBack(r.cpu, x) == s.cpu
  {
    SameClaims(s, c, req, h, gpus);
    IdleGpu(s, c, req, h, gpus);
    IdleCpu(s, c, req, GpuHost(c, req, h, gpus));
  }

  lemma IdleRefused(s: State, c: Container, req: Request, h: HostConfig, gpus: seq<string>)
    requires Owned(s) && !c.Live() && GpuGranted(s, c, req, gpus) && h.deviceIDs == c.host.deviceIDs
    requires !Cpus.CanTake(s.cpu, CpuTarget(req, c))
    ensures var r := Settled(s, c, req, gpus);
      && r.cpu == s.cpu && GpuBack(r.gpu, GpuHost(c, req, h, gpus)) == s.gpu
      && (Owned(s.(gpu := r.gpu)) <==> GpuMarked(c, req, gpus) == {})
  {
    IdleGpu(s, c, req, h, gpus);
    Cpus.RefusedUnchanged(s.cpu, CpuTarget(req, c));
    var r := Settled(s, c, req, gpus);
    UnheldIff(s.gpu.Used(), Held(G, s.containers), Units(G, GpuHost(c, req, h, gpus)));
    SameKeys(s.gpu, r.gpu);
    ShapedFrom(s, s.(gpu := r.gpu));
  }

  lemma UnheldIff(used: set<string>, held: map<string, set<string>>, marked: set<string>)
    requires Exact(used, held) && marked !! used
    ensures Exact(used + marked, held) <==> marked == {}
  {
  }

  lemma IdleParked(s: State, r: State, t: State, up: string, h: HostConfig, bound: map<string, string>)
    requires Owned(s) && Marked(s, r, h) && Units(C, h) != {} && Parked(s, r, t, up, h, bound)
    ensures !Owned(t)
  {
    ParkedHolds(s, r, t, up, h, bound);
    UnheldIff(s.cpu.Used(), Held(C, s.containers), Units(C, h));
  }

  lemma IdleNotLaunched(s: State, r: State, name: string, env: seq<string>, h: HostConfig, l: Launch)
    requires Owned(s) && Marked(s, r, h) && CanLaunch(r, name, h, false, l) && !l.Launched?
    requires GpuBack(r.gpu, h) == s.gpu && CpuBack(r.cpu, h) == s.cpu
    ensures Owned(Launching(r, name, env, h, false, l).(gpu := GpuBack(r.gpu, h), cpu := CpuBack(r.cpu, h)))
  {
    NotLaunchedOwned(s, r, name, env, h, false, l);
    var u := Launching(r, name, env, h, false, l);
    ShapedFrom(u, u.(gpu := s.gpu, cpu := s.cpu));
  }

  /** No live container, the successor included, has one of the host ports that h names. */
  ghost predicate PortsFree(s: State, h: HostConfig, bound: map<string, string>) {
    bound.Values !! HostPorts(h) && Apart(Held(P, s.containers), HostPorts(h))
  }

  /** gone: whether the old container is removed in the end. */
  lemma IdleFinished(s: State, r: State, t: State, name: string, k: string, env: seq<string>, h: HostConfig,
                     bound: map<string, string>, gone: bool)
    requires Owned(s) && Marked(s, r, h) && k in s.containers && !s.containers[k].Live()
    requires CanLaunch(r, name, h, true, Launched(bound))
    requires var u := Launching(r, name, env, h, true, Launched(bound));
      t.gpu == u.gpu && t.cpu == u.cpu && t.ports == PortsBack(u.ports, s.containers[k].host) &&
      t.containers == if gone then u.containers - {k} else u.containers
    ensures Owned(t) <==> PortsFree(s, s.containers[k].host, bound)
  {
    var u, up := Launching(r, name, env, h, true, Launched(bound)), Upcoming(s, name);
    assert k in u.containers && u.containers[k] == s.containers[k];
    LaunchedOwned(s, r, name, env, h, bound);
    LaunchedHolds(s, r, name, env, h, bound);
    IdleReleased(u, t, k, gone);
    ApartFrom(Held(P, s.containers), up, bound.Values, HostPorts(s.containers[k].host));
  }

  lemma IdleReleased(u: State, t: State, k: string, gone: bool)
    requires Owned(u) && k in u.containers && !u.containers[k].Live() && t.gpu == u.gpu && t.cpu == u.cpu
    requires t.ports == PortsBack(u.ports, u.containers[k].host)
    requires t.containers == if gone then u.containers - {k} else u.containers
    ensures Owned(t) <==> Apart(Held(P, u.containers), HostPorts(u.containers[k].host))
  {
    var was := u.containers[k].host;
    assert ShapedHost(u, was);
    PortsBackUsed(u.ports, was);
    ReleasePorts(u.ports.used, Held(P, u.containers), HostPorts(was));
    IdleGone(u, t, k, gone);
  }

  lemma LaunchedHolds(s: State, r: State, name: string, env: seq<string>, h: HostConfig, bound: map<string, string>)
    requires r == s.(gpu := r.gpu, cpu := r.cpu) && CanLaunch(r, name, h, true, Launched(bound))
    ensures var u, up := Launching(r, name, env, h, true, Launched(bound)), Upcoming(s, name);
      up !in Held(P, s.containers) && Held(P, u.containers) == Held(P, s.containers)[up := bound.Values]
  {
    BoundPorts(s.ports, h, bound);
    assert Upcoming(r, name) == Upcoming(s, name);
    HeldNew(P, s.containers, Upcoming(s, name), NewContainer(r, name, env, h, Running, bound));
  }

  lemma ApartFrom(held: map<string, set<string>>, up: string, taken: set<string>, units: set<string>)
    requires up !in held
    ensures Apart(held[up := taken], units) <==> taken !! units && Apart(held, units)
  {
    var after := held[up := taken];
    if Apart(after, units) {
      assert after[up] !! units;
      forall k | k in held
        ensures held[k] !! units
      {
        assert k in after && after[k] == held[k];
      }
    }
  }

  lemma IdleGone(u: State, t: State, k: string, gone: bool)
    requires Owned(u) && k in u.containers && !u.containers[k].Live() && t.gpu == u.gpu && t.cpu == u.cpu
    requires t.ports.start == u.ports.start && t.ports.end == u.ports.end && t.ports.count == u.ports.count
    requires PortScheduling.Sound(t.ports)
    requires t.containers == if gone then u.containers - {k} else u.containers
    ensures Owned(t) <==> Covered(t.ports.used, Held(P, u.containers))
  {
    HeldDrop(G, u.containers, k);
    HeldDrop(C, u.containers, k);
    HeldDrop(P, u.containers, k);
    ShapedFrom(u, t);
  }
}
