/**
  Who owns the GPUs, processors and host ports: what the schedulers have marked against what the live containers
  hold, for every event of the fleet.
 */
module Ownership {
  import opened Prelude
  import opened Pools
  import opened Text
  import opened Ledger
  import opened PortScheduling
  import Gpus = GpuScheduling
  import Cpus = CpuScheduling
  import opened Fleet

  datatype Kind = G | C | P

  /** The units of one kind that a configuration claims. */
  function Units(kind: Kind, h: HostConfig): set<string> {
    match kind
    case G => Elems(DeviceIDs(h))
    case C => if h.cpusetCpus == "" then {} else Elems(CpuNames(h))
    case P => HostPorts(h)
  }

  /** What each live container holds. */
  function Held(kind: Kind, cs: map<string, Container>): map<string, set<string>> {
    map k | k in cs && cs[k].Live() :: if k in cs && cs[k].Live() then Units(kind, cs[k].host) else {}
  }

  lemma HeldSame(kind: Kind, cs: map<string, Container>, k: string, c: Container)
    requires k in cs && c.Live() == cs[k].Live() && c.host == cs[k].host
    ensures Held(kind, cs[k := c]) == Held(kind, cs)
  {
  }

  lemma HeldNew(kind: Kind, cs: map<string, Container>, k: string, c: Container)
    requires k !in cs
    ensures k !in Held(kind, cs)
    ensures Held(kind, cs[k := c]) == if c.Live() then Held(kind, cs)[k := Units(kind, c.host)] else Held(kind, cs)
  {
  }

  lemma HeldDrop(kind: Kind, cs: map<string, Container>, k: string)
    ensures Held(kind, cs - {k}) == Held(kind, cs) - {k}
    ensures (k !in cs || !cs[k].Live()) ==> Held(kind, cs) - {k} == Held(kind, cs)
  {
  }

  lemma HeldStop(kind: Kind, cs: map<string, Container>, k: string, c: Container)
    requires k in cs && !c.Live()
    ensures Held(kind, cs[k := c]) == Held(kind, cs) - {k}
  {
  }

  lemma HeldStart(kind: Kind, cs: map<string, Container>, k: string, c: Container)
    requires k in cs && c.Live() && c.host == cs[k].host && !cs[k].Live()
    ensures k !in Held(kind, cs) && Held(kind, cs[k := c]) == Held(kind, cs)[k := Units(kind, c.host)]
  {
  }

  // Shape -------------------------------------------------------------------------------------------------

  ghost predicate GoodList(ks: seq<nat>, total: int) {
    ks != [] && Cpus.Ascending(ks) && forall k :: k in ks ==> k < total
  }

  /** A cpuset as the scheduler prints it. */
  ghost predicate IsCpuList(cpuset: string, total: int) {
    exists ks :: GoodList(ks, total) && cpuset == Cpus.CpuSet(ks)
  }

  predicate PortsShaped(p: Ports, h: HostConfig) {
    && (forall k :: k in h.portBindings ==> |h.portBindings[k]| == 1)
    && (forall a, b :: a in h.portBindings && b in h.portBindings && a != b ==> h.portBindings[a] != h.portBindings[b])
    && HostPorts(h) <= Range(p.start, p.Width())
  }

  ghost predicate LimitsShaped(gpu: Pool, cpu: Pool, h: HostConfig) {
    && NoDup(DeviceIDs(h)) && Elems(DeviceIDs(h)) <= gpu.status.Keys
    && (h.cpusetCpus == "" || IsCpuList(h.cpusetCpus, cpu.total))
  }

  ghost predicate ShapedHost(s: State, h: HostConfig) {
    LimitsShaped(s.gpu, s.cpu, h) && PortsShaped(s.ports, h)
  }

  ghost predicate Shaped(s: State) {
    forall k :: k in s.containers ==> ShapedHost(s, s.containers[k].host)
  }

  /** The units that exist are the same. */
  predicate SameMachine(s: State, t: State) {
    && s.gpu.status.Keys == t.gpu.status.Keys && s.gpu.total == t.gpu.total && s.cpu.total == t.cpu.total
    && s.ports.start == t.ports.start && s.ports.end == t.ports.end && s.ports.count == t.ports.count
  }

  lemma SameShape(s: State, t: State, h: HostConfig)
    requires SameMachine(s, t) && ShapedHost(s, h)
    ensures ShapedHost(t, h)
  {
  }

  lemma ShapedFrom(s: State, t: State)
    requires Shaped(s) && SameMachine(s, t)
    requires forall k :: k in t.containers ==>
      (k in s.containers && t.containers[k].host == s.containers[k].host) || ShapedHost(s, t.containers[k].host)
    ensures Shaped(t)
  {
    forall k | k in t.containers
      ensures ShapedHost(t, t.containers[k].host)
    {
      assert k in s.containers ==> ShapedHost(s, s.containers[k].host);
      SameShape(s, t, t.containers[k].host);
    }
  }

  // The invariant -----------------------------------------------------------------------------------------

  ghost predicate GpuOwned(s: State) {
    s.gpu.total == |s.gpu.status| && Exact(s.gpu.Used(), Held(G, s.containers))
  }

  ghost predicate CpuOwned(s: State) {
    Cpus.Sound(s.cpu) && Exact(s.cpu.Used(), Held(C, s.containers))
  }

  ghost predicate PortsOwned(s: State) {
    PortScheduling.Sound(s.ports) && Covered(s.ports.used, Held(P, s.containers))
  }

  /**
    The marked GPUs and the marked processors are exactly the disjoint union of what live containers hold, and
    no live container's host port is shared or unmarked.
   */
  ghost predicate Owned(s: State) {
    GpuOwned(s) && CpuOwned(s) && PortsOwned(s) && Shaped(s)
  }

  // Giving back -------------------------------------------------------------------------------------------

  lemma GpuBackUsed(p: Pool, h: HostConfig)
    requires p.total == |p.status| && NoDup(DeviceIDs(h)) && Elems(DeviceIDs(h)) <= p.status.Keys
    ensures GpuBack(p, h) == p.Mark(Units(G, h), 0)
    ensures var q := GpuBack(p, h);
      && q.Used() == p.Used() - Units(G, h) && q.total == p.total
      && q.status.Keys == p.status.Keys && q.total == |q.status|
  {
    var ids := DeviceIDs(h);
    NoDupSize(ids);
    assert |p.status| == |p.status.Keys|;
    SubsetSize(Elems(ids), p.status.Keys);
    MarkFree(p, Elems(ids));
    MarkNone(p, 0);
    assert p.status.Keys + Elems(ids) == p.status.Keys;
    var q := p.Mark(Elems(ids), 0);
    assert |q.status| == |q.status.Keys|;
  }

  lemma CpuListSplit(ks: seq<nat>, total: int)
    requires GoodList(ks, total)
    ensures var s := Cpus.CpuSet(ks); s != "" && Split(s, ",") == Cpus.Names(ks)
    ensures NoDup(Cpus.Names(ks)) && (total >= 0 ==> Elems(Cpus.Names(ks)) <= Cpus.Keys(total))
    ensures Elems(Cpus.Names(ks)) != {}
  {
    Cpus.SplitCpuSet(ks);
    Cpus.TrimCpuSet(ks);
    Cpus.NamesElems(ks);
    assert Cpus.Names(ks)[0] in Elems(Cpus.Names(ks));
  }

  lemma CpuBackUsed(p: Pool, h: HostConfig)
    requires Cpus.Sound(p) && IsCpuList(h.cpusetCpus, p.total)
    ensures h.cpusetCpus != "" && Units(C, h) == Elems(CpuNames(h)) != {} && NoDup(CpuNames(h))
    ensures Units(C, h) <= Cpus.Keys(p.total)
    ensures var q := CpuBack(p, h); Cpus.Sound(q) && q.total == p.total && q.Used() == p.Used() - Units(C, h)
  {
    var ks :| GoodList(ks, p.total) && h.cpusetCpus == Cpus.CpuSet(ks);
    CpuListSplit(ks, p.total);
    MarkFree(p, Elems(CpuNames(h)));
    assert p.status.Keys + Elems(CpuNames(h)) == p.status.Keys;
  }

  /** Giving back the empty cpuset leaves a key that no machine has, and nothing removes it again. */
  lemma CpuBackEmpty(p: Pool, h: HostConfig)
    requires h.cpusetCpus == ""
    ensures "" in CpuBack(p, h).status && !Cpus.Sound(CpuBack(p, h))
  {
  }

  lemma Unsound(p: Pool)
    requires "" in p.status
    ensures !Cpus.Sound(p)
  {
  }

  lemma KeyStays(p: Pool, num: int, h: HostConfig)
    requires "" in p.status
    ensures "" in Cpus.Take(p, num).status && "" in CpuBack(p, h).status
  {
  }

  lemma NewImage(m: map<string, seq<string>>, rest: set<string>, k: string)
    requires rest <= m.Keys && k in m && |m[k]| == 1 && forall j :: j in rest ==> |m[j]| == 1 && m[j] != m[k]
    ensures m[k][0] !in set j | j in rest :: m[j][0]
  {
    assert m[k] == [m[k][0]];
    assert forall j :: j in rest ==> m[j] == [m[j][0]];
  }

  lemma {:induction false} InjectiveSize(m: map<string, seq<string>>, keys: set<string>)
    requires keys <= m.Keys && forall k :: k in keys ==> |m[k]| == 1
    requires forall a, b :: a in keys && b in keys && a != b ==> m[a] != m[b]
    ensures |set k | k in keys :: m[k][0]| == |keys|
    decreases keys
  {
    if keys != {} {
      var k :| k in keys;
      var rest := keys - {k};
      InjectiveSize(m, rest);
      var images := set j | j in rest :: m[j][0];
      NewImage(m, rest, k);
      assert (set j | j in keys :: m[j][0]) == images + {m[k][0]};
    }
  }

  lemma PortCount(p: Ports, h: HostConfig)
    requires PortsShaped(p, h)
    ensures |HostPorts(h)| == |h.portBindings|
  {
    InjectiveSize(h.portBindings, h.portBindings.Keys);
    assert HostPorts(h) == set k | k in h.portBindings.Keys :: h.portBindings[k][0];
    assert |h.portBindings| == |h.portBindings.Keys|;
  }

  lemma PortsBackUsed(p: Ports, h: HostConfig)
    requires PortScheduling.Sound(p) && PortsShaped(p, h)
    ensures PortsBack(p, h) == p.(used := p.used - HostPorts(h)) && PortScheduling.Sound(PortsBack(p, h))
  {
    PortCount(p, h);
    InRange(p.start, p.Width());
    SubsetSize(HostPorts(h), Range(p.start, p.Width()));
    if h.portBindings == map[] {
      assert p.used - HostPorts(h) == p.used;
    }
  }

  // One container at a time -------------------------------------------------------------------------------

  lemma Arrive(kind: Kind, used: set<string>, cs: map<string, Container>, k: string, c: Container)
    requires k !in cs && c.Live() && Units(kind, c.host) !! used
    ensures Exact(used, Held(kind, cs)) ==> Exact(used + Units(kind, c.host), Held(kind, cs[k := c]))
    ensures Covered(used, Held(kind, cs)) ==> Covered(used + Units(kind, c.host), Held(kind, cs[k := c]))
  {
    HeldNew(kind, cs, k, c);
    var held, units := Held(kind, cs), Units(kind, c.host);
    assert HeldBy(held, k) + units == units;
    if Exact(used, held) {
      GrantExact(used, held, k, units);
    }
    if Covered(used, held) {
      GrantCovered(used, held, k, units);
    }
  }

  lemma Depart(kind: Kind, used: set<string>, cs: map<string, Container>, k: string)
    requires k in cs && cs[k].Live()
    ensures Exact(used, Held(kind, cs)) ==> Exact(used - Units(kind, cs[k].host), Held(kind, cs) - {k})
    ensures Covered(used, Held(kind, cs)) ==> Covered(used - Units(kind, cs[k].host), Held(kind, cs) - {k})
  {
    var held := Held(kind, cs);
    if Exact(used, held) {
      DropExact(used, held, k);
    }
    if Covered(used, held) {
      forall o | o in held - {k}
        ensures held[o] <= used - held[k]
      {
        assert held[o] !! held[k];
      }
    }
  }

  /** One live container is replaced by another under a new name. */
  lemma Swap(kind: Kind, used: set<string>, cs: map<string, Container>, k: string, up: string, c: Container,
             marked: set<string>)
    requires k in cs && cs[k].Live() && up !in cs && c.Live()
    requires Exact(used, Held(kind, cs)) && marked !! (used - Units(kind, cs[k].host))
    ensures Exact((used - Units(kind, cs[k].host)) + marked, Held(kind, cs[up := c] - {k})) <==>
      Units(kind, c.host) == marked
  {
    HandOver(used, Held(kind, cs), k, up, marked, Units(kind, c.host));
    HeldNew(kind, cs, up, c);
    HeldDrop(kind, cs[up := c], k);
    assert Held(kind, cs[up := c] - {k}) == (Held(kind, cs) - {k})[up := Units(kind, c.host)];
  }

  lemma SwapPorts(used: set<string>, cs: map<string, Container>, k: string, up: string, c: Container)
    requires k in cs && cs[k].Live() && up !in cs && c.Live()
    requires Covered(used, Held(P, cs)) && Units(P, c.host) !! used
    ensures Covered((used + Units(P, c.host)) - Units(P, cs[k].host), Held(P, cs[up := c] - {k}))
  {
    Arrive(P, used, cs, up, c);
    Depart(P, used + Units(P, c.host), cs[up := c], k);
    HeldDrop(P, cs[up := c], k);
  }

  /** A container that is not live changes nothing. */
  lemma Idle(kind: Kind, cs: map<string, Container>, k: string, c: Container)
    requires !c.Live() && (k in cs ==> !cs[k].Live())
    ensures Held(kind, cs[k := c]) == Held(kind, cs)
  {
  }

  // Launching ---------------------------------------------------------------------------------------------

  lemma BoundPorts(p: Ports, h: HostConfig, bound: map<string, string>)
    requires Bindable(p, h, bound)
    ensures HostPorts(Bind(h, bound)) == bound.Values && PortsShaped(p, Bind(h, bound))
    ensures bound.Values !! p.used && bound.Values <= Range(p.start, p.Width())
  {
    var b := Bind(h, bound);
    forall v | v in bound.Values
      ensures v in HostPorts(b)
    {
      var k :| k in bound && bound[k] == v;
      assert b.portBindings[k][0] == v;
    }
    forall i, j | i in b.portBindings && j in b.portBindings && i != j
      ensures b.portBindings[i] != b.portBindings[j]
    {
      assert b.portBindings[i][0] == bound[i] && b.portBindings[j][0] == bound[j];
    }
  }

  lemma LaunchedPorts(s: State, name: string, env: seq<string>, h: HostConfig, start: bool, l: Launch)
    requires PortsOwned(s) && CanLaunch(s, name, h, start, l)
    ensures PortsOwned(Launching(s, name, env, h, start, l))
  {
    var t := Launching(s, name, env, h, start, l);
    if !l.PortsExhausted? {
      BoundPorts(s.ports, h, l.bound);
    }
    match l
    case PortsExhausted =>
    case CreateFailed(_) =>
    case StartFailed(bound, lingering) =>
      if lingering {
        Idle(P, s.containers, Upcoming(s, name), t.containers[Upcoming(s, name)]);
      }
    case Launched(bound) =>
      var c := t.containers[Upcoming(s, name)];
      if start {
        Arrive(P, s.ports.used, s.containers, Upcoming(s, name), c);
      } else {
        Idle(P, s.containers, Upcoming(s, name), c);
      }
  }

  lemma LaunchedShape(s: State, name: string, env: seq<string>, h: HostConfig, start: bool, l: Launch)
    requires Shaped(s) && LimitsShaped(s.gpu, s.cpu, h) && CanLaunch(s, name, h, start, l)
    ensures Shaped(Launching(s, name, env, h, start, l))
  {
    if !l.PortsExhausted? {
      BoundPorts(s.ports, h, l.bound);
      assert ShapedHost(s, Bind(h, l.bound));
    }
    ShapedFrom(s, Launching(s, name, env, h, start, l));
  }

  // Run ---------------------------------------------------------------------------------------------------

  /** What Apply marked for a run, read off the pools. */
  lemma RunMarks(s: State, spec: RunSpec, gpus: seq<string>, ran: RunHow)
    requires s.gpu.total == |s.gpu.status| && Cpus.Sound(s.cpu) && RunEnabled(s, spec, gpus, ran) && !ran.Exists?
    requires ran.BadMemory? || ran.Ran?
    ensures var h, g, c := RunHost(s, spec, gpus), RunGpu(s, spec, gpus), RunCpu(s, spec);
      && LimitsShaped(s.gpu, s.cpu, h)
      && Units(G, h) !! s.gpu.Used() && g.Used() == s.gpu.Used() + Units(G, h)
      && g.total == s.gpu.total && g.status.Keys == s.gpu.status.Keys && GpuBack(g, h) == s.gpu
      && Units(C, h) !! s.cpu.Used() && c.Used() == s.cpu.Used() + Units(C, h)
      && c.total == s.cpu.total && Cpus.Sound(c)
      && (spec.cpuCount > 0 ==> h.cpusetCpus != "" && CpuBack(c, h) == s.cpu)
      && (spec.cpuCount <= 0 ==> h.cpusetCpus == "")
  {
    RunGpuMarks(s, spec, gpus);
    RunCpuMarks(s, spec, gpus);
  }

  lemma RunCpuMarks(s: State, spec: RunSpec, gpus: seq<string>)
    requires Cpus.Sound(s.cpu) && (spec.cpuCount > 0 ==> Cpus.CanTake(s.cpu, spec.cpuCount))
    ensures var h, c := RunHost(s, spec, gpus), RunCpu(s, spec);
      && (h.cpusetCpus == "" || IsCpuList(h.cpusetCpus, s.cpu.total))
      && Units(C, h) !! s.cpu.Used() && c.Used() == s.cpu.Used() + Units(C, h)
      && c.total == s.cpu.total && Cpus.Sound(c)
      && (spec.cpuCount > 0 ==> h.cpusetCpus != "" && CpuBack(c, h) == s.cpu)
      && (spec.cpuCount <= 0 ==> h.cpusetCpus == "")
  {
    if spec.cpuCount > 0 {
      FreshCpus(s.cpu, spec.cpuCount);
    } else {
      assert s.cpu.Used() + {} == s.cpu.Used();
    }
  }

  lemma RunGpuMarks(s: State, spec: RunSpec, gpus: seq<string>)
    requires s.gpu.total == |s.gpu.status|
    requires if spec.gpuCount > 0 then Gpus.CanTake(s.gpu, spec.gpuCount) && Gpus.IsGrant(s.gpu, spec.gpuCount, gpus)
             else gpus == []
    ensures var h, g := RunHost(s, spec, gpus), RunGpu(s, spec, gpus);
      && NoDup(DeviceIDs(h)) && Elems(DeviceIDs(h)) <= s.gpu.status.Keys
      && Units(G, h) !! s.gpu.Used() && g.Used() == s.gpu.Used() + Units(G, h)
      && g.total == s.gpu.total && g.status.Keys == s.gpu.status.Keys && GpuBack(g, h) == s.gpu
  {
  }

  /** Fresh processors taken from a pool. */
  lemma FreshCpus(p: Pool, n: int)
    requires Cpus.Sound(p) && n > 0 && Cpus.CanTake(p, n)
    ensures var ks := Cpus.Walk(p, n); var h, q := Cpus.CpuSet(ks), Cpus.Take(p, n);
      && GoodList(ks, p.total) && h != "" && Split(h, ",") == Cpus.Names(ks) && Elems(Cpus.Names(ks)) != {}
      && Elems(Cpus.Names(ks)) !! p.Used() && q.Used() == p.Used() + Elems(Cpus.Names(ks))
      && q.total == p.total && Cpus.Sound(q) && Cpus.Give(q, Split(h, ",")) == p
  {
    var ks := Cpus.Walk(p, n);
    Cpus.SoundFree(p);
    Cpus.WalkLowest(p, n);
    assert forall k :: k in ks ==> k < p.total;
    CpuListSplit(ks, p.total);
    Cpus.WalkGrants(p, n);
    FreeAndUsed(p);
    MarkUsed(p, Elems(Cpus.Names(ks)));
  }

  /**
    However a run fails, the GPU map is afterwards what it was, and so is the processor map, except when a run
    without processors fails inside runContainer.
   */
  lemma RunFailureRestores(s: State, spec: RunSpec, gpus: seq<string>, ran: RunHow)
    requires s.gpu.total == |s.gpu.status| && Cpus.Sound(s.cpu) && RunEnabled(s, spec, gpus, ran)
    requires !(ran.Ran? && ran.launch.Launched?)
    ensures var t := RunNext(s, spec, gpus, ran);
      t.gpu == s.gpu && (t.cpu == s.cpu <==> !(ran.Ran? && spec.cpuCount <= 0))
  {
    match ran
    case Exists =>
    case GpuShort =>
    case CpuShort =>
      Cpus.RefusedUnchanged(s.cpu, spec.cpuCount);
      RunGpuMarks(s, spec, gpus);
    case BadMemory => RunMarks(s, spec, gpus, ran);
    case Ran(l) =>
      RunMarks(s, spec, gpus, ran);
      if spec.cpuCount <= 0 {
        CpuBackEmpty(s.cpu, RunHost(s, spec, gpus));
      }
  }

  /** A run keeps ownership precisely when it asked for a processor or did not fail inside runContainer. */
  lemma RunOwnedIff(s: State, spec: RunSpec, gpus: seq<string>, ran: RunHow)
    requires Owned(s) && RunEnabled(s, spec, gpus, ran)
    ensures Owned(RunNext(s, spec, gpus, ran)) <==>
      !(ran.Ran? && !ran.launch.Launched? && spec.cpuCount <= 0)
  {
    var t := RunNext(s, spec, gpus, ran);
    if ran.Ran? && ran.launch.Launched? {
      RunLaunched(s, spec, gpus, ran.launch.bound);
    } else {
      RunFailureRestores(s, spec, gpus, ran);
      if ran.Ran? {
        RunNotLaunched(s, spec, gpus, ran.launch);
      }
    }
  }

  /** r is s after marking, for nobody yet, the units that h names. */
  ghost predicate Marked(s: State, r: State, h: HostConfig) {
    && r == s.(gpu := r.gpu, cpu := r.cpu) && SameMachine(s, r) && LimitsShaped(s.gpu, s.cpu, h)
    && r.gpu.Used() == s.gpu.Used() + Units(G, h) && Units(G, h) !! s.gpu.Used()
    && r.cpu.Used() == s.cpu.Used() + Units(C, h) && Units(C, h) !! s.cpu.Used() && Cpus.Sound(r.cpu)
  }

  lemma SameKeys(p: Pool, q: Pool)
    requires p.total == |p.status| && q.total == p.total && q.status.Keys == p.status.Keys
    ensures q.total == |q.status|
  {
  }

  /** Starting a container with the marked units makes the ledgers exact again. */
  lemma LaunchedOwned(s: State, r: State, name: string, env: seq<string>, h: HostConfig, bound: map<string, string>)
    requires Owned(s) && Marked(s, r, h) && CanLaunch(r, name, h, true, Launched(bound))
    ensures Owned(Launching(r, name, env, h, true, Launched(bound)))
  {
    var u := Launching(r, name, env, h, true, Launched(bound));
    ShapedFrom(s, r);
    LaunchedPorts(r, name, env, h, true, Launched(bound));
    LaunchedShape(r, name, env, h, true, Launched(bound));
    LaunchedUnits(s, u, Upcoming(r, name), NewContainer(r, name, env, h, Running, bound), h);
  }

  lemma LaunchedUnits(s: State, u: State, k: string, c: Container, h: HostConfig)
    requires GpuOwned(s) && CpuOwned(s) && k !in s.containers && u.containers == s.containers[k := c] && c.Live()
    requires SameMachine(s, u) && c.host.deviceIDs == h.deviceIDs && c.host.cpusetCpus == h.cpusetCpus
    requires u.gpu.Used() == s.gpu.Used() + Units(G, h) && Units(G, h) !! s.gpu.Used()
    requires u.cpu.Used() == s.cpu.Used() + Units(C, h) && Units(C, h) !! s.cpu.Used() && Cpus.Sound(u.cpu)
    ensures GpuOwned(u) && CpuOwned(u)
  {
    assert Units(G, c.host) == Units(G, h) && Units(C, c.host) == Units(C, h);
    Arrive(G, s.gpu.Used(), s.containers, k, c);
    Arrive(C, s.cpu.Used(), s.containers, k, c);
    SameKeys(s.gpu, u.gpu);
  }

  /** A launch that fails touches ports and a container that is not live at most. */
  lemma NotLaunchedOwned(s: State, r: State, name: string, env: seq<string>, h: HostConfig, start: bool, l: Launch)
    requires Owned(s) && Marked(s, r, h) && CanLaunch(r, name, h, start, l) && !l.Launched?
    ensures var u := Launching(r, name, env, h, start, l);
      PortsOwned(u) && Shaped(u) && Held(G, u.containers) == Held(G, s.containers) &&
      Held(C, u.containers) == Held(C, s.containers) && u.gpu == r.gpu && u.cpu == r.cpu && SameMachine(s, u)
  {
    ShapedFrom(s, r);
    assert PortsOwned(r) && r.containers == s.containers;
    LaunchedPorts(r, name, env, h, start, l);
    LaunchedShape(r, name, env, h, start, l);
    var n := NotLaunchedState(r, name, env, h, start, l);
    if Launching(r, name, env, h, start, l).containers != r.containers {
      Idle(G, s.containers, Upcoming(r, name), n);
      Idle(C, s.containers, Upcoming(r, name), n);
    }
  }

  /** n is a container that is not live; it lingers, or nothing does. */
  lemma NotLaunchedState(r: State, name: string, env: seq<string>, h: HostConfig, start: bool, l: Launch)
    returns (n: Container)
    requires CanLaunch(r, name, h, start, l) && !l.Launched?
    ensures var u := Launching(r, name, env, h, start, l);
      && u.gpu == r.gpu && u.cpu == r.cpu && SameMachine(r, u)
      && !n.Live()
      && (Upcoming(r, name) in r.containers ==> !r.containers[Upcoming(r, name)].Live() || u.containers == r.containers)
      && (u.containers == r.containers || u.containers == r.containers[Upcoming(r, name) := n])
  {
    n := Container(Created, [], h);
    if l.StartFailed? {
      n := NewContainer(r, name, env, h, Created, l.bound);
    }
  }

  lemma RunMarked(s: State, spec: RunSpec, gpus: seq<string>, l: Launch)
    requires Owned(s) && RunEnabled(s, spec, gpus, Ran(l))
    ensures Marked(s, AfterApply(s, spec, gpus), RunHost(s, spec, gpus))
    ensures CanLaunch(AfterApply(s, spec, gpus), spec.name, RunHost(s, spec, gpus), true, l)
  {
    RunMarks(s, spec, gpus, Ran(l));
    var r := AfterApply(s, spec, gpus);
    assert r == s.(gpu := r.gpu, cpu := r.cpu);
    assert Upcoming(r, spec.name) == Upcoming(s, spec.name);
  }

  lemma RunNotLaunched(s: State, spec: RunSpec, gpus: seq<string>, l: Launch)
    requires Owned(s) && RunEnabled(s, spec, gpus, Ran(l)) && !l.Launched?
    ensures Owned(RunNext(s, spec, gpus, Ran(l))) <==> spec.cpuCount > 0
  {
    var h, r := RunHost(s, spec, gpus), AfterApply(s, spec, gpus);
    RunMarked(s, spec, gpus, l);
    NotLaunchedOwned(s, r, spec.name, spec.env, h, true, l);
    RunFailureRestores(s, spec, gpus, Ran(l));
    var u := Launching(r, spec.name, spec.env, h, true, l);
    var t := u.(gpu := GpuBack(r.gpu, h), cpu := CpuBack(r.cpu, h));
    assert RunNext(s, spec, gpus, Ran(l)) == t;
    if spec.cpuCount > 0 {
      ShapedFrom(u, t);
    } else {
      CpuBackEmpty(r.cpu, h);
    }
  }

  lemma RunLaunched(s: State, spec: RunSpec, gpus: seq<string>, bound: map<string, string>)
    requires Owned(s) && RunEnabled(s, spec, gpus, Ran(Launched(bound)))
    ensures Owned(RunNext(s, spec, gpus, Ran(Launched(bound))))
  {
    var h, r := RunHost(s, spec, gpus), AfterApply(s, spec, gpus);
    RunMarked(s, spec, gpus, Launched(bound));
    LaunchedOwned(s, r, spec.name, spec.env, h, bound);
    var u := Launching(r, spec.name, spec.env, h, true, Launched(bound));
    var t := RunNext(s, spec, gpus, Ran(Launched(bound)));
    assert t == u.(queue := t.queue);
    ShapedFrom(u, t);
  }

  // Pause, Continue, Stop, Delete -------------------------------------------------------------------------

  lemma StatusShape(s: State, key: string, status: Status)
    requires Shaped(s)
    ensures Shaped(SetStatus(s, key, status))
  {
  }

  lemma PauseOwned(s: State, name: string, ok: bool)
    requires Owned(s) && Enabled(s, Pause(name, ok))
    ensures Owned(Next(s, Pause(name, ok)))
  {
    if ok {
      var k := Current(s, name);
      var c := s.containers[k].(status := Paused);
      HeldSame(G, s.containers, k, c);
      HeldSame(C, s.containers, k, c);
      HeldSame(P, s.containers, k, c);
      StatusShape(s, k, Paused);
    }
  }

  ghost predicate Apart(held: map<string, set<string>>, units: set<string>) {
    forall k :: k in held ==> held[k] !! units
  }

  /** The container claims nothing that is marked for somebody else, and nothing that is unmarked. */
  ghost predicate ClaimsNothing(s: State, h: HostConfig) {
    && Units(G, h) == {} && Units(C, h) == {} && Units(P, h) <= s.ports.used
    && Apart(Held(P, s.containers), Units(P, h))
  }

  lemma StartedLedger(kind: Kind, used: set<string>, cs: map<string, Container>, k: string, c: Container)
    requires k in cs && !cs[k].Live() && c == cs[k].(status := Running) && Exact(used, Held(kind, cs))
    ensures Exact(used, Held(kind, cs[k := c])) <==> Units(kind, c.host) == {}
  {
    HeldStart(kind, cs, k, c);
    var held, units := Held(kind, cs), Units(kind, c.host);
    var after := held[k := units];
    if units == {} {
      assert HeldBy(held, k) + {} == units && used + {} == used;
      GrantExact(used, held, k, {});
    } else {
      var u :| u in units;
      assert u in after[k];
      if u in used {
        var o :| o in held && u in held[o];
        assert u in after[o];
      }
    }
  }

  lemma StartedPorts(used: set<string>, cs: map<string, Container>, k: string, c: Container)
    requires k in cs && !cs[k].Live() && c == cs[k].(status := Running) && Covered(used, Held(P, cs))
    ensures Covered(used, Held(P, cs[k := c])) <==>
      Units(P, c.host) <= used && Apart(Held(P, cs), Units(P, c.host))
  {
    HeldStart(P, cs, k, c);
    var held, after := Held(P, cs), Held(P, cs[k := c]);
    if Covered(used, after) {
      assert after[k] <= used;
      forall o | o in held
        ensures held[o] !! Units(P, c.host)
      {
        assert o in after && after[o] !! after[k];
      }
    }
  }

  /** docker restart keeps ownership precisely for a live container, or for one that claims nothing. */
  lemma ContinueOwnedIff(s: State, name: string)
    requires Owned(s) && Present(s, name)
    ensures var c := s.containers[Current(s, name)];
      Owned(Next(s, Continue(name, true))) <==> c.Live() || ClaimsNothing(s, c.host)
  {
    var k := Current(s, name);
    var c := s.containers[k].(status := Running);
    StatusShape(s, k, Running);
    if s.containers[k].Live() {
      HeldSame(G, s.containers, k, c);
      HeldSame(C, s.containers, k, c);
      HeldSame(P, s.containers, k, c);
    } else {
      StartedLedger(G, s.gpu.Used(), s.containers, k, c);
      StartedLedger(C, s.cpu.Used(), s.containers, k, c);
      StartedPorts(s.ports.used, s.containers, k, c);
    }
  }

  lemma GpuReleased(p: Pool, h: HostConfig)
    requires p.total == |p.status| && NoDup(DeviceIDs(h)) && Elems(DeviceIDs(h)) <= p.status.Keys
    ensures GpuBack(GpuBack(p, h), h) == GpuBack(p, h)
  {
  }

  lemma CpuReleased(p: Pool, h: HostConfig)
    requires Cpus.Sound(p) && (h.cpusetCpus == "" || IsCpuList(h.cpusetCpus, p.total))
    ensures var q := CpuBack(p, h);
      && (h.cpusetCpus == "" ==> "" in q.status && !Cpus.Sound(q))
      && (h.cpusetCpus != "" ==> Cpus.Sound(q) && q.Used() == p.Used() - Units(C, h) && Units(C, h) != {})
      && q.total == p.total && CpuBack(q, h) == q
  {
    if h.cpusetCpus == "" {
      CpuBackEmpty(p, h);
    } else {
      CpuBackUsed(p, h);
    }
    MarkAgain(p, Elems(CpuNames(h)), 0);
  }

  /** What a release leaves in the three schedulers; doing it twice changes nothing more. */
  lemma Released(s: State, h: HostConfig)
    requires s.gpu.total == |s.gpu.status| && Cpus.Sound(s.cpu) && PortScheduling.Sound(s.ports) && ShapedHost(s, h)
    ensures var t := Release(s, h);
      && t.gpu.Used() == s.gpu.Used() - Units(G, h) && t.gpu.total == |t.gpu.status|
      && t.ports == s.ports.(used := s.ports.used - Units(P, h)) && PortScheduling.Sound(t.ports)
      && SameMachine(s, t)
      && GpuBack(t.gpu, h) == t.gpu && CpuBack(t.cpu, h) == t.cpu
      && (h.cpusetCpus == "" ==> !Cpus.Sound(t.cpu))
      && (h.cpusetCpus != "" ==>
           Cpus.Sound(t.cpu) && t.cpu.Used() == s.cpu.Used() - Units(C, h) && Units(C, h) != {})
  {
    GpuBackUsed(s.gpu, h);
    GpuReleased(s.gpu, h);
    CpuReleased(s.cpu, h);
    PortsBackUsed(s.ports, h);
  }

  /** Nobody live holds any of the units. */
  ghost predicate NobodyHolds(s: State, h: HostConfig) {
    && Units(G, h) !! s.gpu.Used() && Units(C, h) !! s.cpu.Used()
    && Apart(Held(P, s.containers), Units(P, h))
  }

  lemma ReleaseForeign(used: set<string>, held: map<string, set<string>>, units: set<string>)
    requires Exact(used, held)
    ensures Exact(used - units, held) <==> units !! used
  {
  }

  /** With nothing but the three ledgers changed, ownership is what the ledgers say. */
  lemma ReleasedOwnedIff(s: State, t: State, h: HostConfig)
    requires Owned(s) && ShapedHost(s, h) && h.cpusetCpus != ""
    requires var u := Release(s, h); t.gpu == u.gpu && t.cpu == u.cpu && t.ports == u.ports
    requires forall k :: k in t.containers ==> k in s.containers && t.containers[k].host == s.containers[k].host
    ensures Owned(t) <==>
      && Exact(s.gpu.Used() - Units(G, h), Held(G, t.containers))
      && Exact(s.cpu.Used() - Units(C, h), Held(C, t.containers))
      && Covered(s.ports.used - Units(P, h), Held(P, t.containers))
  {
    Released(s, h);
    ShapedFrom(s, t);
  }

  /** The state after a stop: everything given back, whatever Docker says. */
  ghost predicate AfterStop(s: State, t: State, key: string, ok: bool)
    requires key in s.containers
  {
    var c, u := s.containers[key], Release(s, s.containers[key].host);
    && t.gpu == u.gpu && t.cpu == u.cpu && t.ports == u.ports
    && t.containers == (if ok && c.Live() then s.containers[key := c.(status := Exited)] else s.containers)
  }

  lemma StopState(s: State, key: string, ok: bool)
    requires Owned(s) && key in s.containers
    ensures AfterStop(s, StopNext(s, key, ok), key, ok)
  {
    assert ShapedHost(s, s.containers[key].host);
    Released(s, s.containers[key].host);
  }

  lemma AfterStopOwnedIff(s: State, t: State, k: string, ok: bool)
    requires Owned(s) && k in s.containers && AfterStop(s, t, k, ok)
    ensures var c := s.containers[k];
      Owned(t) <==> c.host.cpusetCpus != "" && (if c.Live() then ok else NobodyHolds(s, c.host))
  {
    var c := s.containers[k];
    assert ShapedHost(s, c.host);
    if c.host.cpusetCpus == "" {
      Released(s, c.host);
    } else {
      ReleasedOwnedIff(s, t, c.host);
      if c.Live() && ok {
        StopLive(s, k, c.(status := Exited));
      } else {
        StayIff(s, k);
      }
    }
  }

  /**
    Stopping keeps ownership precisely when the container has processors to give back and either it is live and
    Docker stops it, or it is not live and nobody else has meanwhile got any of its former units.
   */
  lemma StopOwnedIff(s: State, name: string, ok: bool)
    requires Owned(s) && Present(s, name)
    ensures var c := s.containers[Current(s, name)];
      Owned(StopNext(s, Current(s, name), ok)) <==>
        c.host.cpusetCpus != "" && (if c.Live() then ok else NobodyHolds(s, c.host))
  {
    StopState(s, Current(s, name), ok);
    AfterStopOwnedIff(s, StopNext(s, Current(s, name), ok), Current(s, name), ok);
  }

  /** The container stays what it is while its units are released. */
  lemma StayIff(s: State, k: string)
    requires Owned(s) && k in s.containers && s.containers[k].host.cpusetCpus != ""
    ensures var c, h := s.containers[k], s.containers[k].host;
      && Exact(s.gpu.Used() - Units(G, h), Held(G, s.containers))
      && Exact(s.cpu.Used() - Units(C, h), Held(C, s.containers))
      && Covered(s.ports.used - Units(P, h), Held(P, s.containers)) <==>
      !c.Live() && NobodyHolds(s, h)
  {
    var h := s.containers[k].host;
    assert ShapedHost(s, h);
    if s.containers[k].Live() {
      CpuBackUsed(s.cpu, h);
      ReleaseKept(s.cpu.Used(), Held(C, s.containers), k);
    } else {
      ReleaseForeign(s.gpu.Used(), Held(G, s.containers), Units(G, h));
      ReleaseForeign(s.cpu.Used(), Held(C, s.containers), Units(C, h));
      ReleasePorts(s.ports.used, Held(P, s.containers), Units(P, h));
    }
  }

  lemma ReleasePorts(used: set<string>, held: map<string, set<string>>, units: set<string>)
    requires Covered(used, held)
    ensures Covered(used - units, held) <==> Apart(held, units)
  {
  }

  lemma StopLive(s: State, k: string, c: Container)
    requires Owned(s) && k in s.containers && s.containers[k].Live() && !c.Live() && c.host == s.containers[k].host
    ensures Exact(s.gpu.Used() - Units(G, c.host), Held(G, s.containers[k := c]))
    ensures Exact(s.cpu.Used() - Units(C, c.host), Held(C, s.containers[k := c]))
    ensures Covered(s.ports.used - Units(P, c.host), Held(P, s.containers[k := c]))
  {
    HeldStop(G, s.containers, k, c);
    HeldStop(C, s.containers, k, c);
    HeldStop(P, s.containers, k, c);
    Depart(G, s.gpu.Used(), s.containers, k);
    Depart(C, s.cpu.Used(), s.containers, k);
    Depart(P, s.ports.used, s.containers, k);
  }

  lemma DropLive(s: State, k: string)
    requires Owned(s) && k in s.containers && s.containers[k].Live()
    ensures var h := s.containers[k].host;
      && Exact(s.gpu.Used() - Units(G, h), Held(G, s.containers - {k}))
      && Exact(s.cpu.Used() - Units(C, h), Held(C, s.containers - {k}))
      && Covered(s.ports.used - Units(P, h), Held(P, s.containers - {k}))
  {
    HeldDrop(G, s.containers, k);
    HeldDrop(C, s.containers, k);
    HeldDrop(P, s.containers, k);
    Depart(G, s.gpu.Used(), s.containers, k);
    Depart(C, s.cpu.Used(), s.containers, k);
    Depart(P, s.ports.used, s.containers, k);
  }

  /** The state after a delete: a live container's units are given back before the removal. */
  ghost predicate AfterDelete(s: State, t: State, key: string, removed: bool)
    requires key in s.containers
  {
    var u := if s.containers[key].Live() then Release(s, s.containers[key].host) else s;
    && t.gpu == u.gpu && t.cpu == u.cpu && t.ports == u.ports
    && t.containers == (if removed then s.containers - {key} else s.containers)
  }

  lemma DeleteState(s: State, name: string, deleted: DeleteHow)
    requires Present(s, name)
    ensures AfterDelete(s, DeleteNext(s, name, deleted), Current(s, name), deleted == Deleted(true))
  {
  }

  lemma AfterDeleteOwnedIff(s: State, t: State, k: string, removed: bool)
    requires Owned(s) && k in s.containers && AfterDelete(s, t, k, removed)
    ensures var c := s.containers[k]; Owned(t) <==> (c.Live() ==> c.host.cpusetCpus != "" && removed)
  {
    var c := s.containers[k];
    assert ShapedHost(s, c.host);
    if !c.Live() {
      HeldDrop(G, s.containers, k);
      HeldDrop(C, s.containers, k);
      HeldDrop(P, s.containers, k);
      ShapedFrom(s, t);
    } else if c.host.cpusetCpus == "" {
      Released(s, c.host);
    } else {
      ReleasedOwnedIff(s, t, c.host);
      if removed {
        DropLive(s, k);
      } else {
        StayIff(s, k);
      }
    }
  }

  /** Deleting a live container keeps ownership precisely when it has processors and is really removed. */
  lemma DeleteOwnedIff(s: State, name: string, deleted: DeleteHow)
    requires Owned(s) && Present(s, name)
    ensures var c := s.containers[Current(s, name)];
      Owned(DeleteNext(s, name, deleted)) <==>
        (c.Live() ==> c.host.cpusetCpus != "" && deleted == Deleted(true))
  {
    DeleteState(s, name, deleted);
    AfterDeleteOwnedIff(s, DeleteNext(s, name, deleted), Current(s, name), deleted == Deleted(true));
  }
}
