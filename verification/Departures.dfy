/** A machine with one GPU and one processor, and the shortest ways to lose track of them. */
module Departures {
  import opened Prelude
  import opened Pools
  import opened Text
  import opened Ledger
  import opened Sizes
  import opened Mvcc
  import opened Versions
  import Cpus = CpuScheduling
  import opened PortScheduling
  import opened Fleet
  import opened Ownership
  import opened OwnershipReplace
  import opened OwnershipFailed
  import opened OwnershipRollback
  import opened Safety

  const ENV := ["CONTAINER_VERSION=1"]
  const WHOLE := HostConfig(Some(["g"]), "0", 0, map[], [])

  function A1(): string {
    VersionedName("a", 1)
  }

  /** Replica set a runs on everything there is. */
  function Tiny(): State {
    State(Pool(1, map["g" := 1]), Pool(1, map["0" := 1]), Ports(1, 1, 1, {}), map["a" := 1],
          map[A1() := Container(Running, ENV, WHOLE)], [Put("a", Versioned(1, Info(A1(), ENV, WHOLE)))], [])
  }

  lemma OneCpu()
    ensures Itoa(0) == "0" && Cpus.CpuSet([0]) == "0" && IsCpuList("0", 1) && Cpus.Keys(1) == {"0"}
  {
  }

  lemma WholeClaims()
    ensures DeviceIDs(WHOLE) == ["g"] && CpuNames(WHOLE) == ["0"] && HostPorts(WHOLE) == {}
    ensures Units(G, WHOLE) == {"g"} && Units(C, WHOLE) == {"0"} && Units(P, WHOLE) == {}
  {
    SplitPlain("0", ",");
    assert Elems(["g"]) == {"g"} && Elems(["0"]) == {"0"};
  }

  lemma OneHolder(held: map<string, set<string>>, k: string, u: string)
    requires held == map[k := {u}]
    ensures Exact({u}, held)
  {
    assert k in held && u in held[k];
  }

  lemma TinyHeld()
    ensures Held(G, Tiny().containers) == map[A1() := {"g"}] && Held(C, Tiny().containers) == map[A1() := {"0"}]
  {
    WholeClaims();
    assert Tiny().containers.Keys == {A1()};
  }

  lemma TinyUnits()
    ensures var s := Tiny(); GpuOwned(s) && CpuOwned(s)
  {
    OneCpu();
    WholeClaims();
    var s := Tiny();
    assert s.gpu.Used() == {"g"} && s.cpu.Used() == {"0"};
    TinyHeld();
    OneHolder(Held(G, s.containers), A1(), "g");
    OneHolder(Held(C, s.containers), A1(), "0");
  }

  lemma TinyShaped()
    ensures var s := Tiny(); PortsOwned(s) && Shaped(s)
  {
    OneCpu();
    WholeClaims();
    var s := Tiny();
    assert Held(P, s.containers) == map[A1() := {}];
    assert ShapedHost(s, WHOLE);
  }

  lemma TinyStored()
    ensures var s := Tiny();
      && Current(s, "a") == A1() && Upcoming(s, "a") !in s.containers && Replaceable(s, "a")
      && Stored(s, "a").host == WHOLE
  {
    assert Upcoming(Tiny(), "a")[|"a-"|..] == Itoa(2) && A1()[|"a-"|..] == Itoa(1);
  }

  /** Replica set a is live, recorded, without ports, and has the only GPU and the only processor. */
  ghost predicate HasAll(s: State) {
    && Owned(s) && Replaceable(s, "a") && Recorded(s, "a") && Upcoming(s, "a") !in s.containers && s.gpu.total == 1
    && var c := s.containers[Current(s, "a")];
    && c.Live() && c.host.portBindings == map[] && c.host.cpusetCpus != ""
    && |DeviceIDs(c.host)| == 1 && |CpuNames(c.host)| == 1
  }

  lemma TinyHasAll()
    ensures HasAll(Tiny())
  {
    WholeClaims();
    TinyUnits();
    TinyShaped();
    TinyStored();
  }

  /** Asking for a second GPU fails, and leaves a running with a GPU that is marked free. */
  lemma FailedPatchLosesGpu(s: State)
    requires HasAll(s)
    ensures var e := Replace("a", Patch(Some(2), None, None, None), [], NoGpus);
      Enabled(s, e) && !Owned(Next(s, e))
  {
    var e, k := Replace("a", Patch(Some(2), None, None, None), [], NoGpus), Current(s, "a");
    assert GpuFreed(s, s.containers[k]).total == 1;
    NoGpusOwnedIff(s, k, s.containers[k]);
  }

  /** Giving up the GPU but keeping the processor count wipes the cpuset: the processor stays marked for nobody. */
  lemma DroppedGpuLosesCpu(s: State)
    requires HasAll(s)
    ensures var e := Replace("a", Patch(Some(0), Some(1), None, None), [], Replaced(map[]));
      Enabled(s, e) && !Owned(Next(s, e))
  {
    var e := Replace("a", Patch(Some(0), Some(1), None, None), [], Replaced(map[]));
    var c := s.containers[Current(s, "a")];
    var h := NewHost(s, c, e.req, Stored(s, "a").host, []);
    assert h.portBindings == map[] && Bindable(s.ports, h, map[]);
    OwnedIff(s, e);
  }

  /** A run without processors that fails puts the empty name among the processors. */
  lemma FailedRunAddsKey(s: State)
    requires Owned(s)
    ensures var e := Run(RunSpec("b", 0, 0, None, {}, [], []), [], Ran(CreateFailed(map[])));
      Enabled(s, e) && !Owned(Next(s, e))
  {
    OwnedIff(s, Run(RunSpec("b", 0, 0, None, {}, [], []), [], Ran(CreateFailed(map[]))));
  }

  lemma StoppedState(s: State, name: string)
    requires Owned(s) && Present(s, name) && s.containers[Current(s, name)].Live()
    requires s.containers[Current(s, name)].host.cpusetCpus != ""
    ensures var t, c := Next(s, Stop(name, true)), s.containers[Current(s, name)];
      && Owned(t) && Present(t, name) && !t.containers[Current(t, name)].Live()
      && t.containers[Current(t, name)].host == c.host
  {
    OwnedIff(s, Stop(name, true));
  }

  lemma ContinueClaims(t: State, name: string)
    requires Owned(t) && Present(t, name) && !t.containers[Current(t, name)].Live()
    requires Units(C, t.containers[Current(t, name)].host) != {}
    ensures Enabled(t, Continue(name, true)) && !Owned(Next(t, Continue(name, true)))
  {
    OwnedIff(t, Continue(name, true));
  }

  lemma PinnedClaims(s: State, k: string)
    requires Owned(s) && k in s.containers && s.containers[k].host.cpusetCpus != ""
    ensures Units(C, s.containers[k].host) != {}
  {
    assert ShapedHost(s, s.containers[k].host);
    CpuBackUsed(s.cpu, s.containers[k].host);
  }

  /** Stopping gives the units back, and docker restart of the stopped container takes them again unasked. */
  lemma ContinueAfterStop(s: State, name: string)
    requires Owned(s) && Present(s, name) && s.containers[Current(s, name)].Live()
    requires s.containers[Current(s, name)].host.cpusetCpus != ""
    ensures var t := Next(s, Stop(name, true));
      && Enabled(s, Stop(name, true)) && Owned(t)
      && Enabled(t, Continue(name, true)) && !Owned(Next(t, Continue(name, true)))
  {
    PinnedClaims(s, Current(s, name));
    StoppedState(s, name);
    ContinueClaims(Next(s, Stop(name, true)), name);
  }

  lemma SharedIsHeld(s: State, h: HostConfig, other: string)
    requires Owned(s) && other in s.containers && s.containers[other].Live()
    requires !(Units(G, s.containers[other].host) !! Units(G, h))
    ensures !NobodyHolds(s, h)
  {
    HoldsMarked(s.gpu.Used(), s.containers, G, other);
  }

  /** Stopping it a second time frees what has meanwhile been granted to somebody else. */
  lemma SecondStopSteals(s: State, name: string, other: string)
    requires Owned(s) && Present(s, name) && !s.containers[Current(s, name)].Live()
    requires other in s.containers && s.containers[other].Live()
    requires !(Units(G, s.containers[other].host) !! Units(G, s.containers[Current(s, name)].host))
    ensures !Owned(Next(s, Stop(name, true)))
  {
    SharedIsHeld(s, s.containers[Current(s, name)].host, other);
    OwnedIff(s, Stop(name, true));
  }

  // Rollback ----------------------------------------------------------------------------------------------

  /**
    When the number of GPUs stays the same, a rollback takes those of the old record; if somebody else has one of them
    by now, it has two holders.
   */
  lemma RollbackSharesGpu(s: State, name: string, version: int, memory: Size, gpus: seq<string>,
                          bound: map<string, string>, other: string, u: string)
    requires Returning(s, name, version, memory, gpus, Replaced(bound)) && other in s.containers
    requires var c := s.containers[Current(s, name)]; c.Live() && GpuKept(BackRequest(s, name, version, memory), c)
    requires other != Current(s, name) && s.containers[other].Live()
    requires u in DeviceIDs(TargetInfo(s, name, version).host) && u in DeviceIDs(s.containers[other].host)
    ensures !Owned(RollbackNext(s, name, version, memory, gpus, Replaced(bound)))
  {
    RollbackOwnedIff(s, name, version, memory, gpus, Replaced(bound));
    KeptIsShared(s, Current(s, name), BackRequest(s, name, version, memory), TargetInfo(s, name, version).host, gpus,
                 other, u);
  }

  lemma KeptIsShared(s: State, k: string, req: Request, x: HostConfig, gpus: seq<string>, other: string, u: string)
    requires GpuOwned(s) && k in s.containers && s.containers[k].Live() && req.Patch? && GpuKept(req, s.containers[k])
    requires other in s.containers && other != k && s.containers[other].Live()
    requires u in DeviceIDs(x) && u in DeviceIDs(s.containers[other].host)
    ensures !Instead(s, s.containers[k], req, gpus, NewHost(s, s.containers[k], req, x, gpus))
  {
    SameClaims(s, s.containers[k], req, x, gpus);
    var held := Held(G, s.containers);
    assert held[k] !! held[other] && u in held[other];
  }

  function Whole(gpu: string, cpu: string): HostConfig {
    HostConfig(Some([gpu]), cpu, 0, map[], [])
  }

  function Noted(name: string, version: nat, h: HostConfig): Item {
    Put(name, Versioned(version, Info(VersionedName(name, version), ENV, h)))
  }

  /** Replica set a started with GPU g and has h since a restart; b has got g. */
  function Pair(): State {
    State(Pool(2, map["g" := 1, "h" := 1]), Pool(2, map["0" := 1, "1" := 1]), Ports(1, 1, 1, {}),
          map["a" := 2, "b" := 1],
          map["a-2" := Container(Running, ENV, Whole("h", "0")), "b-1" := Container(Running, ENV, Whole("g", "1"))],
          [Noted("a", 1, Whole("g", "0")), Noted("b", 1, Whole("g", "1")), Noted("a", 2, Whole("h", "0"))], [])
  }

  lemma TwoCpus()
    ensures Itoa(0) == "0" && Itoa(1) == "1" && Itoa(2) == "2" && Itoa(3) == "3"
    ensures IsCpuList("0", 2) && IsCpuList("1", 2) && Cpus.Keys(2) == {"0", "1"}
  {
    assert Cpus.CpuSet([0]) == "0" && GoodList([0], 2);
    assert Cpus.CpuSet([1]) == "1" && GoodList([1], 2);
  }

  lemma WholeUnits(gpu: string, cpu: string)
    requires cpu == "0" || cpu == "1"
    ensures var h := Whole(gpu, cpu);
      Units(G, h) == {gpu} && CpuNames(h) == [cpu] && Units(C, h) == {cpu} && Units(P, h) == {} && NoDup(DeviceIDs(h))
  {
    SplitPlain(cpu, ",");
    assert Elems([gpu]) == {gpu} && Elems([cpu]) == {cpu};
  }

  lemma TwoHolders(held: map<string, set<string>>, j: string, u: string, k: string, v: string)
    requires j != k && u != v && held == map[j := {u}, k := {v}]
    ensures Exact({u, v}, held)
  {
    assert u in held[j] && v in held[k];
  }

  lemma PairHeld(kind: Kind)
    ensures Held(kind, Pair().containers) ==
      map["a-2" := Units(kind, Whole("h", "0")), "b-1" := Units(kind, Whole("g", "1"))]
  {
  }

  lemma PairGpus()
    ensures GpuOwned(Pair())
  {
    WholeUnits("h", "0");
    WholeUnits("g", "1");
    PairHeld(G);
    assert Pair().gpu.Used() == {"h", "g"};
    TwoHolders(Held(G, Pair().containers), "a-2", "h", "b-1", "g");
  }

  lemma PairCpus()
    ensures CpuOwned(Pair())
  {
    TwoCpus();
    WholeUnits("h", "0");
    WholeUnits("g", "1");
    PairHeld(C);
    assert Pair().cpu.Used() == {"0", "1"};
    TwoHolders(Held(C, Pair().containers), "a-2", "0", "b-1", "1");
  }

  lemma PairPorts()
    ensures PortsOwned(Pair())
  {
    WholeUnits("h", "0");
    WholeUnits("g", "1");
    PairHeld(P);
  }

  lemma PairOwned()
    ensures Owned(Pair())
  {
    PairGpus();
    PairCpus();
    PairPorts();
    PairShaped();
  }

  lemma PairShaped()
    ensures Shaped(Pair())
  {
    TwoCpus();
    WholeUnits("h", "0");
    WholeUnits("g", "1");
    assert ShapedHost(Pair(), Whole("h", "0")) && ShapedHost(Pair(), Whole("g", "1"));
  }

  lemma PairTarget()
    ensures var s := Pair();
      && Current(s, "a") == "a-2" && Upcoming(s, "a") == "a-3" && Rollable(s, "a", 1)
      && TargetInfo(s, "a", 1).host == Whole("g", "0")
  {
    TwoCpus();
    var log := Pair().log;
    assert log == [log[0], log[1], log[2]];
    HistoryAppend([], log[0], "a");
    HistoryAppend([log[0]], log[1], "a");
    HistoryAppend([log[0], log[1]], log[2], "a");
    assert [] + [log[0]] == [log[0]] && [log[0]] + [log[1]] == [log[0], log[1]];
    assert [log[0], log[1]] + [log[2]] == log;
  }

  /** Going back to version 1 succeeds, and gives a the GPU that b has. */
  lemma RollbackDoubleBooks()
    ensures Owned(Pair())
    ensures var e := Rollback("a", 1, Bytes(0), [], Replaced(map[]));
      Enabled(Pair(), e) && !Owned(Next(Pair(), e))
  {
    PairOwned();
    PairTarget();
    WholeUnits("h", "0");
    WholeUnits("g", "0");
    PairReturns();
    RollbackSharesGpu(Pair(), "a", 1, Bytes(0), [], map[], "b-1", "g");
  }

  lemma PairReturns()
    ensures RollbackEnabled(Pair(), "a", 1, Bytes(0), [], Replaced(map[]))
  {
    PairTarget();
    WholeUnits("h", "0");
    WholeUnits("g", "0");
    var s := Pair();
    var c, x := s.containers["a-2"], Whole("g", "0");
    var req := AsPatch(c, x, Bytes(0));
    assert GpuKept(req, c) && CpuKept(req, c);
    assert NewHost(s, c, req, x, []) == x && Bindable(s.ports, x, map[]);
  }
}
