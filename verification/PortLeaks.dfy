/** Which ports stay marked for nobody: those that were drawn for containers that could not be created or started. */
module PortLeaks {
  import opened Ledger
  import opened Sizes
  import opened Landing
  import Gpus = GpuScheduling
  import opened Fleet
  import opened Ownership
  import opened OwnershipReplace
  import opened Safety
  import opened Runs
  import opened Successors

  /** Apart from the leaked ones, the ports in use are exactly the disjoint union of what live containers hold. */
  ghost predicate ExactBut(used: set<string>, leaked: set<string>, cs: map<string, Container>) {
    leaked <= used && Exact(used - leaked, Held(P, cs))
  }

  /** The ports that an event draws for a container that never runs. */
  function LeakedBy(e: Event): set<string> {
    match e
    case Run(_, _, Ran(CreateFailed(bound))) => bound.Values
    case Run(_, _, Ran(StartFailed(bound, _))) => bound.Values
    case _ => {}
  }

  function LeakedAll(es: seq<Event>): set<string>
    decreases es
  {
    if es == [] then {} else LeakedBy(es[0]) + LeakedAll(es[1..])
  }

  lemma LeakMore(used: set<string>, leaked: set<string>, cs: map<string, Container>, more: set<string>)
    requires ExactBut(used, leaked, cs) && more !! used
    ensures ExactBut(used + more, leaked + more, cs)
  {
    assert (used + more) - (leaked + more) == used - leaked;
  }

  lemma ArriveBut(used: set<string>, leaked: set<string>, cs: map<string, Container>, k: string, c: Container)
    requires ExactBut(used, leaked, cs) && k !in cs && c.Live() && HostPorts(c.host) !! used
    ensures ExactBut(used + HostPorts(c.host), leaked, cs[k := c])
  {
    Arrive(P, used - leaked, cs, k, c);
    assert (used + HostPorts(c.host)) - leaked == (used - leaked) + HostPorts(c.host);
  }

  /** t has what cs has, apart from the live container k. */
  lemma DepartBut(used: set<string>, leaked: set<string>, cs: map<string, Container>, k: string,
                  t: map<string, Container>)
    requires ExactBut(used, leaked, cs) && k in cs && cs[k].Live() && Held(P, t) == Held(P, cs) - {k}
    ensures ExactBut(used - HostPorts(cs[k].host), leaked, t)
  {
    Depart(P, used - leaked, cs, k);
    assert Held(P, cs)[k] <= used - leaked;
    assert (used - HostPorts(cs[k].host)) - leaked == (used - leaked) - HostPorts(cs[k].host);
  }

  lemma LaunchLeaks(r: State, name: string, env: seq<string>, h: HostConfig, l: Launch, leaked: set<string>)
    requires CanLaunch(r, name, h, true, l) && ExactBut(r.ports.used, leaked, r.containers)
    ensures var u := Launching(r, name, env, h, true, l);
      ExactBut(u.ports.used, leaked + (if l.CreateFailed? || l.StartFailed? then l.bound.Values else {}), u.containers)
  {
    var u := Launching(r, name, env, h, true, l);
    if l.PortsExhausted? {
      assert leaked + {} == leaked;
    } else {
      BoundPorts(r.ports, h, l.bound);
      if l.Launched? {
        assert leaked + {} == leaked;
        var n := NewContainer(r, name, env, h, Running, l.bound);
        ArriveBut(r.ports.used, leaked, r.containers, Upcoming(r, name), n);
      } else {
        LeakMore(r.ports.used, leaked, r.containers, l.bound.Values);
        var n := NotLaunchedState(r, name, env, h, true, l);
        if u.containers != r.containers {
          Idle(P, r.containers, Upcoming(r, name), n);
        }
      }
    }
  }

  lemma RunLeaks(s: State, spec: RunSpec, gpus: seq<string>, ran: RunHow, leaked: set<string>)
    requires ExactBut(s.ports.used, leaked, s.containers) && RunEnabled(s, spec, gpus, ran)
    ensures var t := RunNext(s, spec, gpus, ran);
      ExactBut(t.ports.used, leaked + LeakedBy(Run(spec, gpus, ran)), t.containers)
  {
    if ran.Ran? {
      var r, h := AfterApply(s, spec, gpus), RunHost(s, spec, gpus);
      LaunchSame(s, r, spec.name, h, true, ran.launch);
      RanFacts(s, spec, gpus, ran.launch);
      RanPorts(s, spec, gpus, ran.launch);
      LaunchLeaks(r, spec.name, spec.env, h, ran.launch, leaked);
    } else {
      assert leaked + {} == leaked;
    }
  }

  lemma RanPorts(s: State, spec: RunSpec, gpus: seq<string>, l: Launch)
    ensures RunNext(s, spec, gpus, Ran(l)).ports ==
      Launching(AfterApply(s, spec, gpus), spec.name, spec.env, RunHost(s, spec, gpus), true, l).ports
  {
  }

  lemma StatusLeaks(s: State, k: string, status: Status, leaked: set<string>)
    requires ExactBut(s.ports.used, leaked, s.containers) && k in s.containers && s.containers[k].Live()
    requires status.Running? || status.Paused?
    ensures ExactBut(s.ports.used, leaked, SetStatus(s, k, status).containers)
  {
    HeldSame(P, s.containers, k, s.containers[k].(status := status));
  }

  lemma StopLeaks(s: State, k: string, leaked: set<string>)
    requires Owned(s) && ExactBut(s.ports.used, leaked, s.containers) && k in s.containers && s.containers[k].Live()
    ensures var t := StopNext(s, k, true); ExactBut(t.ports.used, leaked, t.containers)
  {
    StopState(s, k, true);
    PortsBackUsed(s.ports, s.containers[k].host);
    var c := s.containers[k].(status := Exited);
    HeldStop(P, s.containers, k, c);
    DepartBut(s.ports.used, leaked, s.containers, k, s.containers[k := c]);
  }

  lemma DeletePorts(s: State, name: string)
    requires Owned(s) && LiveNow(s, name)
    ensures var k, t := Current(s, name), DeleteNext(s, name, Deleted(true));
      t.containers == s.containers - {k} && t.ports.used == s.ports.used - HostPorts(s.containers[k].host)
  {
    assert ShapedHost(s, s.containers[Current(s, name)].host);
    PortsBackUsed(s.ports, s.containers[Current(s, name)].host);
  }

  lemma DeleteLeaks(s: State, name: string, leaked: set<string>)
    requires Owned(s) && ExactBut(s.ports.used, leaked, s.containers) && LiveNow(s, name)
    ensures var t := DeleteNext(s, name, Deleted(true)); ExactBut(t.ports.used, leaked, t.containers)
  {
    var k := Current(s, name);
    DeletePorts(s, name);
    HeldDrop(P, s.containers, k);
    DepartBut(s.ports.used, leaked, s.containers, k, s.containers - {k});
  }

  /** Deleting a container that is not live, or none, gives no port back. */
  lemma DeleteIdle(s: State, name: string, deleted: DeleteHow, leaked: set<string>)
    requires ExactBut(s.ports.used, leaked, s.containers) && !LiveNow(s, name)
    ensures var t := DeleteNext(s, name, deleted); ExactBut(t.ports.used, leaked, t.containers)
  {
    HeldDrop(P, s.containers, Current(s, name));
  }

  lemma SwapLeaks(s: State, t: State, k: string, up: string, n: Container, h: HostConfig, bound: map<string, string>,
                  leaked: set<string>)
    requires Owned(s) && ExactBut(s.ports.used, leaked, s.containers) && Succeeded(s, t, k, up, n, h, bound)
    ensures ExactBut(t.ports.used, leaked, t.containers)
  {
    BoundPorts(s.ports, h, bound);
    HandedBack(s, k, h, bound);
    ArriveBut(s.ports.used, leaked, s.containers, up, n);
    HeldDrop(P, s.containers[up := n], k);
    DepartBut(s.ports.used + HostPorts(n.host), leaked, s.containers[up := n], k, t.containers);
  }

  lemma StepLeaks(s: State, e: Event, leaked: set<string>)
    requires Tended(s) && Enabled(s, e) && Plain(s, e)
    requires ExactBut(s.ports.used, leaked, s.containers)
    ensures ExactBut(Next(s, e).ports.used, leaked + LeakedBy(e), Next(s, e).containers)
  {
    assert !e.Run? ==> leaked + LeakedBy(e) == leaked;
    match e
    case Run(spec, gpus, ran) => RunLeaks(s, spec, gpus, ran, leaked);
    case Pause(name, ok) =>
      if ok {
        StatusLeaks(s, Current(s, name), Paused, leaked);
      }
    case Continue(name, ok) =>
      if ok {
        StatusLeaks(s, Current(s, name), Running, leaked);
      }
    case Stop(name, _) => StopLeaks(s, Current(s, name), leaked);
    case Delete(name, deleted) =>
      if LiveNow(s, name) {
        DeleteLeaks(s, name, leaked);
      } else {
        DeleteIdle(s, name, deleted, leaked);
      }
    case Replace(name, req, gpus, how) => ReplaceLeaks(s, name, req, gpus, how.bound, leaked);
    case Rollback(name, version, memory, gpus, how) =>
      if Rollable(s, name, version) {
        RollbackLeaks(s, name, version, memory, gpus, how.bound, leaked);
      }
    case Sync(_) =>
  }

  lemma ReplaceLeaks(s: State, name: string, req: Request, gpus: seq<string>, bound: map<string, string>,
                     leaked: set<string>)
    requires Owned(s) && Tracked(s) && Quiet(s.queue, name) && LiveNow(s, name)
    requires ReplaceEnabled(s, name, req, gpus, Replaced(bound)) && ExactBut(s.ports.used, leaked, s.containers)
    ensures var t := ReplaceNext(s, name, req, gpus, Replaced(bound)); ExactBut(t.ports.used, leaked, t.containers)
  {
    TrackedRecorded(s, name);
    if Replaceable(s, name) {
      var t, h, n := ReplacedSucceeds(s, name, req, gpus, bound);
      SwapLeaks(s, t, Current(s, name), Upcoming(s, name), n, h, bound, leaked);
    }
  }

  lemma RollbackLeaks(s: State, name: string, version: int, memory: Size, gpus: seq<string>,
                      bound: map<string, string>, leaked: set<string>)
    requires Returning(s, name, version, memory, gpus, Replaced(bound)) && LiveNow(s, name)
    requires ExactBut(s.ports.used, leaked, s.containers)
    ensures var t := RollbackNext(s, name, version, memory, gpus, Replaced(bound));
      ExactBut(t.ports.used, leaked, t.containers)
  {
    BackFacts(s, name, version, memory, gpus, Replaced(bound));
    BackLaunch(s, name, version, memory, gpus, Replaced(bound));
    var k, h := Current(s, name), BackHost(s, name, version, memory, gpus);
    var r := Settled(s, s.containers[k], BackRequest(s, name, version, memory), gpus);
    var env := TargetInfo(s, name, version).env;
    var t := FinishedSucceeds(s, r, name, k, env, h, bound);
    SwapLeaks(s, t, k, Upcoming(s, name), NewContainer(r, name, env, h, Running, bound), h, bound, leaked);
  }

  /**
    Over any plain run the ports in use are those of live containers and those leaked by its failed creates and
    starts, and nothing else.
   */
  lemma {:induction false} RunPorts(s: State, es: seq<Event>, leaked: set<string>)
    requires Tended(s) && PlainRun(s, es) && ExactBut(s.ports.used, leaked, s.containers)
    ensures ExactBut(RunAll(s, es).ports.used, leaked + LeakedAll(es), RunAll(s, es).containers)
    decreases es
  {
    if es == [] {
      assert leaked + {} == leaked;
    } else {
      var e, rest := es[0], es[1..];
      StepLeaks(s, e, leaked);
      PlainStep(s, e);
      RunPorts(Next(s, e), rest, leaked + LeakedBy(e));
      assert (leaked + LeakedBy(e)) + LeakedAll(rest) == leaked + LeakedAll(es);
    }
  }

  /** Marked, and held by nobody. */
  ghost predicate Lost(s: State, u: string) {
    u in s.ports.used && forall k :: k in Held(P, s.containers) ==> u !in Held(P, s.containers)[k]
  }

  lemma LostIsLeaked(t: State, leaked: set<string>)
    requires ExactBut(t.ports.used, leaked, t.containers)
    ensures forall u :: u in t.ports.used ==> (Lost(t, u) <==> u in leaked)
    ensures Exact(t.ports.used, Held(P, t.containers)) <==> leaked == {}
  {
    var held := Held(P, t.containers);
    forall u | u in t.ports.used
      ensures Lost(t, u) <==> u in leaked
    {
      if u in leaked {
        forall k | k in held
          ensures u !in held[k]
        {
          assert held[k] <= t.ports.used - leaked;
        }
      } else {
        assert u in t.ports.used - leaked;
        var k :| k in held && u in held[k];
      }
    }
    if leaked == {} {
      assert t.ports.used - leaked == t.ports.used;
    } else {
      var u :| u in leaked;
      assert Lost(t, u);
    }
  }

  /**
    From a fresh machine on, a marked port is lost exactly when a failed launch has drawn it; so the marked ports
    are exactly the held ones if and only if no launch with ports has failed.
   */
  lemma PortsExactIff(gpus: seq<Gpus.Gpu>, cpus: nat, start: nat, end: int, es: seq<Event>)
    requires |gpus| == |Gpus.Ids(gpus)| && start <= end && PlainRun(Fresh(gpus, cpus, start, end), es)
    ensures var t := RunAll(Fresh(gpus, cpus, start, end), es);
      && LeakedAll(es) <= t.ports.used
      && (forall u :: u in t.ports.used ==> (Lost(t, u) <==> u in LeakedAll(es)))
      && (Exact(t.ports.used, Held(P, t.containers)) <==> LeakedAll(es) == {})
  {
    var s := Fresh(gpus, cpus, start, end);
    FreshOwned(gpus, cpus, start, end);
    assert {} - {} == s.ports.used - {} == {};
    RunPorts(s, es, {});
    assert {} + LeakedAll(es) == LeakedAll(es);
    LostIsLeaked(RunAll(s, es), LeakedAll(es));
  }
}
