/** The CONTAINER_VERSION entry through any number of replacements. */
module Environment {
  import opened Text
  import opened Sizes
  import opened Mvcc
  import opened Fleet
  import opened Safety

  /** The version entries of an environment, and all the others, in order. */
  function Entries(env: seq<string>): seq<string> {
    if env == [] then [] else (if IsVersionEntry(env[0]) then [env[0]] else []) + Entries(env[1..])
  }

  function Others(env: seq<string>): seq<string> {
    if env == [] then [] else (if IsVersionEntry(env[0]) then [] else [env[0]]) + Others(env[1..])
  }

  /** Only the first version entry changes; without one, one is added. */
  lemma {:induction false} RewriteParts(env: seq<string>, version: nat)
    ensures Others(RewriteEnv(env, version)) == Others(env)
    ensures Entries(RewriteEnv(env, version)) ==
      [VersionEntry(version)] + if Entries(env) == [] then [] else Entries(env)[1..]
  {
    if env != [] {
      var rest := env[1..];
      if IsVersionEntry(env[0]) {
        assert RewriteEnv(env, version)[1..] == rest;
      } else {
        RewriteParts(rest, version);
        assert RewriteEnv(env, version)[1..] == RewriteEnv(rest, version);
      }
    }
  }

  /** The last rewriting wins. */
  lemma {:induction false} RewriteAbsorbs(env: seq<string>, v: nat, w: nat)
    ensures RewriteEnv(RewriteEnv(env, v), w) == RewriteEnv(env, w)
  {
    if env != [] {
      if IsVersionEntry(env[0]) {
        assert RewriteEnv(env, v)[1..] == env[1..];
      } else {
        RewriteAbsorbs(env[1..], v, w);
        assert RewriteEnv(env, v)[1..] == RewriteEnv(env[1..], v);
      }
    }
  }

  function RewriteAll(env: seq<string>, versions: seq<nat>): seq<string>
    decreases versions
  {
    if versions == [] then env else RewriteAll(RewriteEnv(env, versions[0]), versions[1..])
  }

  /** A chain of replacements leaves what its last member alone would have left. */
  lemma {:induction false} ChainIsLast(env: seq<string>, versions: seq<nat>)
    requires versions != []
    ensures RewriteAll(env, versions) == RewriteEnv(env, versions[|versions| - 1])
    decreases versions
  {
    if |versions| > 1 {
      ChainIsLast(RewriteEnv(env, versions[0]), versions[1..]);
      RewriteAbsorbs(env, versions[0], versions[|versions| - 1]);
    }
  }

  // Over whole runs ---------------------------------------------------------------------------------------

  /** Exactly one entry, and it names this version. */
  predicate Names(env: seq<string>, version: nat) {
    Entries(env) == [VersionEntry(version)]
  }

  ghost predicate NamesOwn(key: string, env: seq<string>) {
    exists name, version :: key == VersionedName(name, version) && Names(env, version)
  }

  /** Stored, or on its way. */
  predicate OnRecord(s: State, op: Item) {
    op in s.log || op in s.queue
  }

  /** Every container's environment names the version in the container's own name, and so does every record. */
  ghost predicate Named(s: State) {
    && (forall k :: k in s.containers ==> NamesOwn(k, s.containers[k].env))
    && forall op :: OnRecord(s, op) && op.Put? ==> Names(op.value.body.env, op.value.version)
  }

  lemma {:induction false} StoredWasPut(log: seq<Item>, key: string, rev: nat)
    requires rev <= |log| && At(log, key, rev).Some?
    ensures Put(key, At(log, key, rev).value.value) in log
  {
    if log[rev - 1] != Put(key, At(log, key, rev).value.value) {
      StoredWasPut(log, key, rev - 1);
    }
  }

  lemma LaunchNamed(s: State, r: State, t: State, name: string, env: seq<string>, h: HostConfig, start: bool, l: Launch)
    requires Named(s) && |Entries(env)| <= 1 && r.versions == s.versions && r.containers == s.containers
    requires t.containers == Launching(r, name, env, h, start, l).containers
    ensures forall k :: k in t.containers ==> NamesOwn(k, t.containers[k].env)
    ensures Names(RewriteEnv(env, Number(r, name)), Number(r, name))
  {
    var up, n := Upcoming(r, name), RewriteEnv(env, Number(r, name));
    RewriteNames(name, env, Number(r, name));
    LaunchAdds(r, name, env, h, start, l);
    forall k | k in t.containers
      ensures NamesOwn(k, t.containers[k].env)
    {
      if !(k == up && t.containers[k].env == n) {
        assert NamesOwn(k, s.containers[k].env);
      }
    }
  }

  lemma RewriteNames(name: string, env: seq<string>, version: nat)
    requires |Entries(env)| <= 1
    ensures Names(RewriteEnv(env, version), version) && NamesOwn(VersionedName(name, version), RewriteEnv(env, version))
  {
  }

  /** A launch adds at most the one container. */
  lemma LaunchAdds(r: State, name: string, env: seq<string>, h: HostConfig, start: bool, l: Launch)
    ensures var u := Launching(r, name, env, h, start, l);
      forall k :: k in u.containers ==>
        (k in r.containers && u.containers[k] == r.containers[k]) ||
        (k == Upcoming(r, name) && u.containers[k].env == RewriteEnv(env, Number(r, name)))
  {
  }

  lemma FinishNamed(s: State, r: State, name: string, key: string, c: Container, env: seq<string>, h: HostConfig,
                    how: ReplaceHow)
    requires Named(s) && |Entries(env)| <= 1 && r == s.(gpu := r.gpu, cpu := r.cpu)
    requires how.Stalled? || how.NotStarted? || how.NotRemoved? || how.Replaced?
    ensures Named(Finish(r, name, key, c, env, h, how))
  {
    var t, start := Finish(r, name, key, c, env, h, how), how.NotRemoved? || how.Replaced?;
    var u := Launching(r, name, env, h, start, Launched(how.bound));
    LaunchNamed(s, r, u, name, env, h, start, Launched(how.bound));
    FinishFacts(r, name, key, c, env, h, how);
    assert forall op :: OnRecord(t, op) ==> OnRecord(s, op) || op == RecordOf(r, name, env, h, how.bound);
  }

  lemma RunNamed(s: State, spec: RunSpec, gpus: seq<string>, ran: RunHow)
    requires Named(s) && |Entries(spec.env)| <= 1
    ensures Named(RunNext(s, spec, gpus, ran))
  {
    if ran.Ran? {
      var r, h, t := AfterApply(s, spec, gpus), RunHost(s, spec, gpus), RunNext(s, spec, gpus, ran);
      RanFacts(s, spec, gpus, ran.launch);
      LaunchNamed(s, r, t, spec.name, spec.env, h, true, ran.launch);
      if ran.launch.Launched? {
        var last := RecordOf(r, spec.name, spec.env, h, ran.launch.bound);
        assert forall op :: OnRecord(t, op) ==> OnRecord(s, op) || op == last;
      } else {
        assert forall op :: OnRecord(t, op) ==> OnRecord(s, op);
      }
    }
  }

  lemma StoredNamed(s: State, name: string)
    requires Named(s) && Replaceable(s, name)
    ensures |Entries(Stored(s, name).env)| == 1
  {
    StoredWasPut(s.log, name, |s.log|);
    assert OnRecord(s, Put(name, Latest(s.log, name).value.value));
  }

  /** Restart and Patch that end before runContainer touch the pools only. */
  lemma EarlyNamed(s: State, name: string, req: Request, gpus: seq<string>, how: ReplaceHow)
    requires Named(s) && (how.Refused? || how.NoGpus? || how.NoCpus? || how.NoMemory?)
    ensures Named(ReplaceNext(s, name, req, gpus, how))
  {
  }

  /** The launch itself sends no record. */
  lemma LaunchQuiet(r: State, name: string, env: seq<string>, h: HostConfig, start: bool, l: Launch)
    ensures var u := Launching(r, name, env, h, start, l); u.log == r.log && u.queue == r.queue
  {
  }

  lemma NotLaunchedNamed(s: State, name: string, req: Request, gpus: seq<string>, l: Launch)
    requires Named(s) && Replaceable(s, name)
    ensures Named(ReplaceNext(s, name, req, gpus, NotLaunched(l)))
  {
    var c, info := s.containers[Current(s, name)], Stored(s, name);
    var r, h := Settled(s, c, req, gpus), NewHost(s, c, req, info.host, gpus);
    var t := ReplaceNext(s, name, req, gpus, NotLaunched(l));
    StoredNamed(s, name);
    NotLaunchedFacts(s, name, req, gpus, l);
    LaunchNamed(s, r, t, name, info.env, h, false, l);
    LaunchQuiet(r, name, info.env, h, false, l);
    assert t.log == s.log && t.queue == s.queue;
    assert forall op :: OnRecord(t, op) ==> OnRecord(s, op);
  }

  lemma LateNamed(s: State, name: string, req: Request, gpus: seq<string>, how: ReplaceHow)
    requires Named(s) && Replaceable(s, name)
    requires how.Stalled? || how.NotStarted? || how.NotRemoved? || how.Replaced?
    ensures Named(ReplaceNext(s, name, req, gpus, how))
  {
    var key := Current(s, name);
    var c, info := s.containers[key], Stored(s, name);
    StoredNamed(s, name);
    FinishNamed(s, Settled(s, c, req, gpus), name, key, c, info.env, NewHost(s, c, req, info.host, gpus), how);
  }

  lemma ReplaceNamed(s: State, name: string, req: Request, gpus: seq<string>, how: ReplaceHow)
    requires Named(s)
    ensures Named(ReplaceNext(s, name, req, gpus, how))
  {
    if how.Refused? || how.NoGpus? || how.NoCpus? || how.NoMemory? {
      EarlyNamed(s, name, req, gpus, how);
    } else if Replaceable(s, name) && how.NotLaunched? {
      NotLaunchedNamed(s, name, req, gpus, how.launch);
    } else if Replaceable(s, name) {
      LateNamed(s, name, req, gpus, how);
    }
  }

  /** What GetRevision finds has been put. */
  lemma RevisionWasPut(log: seq<Item>, key: string, version: int)
    requires Revision(log, key, version).Some?
    ensures Put(key, Revision(log, key, version).value) in log
  {
    var h := History(log, key, |log|);
    var e := h[|h| - version];
    HistorySound(log, key, |log|);
    assert e in h && Records(log, key, |log|, e);
    assert log[e.revision - 1] == Put(key, e.value);
  }

  lemma TargetNamed(s: State, name: string, version: int)
    requires Named(s) && Rollable(s, name, version)
    ensures |Entries(TargetInfo(s, name, version).env)| == 1
  {
    RevisionWasPut(s.log, name, version);
    assert OnRecord(s, Put(name, Revision(s.log, name, version).value));
  }

  /** A launch that sends nothing. */
  lemma LaunchedNamed(s: State, r: State, name: string, env: seq<string>, h: HostConfig, start: bool, l: Launch)
    requires Named(s) && |Entries(env)| <= 1 && r == s.(gpu := r.gpu, cpu := r.cpu)
    ensures Named(Launching(r, name, env, h, start, l))
  {
    var t := Launching(r, name, env, h, start, l);
    LaunchNamed(s, r, t, name, env, h, start, l);
    LaunchQuiet(r, name, env, h, start, l);
    assert forall op :: OnRecord(t, op) ==> OnRecord(s, op);
  }

  /** A rollback writes the new number over the one in the older record's environment. */
  lemma RollbackNamed(s: State, name: string, version: int, memory: Size, gpus: seq<string>, how: ReplaceHow)
    requires Named(s)
    ensures Named(RollbackNext(s, name, version, memory, gpus, how))
  {
    if Rollable(s, name, version) {
      if how.NotLaunched? || how.Stalled? {
        BackLaunchNamed(s, name, version, memory, gpus, how);
      } else if how.NotStarted? || how.NotRemoved? || how.Replaced? {
        BackFinishNamed(s, name, version, memory, gpus, how);
      } else {
        BackEarlyNamed(s, name, version, memory, gpus, how);
      }
    }
  }

  lemma BackEarlyNamed(s: State, name: string, version: int, memory: Size, gpus: seq<string>, how: ReplaceHow)
    requires Named(s) && Rollable(s, name, version)
    requires how.Refused? || how.NoGpus? || how.NoCpus? || how.NoMemory?
    ensures Named(RollbackNext(s, name, version, memory, gpus, how))
  {
  }

  lemma BackLaunchNamed(s: State, name: string, version: int, memory: Size, gpus: seq<string>, how: ReplaceHow)
    requires Named(s) && Rollable(s, name, version) && (how.NotLaunched? || how.Stalled?)
    ensures Named(RollbackNext(s, name, version, memory, gpus, how))
  {
    var r := Settled(s, s.containers[Current(s, name)], BackRequest(s, name, version, memory), gpus);
    var env, h := TargetInfo(s, name, version).env, BackHost(s, name, version, memory, gpus);
    TargetNamed(s, name, version);
    RollbackState(s, name, version, memory, gpus, how);
    LaunchedNamed(s, r, name, env, h, true, if how.NotLaunched? then how.launch else Launched(how.bound));
  }

  lemma BackFinishNamed(s: State, name: string, version: int, memory: Size, gpus: seq<string>, how: ReplaceHow)
    requires Named(s) && Rollable(s, name, version) && (how.NotStarted? || how.NotRemoved? || how.Replaced?)
    ensures Named(RollbackNext(s, name, version, memory, gpus, how))
  {
    var key := Current(s, name);
    var c, h := s.containers[key], BackHost(s, name, version, memory, gpus);
    TargetNamed(s, name, version);
    RollbackState(s, name, version, memory, gpus, how);
    FinishNamed(s, Settled(s, c, BackRequest(s, name, version, memory), gpus), name, key, c,
                TargetInfo(s, name, version).env, h, how);
  }

  lemma SameEnvs(s: State, t: State)
    requires Named(s) && forall op :: OnRecord(t, op) && op.Put? ==> OnRecord(s, op)
    requires forall k :: k in t.containers ==> k in s.containers && t.containers[k].env == s.containers[k].env
    ensures Named(t)
  {
  }

  lemma DeleteNamed(s: State, name: string, deleted: DeleteHow)
    requires Named(s)
    ensures Named(DeleteNext(s, name, deleted))
  {
    var t := DeleteNext(s, name, deleted);
    assert forall op :: OnRecord(t, op) && op.Put? ==> OnRecord(s, op);
    SameEnvs(s, t);
  }

  /** No other event writes an environment. */
  lemma OthersNamed(s: State, e: Event)
    requires Named(s) && !e.Run? && !e.Replace? && !e.Rollback?
    ensures Named(Next(s, e))
  {
    if e.Delete? {
      DeleteNamed(s, e.name, e.deleted);
    } else {
      OthersSame(s, e);
      SameEnvs(s, Next(s, e));
    }
  }

  lemma OthersSame(s: State, e: Event)
    requires !e.Run? && !e.Replace? && !e.Rollback? && !e.Delete?
    ensures var t := Next(s, e);
      && (forall op :: OnRecord(t, op) ==> OnRecord(s, op))
      && forall k :: k in t.containers ==> k in s.containers && t.containers[k].env == s.containers[k].env
  {
    var t := Next(s, e);
    if e.Sync? {
      forall op | OnRecord(t, op)
        ensures OnRecord(s, op)
      {
        LandedKnown(s, e.i, op);
      }
    }
  }

  /** Landing adds nothing that was not on its way. */
  lemma LandedKnown(s: State, i: nat, op: Item)
    requires OnRecord(Next(s, Sync(i)), op)
    ensures OnRecord(s, op)
  {
  }

  predicate Sparse(e: Event) {
    e.Run? ==> |Entries(e.spec.env)| <= 1
  }

  /**
    If no run is asked for with two version entries, every container and every record has exactly one for ever,
    and it is the container's own version.
   */
  lemma {:induction false} RunAlwaysNamed(s: State, es: seq<Event>)
    requires Named(s) && forall e :: e in es ==> Sparse(e)
    ensures Named(RunAll(s, es))
    decreases es
  {
    if es != [] {
      var e := es[0];
      assert Sparse(e);
      match e {
        case Run(spec, gpus, ran) => RunNamed(s, spec, gpus, ran);
        case Replace(name, req, gpus, how) => ReplaceNamed(s, name, req, gpus, how);
        case Rollback(name, version, memory, gpus, how) => RollbackNamed(s, name, version, memory, gpus, how);
        case _ => OthersNamed(s, e);
      }
      RunAlwaysNamed(Next(s, e), es[1..]);
    }
  }
}
