/** What a rollback brings back: of the record it goes to, of the memory, and when it is repeated. */
module Rollbacks {
  import opened Prelude
  import opened Text
  import opened Sizes
  import opened Mvcc
  import opened Versions
  import opened Landing
  import opened Books
  import Cpus = CpuScheduling
  import opened Fleet
  import opened OwnershipReplace
  import opened Safety
  import opened Numbering
  import opened Environment
  import opened Successors

  // The record sent ---------------------------------------------------------------------------------------

  /** The record of a completed rollback. */
  function BackRecord(s: State, name: string, version: int, memory: Size, gpus: seq<string>,
                      bound: map<string, string>): Record
    requires Rollable(s, name, version)
  {
    Versioned(Number(s, name),
              Info(Upcoming(s, name), RewriteEnv(TargetInfo(s, name, version).env, Number(s, name)),
                   Bind(BackHost(s, name, version, memory, gpus), bound)))
  }

  lemma BackSent(s: State, name: string, version: int, memory: Size, gpus: seq<string>, bound: map<string, string>)
    requires Rollable(s, name, version)
    ensures var t, r := RollbackNext(s, name, version, memory, gpus, Replaced(bound)),
                        BackRecord(s, name, version, memory, gpus, bound);
      && t.versions == Bump(s.versions, name) && t.log == s.log && t.queue == s.queue + [Put(name, r)]
      && (Upcoming(s, name) != Current(s, name) ==>
           Upcoming(s, name) in t.containers &&
           t.containers[Upcoming(s, name)] == Container(Running, r.body.env, r.body.host))
  {
    var c := s.containers[Current(s, name)];
    var r, env := Settled(s, c, BackRequest(s, name, version, memory), gpus), TargetInfo(s, name, version).env;
    RollbackState(s, name, version, memory, gpus, Replaced(bound));
    FinishSent(s, r, name, c, env, BackHost(s, name, version, memory, gpus), bound);
  }

  lemma FinishSent(s: State, r: State, name: string, c: Container, env: seq<string>, h: HostConfig,
                   bound: map<string, string>)
    requires r == s.(gpu := r.gpu, cpu := r.cpu)
    ensures var t := Finish(r, name, Current(s, name), c, env, h, Replaced(bound));
      var x := Versioned(Number(s, name), Info(Upcoming(s, name), RewriteEnv(env, Number(s, name)), Bind(h, bound)));
      && t.versions == Bump(s.versions, name) && t.log == s.log && t.queue == s.queue + [Put(name, x)]
      && (Upcoming(s, name) != Current(s, name) ==>
           Upcoming(s, name) in t.containers &&
           t.containers[Upcoming(s, name)] == Container(Running, x.body.env, x.body.host))
  {
    FinishedState(r, name, Current(s, name), c, env, h, bound);
    assert Upcoming(r, name) == Upcoming(s, name);
  }

  /** As many units as the record lists, and everything else that it says, apart from the memory. */
  ghost predicate Restores(x: HostConfig, h: HostConfig, wiped: bool) {
    && |DeviceIDs(h)| == |DeviceIDs(x)| && |CpuNames(h)| == (if wiped then 1 else |CpuNames(x)|)
    && h.binds == x.binds && h.portBindings.Keys == x.portBindings.Keys
  }

  /**
    A completed rollback sends the configuration of the record it goes back to, under the new number: as many GPUs
    and processors, unless giving up the GPUs has wiped the cpuset, the same binds and container ports, and the same
    environment up to the version entry.
   */
  lemma RollbackRestores(s: State, name: string, version: int, memory: Size, gpus: seq<string>,
                         bound: map<string, string>)
    requires Rollable(s, name, version) && RollbackEnabled(s, name, version, memory, gpus, Replaced(bound))
    ensures var r, x := BackRecord(s, name, version, memory, gpus, bound), TargetInfo(s, name, version);
      && RollbackNext(s, name, version, memory, gpus, Replaced(bound)).queue == s.queue + [Put(name, r)]
      && r.version == Number(s, name) && Others(r.body.env) == Others(x.env)
      && Restores(x.host, r.body.host,
                  GpuDropped(BackRequest(s, name, version, memory), s.containers[Current(s, name)]))
  {
    var c, x := s.containers[Current(s, name)], TargetInfo(s, name, version);
    var req := BackRequest(s, name, version, memory);
    BackSent(s, name, version, memory, gpus, bound);
    RewriteParts(x.env, Number(s, name));
    RestoredHost(s, c, req, x.host, gpus, bound);
  }

  lemma RestoredHost(s: State, c: Container, req: Request, x: HostConfig, gpus: seq<string>, bound: map<string, string>)
    requires req.Patch? && req.gpu == Some(|DeviceIDs(x)|) && req.volume == None && GpuGranted(s, c, req, gpus)
    requires req.cpu == Some(|CpuNames(GpuHost(c, GpuPatch(x), x, []))|) && bound.Keys == x.portBindings.Keys
    requires CpuKept(req, c) || Cpus.CanTake(CpuFreed(s, c), CpuTarget(req, c))
    ensures Restores(x, Bind(NewHost(s, c, req, x, gpus), bound), GpuDropped(req, c))
  {
    BackLimits(s, c, req, x, gpus);
    SplitPlain("", ",");
    if !CpuKept(req, c) {
      GrantedCpus(s, c, req, GpuHost(c, req, x, gpus));
    }
    assert Bind(NewHost(s, c, req, x, gpus), bound).portBindings.Keys == bound.Keys;
  }

  lemma BackLimits(s: State, c: Container, req: Request, x: HostConfig, gpus: seq<string>)
    requires req.Patch? && req.gpu == Some(|DeviceIDs(x)|) && req.volume == None && GpuGranted(s, c, req, gpus)
    ensures var h, mid := NewHost(s, c, req, x, gpus), LimitsHost(s, c, req, x, gpus);
      && |DeviceIDs(h)| == |DeviceIDs(x)| && h.cpusetCpus == mid.cpusetCpus
      && (CpuKept(req, c) ==> h.cpusetCpus == if GpuDropped(req, c) then "" else x.cpusetCpus)
      && h.binds == x.binds && h.portBindings == x.portBindings
  {
    SameClaims(s, c, req, x, gpus);
  }

  // Records are immutable ---------------------------------------------------------------------------------

  /** The deletion of the name is not among the events. */
  ghost predicate NeverForgotten(s: State, es: seq<Event>, name: string)
    decreases es
  {
    es != [] ==> EffectOf(s, es[0]) != Forgot(name, name) && NeverForgotten(Next(s, es[0]), es[1..], name)
  }

  /** The older records are still there, in their places from the end. */
  predicate Extends<T(==)>(now: seq<T>, was: seq<T>) {
    |was| <= |now| && now[|now| - |was|..] == was
  }

  lemma ExtendsAll<T>(c: seq<T>, b: seq<T>, a: seq<T>)
    requires Extends(c, b) && Extends(b, a)
    ensures Extends(c, a)
  {
    assert b == c[|c| - |b|..];
    assert c[|c| - |a|..] == b[|b| - |a|..];
  }

  lemma EffectExtends<T(!new)>(b: Book<T>, d: Book<T>, f: Effect, name: string)
    requires AtMostOne(b.queue, name) && Shows(b, d, f) && SendsQuietly(b, f, name)
    requires f.Forgot? ==> f.key != name
    ensures Extends(Writes(d, name), Writes(b, name))
  {
    match f
    case Same =>
    case Drawn(_) =>
    case Wrote(n) =>
      var body :| Sent(b, d, n, body);
      SendExpected(b.log, b.queue, Put(n, Versioned(VersionOf(b.versions, n) + 1, body)), name);
    case Forgot(_, key) => SendExpected(b.log, b.queue, Del(key), name);
    case Landed(i) => LandExpected(b.log, b.queue, i, name);
  }

  lemma {:induction false} RunExtends(s: State, es: seq<Event>, name: string)
    requires Orderly(BookOf(s)) && CountedAt(BookOf(s), name) && QuietRun(s, es, name) && NeverForgotten(s, es, name)
    ensures Extends(Writes(BookOf(RunAll(s, es)), name), Writes(BookOf(s), name))
    decreases es
  {
    if es != [] {
      var t := Next(s, es[0]);
      EventShows(s, es[0]);
      EventGap(s, es[0], name);
      ForgetsOwn(s, es[0]);
      EffectExtends(BookOf(s), BookOf(t), EffectOf(s, es[0]), name);
      RunExtends(t, es[1..], name);
      ExtendsAll(Writes(BookOf(RunAll(t, es[1..])), name), Writes(BookOf(t), name), Writes(BookOf(s), name));
    }
  }

  /** Of replica sets, an entry is forgotten together with its own key. */
  lemma ForgetsOwn(s: State, e: Event)
    ensures EffectOf(s, e).Forgot? ==> EffectOf(s, e).key == EffectOf(s, e).name
  {
  }

  /**
    A version that has been stored is found as the same record for as long as the replica set is not deleted,
    whatever is run, patched or rolled back meanwhile and whatever drifts.
   */
  lemma RecordStays(s: State, es: seq<Event>, name: string, version: int)
    requires Orderly(BookOf(s)) && CountedAt(BookOf(s), name) && QuietRun(s, es, name) && NeverForgotten(s, es, name)
    requires Quiet(s.queue, name) && Quiet(RunAll(s, es).queue, name) && Revision(s.log, name, version).Some?
    ensures Revision(RunAll(s, es).log, name, version) == Revision(s.log, name, version)
  {
    RunExtends(s, es, name);
    RevisionWrites(s, name, version);
    RevisionWrites(RunAll(s, es), name, version);
  }

  // Rolling back to a rollback ----------------------------------------------------------------------------

  /** The new record is the newest, and has the new number. */
  lemma BackWritten(s: State, name: string, version: int, memory: Size, gpus: seq<string>, bound: map<string, string>)
    requires Orderly(BookOf(s)) && CountedAt(BookOf(s), name) && Gap(BookOf(s), name) == 0 && Quiet(s.queue, name)
    requires Rollable(s, name, version) && RollbackEnabled(s, name, version, memory, gpus, Replaced(bound))
    ensures var b := BookOf(RollbackNext(s, name, version, memory, gpus, Replaced(bound)));
      && Orderly(b) && CountedAt(b, name) && Gap(b, name) == 0 && |Writes(b, name)| == Number(s, name)
      && Writes(b, name)[0] == BackRecord(s, name, version, memory, gpus, bound)
  {
    BackSent(s, name, version, memory, gpus, bound);
    EventGap(s, Rollback(name, version, memory, gpus, Replaced(bound)), name);
    SendExpected(s.log, s.queue, Put(name, BackRecord(s, name, version, memory, gpus, bound)), name);
  }

  /**
    A version that was itself made by a rollback to version v: however long afterwards, it is found with the record
    that this rollback sent, so going back to it means going back to v, environment included.
   */
  lemma RollbackOfRollback(s: State, name: string, version: int, memory: Size, gpus: seq<string>,
                           bound: map<string, string>, es: seq<Event>)
    requires Orderly(BookOf(s)) && CountedAt(BookOf(s), name) && Gap(BookOf(s), name) == 0 && Quiet(s.queue, name)
    requires Rollable(s, name, version) && RollbackEnabled(s, name, version, memory, gpus, Replaced(bound))
    requires var t := RollbackNext(s, name, version, memory, gpus, Replaced(bound));
      QuietRun(t, es, name) && NeverForgotten(t, es, name) && Quiet(RunAll(t, es).queue, name)
    ensures var u := RunAll(RollbackNext(s, name, version, memory, gpus, Replaced(bound)), es);
      var r, x := BackRecord(s, name, version, memory, gpus, bound), TargetInfo(s, name, version);
      && Revision(u.log, name, Number(s, name)) == Some(r)
      && (forall n: nat :: RewriteEnv(r.body.env, n) == RewriteEnv(x.env, n))
      && Restores(x.host, r.body.host,
                  GpuDropped(BackRequest(s, name, version, memory), s.containers[Current(s, name)]))
  {
    var t := RollbackNext(s, name, version, memory, gpus, Replaced(bound));
    BackWritten(s, name, version, memory, gpus, bound);
    RunExtends(t, es, name);
    RevisionWrites(RunAll(t, es), name, Number(s, name));
    RollbackRestores(s, name, version, memory, gpus, bound);
    forall n: nat
      ensures RewriteEnv(BackRecord(s, name, version, memory, gpus, bound).body.env, n) ==
        RewriteEnv(TargetInfo(s, name, version).env, n)
    {
      RewriteAbsorbs(TargetInfo(s, name, version).env, Number(s, name), n);
    }
  }

  // The memory --------------------------------------------------------------------------------------------

  /** What the printed memory reads as, for a limit of up to eight petabytes. */
  lemma PrintedMemory(parse: Parser, m: nat)
    requires ReadsDigits(parse) && (m / 0x10_0000) * 0x4000_0000 <= MAX_INT
    ensures ToBytes(parse, Gigabytes(m)) == Bytes((m / 0x10_0000) * 0x4000_0000)
  {
    assert (m / 0x10_0000) < TWO_53;
    ToBytesExact(parse, m / 0x10_0000, "GB");
  }

  /**
    Megabytes are printed as gigabytes. So a rollback brings back the memory limit of a whole number of megabytes
    exactly when that is no limit, or when the container has 1024 times as much at the moment.
   */
  lemma MemoryRestoredIff(parse: Parser, s: State, c: Container, h: HostConfig, gpus: seq<string>, megabytes: nat)
    requires ReadsDigits(parse) && h.memory == megabytes * 0x10_0000 && megabytes * 0x4000_0000 <= MAX_INT
    ensures var memory := ToBytes(parse, Gigabytes(h.memory));
      NewHost(s, c, AsPatch(c, h, memory), h, gpus).memory == h.memory <==>
      h.memory == 0 || c.host.memory == 1024 * h.memory
  {
    assert h.memory / 0x10_0000 == megabytes;
    PrintedMemory(parse, h.memory);
    SameMemory(s, c, AsPatch(c, h, ToBytes(parse, Gigabytes(h.memory))), h, gpus);
  }

  lemma SameMemory(s: State, c: Container, req: Request, h: HostConfig, gpus: seq<string>)
    requires req.Patch? && req.memory.Some? && req.memory.value.Bytes?
    ensures NewHost(s, c, req, h, gpus).memory ==
      if req.memory.value.n != c.host.memory then req.memory.value.n else h.memory
  {
  }
}
