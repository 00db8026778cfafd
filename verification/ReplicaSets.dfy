/**
  internal/services/replicaset.go and replicaset_nomock.go: the service itself, step by step on the schedulers,
  the version map, Docker, the queue and the store. Every request is one event of the fleet.
 */
module ReplicaSets {
  import opened Prelude
  import opened Fleet

  /** Docker, as far as containers go. Calls that change something may fail; inspecting fails for a missing one. */
  class ContainerHost {
    var containers: map<string, Container>

    constructor ()
      ensures containers == map[]
    {
      containers := map[];
    }

    method ContainerCreate(name: string, env: seq<string>, host: HostConfig) returns (ok: bool)
      modifies this
      ensures ok ==> name !in old(containers)
      ensures containers == if ok then old(containers)[name := Container(Created, env, host)] else old(containers)
    {
      ok := *;
      ok := ok && name !in containers;
      if ok {
        containers := containers[name := Container(Created, env, host)];
      }
    }

    method ContainerStart(name: string) returns (ok: bool)
      modifies this
      ensures ok ==> name in old(containers)
      ensures containers ==
        if ok then old(containers)[name := old(containers)[name].(status := Running)] else old(containers)
    {
      ok := *;
      ok := ok && name in containers;
      if ok {
        containers := containers[name := containers[name].(status := Running)];
      }
    }

    /** Stopping what is not live succeeds and changes nothing. */
    method ContainerStop(name: string) returns (ok: bool)
      modifies this
      ensures ok ==> name in old(containers)
      ensures containers ==
        if ok && old(containers)[name].Live() then old(containers)[name := old(containers)[name].(status := Exited)]
        else old(containers)
    {
      ok := *;
      ok := ok && name in containers;
      if ok && containers[name].Live() {
        containers := containers[name := containers[name].(status := Exited)];
      }
    }

    method ContainerPause(name: string) returns (ok: bool)
      modifies this
      ensures ok ==> name in old(containers) && old(containers)[name].status.Running?
      ensures containers ==
        if ok then old(containers)[name := old(containers)[name].(status := Paused)] else old(containers)
    {
      ok := *;
      ok := ok && name in containers && containers[name].status.Running?;
      if ok {
        containers := containers[name := containers[name].(status := Paused)];
      }
    }

    method ContainerRestart(name: string) returns (ok: bool)
      modifies this
      ensures ok ==> name in old(containers)
      ensures containers ==
        if ok then old(containers)[name := old(containers)[name].(status := Running)] else old(containers)
    {
      ok := ContainerStart(name);
    }

    method ContainerRemove(name: string) returns (ok: bool)
      modifies this
      ensures ok ==> name in old(containers)
      ensures containers == if ok then old(containers) - {name} else old(containers)
    {
      ok := *;
      ok := ok && name in containers;
      if ok {
        containers := containers - {name};
      }
    }

    method ContainerInspect(name: string) returns (c: Option<Container>)
      ensures c == if name in containers then Some(containers[name]) else None
    {
      c := if name in containers then Some(containers[name]) else None;
    }

    /** Lists live containers only. */
    method ContainerList(prefix: string) returns (found: bool)
      ensures found ==> exists key :: key in containers && containers[key].Live() && prefix <= key
    {
      found := *;
      found := found && exists key :: key in containers && containers[key].Live() && prefix <= key;
    }
  }

  /** The creation info of a container while a request works on it. */
  class ContainerInfo {
    var env: seq<string>
    var host: HostConfig

    constructor (env: seq<string>, host: HostConfig)
      ensures this.env == env && this.host == host
    {
      this.env := env;
      this.host := host;
    }

    /** The loop over Config.Env in runContainer. */
    method setVersion(version: nat)
      modifies this`env
      ensures env == RewriteEnv(old(env), version)
    {
      var isExist := false;
      ghost var was := env;
      assert was[0..] == was;
      var i := 0;
      while i < |env|
        invariant 0 <= i <= |env| && env == was
        invariant RewriteEnv(was, version) == was[..i] + RewriteEnv(was[i..], version)
      {
        if VERSION_PREFIX <= env[i] {
          isExist := true;
          env := env[i := VersionEntry(version)];
          assert env == was[..i] + RewriteEnv(was[i..], version) by {
            assert was[i..][1..] == was[i + 1..];
          }
          break;
        }
        assert was[i..][1..] == was[i + 1..];
        assert was[..i] + [was[i]] == was[..i + 1];
        i := i + 1;
      }
      if !isExist {
        env := env + [VersionEntry(version)];
      }
    }

    /** The loop over PortBindings in runContainer: Go visits the keys of a map in any order. */
    method bindPorts(ports: seq<string>) returns (ghost bound: map<string, string>)
      requires |ports| == |host.portBindings| && NoDup(ports)
      modifies this`host
      ensures bound.Keys == old(host).portBindings.Keys && Injective(bound) && bound.Values == Elems(ports)
      ensures host == Bind(old(host), bound)
    {
      ghost var was := host.portBindings;
      assert |was| == |was.Keys|;
      bound := map[];
      var pending := host.portBindings.Keys;
      var index := 0;
      while pending != {}
        invariant pending <= was.Keys && index + |pending| == |ports|
        invariant host == old(host).(portBindings := host.portBindings) && host.portBindings.Keys == was.Keys
        invariant Assigned(was.Keys, pending, ports, index, bound, host.portBindings)
        decreases pending
      {
        var k :| k in pending;
        AssignOne(was.Keys, pending, ports, index, bound, host.portBindings, k);
        host := host.(portBindings := host.portBindings[k := [ports[index]]]);
        bound := bound[k := ports[index]];
        pending := pending - {k};
        index := index + 1;
      }
      AssignedAll(was.Keys, ports, index, bound, host.portBindings, old(host));
    }

    /** patchVolume. */
    method patchVolume(spec: Option<(string, string)>, ghost req: Request)
      requires req.Patch? && req.volume == spec
      modifies this`host
      ensures host == VolumeHost(req, old(host))
    {
      if spec.None? || spec.value.0 == spec.value.1 {
        return;
      }
      var oldBind, newBind := spec.value.0, spec.value.1;
      var i := 0;
      while i < |host.binds|
        invariant 0 <= i <= |host.binds| && host == old(host)
        invariant oldBind !in host.binds[..i]
      {
        if host.binds[i] == oldBind {
          RewriteBindsAt(host.binds, oldBind, newBind, i);
          host := host.(binds := host.binds[i := newBind]);
          return;
        }
        assert host.binds[..i + 1] == host.binds[..i] + [host.binds[i]];
        i := i + 1;
      }
      RewriteBindsAt(host.binds, oldBind, newBind, i);
    }
  }

  /** Part of the way through bindPorts. */
  ghost predicate Assigned(keys: set<string>, pending: set<string>, ports: seq<string>, index: nat,
                           bound: map<string, string>, bindings: map<string, seq<string>>) {
    && index <= |ports| && bound.Keys == keys - pending && Injective(bound) && bound.Values == Elems(ports[..index])
    && forall k :: k in bound ==> k in bindings && bindings[k] == [bound[k]]
  }

  lemma AssignedAll(keys: set<string>, ports: seq<string>, index: nat, bound: map<string, string>,
                    bindings: map<string, seq<string>>, h: HostConfig)
    requires Assigned(keys, {}, ports, index, bound, bindings) && index == |ports| && bindings.Keys == keys
    ensures bound.Keys == keys && bound.Values == Elems(ports) && h.(portBindings := bindings) == Bind(h, bound)
  {
  }

  /** The first bind that matches, if any, is the one rewritten. */
  lemma {:induction false} RewriteBindsAt(binds: seq<string>, from: string, to: string, i: nat)
    requires i <= |binds| && from !in binds[..i]
    ensures i < |binds| && binds[i] == from ==> RewriteBinds(binds, from, to) == binds[i := to]
    ensures i == |binds| ==> RewriteBinds(binds, from, to) == binds
    decreases i
  {
    if i > 0 {
      assert binds[0] in binds[..i];
      assert binds[1..][..i - 1] == binds[..i][1..];
      RewriteBindsAt(binds[1..], from, to, i - 1);
    }
  }

  lemma AssignOne(keys: set<string>, pending: set<string>, ports: seq<string>, index: nat,
                  bound: map<string, string>, bindings: map<string, seq<string>>, k: string)
    requires Assigned(keys, pending, ports, index, bound, bindings) && k in pending && pending <= keys
    requires NoDup(ports) && index < |ports|
    ensures Assigned(keys, pending - {k}, ports, index + 1, bound[k := ports[index]], bindings[k := [ports[index]]])
  {
    var p, after := ports[index], bound[k := ports[index]];
    assert ports[..index + 1] == ports[..index] + [p];
    AppendNew(ports[..index], p);
    assert p !in bound.Values by {
      assert forall i :: 0 <= i < index ==> ports[i] != p;
    }
    assert k !in bound;
    assert after.Values == bound.Values + {p} by {
      assert forall j :: j in bound ==> after[j] == bound[j];
      assert after[k] == p;
    }
    forall a, b | a in after && b in after && a != b
      ensures after[a] != after[b]
    {
      assert a != k ==> bound[a] in bound.Values;
      assert b != k ==> bound[b] in bound.Values;
    }
  }
}
