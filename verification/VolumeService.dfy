/** internal/services/volume.go: the service itself, step by step on the shared version map, queue and store. */
module VolumeServices {
  import opened Prelude
  import opened Text
  import opened Sizes
  import opened Mvcc
  import opened Versions
  import opened Channels
  import opened Volumes

  /** Docker, as far as volumes go. Calls that change something may fail; inspecting fails for a missing volume. */
  class VolumeHost {
    var volumes: map<string, Volume>

    constructor ()
      ensures volumes == map[]
    {
      volumes := map[];
    }

    method VolumeCreate(name: string, size: Option<string>) returns (ok: bool)
      modifies this
      ensures volumes == if ok && name !in old(volumes) then old(volumes)[name := Volume(size, 0)] else old(volumes)
    {
      ok := *;
      if ok && name !in volumes {
        volumes := volumes[name := Volume(size, 0)];
      }
    }

    method VolumeRemove(name: string) returns (ok: bool)
      modifies this
      ensures ok ==> name in old(volumes)
      ensures volumes == if ok then old(volumes) - {name} else old(volumes)
    {
      ok := *;
      ok := ok && name in volumes;
      if ok {
        volumes := volumes - {name};
      }
    }

    method ListedAs(name: string) returns (found: bool)
      ensures found ==> exists key :: key in volumes && name + "-" <= key
    {
      found := *;
      found := found && exists key :: key in volumes && name + "-" <= key;
    }

    method CopyOldMountPoint(from: string, to: string) returns (ok: bool)
      modifies this
      ensures ok ==> from in old(volumes) && to in old(volumes)
      ensures volumes == if ok then Moved(old(volumes), from, to) else old(volumes)
    {
      ok := *;
      ok := ok && from in volumes && to in volumes;
      if ok {
        volumes := Moved(volumes, from, to);
      }
    }
  }

  class VolumeService {
    const versionMap: VersionMap
    const docker: VolumeHost
    const queue: Channel<Item>
    const etcd: Store<string, Record>
    const readers: Readers

    ghost function Abs(): State
      reads this, versionMap, docker, queue, etcd
    {
      State(versionMap.entries, docker.volumes, etcd.log, queue.items)
    }

    constructor (readers: Readers)
      ensures Abs() == EMPTY && this.readers == readers
      ensures fresh(versionMap) && fresh(docker) && fresh(queue) && fresh(etcd)
    {
      this.readers := readers;
      versionMap := new VersionMap();
      docker := new VolumeHost();
      queue := new Channel();
      etcd := new Store();
    }

    /** The router has rejected names with a dash. */
    method CreateVolume(name: string, size: string) returns (ok: bool, ghost made: CreateHow)
      requires '-' !in name
      modifies versionMap, docker, queue
      ensures Enabled(readers, old(Abs()), Create(name, size, made))
      ensures Abs() == Next(old(Abs()), Create(name, size, made))
      ensures ok == made.Done?
    {
      made := Exists;
      var exists_ := docker.ListedAs(name);
      if exists_ {
        return false, Exists;
      }
      var opt := if |size| != 0 then Some(size) else None;
      var kv;
      ok, kv := createVolume(name, opt);
      if !ok {
        return false, Failed;
      }
      queue.Send(kv);
      return true, Done;
    }

    method createVolume(name: string, size: Option<string>) returns (ok: bool, kv: Item)
      modifies versionMap, docker
      ensures Abs() == Made(old(Abs()), name, size, ok)
      ensures kv == RecordOf(old(Abs()), name, size)
    {
      var version, _ := versionMap.Get(name);
      version := version + 1;
      versionMap.Set(name, version);

      var opt := Options(VersionedName(name, version), size);
      ok := docker.VolumeCreate(opt.name, opt.size);
      if !ok {
        if version == 1 {
          versionMap.Remove(name);
        } else {
          versionMap.Set(name, version - 1);
        }
      }
      kv := Put(name, Versioned(version, opt));
    }

    method PatchVolumeSize(name: string, size: string) returns (verdict: Verdict, ok: bool, ghost how: ResizeHow)
      modifies versionMap, docker, queue
      ensures Enabled(readers, old(Abs()), Resize(name, size, how))
      ensures Abs() == Next(old(Abs()), Resize(name, size, how))
      ensures verdict == Admit(readers.parse, old(Abs()), name, size) && ok == how.Resized?
    {
      ok, how := false, Refused;
      var version, found := versionMap.Get(name);
      if !found {
        return NoEntry, false, Refused;
      }
      var volVersionName := VersionedName(name, version);
      var kvs := etcd.get(name);
      if kvs.None? {
        return NoRecord, false, Refused;
      }
      var info := kvs.value.value.body;
      var preSize := if info.size.Some? then info.size.value else "";
      var preSizeBytes, patchSizeBytes := ToBytes(readers.parse, preSize), ToBytes(readers.parse, size);
      if preSizeBytes.Panic? || patchSizeBytes.Panic? {
        return Crash, false, Refused;
      }
      if size == preSize {
        return NoPatchRequired, false, Refused;
      }
      if OrZero(patchSizeBytes) < OrZero(preSizeBytes) {
        if volVersionName !in docker.volumes {
          return NoMountPoint, false, Refused;
        }
        var usedSize := docker.volumes[volVersionName].used;
        if usedSize > OrZero(patchSizeBytes) {
          return UsedGreaterThanReduced, false, Refused;
        }
      }
      var created, kv := createVolume(name, Some(size));
      if !created {
        return Admitted, false, CreateFailed;
      }
      NotSame(name, version, version + 1);
      var copied := docker.CopyOldMountPoint(volVersionName, kv.value.body.name);
      if !copied {
        return Admitted, false, CopyFailed;
      }
      queue.Send(kv);
      return Admitted, true, Resized;
    }

    /** The router calls it with both flags set, or with neither to remove one old version by its full name. */
    method DeleteVolume(name: string, latest: bool) returns (ok: bool, ghost e: Option<Event>)
      modifies versionMap, docker, queue
      ensures e.None? ==> Abs() == old(Abs()) && !ok
      ensures e.Some? ==> Enabled(readers, old(Abs()), e.value) && Abs() == Next(old(Abs()), e.value)
      ensures latest && name in old(versionMap.entries) ==> e == Some(Delete(name, ok))
      ensures !latest && ok ==> e == Some(Drop(name))
    {
      ok, e := false, None;
      var full := name;
      if latest {
        var version, found := versionMap.Get(name);
        if !found {
          return;
        }
        full := VersionedName(name, version);
        versionMap.Remove(Split(full, "-")[0]);
        queue.Send(Del(full));
      }
      ok := docker.VolumeRemove(full);
      e := if latest then Some(Delete(name, ok)) else if ok then Some(Drop(name)) else None;
    }
  }
}
