/** internal/version: the next version number of every replica set and volume, and how it meets the store. */
module Versions {
  import opened Mvcc

  class VersionMap {
    var entries: map<string, nat>

    constructor ()
      ensures entries == map[]
    {
      entries := map[];
    }

    method Set(key: string, value: nat)
      modifies this
      ensures entries == old(entries)[key := value]
    {
      entries := entries[key := value];
    }

    method Get(key: string) returns (value: nat, ok: bool)
      ensures value == VersionOf(entries, key) && ok == (key in entries)
    {
      if key in entries {
        return entries[key], true;
      }
      return 0, false;
    }

    method Exist(key: string) returns (ok: bool)
      ensures ok == (key in entries)
    {
      ok := key in entries;
    }

    method Remove(key: string)
      modifies this
      ensures entries == old(entries) - {key}
    {
      entries := entries - {key};
    }
  }

  /** A Go map yields zero for an absent key. */
  function VersionOf(versions: map<string, nat>, name: string): nat {
    if name in versions then versions[name] else 0
  }

  /** The first statement of runContainer and of createVolume. */
  function Bump(versions: map<string, nat>, name: string): map<string, nat> {
    versions[name := VersionOf(versions, name) + 1]
  }

  /** What their deferred functions do after a failure. */
  function Undo(versions: map<string, nat>, name: string, version: nat): map<string, nat>
    requires version >= 1
  {
    if version == 1 then versions - {name} else versions[name := version - 1]
  }

  /** The undo is exact, except for an entry that stored the number zero. */
  lemma UndoBump(versions: map<string, nat>, name: string)
    ensures Undo(Bump(versions, name), name, VersionOf(versions, name) + 1) == versions <==>
      !(name in versions && versions[name] == 0)
  {
  }

  // The version map, the store's own count, and the number inside the record -------------------------------

  /** A stored record carries the version number that its writer had just drawn. */
  datatype Versioned<T> = Versioned(version: nat, body: T)

  /** For one name: the map entry, the count of writes in the current lifetime, and every record agree. */
  ghost predicate AgreeAt<T>(versions: map<string, nat>, log: seq<Op<string, Versioned<T>>>, name: string) {
    var h := History(log, name, |log|);
    && VersionOf(versions, name) == |h|
    && (name in versions ==> versions[name] >= 1)
    && forall i :: 0 <= i < |h| ==> h[i].value.version == h[i].version
  }

  /** The same, said of the values alone. */
  predicate AgreeWith<T>(versions: map<string, nat>, name: string, h: seq<Versioned<T>>) {
    && VersionOf(versions, name) == |h|
    && (name in versions ==> versions[name] >= 1)
    && forall i :: 0 <= i < |h| ==> h[i].version == |h| - i
  }

  lemma AgreeLived<T>(versions: map<string, nat>, log: seq<Op<string, Versioned<T>>>, name: string)
    ensures AgreeAt(versions, log, name) <==> AgreeWith(versions, name, Lived(log, name))
  {
    HistoryNumbered(log, name, |log|);
    var h, v := History(log, name, |log|), Lived(log, name);
    assert forall i :: 0 <= i < |h| ==> v[i] == h[i].value && h[i].version == |h| - i;
  }

  /** The numbers stay in step when the next one is drawn and a record written under it. */
  lemma AgreeDrawn<T>(versions: map<string, nat>, name: string, h: seq<Versioned<T>>, body: T)
    requires AgreeWith(versions, name, h)
    ensures AgreeWith(Bump(versions, name), name, [Versioned(VersionOf(versions, name) + 1, body)] + h)
  {
  }
}
