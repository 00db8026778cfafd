/**
  internal/services/volume.go: versioned volumes, as states and events. An event carries what the outside world
  decided: whether Docker made the volume, whether the data could be copied, and which item on its way to the store
  landed.
 */
module Volumes {
  import opened Prelude
  import opened Text
  import opened Sizes
  import opened Mvcc
  import opened Versions
  import opened Landing
  import opened Books

  /** A Docker volume: the size option it was made with, and the bytes in use. */
  datatype Volume = Volume(size: Option<string>, used: nat)

  /** The options stored in etcd. */
  datatype Options = Options(name: string, size: Option<string>)

  type Record = Versioned<Options>
  type Item = Op<string, Record>

  datatype State = State(versions: map<string, nat>, volumes: map<string, Volume>, log: seq<Item>, queue: seq<Item>)

  const EMPTY := State(map[], map[], [], [])

  datatype CreateHow = Exists | Failed | Done

  datatype ResizeHow = Refused | CreateFailed | CopyFailed | Resized

  datatype Event =
    | Create(name: string, size: string, made: CreateHow)
    | Resize(name: string, size: string, how: ResizeHow)
    | Write(key: string, used: nat)
    | Delete(name: string, removed: bool)
    | Drop(key: string)
    | Sync(i: nat)

  /** How sizes are read: by the service, and by Docker, which limits the volume to what it has read. */
  datatype Readers = Readers(parse: Parser, quota: string -> nat)

  /** The volume that a name currently stands for. */
  function Current(s: State, name: string): string {
    VersionedName(name, VersionOf(s.versions, name))
  }

  /** createVolume; Docker answers a request for an existing name with the volume that is there. */
  function Made(s: State, name: string, size: Option<string>, ok: bool): State {
    var version := VersionOf(s.versions, name) + 1;
    var key := VersionedName(name, version);
    if ok then
      s.(versions := Bump(s.versions, name),
         volumes := if key in s.volumes then s.volumes else s.volumes[key := Volume(size, 0)])
    else
      s.(versions := Undo(Bump(s.versions, name), name, version))
  }

  /** The record that goes with the version just made. */
  function RecordOf(s: State, name: string, size: Option<string>): Item {
    var version := VersionOf(s.versions, name) + 1;
    Put(name, Versioned(version, Options(VersionedName(name, version), size)))
  }

  /** Why a resize stops before it makes a volume. */
  datatype Verdict = NoEntry | NoRecord | Crash | NoPatchRequired | NoMountPoint | UsedGreaterThanReduced | Admitted

  function Admit(parse: Parser, s: State, name: string, size: string): Verdict {
    if name !in s.versions then NoEntry
    else
      match Latest(s.log, name)
      case None => NoRecord
      case Some(kv) =>
        var stored := kv.value.body.size;
        var preSize := if stored.Some? then stored.value else "";
        if ToBytes(parse, preSize).Panic? || ToBytes(parse, size).Panic? then Crash
        else if size == preSize then NoPatchRequired
        else if OrZero(ToBytes(parse, size)) < OrZero(ToBytes(parse, preSize)) then
          if Current(s, name) !in s.volumes then NoMountPoint
          else if s.volumes[Current(s, name)].used > OrZero(ToBytes(parse, size)) then UsedGreaterThanReduced
          else Admitted
        else Admitted
  }

  /** Everything in the old volume is moved into the new one. */
  function Moved(volumes: map<string, Volume>, from: string, to: string): map<string, Volume> {
    if from in volumes && to in volumes && from != to then
      volumes[to := volumes[to].(used := volumes[to].used + volumes[from].used)][from := volumes[from].(used := 0)]
    else volumes
  }

  /** existVolume: some volume's name starts with the name and a dash; a failing list counts as no. */
  predicate ListedAs(s: State, name: string) {
    exists key :: key in s.volumes && name + "-" <= key
  }

  predicate Enabled(w: Readers, s: State, e: Event) {
    match e
    case Create(name, _, how) => '-' !in name && (how.Exists? ==> ListedAs(s, name))
    case Resize(name, size, how) =>
      && (how.Refused? <==> !Admit(w.parse, s, name, size).Admitted?)
      && (how.Resized? ==> Current(s, name) in s.volumes)
    case Write(key, used) =>
      key in s.volumes && (s.volumes[key].size.Some? ==> used <= w.quota(s.volumes[key].size.value))
    case Delete(name, _) => name in s.versions
    case Drop(key) => key in s.volumes
    case Sync(i) => i < |s.queue|
  }

  function Next(s: State, e: Event): State {
    match e
    case Create(name, size, how) =>
      var opt := if size == "" then None else Some(size);
      var t := Made(s, name, opt, how.Done?);
      (match how
       case Exists => s
       case Failed => t
       case Done => t.(queue := s.queue + [RecordOf(s, name, opt)]))
    case Resize(name, size, how) =>
      var t := Made(s, name, Some(size), !how.CreateFailed?);
      (match how
       case Refused => s
       case CreateFailed => t
       case CopyFailed => t
       case Resized =>
         t.(volumes := Moved(t.volumes, Current(s, name), Current(t, name)),
            queue := s.queue + [RecordOf(s, name, Some(size))]))
    case Write(key, used) =>
      if key in s.volumes then s.(volumes := s.volumes[key := s.volumes[key].(used := used)]) else s
    case Delete(name, removed) =>
      s.(versions := s.versions - {Split(Current(s, name), "-")[0]},
         volumes := if removed then s.volumes - {Current(s, name)} else s.volumes,
         queue := s.queue + [Del(Current(s, name))])
    case Drop(key) => s.(volumes := s.volumes - {key})
    case Sync(i) => if i < |s.queue| then s.(log := Commit(s.log, s.queue[i]), queue := Without(s.queue, i)) else s
  }

  ghost predicate LegalRun(w: Readers, s: State, es: seq<Event>)
    decreases es
  {
    es == [] || (Enabled(w, s, es[0]) && LegalRun(w, Next(s, es[0]), es[1..]))
  }

  function Run(s: State, es: seq<Event>): State
    decreases es
  {
    if es == [] then s else Run(Next(s, es[0]), es[1..])
  }

  // Numbering ---------------------------------------------------------------------------------------------

  function BookOf(s: State): Book<Options> {
    Book(s.versions, s.log, s.queue)
  }

  /** The delete is sent for the versioned name. */
  function EffectOf(s: State, e: Event): Effect {
    match e
    case Create(name, _, Done) => Wrote(name)
    case Resize(name, _, CopyFailed) => Drawn(name)
    case Resize(name, _, Resized) => Wrote(name)
    case Delete(name, _) => Forgot(name, Current(s, name))
    case Sync(i) => Landed(i)
    case _ => Same
  }

  lemma FailedMade(s: State, name: string, size: Option<string>)
    requires Orderly(BookOf(s))
    ensures Made(s, name, size, false) == s
  {
    UndoBump(s.versions, name);
  }

  lemma EventShows(w: Readers, s: State, e: Event)
    requires Orderly(BookOf(s)) && Enabled(w, s, e)
    ensures Shows(BookOf(s), BookOf(Next(s, e)), EffectOf(s, e)) && Orderly(BookOf(Next(s, e)))
    ensures EffectOf(s, e).Drawn? || EffectOf(s, e).Forgot? ==> EffectOf(s, e).name in s.versions
  {
    var b, d := BookOf(s), BookOf(Next(s, e));
    match e
    case Create(name, size, how) =>
      var opt := if size == "" then None else Some(size);
      FailedMade(s, name, opt);
      assert how.Done? ==> Sent(b, d, name, RecordOf(s, name, opt).value.body);
    case Resize(name, size, how) =>
      FailedMade(s, name, Some(size));
      assert how.Resized? ==> Sent(b, d, name, RecordOf(s, name, Some(size)).value.body);
    case Delete(name, _) =>
      SplitHead(name, Itoa(s.versions[name]), "-");
    case Write(_, _) =>
    case Drop(_) =>
    case Sync(_) =>
  }

  /** A volume made without its record being sent, or the entry forgotten while the record stays. */
  predicate Drifting(e: Event, name: string) {
    match e
    case Resize(n, _, CopyFailed) => n == name
    case Delete(n, _) => n == name
    case _ => false
  }

  /**
    In step before, in step afterwards: precisely when the event is not one of those that drift. Once out of step,
    the numbers stay so.
   */
  lemma AgreeIff(w: Readers, s: State, e: Event, name: string)
    requires Orderly(BookOf(s)) && Enabled(w, s, e) && '-' !in name
    requires SendsQuietly(BookOf(s), EffectOf(s, e), name)
    ensures var b, d := BookOf(s), BookOf(Next(s, e));
      && (InStep(b, name) ==> (InStep(d, name) <==> !Drifting(e, name)))
      && ((InStep(b, name) && Drifting(e, name)) || Broken(b, name) ==> Broken(d, name))
  {
    EventShows(w, s, e);
    if e.Delete? {
      assert Current(s, e.name)[|e.name|] == '-';
    }
    EffectSteps(BookOf(s), BookOf(Next(s, e)), EffectOf(s, e), name);
  }

  /** DeleteVolume sends the delete for the versioned name, which is not the key of the record. */
  lemma DeleteDisagrees(w: Readers, s: State, name: string, removed: bool)
    requires Orderly(BookOf(s)) && InStep(BookOf(s), name) && name in s.versions
    ensures var d := BookOf(Next(s, Delete(name, removed))); Broken(d, name) && !InStep(d, name)
  {
    assert Current(s, name)[|name|] == '-';
    AgreeIff(w, s, Delete(name, removed), name);
  }

  /** A legal run that sends for name only when nothing is on its way for it. */
  ghost predicate QuietRun(w: Readers, s: State, es: seq<Event>, name: string)
    decreases es
  {
    es != [] ==>
      && Enabled(w, s, es[0]) && SendsQuietly(BookOf(s), EffectOf(s, es[0]), name)
      && QuietRun(w, Next(s, es[0]), es[1..], name)
  }

  predicate NoDrift(es: seq<Event>, name: string) {
    forall i :: 0 <= i < |es| ==> !Drifting(es[i], name)
  }

  /**
    Over any run that sends for a name one item at a time, in whatever order items land: the map, the store's count
    and the numbers in the records agree in the end exactly when no event of the run has drifted.
   */
  lemma {:induction false} RunAgrees(w: Readers, s: State, es: seq<Event>, name: string)
    requires Orderly(BookOf(s)) && '-' !in name && QuietRun(w, s, es, name)
    requires InStep(BookOf(s), name) || Broken(BookOf(s), name)
    ensures var b, d := BookOf(s), BookOf(Run(s, es));
      (InStep(d, name) <==> InStep(b, name) && NoDrift(es, name)) && (InStep(d, name) || Broken(d, name))
    decreases es
  {
    BrokenIsOut(BookOf(s), name);
    if es != [] {
      var e, rest := es[0], es[1..];
      EventShows(w, s, e);
      AgreeIff(w, s, e, name);
      BrokenIsOut(BookOf(Next(s, e)), name);
      RunAgrees(w, Next(s, e), rest, name);
      assert NoDrift(es, name) <==> !Drifting(e, name) && NoDrift(rest, name) by {
        assert es == [e] + rest;
      }
    }
  }

  /** How many numbers have been drawn for name since it was last deleted. */
  function DrawnAfter(e: Event, name: string, n: nat): nat {
    match e
    case Create(x, _, Done) => if x == name then n + 1 else n
    case Resize(x, _, CopyFailed) => if x == name then n + 1 else n
    case Resize(x, _, Resized) => if x == name then n + 1 else n
    case Delete(x, _) => if x == name then 0 else n
    case _ => n
  }

  function DrawnAfterAll(es: seq<Event>, name: string, n: nat): nat
    decreases es
  {
    if es == [] then n else DrawnAfterAll(es[1..], name, DrawnAfter(es[0], name, n))
  }

  lemma EventDraws(w: Readers, s: State, e: Event, name: string)
    requires Orderly(BookOf(s)) && Enabled(w, s, e)
    ensures Orderly(BookOf(Next(s, e)))
    ensures VersionOf(Next(s, e).versions, name) == DrawnAfter(e, name, VersionOf(s.versions, name))
  {
    EventShows(w, s, e);
  }

  /**
    Over any run at all, the current number of a name counts the volumes made for it since its last deletion: the
    numbers drawn are 1, 2, 3, ... without a gap or a repeat, across failed creates and failed copies too.
   */
  lemma {:induction false} RunDraws(w: Readers, s: State, es: seq<Event>, name: string)
    requires Orderly(BookOf(s)) && LegalRun(w, s, es)
    ensures VersionOf(Run(s, es).versions, name) == DrawnAfterAll(es, name, VersionOf(s.versions, name))
    decreases es
  {
    if es != [] {
      EventDraws(w, s, es[0], name);
      RunDraws(w, Next(s, es[0]), es[1..], name);
    }
  }

  // Resizing ----------------------------------------------------------------------------------------------

  /** The volume holds no more than Docker's limit for it. */
  predicate Room(w: Readers, v: Volume) {
    v.size.Some? ==> v.used <= w.quota(v.size.value)
  }

  /** The newest record tells the current volume's size, and the data has room. */
  ghost predicate FitsAt(w: Readers, s: State, name: string) {
    && AtMostOne(s.queue, name)
    && (name in s.versions ==>
         && Current(s, name) in s.volumes && Writes(BookOf(s), name) != []
         && s.volumes[Current(s, name)].size == Writes(BookOf(s), name)[0].body.size
         && Room(w, s.volumes[Current(s, name)]))
  }

  /** No volume carries a version number above the current one. */
  ghost predicate Unused(s: State, name: string) {
    forall v: nat :: v > VersionOf(s.versions, name) ==> VersionedName(name, v) !in s.volumes
  }

  ghost predicate Fits(w: Readers, s: State) {
    forall name :: FitsAt(w, s, name) && Unused(s, name)
  }

  /** Volumes are created, filled and resized, one at a time for each name, and the data is copied. */
  predicate Tidy(s: State, e: Event) {
    match e
    case Create(name, _, how) => how.Done? ==> Quiet(s.queue, name)
    case Resize(name, _, how) => !how.CopyFailed? && (how.Resized? ==> Quiet(s.queue, name))
    case Delete(_, _) => false
    case Drop(_) => false
    case _ => true
  }

  /** A new version of one name, whose volume has the recorded size. */
  predicate NewVersion(s: State, t: State, name: string, size: Option<string>) {
    && t.versions == Bump(s.versions, name) && t.log == s.log && t.queue == s.queue + [RecordOf(s, name, size)]
    && Current(t, name) in t.volumes && t.volumes[Current(t, name)].size == size
    && (forall key :: key in t.volumes ==> key in s.volumes || key == Current(t, name))
    && forall key :: key in s.volumes && key != Current(s, name) && key != Current(t, name) ==>
         key in t.volumes && t.volumes[key] == s.volumes[key]
  }

  lemma NewVersionFits(w: Readers, s: State, t: State, name: string, size: Option<string>)
    requires Fits(w, s) && NewVersion(s, t, name, size) && Quiet(s.queue, name)
    ensures Fits(w, t) <==> Room(w, t.volumes[Current(t, name)])
  {
    NewVersionAt(w, s, t, name, size);
    if Room(w, t.volumes[Current(t, name)]) {
      forall n
        ensures FitsAt(w, t, n) && Unused(t, n)
      {
        if n != name {
          OtherVersionAt(w, s, t, name, size, n);
        }
      }
    }
  }

  lemma NewVersionAt(w: Readers, s: State, t: State, name: string, size: Option<string>)
    requires Fits(w, s) && NewVersion(s, t, name, size) && Quiet(s.queue, name)
    ensures Unused(t, name) && (FitsAt(w, t, name) <==> Room(w, t.volumes[Current(t, name)]))
  {
    assert Unused(s, name);
    SendExpected(s.log, s.queue, RecordOf(s, name, size), name);
    forall v: nat | v > VersionOf(t.versions, name)
      ensures VersionedName(name, v) !in t.volumes
    {
      NotSame(name, VersionOf(t.versions, name), v);
    }
  }

  lemma OtherVersionAt(w: Readers, s: State, t: State, name: string, size: Option<string>, n: string)
    requires Fits(w, s) && NewVersion(s, t, name, size) && n != name
    ensures FitsAt(w, t, n) && Unused(t, n)
  {
    assert FitsAt(w, s, n) && Unused(s, n);
    SendExpected(s.log, s.queue, RecordOf(s, name, size), n);
    OtherName(s, name, VersionOf(s.versions, name), n);
    OtherName(s, name, VersionOf(t.versions, name), n);
    assert Current(t, n) == Current(s, n);
    forall v: nat | v > VersionOf(t.versions, n)
      ensures VersionedName(n, v) !in t.volumes
    {
      NotNamed(name, VersionOf(t.versions, name), n, v);
    }
  }

  lemma NotNamed(a: string, v: nat, b: string, w: nat)
    requires a != b
    ensures VersionedName(a, v) != VersionedName(b, w)
  {
    if VersionedName(a, v) == VersionedName(b, w) {
      VersionedNameInjective(a, v, b, w);
    }
  }

  lemma NotSame(a: string, v: nat, w: nat)
    requires v != w
    ensures VersionedName(a, v) != VersionedName(a, w)
  {
    if VersionedName(a, v) == VersionedName(a, w) {
      VersionedNameInjective(a, v, a, w);
    }
  }

  lemma OtherName(s: State, name: string, v: nat, n: string)
    requires n != name
    ensures Current(s, n) != VersionedName(name, v)
  {
    NotNamed(n, VersionOf(s.versions, n), name, v);
  }

  /** The service's reading of the recorded size. */
  function StoredBytes(parse: Parser, s: State, name: string): int
    requires Latest(s.log, name).Some?
  {
    var stored := Latest(s.log, name).value.value.body.size;
    OrZero(ToBytes(parse, if stored.Some? then stored.value else ""))
  }

  /**
    The shrink test lets through a size that the data does not fit into exactly when the recorded size reads as no
    more than the new one, an unreadable size counting as zero.
   */
  lemma AdmitsOverfullIff(parse: Parser, s: State, name: string, size: string)
    requires name in s.versions && Latest(s.log, name).Some? && Current(s, name) in s.volumes
    requires var stored := Latest(s.log, name).value.value.body.size;
      stored.Some? && stored.value != size && |stored.value| >= 2 && |size| >= 2
    ensures var n, used := OrZero(ToBytes(parse, size)), s.volumes[Current(s, name)].used;
      Admit(parse, s, name, size).Admitted? && used > n <==> StoredBytes(parse, s, name) <= n < used
  {
  }

  /** A size that the service reads as a number of bytes. */
  predicate Readable(w: Readers, size: Option<string>) {
    size.Some? && ToBytes(w.parse, size.value).Bytes? && ToBytes(w.parse, size.value).n >= 0
  }

  /** Docker reads the sizes that the service can read in the same way. */
  ghost predicate SameReading(w: Readers) {
    forall size: string :: Readable(w, Some(size)) ==> w.quota(size) == ToBytes(w.parse, size).n
  }

  /**
    What a caller could see coming: the recorded size does not read, and the new one is less than what is in use. A
    new size that does not read itself is not compared at all; then Docker's limit for it counts.
   */
  predicate Overfills(w: Readers, s: State, e: Event) {
    && e.Resize? && e.how.Resized? && Latest(s.log, e.name).Some? && Current(s, e.name) in s.volumes
    && var stored, used := Latest(s.log, e.name).value.value.body.size, s.volumes[Current(s, e.name)].used;
    if Readable(w, Some(e.size)) then !Readable(w, stored) && ToBytes(w.parse, e.size).n < used
    else w.quota(e.size) < used
  }

  lemma ResizedVersion(s: State, name: string, size: string)
    requires Unused(s, name) && Current(s, name) in s.volumes
    ensures var t := Next(s, Resize(name, size, Resized));
      NewVersion(s, t, name, Some(size)) && t.volumes[Current(t, name)].used == s.volumes[Current(s, name)].used
  {
    NotSame(name, VersionOf(s.versions, name), VersionOf(s.versions, name) + 1);
  }

  /** The record that the shrink test reads tells the size of the volume. */
  lemma ReadsCurrent(w: Readers, s: State, name: string)
    requires Fits(w, s) && Quiet(s.queue, name) && name in s.versions
    ensures Latest(s.log, name).Some? && Current(s, name) in s.volumes && Room(w, s.volumes[Current(s, name)])
    ensures s.volumes[Current(s, name)].size == Latest(s.log, name).value.value.body.size
  {
    assert FitsAt(w, s, name);
    QuietExpected(s.log, s.queue, name);
    LatestLived(s.log, name);
  }

  /** With a recorded size that reads, the shrink test sees to it that the data fits. */
  lemma AdmittedRoom(w: Readers, s: State, name: string, size: string)
    requires Fits(w, s) && SameReading(w) && Quiet(s.queue, name) && name in s.versions
    requires Enabled(w, s, Resize(name, size, Resized)) && Latest(s.log, name).Some?
    requires Readable(w, Some(size)) && Readable(w, Latest(s.log, name).value.value.body.size)
    ensures Current(s, name) in s.volumes && s.volumes[Current(s, name)].used <= w.quota(size)
  {
    ReadsCurrent(w, s, name);
    assert w.quota(size) == ToBytes(w.parse, size).n;
  }

  /** In a state in which all volumes have room, that is the condition of AdmitsOverfullIff. */
  lemma OverfillsAdmitted(w: Readers, s: State, name: string, size: string)
    requires Fits(w, s) && SameReading(w) && Quiet(s.queue, name) && Enabled(w, s, Resize(name, size, Resized))
    requires Readable(w, Some(size)) && Latest(s.log, name).Some?
    ensures Overfills(w, s, Resize(name, size, Resized)) <==>
      StoredBytes(w.parse, s, name) <= ToBytes(w.parse, size).n < s.volumes[Current(s, name)].used
  {
    ReadsCurrent(w, s, name);
    var stored := Latest(s.log, name).value.value.body.size;
    if Readable(w, stored) {
      AdmittedRoom(w, s, name, size);
    }
  }

  /**
    A completed resize keeps the data within Docker's limits precisely when the recorded size reads or the data fits
    anyway.
   */
  lemma ResizeFitsIff(w: Readers, s: State, name: string, size: string)
    requires Fits(w, s) && SameReading(w) && Quiet(s.queue, name) && Enabled(w, s, Resize(name, size, Resized))
    ensures Fits(w, Next(s, Resize(name, size, Resized))) <==> !Overfills(w, s, Resize(name, size, Resized))
  {
    assert FitsAt(w, s, name) && Unused(s, name);
    ReadsCurrent(w, s, name);
    ResizedVersion(s, name, size);
    NewVersionFits(w, s, Next(s, Resize(name, size, Resized)), name, Some(size));
    if Readable(w, Some(size)) && Readable(w, Latest(s.log, name).value.value.body.size) {
      AdmittedRoom(w, s, name, size);
    }
  }

  lemma CreateFits(w: Readers, s: State, name: string, size: string)
    requires Fits(w, s) && Quiet(s.queue, name)
    ensures Fits(w, Next(s, Create(name, size, Done)))
  {
    assert Unused(s, name);
    NewVersionFits(w, s, Next(s, Create(name, size, Done)), name, if size == "" then None else Some(size));
  }

  lemma WriteFits(w: Readers, s: State, key: string, used: nat)
    requires Fits(w, s) && Enabled(w, s, Write(key, used))
    ensures Fits(w, Next(s, Write(key, used)))
  {
    var t := Next(s, Write(key, used));
    forall n
      ensures FitsAt(w, t, n) && Unused(t, n)
    {
      assert FitsAt(w, s, n) && Unused(s, n);
    }
  }

  lemma SyncFits(w: Readers, s: State, i: nat)
    requires Fits(w, s) && i < |s.queue|
    ensures Fits(w, Next(s, Sync(i)))
  {
    var t := Next(s, Sync(i));
    forall n
      ensures FitsAt(w, t, n) && Unused(t, n)
    {
      assert FitsAt(w, s, n) && Unused(s, n);
      LandExpected(s.log, s.queue, i, n);
    }
  }

  lemma StepFitsIff(w: Readers, s: State, e: Event)
    requires Fits(w, s) && SameReading(w) && Orderly(BookOf(s)) && Enabled(w, s, e) && Tidy(s, e)
    ensures Fits(w, Next(s, e)) <==> !Overfills(w, s, e)
  {
    match e
    case Create(name, size, how) =>
      if how.Done? {
        CreateFits(w, s, name, size);
      } else {
        FailedMade(s, name, if size == "" then None else Some(size));
      }
    case Resize(name, size, how) =>
      if how.Resized? {
        ResizeFitsIff(w, s, name, size);
      } else {
        FailedMade(s, name, Some(size));
      }
    case Write(key, used) => WriteFits(w, s, key, used);
    case Sync(i) => SyncFits(w, s, i);
  }

  ghost predicate TidyRun(w: Readers, s: State, es: seq<Event>)
    decreases es
  {
    es != [] ==> Enabled(w, s, es[0]) && Tidy(s, es[0]) && TidyRun(w, Next(s, es[0]), es[1..])
  }

  ghost predicate FitsThroughout(w: Readers, s: State, es: seq<Event>)
    decreases es
  {
    Fits(w, s) && (es != [] ==> FitsThroughout(w, Next(s, es[0]), es[1..]))
  }

  ghost predicate NeverOverfills(w: Readers, s: State, es: seq<Event>)
    decreases es
  {
    es != [] ==> !Overfills(w, s, es[0]) && NeverOverfills(w, Next(s, es[0]), es[1..])
  }

  /**
    Over whole runs no volume ever holds more than Docker's limit exactly when every completed resize starts from a
    recorded size that reads, or fits anyway.
   */
  lemma {:induction false} RunFitsIff(w: Readers, s: State, es: seq<Event>)
    requires Fits(w, s) && SameReading(w) && Orderly(BookOf(s)) && TidyRun(w, s, es)
    ensures FitsThroughout(w, s, es) <==> NeverOverfills(w, s, es)
    decreases es
  {
    if es != [] {
      var t := Next(s, es[0]);
      StepFitsIff(w, s, es[0]);
      EventShows(w, s, es[0]);
      if !Overfills(w, s, es[0]) {
        RunFitsIff(w, t, es[1..]);
      } else {
        assert !Fits(w, t);
      }
    }
  }

  // Readable sizes ----------------------------------------------------------------------------------------

  /** Only sizes that read are asked for. */
  predicate Sized(w: Readers, e: Event) {
    match e
    case Create(_, size, how) => how.Done? ==> Readable(w, Some(size))
    case Resize(_, size, how) => how.Resized? ==> Readable(w, Some(size))
    case _ => true
  }

  /** And only such sizes are on record. */
  ghost predicate AllRead(w: Readers, s: State) {
    forall name :: name in s.versions ==>
      Writes(BookOf(s), name) != [] && Readable(w, Writes(BookOf(s), name)[0].body.size)
  }

  lemma ReadFits(w: Readers, s: State, e: Event)
    requires Fits(w, s) && AllRead(w, s) && Enabled(w, s, e) && Tidy(s, e) && Sized(w, e)
    ensures !Overfills(w, s, e)
  {
    if e.Resize? && e.how.Resized? {
      assert FitsAt(w, s, e.name) && e.name in s.versions;
      QuietExpected(s.log, s.queue, e.name);
      LatestLived(s.log, e.name);
    }
  }

  lemma WroteRead(w: Readers, s: State, t: State, name: string, r: Record)
    requires Fits(w, s) && AllRead(w, s) && t.versions == Bump(s.versions, name) && t.log == s.log
    requires t.queue == s.queue + [Put(name, r)] && Readable(w, r.body.size)
    ensures AllRead(w, t)
  {
    forall n | n in t.versions
      ensures Writes(BookOf(t), n) != [] && Readable(w, Writes(BookOf(t), n)[0].body.size)
    {
      SendExpected(s.log, s.queue, Put(name, r), n);
    }
  }

  lemma StepRead(w: Readers, s: State, e: Event)
    requires Fits(w, s) && Orderly(BookOf(s)) && AllRead(w, s) && Enabled(w, s, e) && Tidy(s, e) && Sized(w, e)
    ensures AllRead(w, Next(s, e))
  {
    var t := Next(s, e);
    EventShows(w, s, e);
    match e
    case Create(name, size, how) =>
      if how.Done? {
        WroteRead(w, s, t, name, RecordOf(s, name, Some(size)).value);
      }
    case Resize(name, size, how) =>
      if how.Resized? {
        WroteRead(w, s, t, name, RecordOf(s, name, Some(size)).value);
      }
    case Write(_, _) =>
    case Sync(i) =>
      forall n | n in t.versions
        ensures Writes(BookOf(t), n) != [] && Readable(w, Writes(BookOf(t), n)[0].body.size)
      {
        assert FitsAt(w, s, n);
        LandExpected(s.log, s.queue, i, n);
      }
  }

  /** Over whole runs of creating, filling and resizing with sizes that read, no volume holds more than its size. */
  lemma {:induction false} RunFits(w: Readers, s: State, es: seq<Event>)
    requires Fits(w, s) && Orderly(BookOf(s)) && AllRead(w, s) && SameReading(w)
    requires TidyRun(w, s, es) && forall e :: e in es ==> Sized(w, e)
    ensures Fits(w, Run(s, es)) && NeverOverfills(w, s, es)
    decreases es
  {
    if es != [] {
      var e := es[0];
      assert Sized(w, e);
      ReadFits(w, s, e);
      StepFitsIff(w, s, e);
      EventShows(w, s, e);
      StepRead(w, s, e);
      RunFits(w, Next(s, e), es[1..]);
    }
  }

  // Sizes that do not read --------------------------------------------------------------------------------

  /**
    The sizes that creation accepts but the shrink test cannot read count as zero, so any other size is then
    taken without looking at the data: a lower-case unit is enough to lose it.
   */
  lemma UnreadableSizeUnchecked(parse: Parser, s: State, name: string, size: string)
    requires name in s.versions && Latest(s.log, name).Some? && Latest(s.log, name).value.value.body.size.Some?
    requires var stored := Latest(s.log, name).value.value.body.size.value;
      (ToBytes(parse, stored).BadUnit? || ToBytes(parse, stored).BadNumber?) && size != stored
    requires ToBytes(parse, size).Bytes? && ToBytes(parse, size).n >= 0
    ensures Admit(parse, s, name, size).Admitted?
  {
  }

  const FULL := Volume(Some("100gb"), 0x800)

  /** Created as 100gb, filled with two kilobytes, shrunk to one: every step is possible. */
  function Shrinking(): seq<Event> {
    [Create("v", "100gb", Done), Sync(0), Write("v-1", 0x800), Resize("v", "1KB", Resized)]
  }

  /** The state before the last step. */
  function Filled(): State {
    State(map["v" := 1], map["v-1" := FULL], [Put("v", Versioned(1, Options("v-1", Some("100gb"))))], [])
  }

  lemma FilledReached(w: Readers)
    requires w.quota("100gb") >= 0x800
    ensures LegalRun(w, EMPTY, Shrinking()[..3]) && Run(EMPTY, Shrinking()[..3]) == Filled()
  {
    var es := Shrinking()[..3];
    assert Itoa(1) == "1" && VersionedName("v", 1) == "v-1";
    var record := RecordOf(EMPTY, "v", Some("100gb"));
    var s1 := Next(EMPTY, es[0]);
    assert s1 == State(map["v" := 1], map["v-1" := Volume(Some("100gb"), 0)], [], [record]);
    var s2 := Next(s1, es[1]);
    assert Without([record], 0) == [];
    assert s2 == s1.(log := [record], queue := []);
    assert Next(s2, es[2]) == Filled();
    assert es[1..][0] == es[1] && es[1..][1..] == [es[2]] && [es[2]][1..] == [];
    assert Run(s2, [es[2]]) == Filled() && LegalRun(w, s2, [es[2]]);
    assert Run(s1, es[1..]) == Filled() && LegalRun(w, s1, es[1..]);
  }

  lemma FilledFacts()
    ensures var s := Filled();
      && Current(s, "v") == "v-1" && VersionedName("v", 2) == "v-2"
      && Latest(s.log, "v").Some? && Latest(s.log, "v").value.value.body.size == Some("100gb")
  {
    assert Itoa(1) == "1" && Itoa(2) == "2";
    LatestAppend([], Filled().log[0], "v");
    assert [] + Filled().log == Filled().log;
  }

  lemma OneKilobyte(parse: Parser)
    requires ReadsDigits(parse)
    ensures ToBytes(parse, "1KB") == Bytes(0x400) && !ToBytes(parse, "100gb").Bytes? && !ToBytes(parse, "100gb").Panic?
  {
    assert "100gb"[3..] == "gb";
    assert Itoa(1) == "1" && "1" + "KB" == "1KB";
    ToBytesExact(parse, 1, "KB");
  }

  /** A possible run of the service: the volume holds two kilobytes, and its new version is limited to one. */
  lemma LowerCaseShrinks(w: Readers)
    requires ReadsDigits(w.parse) && w.quota("100gb") >= 0x800 && w.quota("1KB") == 0x400
    ensures LegalRun(w, EMPTY, Shrinking()[..3]) && Run(EMPTY, Shrinking()[..3]) == Filled()
    ensures var e := Shrinking()[3]; Enabled(w, Filled(), e) && Tidy(Filled(), e) && Overfills(w, Filled(), e)
    ensures var t := Next(Filled(), Shrinking()[3]);
      "v-2" in t.volumes && t.volumes["v-2"] == Volume(Some("1KB"), 0x800) && !Room(w, t.volumes["v-2"])
  {
    FilledReached(w);
    FilledFacts();
    OneKilobyte(w.parse);
    UnreadableSizeUnchecked(w.parse, Filled(), "v", "1KB");
  }
}
