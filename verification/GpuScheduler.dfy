/** internal/schedulers/gpuscheduler.go: all-or-nothing allocation of GPU ids, in whatever order the map yields. */
module GpuScheduling {
  import opened Prelude
  import opened Pools
  import opened Text
  import opened Ledger
  import opened Clients

  /** The requests that can be granted. */
  predicate CanTake(p: Pool, num: int) {
    1 <= num <= p.total && num <= |p.Free()|
  }

  /** What a granted request may return: num different ids, all free before. */
  ghost predicate IsGrant(p: Pool, num: int, ids: seq<string>) {
    |ids| == num && NoDup(ids) && Elems(ids) <= p.Free()
  }

  /** The pool after Restore(ids): a list that is empty or longer than the total is ignored. */
  function Give(p: Pool, ids: seq<string>): Pool {
    if |ids| <= 0 || |ids| > p.total then p else p.Mark(Elems(ids), 0)
  }

  /** Half-way through the walk: every free id already visited has been taken, and nothing else changed. */
  ghost predicate Collected(p: Pool, pending: set<string>, ids: seq<string>, status: map<string, byte>) {
    NoDup(ids) && Elems(ids) == p.Free() - pending && status == p.Mark(Elems(ids), 1).status
  }

  lemma CollectOne(p: Pool, pending: set<string>, ids: seq<string>, status: map<string, byte>, k: string)
    requires Collected(p, pending, ids, status) && k in pending && k in p.status
    ensures k in status && status[k] == p.status[k]
    ensures status[k] == 0 ==> Collected(p, pending - {k}, ids + [k], status[k := 1])
    ensures status[k] != 0 ==> Collected(p, pending - {k}, ids, status)
  {
    AppendNew(ids, k);
    MarkOne(p, Elems(ids), k, 1);
  }

  lemma CollectedEnd(p: Pool, pending: set<string>, ids: seq<string>, status: map<string, byte>)
    requires Collected(p, pending, ids, status)
    ensures |ids| <= |p.Free()| && Elems(ids) <= p.Free()
    ensures pending == {} ==> |ids| == |p.Free()|
    ensures Pool(p.total, status) == p.Mark(Elems(ids), 1)
    ensures p.Mark(Elems(ids), 1).Mark(Elems(ids), 0) == p
    ensures ids == [] ==> status == p.status
  {
    NoDupSize(ids);
    SubsetSize(Elems(ids), p.Free());
    MarkUsed(p, Elems(ids));
    MarkNone(p, 1);
    assert pending == {} ==> p.Free() - pending == p.Free();
    assert ids == [] ==> Elems(ids) == {};
  }

  class GpuScheduler {
    var availableGpuNums: int
    var gpuStatusMap: map<string, byte>

    ghost function Abs(): Pool
      reads this
    {
      Pool(availableGpuNums, gpuStatusMap)
    }

    /** First start: one free entry for each device that was found. */
    constructor (gpus: seq<Gpu>)
      ensures Abs() == Initial(gpus)
    {
      availableGpuNums := |gpus|;
      gpuStatusMap := map[];
      new;
      var i := 0;
      while i < |gpus|
        invariant 0 <= i <= |gpus| && availableGpuNums == |gpus|
        invariant gpuStatusMap == Initial(gpus[..i]).status
      {
        gpuStatusMap := gpuStatusMap[gpus[i].uuid := 0];
        assert Ids(gpus[..i + 1]) == Ids(gpus[..i]) + {gpus[i].uuid} by {
          assert gpus[..i + 1] == gpus[..i] + [gpus[i]];
        }
        i := i + 1;
      }
      assert gpus[..i] == gpus;
    }

    method Apply(num: int) returns (r: Result<seq<string>, AllocError>)
      modifies this
      ensures r.Ok? <==> CanTake(old(Abs()), num)
      ensures r == Err(OutOfRange) <==> num <= 0 || num > old(availableGpuNums)
      ensures r.Ok? ==> IsGrant(old(Abs()), num, r.value) && Abs() == old(Abs()).Mark(Elems(r.value), 1)
      ensures r.Err? ==> Abs() == old(Abs())
    {
      if num <= 0 || num > availableGpuNums {
        return Err(OutOfRange);
      }
      ghost var p := Abs();
      var availableGpus: seq<string> := [];
      var pending := gpuStatusMap.Keys;
      MarkNone(p, 1);
      while pending != {}
        invariant pending <= p.status.Keys && |availableGpus| < num
        invariant availableGpuNums == p.total && Collected(p, pending, availableGpus, gpuStatusMap)
        decreases pending
      {
        var k :| k in pending;
        CollectOne(p, pending, availableGpus, gpuStatusMap, k);
        pending := pending - {k};
        if gpuStatusMap[k] == 0 {
          gpuStatusMap := gpuStatusMap[k := 1];
          availableGpus := availableGpus + [k];
          if |availableGpus| == num {
            break;
          }
        }
      }
      CollectedEnd(p, pending, availableGpus, gpuStatusMap);
      if |availableGpus| < num {
        restore(availableGpus);
        return Err(NotEnough);
      }
      return Ok(availableGpus);
    }

    method Restore(gpus: seq<string>)
      modifies this
      ensures Abs() == Give(old(Abs()), gpus)
    {
      if |gpus| <= 0 || |gpus| > availableGpuNums {
        return;
      }
      restore(gpus);
    }

    method restore(gpus: seq<string>)
      modifies this
      ensures Abs() == Give(old(Abs()), gpus)
    {
      if |gpus| <= 0 || |gpus| > availableGpuNums {
        return;
      }
      ghost var p := Abs();
      MarkNone(p, 0);
      for i := 0 to |gpus|
        invariant availableGpuNums == p.total && gpuStatusMap == p.Mark(Elems(gpus[..i]), 0).status
      {
        gpuStatusMap := gpuStatusMap[gpus[i] := 0];
        MarkOne(p, Elems(gpus[..i]), gpus[i], 0);
        AppendNew(gpus[..i], gpus[i]);
        assert gpus[..i + 1] == gpus[..i] + [gpus[i]];
      }
      assert gpus[..|gpus|] == gpus;
    }
  }

  // Reading the device list -------------------------------------------------------------------------------

  datatype Gpu = Gpu(index: int, uuid: string)

  const CDI_PREFIX := "nvidia.com/gpu="

  function Ids(gpus: seq<Gpu>): set<string> {
    set g | g in gpus :: g.uuid
  }

  /** The pool of a first start. */
  function Initial(gpus: seq<Gpu>): Pool {
    Pool(|gpus|, map k | k in Ids(gpus) :: 0)
  }

  /** One line of the device query: skipped, rejected, or a device. */
  datatype Line = Skip | Bad | Device(gpu: Gpu)

  function ParseLine(line: string): Line {
    if line == "" then Skip
    else
      var fields := Split(line, ", ");
      if |fields| != 2 then Skip
      else
        match Atoi(fields[0])
        case None => Bad
        case Some(index) => Device(Gpu(index, CDI_PREFIX + fields[1]))
  }

  /** The devices listed before the first bad line, and whether there is a bad line. */
  function ParseLines(lines: seq<string>): (seq<Gpu>, bool) {
    if lines == [] then ([], true)
    else
      match ParseLine(lines[0])
      case Bad => ([], false)
      case Skip => ParseLines(lines[1..])
      case Device(g) => var (rest, ok) := ParseLines(lines[1..]); ([g] + rest, ok)
  }

  method ParseOutput(output: string) returns (gpuList: seq<Gpu>, ok: bool)
    ensures (gpuList, ok) == ParseLines(Split(output, "\n"))
  {
    var lines := Split(output, "\n");
    gpuList := [];
    assert lines[0..] == lines;
    for i := 0 to |lines|
      invariant ParseLines(lines).0 == gpuList + ParseLines(lines[i..]).0
      invariant ParseLines(lines).1 == ParseLines(lines[i..]).1
    {
      assert lines[i..][1..] == lines[i + 1..];
      var line := lines[i];
      if line == "" {
        continue;
      }
      var fields := Split(line, ", ");
      if |fields| == 2 {
        var index := Atoi(fields[0]);
        if index.None? {
          assert gpuList + [] == gpuList;
          return gpuList, false;
        }
        var uuid := CDI_PREFIX + fields[1];
        gpuList := gpuList + [Gpu(index.value, uuid)];
      }
    }
    assert lines[|lines|..] == [] && gpuList + [] == gpuList;
    ok := true;
  }

  function Show(g: Gpu): string
    requires g.index >= 0
  {
    Itoa(g.index) + ", " + g.uuid
  }

  /** A device that one printed line can tell: neither a line break in its id nor what separates the fields. */
  predicate Printable(g: Gpu) {
    0 <= g.index <= MAX_INT && '\n' !in g.uuid && Split(g.uuid, ", ") == [g.uuid]
  }

  /** What the query prints: a line for every device. */
  function ShowAll(gpus: seq<Gpu>): string
    requires forall g :: g in gpus ==> Printable(g)
  {
    if gpus == [] then ""
    else
      assert Printable(gpus[0]);
      Show(gpus[0]) + "\n" + ShowAll(gpus[1..])
  }

  function Named(gpus: seq<Gpu>): seq<Gpu> {
    if gpus == [] then [] else [gpus[0].(uuid := CDI_PREFIX + gpus[0].uuid)] + Named(gpus[1..])
  }

  lemma ParseLineShown(g: Gpu)
    requires Printable(g)
    ensures ParseLine(Show(g)) == Device(g.(uuid := CDI_PREFIX + g.uuid)) && '\n' !in Show(g)
  {
    SplitHead(Itoa(g.index), g.uuid, ", ");
    assert Itoa(g.index) + ", " + g.uuid == Show(g);
    AtoiItoa(g.index);
  }

  /** Parsing the printed text gives the devices back, in order, under their CDI names. */
  lemma {:induction false} ParseShown(gpus: seq<Gpu>)
    requires forall g :: g in gpus ==> Printable(g)
    ensures ParseLines(Split(ShowAll(gpus), "\n")) == (Named(gpus), true)
  {
    if gpus == [] {
      SplitPlain("", "\n");
      assert [""][1..] == [];
    } else {
      var g, rest := gpus[0], gpus[1..];
      assert g in gpus;
      forall h | h in rest
        ensures Printable(h)
      {
        assert h in gpus;
      }
      ParseShown(rest);
      ParseLineShown(g);
      SplitHead(Show(g), ShowAll(rest), "\n");
      var lines := Split(ShowAll(gpus), "\n");
      assert lines == [Show(g)] + Split(ShowAll(rest), "\n");
      assert lines[1..] == Split(ShowAll(rest), "\n");
    }
  }

  // Any number of clients ---------------------------------------------------------------------------------

  function AfterCall(p: Pool, call: Call): Pool {
    match call
    case Apply(_, num, granted) => if CanTake(p, num) then p.Mark(Elems(granted), 1) else p
    case Restore(_, units) => Give(p, units)
  }

  /** A call that the scheduler can answer so, by a client that returns only what it holds. */
  ghost predicate LegalCall(p: Pool, held: map<string, set<string>>, call: Call) {
    match call
    case Apply(_, num, granted) => if CanTake(p, num) then IsGrant(p, num, granted) else granted == []
    case Restore(client, units) => Returnable(held, client, units)
  }

  ghost predicate LegalCalls(p: Pool, held: map<string, set<string>>, calls: seq<Call>)
    decreases calls
  {
    calls != [] ==>
      LegalCall(p, held, calls[0]) && LegalCalls(AfterCall(p, calls[0]), HeldAfter(held, calls[0]), calls[1..])
  }

  function AfterCalls(p: Pool, calls: seq<Call>): Pool
    decreases calls
  {
    if calls == [] then p else AfterCalls(AfterCall(p, calls[0]), calls[1..])
  }

  lemma CallExact(p: Pool, held: map<string, set<string>>, call: Call)
    requires p.total == |p.status| && Exact(p.Used(), held) && LegalCall(p, held, call)
    ensures var q := AfterCall(p, call);
      q.total == p.total && q.status.Keys == p.status.Keys && Exact(q.Used(), HeldAfter(held, call))
  {
    match call
    case Apply(client, num, granted) =>
      if CanTake(p, num) {
        MarkUsed(p, Elems(granted));
        FreeAndUsed(p);
      } else {
        assert p.Used() + Elems(granted) == p.Used();
      }
      GrantExact(p.Used(), held, client, Elems(granted));
    case Restore(client, units) =>
      NoDupSize(units);
      FreeAndUsed(p);
      SubsetSize(Elems(units), p.Used());
      MarkFree(p, Elems(units));
      ReturnExact(p.Used(), held, client, Elems(units));
  }

  /**
    Whatever the interleaving of calls: no id is ever held twice, the ids marked are exactly those held, and
    free and held ids together are the ids of the start.
   */
  lemma {:induction false} RunExact(p: Pool, held: map<string, set<string>>, calls: seq<Call>)
    requires p.total == |p.status| && Exact(p.Used(), held) && LegalCalls(p, held, calls)
    ensures var q := AfterCalls(p, calls);
      Exact(q.Used(), HeldAfterAll(held, calls)) && q.Free() + q.Used() == p.status.Keys && q.Free() !! q.Used()
    decreases calls
  {
    FreeAndUsed(p);
    if calls != [] {
      CallExact(p, held, calls[0]);
      RunExact(AfterCall(p, calls[0]), HeldAfter(held, calls[0]), calls[1..]);
    }
  }
}
