/** internal/schedulers/cpuscheduler.go: processors are handed out lowest number first, as a cpuset string. */
module CpuScheduling {
  import opened Prelude
  import opened Pools
  import opened Text
  import opened Ledger
  import opened Clients

  /** The walk reads a missing processor as free: a Go map yields zero for an absent key. */
  predicate FreeAt(status: map<string, byte>, k: nat) {
    Itoa(k) !in status || status[Itoa(k)] == 0
  }

  /** The numbers the walk over k..n-1 collects, stopping at num of them. */
  function Picks(status: map<string, byte>, k: nat, n: nat, num: nat): (r: seq<nat>)
    ensures |r| <= num
    decreases n - k
  {
    if k >= n || num == 0 then []
    else if FreeAt(status, k) then [k] + Picks(status, k + 1, n, num - 1)
    else Picks(status, k + 1, n, num)
  }

  function Names(ks: seq<nat>): (r: seq<string>)
    ensures |r| == |ks| && forall i :: 0 <= i < |ks| ==> r[i] == Itoa(ks[i])
  {
    seq(|ks|, i requires 0 <= i < |ks| => Itoa(ks[i]))
  }

  /** The cpuset string, for instance "0,2,3". */
  function CpuSet(ks: seq<nat>): string {
    Join(Names(ks), ",")
  }

  function Walk(p: Pool, num: nat): seq<nat> {
    Picks(p.status, 0, |p.status|, num)
  }

  predicate CanTake(p: Pool, num: int) {
    1 <= num <= p.total && |Walk(p, num)| == num
  }

  /** The pool after Apply(num). A walk that comes up short is undone by writing 0 where it wrote 1. */
  function Take(p: Pool, num: int): Pool {
    if num <= 0 || num > p.total then p
    else p.Mark(Elems(Names(Walk(p, num))), if CanTake(p, num) then 1 else 0)
  }

  /** The pool after Restore(cpus). */
  function Give(p: Pool, cpus: seq<string>): Pool {
    p.Mark(Elems(cpus), 0)
  }

  /** Half-way through the walk: the numbers below k have been decided. */
  ghost predicate Walked(p: Pool, k: nat, num: nat, picked: seq<nat>, status: map<string, byte>) {
    && |picked| <= num
    && Walk(p, num) == picked + Picks(p.status, k, |p.status|, num - |picked|)
    && (forall i :: 0 <= i < |picked| ==> picked[i] < k)
    && status == p.Mark(Elems(Names(picked)), 1).status
  }

  lemma PickOne(p: Pool, k: nat, want: nat)
    requires 0 < want && k < |p.status| && FreeAt(p.status, k)
    ensures Picks(p.status, k, |p.status|, want) == [k] + Picks(p.status, k + 1, |p.status|, want - 1)
  {
  }

  lemma WalkOne(p: Pool, k: nat, num: nat, picked: seq<nat>, status: map<string, byte>)
    requires Walked(p, k, num, picked, status) && |picked| < num && k < |p.status|
    ensures FreeAt(status, k) == FreeAt(p.status, k)
    ensures Names(picked + [k]) == Names(picked) + [Itoa(k)]
    ensures if FreeAt(p.status, k) then Walked(p, k + 1, num, picked + [k], status[Itoa(k) := 1])
            else Walked(p, k + 1, num, picked, status)
  {
    NotYet(picked, k);
    assert Names(picked + [k]) == Names(picked) + [Itoa(k)];
    if FreeAt(p.status, k) {
      WalkTaken(p, k, num, picked, status);
    }
  }

  lemma WalkTaken(p: Pool, k: nat, num: nat, picked: seq<nat>, status: map<string, byte>)
    requires Walked(p, k, num, picked, status) && |picked| < num && k < |p.status| && FreeAt(p.status, k)
    requires Names(picked + [k]) == Names(picked) + [Itoa(k)]
    ensures Walked(p, k + 1, num, picked + [k], status[Itoa(k) := 1])
  {
    MarkOne(p, Elems(Names(picked)), Itoa(k), 1);
    AppendNew(Names(picked), Itoa(k));
    PickOne(p, k, num - |picked|);
    Regroup(picked, k, Picks(p.status, k + 1, |p.status|, num - |picked| - 1));
  }

  lemma Regroup(picked: seq<nat>, k: nat, rest: seq<nat>)
    ensures picked + ([k] + rest) == (picked + [k]) + rest
  {
  }

  class CpuScheduler {
    var availableCpuNums: int
    var cpuStatusMap: map<string, byte>

    ghost function Abs(): Pool
      reads this
    {
      Pool(availableCpuNums, cpuStatusMap)
    }

    /** First start on a machine with n processors. */
    constructor (n: nat)
      ensures Abs() == Initial(n)
    {
      availableCpuNums := n;
      cpuStatusMap := map[];
      new;
      for i := 0 to n
        invariant availableCpuNums == n && cpuStatusMap == Initial(i).status
      {
        cpuStatusMap := cpuStatusMap[Itoa(i) := 0];
      }
    }

    method Apply(num: int) returns (r: Result<string, AllocError>)
      modifies this
      ensures Abs() == Take(old(Abs()), num)
      ensures r == if num <= 0 || num > old(availableCpuNums) then Err(OutOfRange)
                   else if CanTake(old(Abs()), num) then Ok(CpuSet(Walk(old(Abs()), num)))
                   else Err(NotEnough)
    {
      if num <= 0 || num > availableCpuNums {
        return Err(OutOfRange);
      }
      ghost var p := Abs();
      ghost var picked: seq<nat> := [];
      var keys := |cpuStatusMap|;
      var applyCpus: seq<string> := [];
      MarkNone(p, 1);
      var k := 0;
      assert Names(picked) == [] && Elems(applyCpus) == {};
      while k < keys
        invariant 0 <= k <= keys && |picked| < num
        invariant availableCpuNums == p.total && applyCpus == Names(picked)
        invariant Walked(p, k, num, picked, cpuStatusMap)
      {
        var ks := Itoa(k);
        WalkOne(p, k, num, picked, cpuStatusMap);
        var v := if ks in cpuStatusMap then cpuStatusMap[ks] else 0;
        if v == 0 {
          cpuStatusMap := cpuStatusMap[ks := 1];
          picked := picked + [k];
          applyCpus := applyCpus + [ks];
          if |applyCpus| == num {
            break;
          }
        }
        k := k + 1;
      }
      assert Walk(p, num) == picked;
      if |applyCpus| < num {
        restore(applyCpus);
        MarkTwice(p, Elems(applyCpus));
        return Err(NotEnough);
      }
      TrimCpuSet(picked);
      var cpuSet := Trim(Join(applyCpus, ","), ',');
      return Ok(cpuSet);
    }

    method Restore(cpuSet: seq<string>)
      modifies this
      ensures Abs() == Give(old(Abs()), cpuSet)
    {
      restore(cpuSet);
    }

    method restore(cpuSet: seq<string>)
      modifies this
      ensures Abs() == Give(old(Abs()), cpuSet)
    {
      ghost var p := Abs();
      MarkNone(p, 0);
      for i := 0 to |cpuSet|
        invariant availableCpuNums == p.total && cpuStatusMap == p.Mark(Elems(cpuSet[..i]), 0).status
      {
        cpuStatusMap := cpuStatusMap[cpuSet[i] := 0];
        MarkOne(p, Elems(cpuSet[..i]), cpuSet[i], 0);
        AppendNew(cpuSet[..i], cpuSet[i]);
        assert cpuSet[..i + 1] == cpuSet[..i] + [cpuSet[i]];
      }
      assert cpuSet[..|cpuSet|] == cpuSet;
    }
  }

  lemma NotYet(picked: seq<nat>, k: nat)
    requires forall i :: 0 <= i < |picked| ==> picked[i] < k
    ensures Itoa(k) !in Elems(Names(picked))
  {
  }

  lemma MarkTwice(p: Pool, ids: set<string>)
    ensures p.Mark(ids, 1).Mark(ids, 0) == p.Mark(ids, 0)
  {
  }

  lemma NamesPlain(ks: seq<nat>)
    ensures forall p :: p in Names(ks) ==> p != "" && ',' !in p
  {
  }

  lemma TrimCpuSet(ks: seq<nat>)
    requires ks != []
    ensures CpuSet(ks) != "" && Trim(CpuSet(ks), ',') == CpuSet(ks)
  {
    NamesPlain(ks);
    JoinEnds(Names(ks), ',');
  }

  /** The string handed out splits back into the names that were marked. */
  lemma TrimTwice(ks: seq<nat>)
    requires ks != []
    ensures TrimLeft(Trim(CpuSet(ks), ','), ',') == CpuSet(ks)
  {
    TrimCpuSet(ks);
    NamesPlain(ks);
    JoinEnds(Names(ks), ',');
  }

  lemma SplitCpuSet(ks: seq<nat>)
    requires ks != []
    ensures Split(CpuSet(ks), ",") == Names(ks)
  {
    NamesPlain(ks);
    SplitJoin(Names(ks), ",");
  }

  // Initial state and its key set -------------------------------------------------------------------------

  /** The decimal names, without leading zeros. */
  predicate IsName(s: string) {
    s != "" && AllDigits(s) && Itoa(Value(s)) == s
  }

  function Keys(n: nat): (r: set<string>)
    ensures forall s {:trigger s in r} :: s in r <==> IsName(s) && Value(s) < n
  {
    if n == 0 then {} else
      assert Value(Itoa(n - 1)) == n - 1;
      Keys(n - 1) + {Itoa(n - 1)}
  }

  function Initial(n: nat): Pool {
    Pool(n, map s | s in Keys(n) :: 0)
  }

  /** The key set that initialisation establishes. */
  predicate Sound(p: Pool) {
    p.total >= 0 && p.status.Keys == Keys(p.total)
  }

  lemma {:induction false} KeysSize(n: nat)
    ensures |Keys(n)| == n
  {
    if n > 0 {
      KeysSize(n - 1);
    }
  }

  // Lowest first ------------------------------------------------------------------------------------------

  ghost predicate Ascending(ks: seq<nat>) {
    forall i, j :: 0 <= i < j < |ks| ==> ks[i] < ks[j]
  }

  /** ks lists free processors below n in rising order. */
  ghost predicate FreeList(status: map<string, byte>, n: nat, ks: seq<nat>) {
    Ascending(ks) && forall i :: 0 <= i < |ks| ==> ks[i] < n && FreeAt(status, ks[i])
  }

  /** ks lists num processors, all below j. */
  ghost predicate FullBelow(ks: seq<nat>, num: nat, j: nat) {
    |ks| == num && forall i :: 0 <= i < |ks| ==> ks[i] < j
  }

  /** ks is the list of the lowest free processors from k on, num of them if there are as many. */
  ghost predicate LowestFrom(status: map<string, byte>, k: nat, n: nat, num: nat, ks: seq<nat>) {
    && FreeList(status, n, ks) && |ks| <= num
    && (forall i :: 0 <= i < |ks| ==> k <= ks[i])
    && forall j: nat :: k <= j < n && FreeAt(status, j) ==> j in ks || FullBelow(ks, num, j)
  }

  ghost predicate IsLowest(status: map<string, byte>, n: nat, num: nat, ks: seq<nat>) {
    LowestFrom(status, 0, n, num, ks)
  }

  lemma LowestCons(status: map<string, byte>, k: nat, n: nat, num: nat, rest: seq<nat>)
    requires k < n && FreeAt(status, k) && LowestFrom(status, k + 1, n, num, rest)
    ensures LowestFrom(status, k, n, num + 1, [k] + rest)
  {
  }

  lemma LowestSkip(status: map<string, byte>, k: nat, n: nat, num: nat, ks: seq<nat>)
    requires LowestFrom(status, k + 1, n, num, ks) && !FreeAt(status, k)
    ensures LowestFrom(status, k, n, num, ks)
  {
  }

  lemma LowestNone(status: map<string, byte>, k: nat, n: nat, num: nat)
    requires k >= n || num == 0
    ensures LowestFrom(status, k, n, num, [])
  {
  }

  lemma {:induction false} PicksLowest(status: map<string, byte>, k: nat, n: nat, num: nat)
    ensures LowestFrom(status, k, n, num, Picks(status, k, n, num))
    decreases n - k
  {
    if k >= n || num == 0 {
      LowestNone(status, k, n, num);
    } else if FreeAt(status, k) {
      PicksLowest(status, k + 1, n, num - 1);
      LowestCons(status, k, n, num - 1, Picks(status, k + 1, n, num - 1));
    } else {
      PicksLowest(status, k + 1, n, num);
      LowestSkip(status, k, n, num, Picks(status, k + 1, n, num));
    }
  }

  lemma WalkLowest(p: Pool, num: nat)
    ensures IsLowest(p.status, |p.status|, num, Walk(p, num))
  {
    PicksLowest(p.status, 0, |p.status|, num);
  }

  /** Entry by entry, the lowest list is not above any other rising list of free processors. */
  lemma {:induction false} LowestBelow(status: map<string, byte>, n: nat, num: nat, a: seq<nat>, b: seq<nat>, k: nat)
    requires IsLowest(status, n, num, a) && FreeList(status, n, b) && k < |b| <= num
    ensures k < |a| && a[k] <= b[k]
  {
    forall j | 0 <= j < k
      ensures j < |a| && a[j] < b[k]
    {
      LowestBelow(status, n, num, a, b, j);
    }
    if b[k] in a {
      var i :| 0 <= i < |a| && a[i] == b[k];
      assert i >= k;
    } else {
      assert FullBelow(a, num, b[k]);
    }
  }

  /** So there is only one lowest list, whoever computes it. */
  lemma LowestUnique(status: map<string, byte>, n: nat, num: nat, a: seq<nat>, b: seq<nat>)
    requires IsLowest(status, n, num, a) && IsLowest(status, n, num, b)
    ensures a == b
  {
    forall k | 0 <= k < |b|
      ensures k < |a| && a[k] <= b[k]
    {
      LowestBelow(status, n, num, a, b, k);
    }
    forall k | 0 <= k < |a|
      ensures k < |b| && b[k] <= a[k]
    {
      LowestBelow(status, n, num, b, a, k);
    }
    assert |a| == |b| by {
      if |a| < |b| {
        LowestBelow(status, n, num, a, b, |a|);
      } else if |b| < |a| {
        LowestBelow(status, n, num, b, a, |b|);
      }
    }
  }

  function FreeFrom(status: map<string, byte>, k: nat, n: nat): set<string>
    decreases n - k
  {
    if k >= n then {} else FreeFrom(status, k + 1, n) + (if FreeAt(status, k) then {Itoa(k)} else {})
  }

  lemma {:induction false} FreeFromIs(status: map<string, byte>, k: nat, n: nat)
    ensures forall s {:trigger s in FreeFrom(status, k, n)} :: s in FreeFrom(status, k, n) <==>
      IsName(s) && k <= Value(s) < n && FreeAt(status, Value(s))
    decreases n - k
  {
    if k < n {
      FreeFromIs(status, k + 1, n);
      assert Value(Itoa(k)) == k;
    }
  }

  lemma FreeStep(status: map<string, byte>, k: nat, n: nat)
    requires k < n
    ensures |FreeFrom(status, k, n)| == |FreeFrom(status, k + 1, n)| + if FreeAt(status, k) then 1 else 0
  {
    var rest := FreeFrom(status, k + 1, n);
    assert Itoa(k) !in rest by {
      FreeFromIs(status, k + 1, n);
      assert Value(Itoa(k)) == k;
    }
  }

  lemma {:induction false} PicksCount(status: map<string, byte>, k: nat, n: nat, num: nat)
    ensures |Picks(status, k, n, num)| == var free := |FreeFrom(status, k, n)|; if num <= free then num else free
    decreases n - k
  {
    if k < n {
      FreeStep(status, k, n);
      if FreeAt(status, k) {
        if num > 0 {
          PicksCount(status, k + 1, n, num - 1);
        }
      } else {
        PicksCount(status, k + 1, n, num);
      }
    }
  }

  lemma SoundFree(p: Pool)
    requires Sound(p)
    ensures |p.status| == p.total && FreeFrom(p.status, 0, p.total) == p.Free()
  {
    KeysSize(p.total);
    assert |p.status| == |p.status.Keys|;
    FreeFromIs(p.status, 0, p.total);
  }

  /** A request within range fails exactly when fewer processors are free than asked for. */
  lemma TakeIffEnough(p: Pool, num: int)
    requires Sound(p)
    ensures CanTake(p, num) <==> 1 <= num <= p.total && num <= |p.Free()|
  {
    if 1 <= num <= p.total {
      SoundFree(p);
      PicksCount(p.status, 0, p.total, num);
    }
  }

  lemma NamesElems(ks: seq<nat>)
    ensures forall s {:trigger s in Elems(Names(ks))} :: s in Elems(Names(ks)) <==> IsName(s) && Value(s) in ks
    ensures Ascending(ks) ==> NoDup(Names(ks))
  {
  }

  /** What is granted was free and belongs to the machine, and only that changes. */
  lemma WalkGrants(p: Pool, num: nat)
    requires Sound(p)
    ensures Elems(Names(Walk(p, num))) <= p.Free() && NoDup(Names(Walk(p, num)))
  {
    SoundFree(p);
    WalkLowest(p, num);
    NamesElems(Walk(p, num));
    FreeFromIs(p.status, 0, p.total);
  }

  /** A refused request leaves the pool as it was. */
  lemma RefusedUnchanged(p: Pool, num: int)
    requires Sound(p) && !CanTake(p, num)
    ensures Take(p, num) == p
  {
    if 1 <= num <= p.total {
      WalkGrants(p, num);
      MarkUsed(p, Elems(Names(Walk(p, num))));
      MarkTwice(p, Elems(Names(Walk(p, num))));
    }
  }

  // Returning and applying again --------------------------------------------------------------------------

  /** Returning a granted string undoes the grant, so the same request gets the same string again. */
  lemma ApplyRestoreApply(p: Pool, num: int)
    requires Sound(p) && CanTake(p, num)
    ensures var set1 := CpuSet(Walk(p, num));
      var q := Give(Take(p, num), Split(set1, ","));
      q == p && CanTake(q, num) && CpuSet(Walk(q, num)) == set1
  {
    var ks := Walk(p, num);
    SplitCpuSet(ks);
    WalkGrants(p, num);
    MarkUsed(p, Elems(Names(ks)));
  }

  /** Returning processors of the machine makes them free and keeps the key set. */
  lemma GiveBack(p: Pool, ks: seq<nat>)
    requires Sound(p) && Ascending(ks) && forall k :: k in ks ==> k < p.total
    ensures var q := Give(p, Names(ks)); Sound(q) && q.total == p.total && FreeList(q.status, p.total, ks)
  {
    NamesElems(ks);
    var q := Give(p, Names(ks));
    assert Elems(Names(ks)) <= Keys(p.total);
    forall i | 0 <= i < |ks|
      ensures ks[i] < p.total && FreeAt(q.status, ks[i])
    {
      assert Names(ks)[i] in Elems(Names(ks)) && ks[i] in ks;
    }
  }

  /**
    A container that gives its processors back and asks for as many again is never refused, and ends up with
    a rising list that is nowhere above the old one.
   */
  lemma ReapplyCompacts(p: Pool, ks: seq<nat>)
    requires Sound(p) && ks != [] && Ascending(ks) && forall k :: k in ks ==> k < p.total
    ensures var q := Give(p, Split(CpuSet(ks), ","));
      && Sound(q) && CanTake(q, |ks|) && Ascending(Walk(q, |ks|))
      && forall i :: 0 <= i < |ks| ==> Walk(q, |ks|)[i] <= ks[i]
  {
    SplitCpuSet(ks);
    GiveBack(p, ks);
    var q := Give(p, Names(ks));
    SoundFree(q);
    WalkLowest(q, |ks|);
    var now := Walk(q, |ks|);
    forall i | 0 <= i < |ks|
      ensures i < |now| && now[i] <= ks[i]
    {
      LowestBelow(q.status, q.total, |ks|, now, ks, i);
    }
    LowestBelow(q.status, q.total, |ks|, now, ks, |ks| - 1);
    RangeSize(ks, p.total);
  }

  lemma {:induction false} RangeSize(ks: seq<nat>, n: nat)
    requires Ascending(ks) && forall k :: k in ks ==> k < n
    ensures |ks| <= n
  {
    if ks != [] {
      var last := ks[|ks| - 1];
      assert last in ks;
      RangeSize(ks[..|ks| - 1], last);
    }
  }

  // The empty cpuset --------------------------------------------------------------------------------------

  /** Returning names keeps the key set exactly when every one of them is a processor of the machine. */
  lemma GiveSoundIff(p: Pool, cpus: seq<string>)
    requires Sound(p)
    ensures Sound(Give(p, cpus)) <==> Elems(cpus) <= Keys(p.total)
  {
  }

  lemma NotKeys(n: nat)
    ensures "" !in Keys(n) && Itoa(n) !in Keys(n)
  {
  }

  /** With the extra key the walk has one more index, and a processor there counts as free. */
  lemma ExtraKey(p: Pool, q: Pool)
    requires Sound(p) && q == Give(p, [""])
    ensures |q.status| == p.total + 1 && !Sound(q) && q.total == p.total
    ensures Itoa(p.total) !in Keys(p.total) && FreeAt(q.status, p.total)
  {
    KeysSize(p.total);
    NotKeys(p.total);
    assert Elems([""]) == {""};
    MarkNew(p, "", 0);
    assert |p.status| == |p.status.Keys|;
    assert "" in q.status.Keys;
  }

  lemma OnlyExtraFree(p: Pool, q: Pool)
    requires Sound(p) && q == Give(p, [""]) && p.Free() == {} && FreeAt(q.status, p.total)
    ensures IsLowest(q.status, p.total + 1, 1, [p.total])
  {
    forall j: nat | j < p.total
      ensures !FreeAt(q.status, j)
    {
      assert Value(Itoa(j)) == j;
      assert Itoa(j) in p.status && Itoa(j) !in p.Free();
    }
  }

  /**
    The empty cpuset splits into one empty name. Returning it adds that name as a key; with every processor
    taken, the walk then runs one index further and hands out processor n of a machine numbered 0..n-1.
   */
  lemma EmptyCpuSetGrantsMissing(p: Pool)
    requires Sound(p) && p.total >= 1 && p.Free() == {}
    ensures var q := Give(p, Split("", ","));
      && !Sound(q) && !CanTake(p, 1) && CanTake(q, 1)
      && CpuSet(Walk(q, 1)) == Itoa(p.total) && Itoa(p.total) !in Keys(p.total)
  {
    var q, n := Give(p, [""]), p.total;
    TakeIffEnough(p, 1);
    ExtraKey(p, q);
    OnlyExtraFree(p, q);
    WalkLowest(q, 1);
    LowestUnique(q.status, n + 1, 1, Walk(q, 1), [n]);
    assert Names([n]) == [Itoa(n)];
  }

  // Any number of clients ---------------------------------------------------------------------------------

  function AfterCall(p: Pool, call: Call): Pool {
    match call
    case Apply(_, num, _) => Take(p, num)
    case Restore(_, units) => Give(p, units)
  }

  ghost predicate LegalCall(p: Pool, held: map<string, set<string>>, call: Call) {
    match call
    case Apply(_, num, granted) => granted == if CanTake(p, num) then Names(Walk(p, num)) else []
    case Restore(client, units) => Returnable(held, client, units)
  }

  ghost predicate LegalCalls(p: Pool, held: map<string, set<string>>, calls: seq<Call>)
    decreases calls
  {
    calls != [] ==>
      LegalCall(p, held, calls[0]) && LegalCalls(AfterCall(p, calls[0]), HeldAfter(held, calls[0]), calls[1..])
  }

  function AfterCalls(p: Pool, calls: seq<Call>): Pool
    decreases calls
  {
    if calls == [] then p else AfterCalls(AfterCall(p, calls[0]), calls[1..])
  }

  lemma CallExact(p: Pool, held: map<string, set<string>>, call: Call)
    requires Sound(p) && Exact(p.Used(), held) && LegalCall(p, held, call)
    ensures var q := AfterCall(p, call); q.total == p.total && Sound(q) && Exact(q.Used(), HeldAfter(held, call))
  {
    match call
    case Apply(client, num, granted) =>
      if CanTake(p, num) {
        WalkGrants(p, num);
        MarkUsed(p, Elems(granted));
      } else {
        RefusedUnchanged(p, num);
        assert p.Used() + Elems(granted) == p.Used();
      }
      GrantExact(p.Used(), held, client, Elems(granted));
    case Restore(client, units) =>
      MarkFree(p, Elems(units));
      ReturnExact(p.Used(), held, client, Elems(units));
  }

  /** Over any interleaving, no processor is shared, and the key set stays the machine's. */
  lemma {:induction false} RunExact(p: Pool, held: map<string, set<string>>, calls: seq<Call>)
    requires Sound(p) && Exact(p.Used(), held) && LegalCalls(p, held, calls)
    ensures var q := AfterCalls(p, calls);
      && Exact(q.Used(), HeldAfterAll(held, calls))
      && q.status.Keys == Keys(p.total) && q.Free() + q.Used() == Keys(p.total) && q.Free() !! q.Used()
    decreases calls
  {
    FreeAndUsed(p);
    if calls != [] {
      CallExact(p, held, calls[0]);
      RunExact(AfterCall(p, calls[0]), HeldAfter(held, calls[0]), calls[1..]);
    }
  }
}
