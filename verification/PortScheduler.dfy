/**
  internal/schedulers/portscheduler.go: host ports are drawn at random and rejected while they are in use.
  The random source is a stream of numbers for every width; a stream is fair when every number below the width keeps
  coming back.
 */
module PortScheduling {
  import opened Prelude
  import opened Text
  import opened Pools
  import opened Ledger
  import opened Clients

  datatype Ports = Ports(start: nat, end: int, count: int, used: set<string>) {
    function Width(): int {
      end - start + 1
    }
  }

  predicate CanTake(p: Ports, num: int) {
    1 <= num <= p.count && num <= p.Width() - |p.used|
  }

  /** What a granted request may return: num different ports of the range, none of them in use. */
  ghost predicate IsGrant(p: Ports, num: int, ports: seq<string>) {
    && |ports| == num && NoDup(ports)
    && Elems(ports) !! p.used && Elems(ports) <= Range(p.start, p.Width())
  }

  /** The state after Restore(ports): a list that is empty or longer than the range is ignored. */
  function Give(p: Ports, ports: seq<string>): Ports {
    if |ports| <= 0 || |ports| > p.count then p else p.(used := p.used - Elems(ports))
  }

  /** The decimal names of the n ports from start on. */
  function Range(start: nat, n: int): set<string>
    decreases n
  {
    if n <= 0 then {} else Range(start, n - 1) + {Itoa(start + n - 1)}
  }

  lemma {:induction false} Ranged(start: nat, n: int, s: string)
    requires s in Range(start, n)
    ensures AllDigits(s) && start <= Value(s) < start + n && Itoa(Value(s)) == s
    decreases n
  {
    if s in Range(start, n - 1) {
      Ranged(start, n - 1, s);
    }
  }

  lemma {:induction false} RangeCount(start: nat, n: int)
    requires n >= 0
    ensures |Range(start, n)| == n
    decreases n
  {
    if n > 0 {
      RangeCount(start, n - 1);
      var last := Itoa(start + n - 1);
      if last in Range(start, n - 1) {
        Ranged(start, n - 1, last);
      }
    }
  }

  lemma InRange(start: nat, n: int)
    ensures forall s {:trigger s in Range(start, n)} :: s in Range(start, n) ==>
      AllDigits(s) && start <= Value(s) < start + n && Itoa(Value(s)) == s
    ensures n >= 0 ==> |Range(start, n)| == n
  {
    forall s | s in Range(start, n)
      ensures AllDigits(s) && start <= Value(s) < start + n && Itoa(Value(s)) == s
    {
      Ranged(start, n, s);
    }
    if n >= 0 {
      RangeCount(start, n);
    }
  }

  lemma {:induction false} NamedInRange(start: nat, n: int, v: nat)
    requires v < n
    ensures Itoa(start + v) in Range(start, n)
    decreases n
  {
    if v < n - 1 {
      NamedInRange(start, n - 1, v);
    }
  }

  // Fair random streams -----------------------------------------------------------------------------------

  /** The results of the successive calls rand.IntN(width). */
  type Stream = nat -> nat

  predicate Hit(draws: Stream, v: nat, j: nat) {
    draws(j) == v
  }

  ghost predicate HitFrom(draws: Stream, v: nat, i: nat) {
    exists j: nat :: i <= j && Hit(draws, v, j)
  }

  /** Every result is below width, and every number below width comes up again and again. */
  ghost predicate Fair(draws: Stream, width: int) {
    && (forall j: nat :: draws(j) < width)
    && forall v: nat, i: nat :: v < width ==> HitFrom(draws, v, i)
  }

  /** The streams for all widths. */
  type Source = nat -> Stream

  ghost predicate FairSource(source: Source) {
    forall w: nat :: w >= 1 ==> Fair(source(w), w)
  }

  /** Such sources exist: going round and round is one. */
  function RoundRobin(w: nat): Stream {
    (j: nat) => if w == 0 then 0 else j % w
  }

  lemma RoundRobinFair()
    ensures FairSource(RoundRobin)
  {
    forall w: nat | w >= 1
      ensures Fair(RoundRobin(w), w)
    {
      forall v: nat, i: nat | v < w
        ensures HitFrom(RoundRobin(w), v, i)
      {
        assert i * w >= i;
        Remainder(i, w, v);
        assert Hit(RoundRobin(w), v, i * w + v);
      }
    }
  }

  lemma Remainder(q: nat, w: nat, v: nat)
    requires v < w
    ensures (q * w + v) % w == v
  {
    var x := q * w + v;
    var d := q - x / w;
    assert x == (x / w) * w + x % w;
    assert d * w == x % w - v;
    Multiples(d, w);
  }

  lemma Multiples(d: int, w: int)
    requires w >= 0
    ensures (d >= 1 ==> d * w >= w) && (d <= -1 ==> d * w <= -w)
  {
  }

  /** The port that draw number j stands for. */
  function Drawn(p: Ports, draws: Stream, j: nat): string {
    Itoa(draws(j) + p.start)
  }

  /** Part of the way: the ports are different, were unused, lie in the range, and are marked. */
  ghost predicate Collected(p: Ports, ports: seq<string>, used: set<string>) {
    && NoDup(ports) && Elems(ports) !! p.used && Elems(ports) <= Range(p.start, p.Width())
    && used == p.used + Elems(ports)
  }

  /** As Collected; and while ports are missing, draw number j, not before the next draw i, yields an unused one. */
  ghost predicate Drawing(p: Ports, num: nat, ports: seq<string>, used: set<string>, draws: Stream, i: nat, j: nat) {
    && |ports| <= num && Collected(p, ports, used)
    && (|ports| < num ==> i <= j && Drawn(p, draws, j) !in used)
  }

  /** As long as fewer ports are used than the range has, some later draw yields an unused port. */
  lemma FreeDrawAhead(p: Ports, ports: seq<string>, used: set<string>, draws: Stream, i: nat) returns (j: nat)
    requires Fair(draws, p.Width()) && Collected(p, ports, used) && |ports| < p.Width() - |p.used|
    ensures i <= j && Drawn(p, draws, j) !in used
  {
    NoDupSize(ports);
    InRange(p.start, p.Width());
    var range := Range(p.start, p.Width());
    var s :| s in range && s !in used by {
      if range <= used {
        SubsetSize(range, used);
      }
    }
    var v := Value(s) - p.start;
    assert HitFrom(draws, v, i);
    j :| i <= j && Hit(draws, v, j);
    assert draws(j) + p.start == Value(s);
  }

  lemma CollectOne(p: Ports, ports: seq<string>, used: set<string>, name: string)
    requires Collected(p, ports, used) && name !in used && name in Range(p.start, p.Width())
    ensures Collected(p, ports + [name], used + {name})
  {
  }

  /** One turn of the loop: a port more, or one draw nearer to an unused port. */
  lemma DrawOne(p: Ports, num: nat, ports: seq<string>, used: set<string>, draws: Stream, i: nat, j: nat)
    returns (k: nat)
    requires Fair(draws, p.Width()) && num <= p.Width() - |p.used|
    requires Drawing(p, num, ports, used, draws, i, j) && |ports| < num
    ensures var name := Drawn(p, draws, i);
      if name in used then k == j > i && Drawing(p, num, ports, used, draws, i + 1, k)
      else Drawing(p, num, ports + [name], used + {name}, draws, i + 1, k)
  {
    var name := Drawn(p, draws, i);
    if name in used {
      k := j;
    } else {
      NamedInRange(p.start, p.Width(), draws(i));
      CollectOne(p, ports, used, name);
      k := i + 1;
      if |ports| + 1 < num {
        k := FreeDrawAhead(p, ports + [name], used + {name}, draws, i + 1);
      }
    }
  }

  lemma DrawingStarts(p: Ports, num: nat, draws: Stream, i: nat) returns (j: nat)
    requires Fair(draws, p.Width()) && 1 <= num <= p.Width() - |p.used|
    ensures Drawing(p, num, [], p.used, draws, i, j)
  {
    j := FreeDrawAhead(p, [], p.used, draws, i);
  }

  lemma DrawingEnds(p: Ports, num: nat, ports: seq<string>, used: set<string>, draws: Stream, i: nat, j: nat)
    requires Drawing(p, num, ports, used, draws, i, j) && |ports| >= num
    ensures |ports| == num && Collected(p, ports, used)
  {
  }

  class PortScheduler {
    var StartPort: nat
    var EndPort: int
    var AvailableCount: int
    var UsedPortSet: set<string>
    const source: Source
    var drawn: nat

    ghost function Abs(): Ports
      reads this
    {
      Ports(StartPort, EndPort, AvailableCount, UsedPortSet)
    }

    ghost predicate Valid()
      reads this
    {
      FairSource(source)
    }

    /** The state read back from etcd: all zero and empty if nothing was stored. */
    constructor (stored: Ports, source: Source)
      requires FairSource(source)
      ensures Valid() && Abs() == stored && this.source == source
    {
      StartPort, EndPort, AvailableCount, UsedPortSet := stored.start, stored.end, stored.count, stored.used;
      this.source := source;
      drawn := 0;
    }

    method InitPortScheduler(portRange: string) returns (ok: bool)
      requires Valid()
      modifies this
      ensures Valid()
      ensures var p := old(Abs());
        if p.start != 0 && p.end != 0 && p.count != 0 then ok && Abs() == p
        else match SplitPortRange(portRange)
          case Some((start, end)) => ok && Abs() == Ports(start, end, end - start + 1, p.used)
          case None => !ok && Abs() == p
    {
      ok := true;
      if StartPort == 0 || EndPort == 0 || AvailableCount == 0 {
        var split := SplitPortRange(portRange);
        if split.None? {
          return false;
        }
        StartPort := split.value.0;
        EndPort := split.value.1;
        AvailableCount := EndPort - StartPort + 1;
      }
    }

    method Apply(num: int) returns (r: Result<seq<string>, AllocError>)
      requires Valid()
      modifies this
      ensures Valid()
      ensures r.Ok? <==> CanTake(old(Abs()), num)
      ensures r == Err(OutOfRange) <==> num <= 0 || num > AvailableCount
      ensures r.Ok? ==> IsGrant(old(Abs()), num, r.value)
      ensures Abs() == old(Abs()).(used := old(UsedPortSet) + if r.Ok? then Elems(r.value) else {})
    {
      if num <= 0 || num > AvailableCount {
        return Err(OutOfRange);
      }
      var availablePortCount := EndPort - StartPort + 1 - |UsedPortSet|;
      if num > availablePortCount {
        return Err(NotEnough);
      }
      var availablePorts := draw(num, source(EndPort - StartPort + 1));
      return Ok(availablePorts);
    }

    /** The loop of Apply; draws are the random numbers for the width of the range. */
    method draw(num: nat, draws: Stream) returns (availablePorts: seq<string>)
      requires Fair(draws, Abs().Width()) && 1 <= num <= Abs().Width() - |UsedPortSet|
      modifies this`UsedPortSet, this`drawn
      ensures |availablePorts| == num && Collected(old(Abs()), availablePorts, UsedPortSet)
    {
      ghost var p := Abs();
      availablePorts := [];
      ghost var ahead: nat := DrawingStarts(p, num, draws, drawn);
      while |availablePorts| < num
        invariant Drawing(p, num, availablePorts, UsedPortSet, draws, drawn, ahead)
        decreases num - |availablePorts|, ahead - drawn
      {
        ahead := DrawOne(p, num, availablePorts, UsedPortSet, draws, drawn, ahead);
        var port := drawPort(draws);
        if port.Some? {
          availablePorts := availablePorts + [port.value];
        }
      }
      DrawingEnds(p, num, availablePorts, UsedPortSet, draws, drawn, ahead);
    }

    /** One random port, if it is not in use yet. */
    method drawPort(draws: Stream) returns (port: Option<string>)
      modifies this`UsedPortSet, this`drawn
      ensures drawn == old(drawn) + 1
      ensures var name := Drawn(old(Abs()), draws, old(drawn));
        if name in old(UsedPortSet) then port == None && UsedPortSet == old(UsedPortSet)
        else port == Some(name) && UsedPortSet == old(UsedPortSet) + {name}
    {
      port := None;
      var randomPort := draws(drawn) + StartPort;
      drawn := drawn + 1;
      var portStr := Itoa(randomPort);
      if portStr !in UsedPortSet {
        UsedPortSet := UsedPortSet + {portStr};
        port := Some(portStr);
      }
    }

    method Restore(ports: seq<string>)
      modifies this`UsedPortSet
      ensures Abs() == Give(old(Abs()), ports)
    {
      if |ports| <= 0 || |ports| > AvailableCount {
        return;
      }
      restore(ports);
    }

    method restore(ports: seq<string>)
      modifies this`UsedPortSet
      ensures UsedPortSet == old(UsedPortSet) - Elems(ports)
    {
      for i := 0 to |ports|
        invariant UsedPortSet == old(UsedPortSet) - Elems(ports[..i])
      {
        UsedPortSet := UsedPortSet - {ports[i]};
        AppendNew(ports[..i], ports[i]);
        assert ports[..i + 1] == ports[..i] + [ports[i]];
      }
      assert ports[..|ports|] == ports;
    }

    /** A copy; the original sorts the names before it inserts them, which leaves no trace in a set. */
    method GetPortStatus() returns (copy: PortScheduler)
      requires Valid()
      ensures fresh(copy) && copy.Abs() == Abs() && copy.Valid()
    {
      copy := new PortScheduler(Ports(StartPort, EndPort, AvailableCount, {}), source);
      var keys := UsedPortSet;
      while keys != {}
        invariant keys <= UsedPortSet
        invariant copy.Abs() == Abs().(used := UsedPortSet - keys)
        decreases keys
      {
        var k :| k in keys;
        keys := keys - {k};
        copy.UsedPortSet := copy.UsedPortSet + {k};
      }
    }

    /** What GET /resources/ports reports, internal/routers/resource.go. */
    method GetPorts() returns (status: PortScheduler)
      requires Valid()
      ensures fresh(status) && status.Abs() == Abs().(count := Reported(Abs()))
    {
      status := GetPortStatus();
      status.AvailableCount := status.AvailableCount - |status.UsedPortSet|;
    }
  }

  function Reported(p: Ports): int {
    p.count - |p.used|
  }

  // The port range option ---------------------------------------------------------------------------------

  function SplitPortRange(portRange: string): (r: Option<(int, int)>)
    ensures r.Some? ==> 0 <= r.value.0 <= r.value.1 <= 65535
  {
    var parts := Split(portRange, "-");
    if |parts| != 2 then None
    else
      match (Atoi(parts[0]), Atoi(parts[1]))
      case (Some(start), Some(end)) =>
        if start < 0 || start > 65535 || end < 0 || end > 65535 || start > end then None else Some((start, end))
      case _ => None
  }

  ghost predicate Spells(s: string, x: string, y: string, start: int, end: int) {
    s == x + "-" + y && '-' !in x && '-' !in y && Atoi(x) == Some(start) && Atoi(y) == Some(end)
  }

  /** A range is accepted exactly when it is two readable numbers around one dash, in order, below 65536. */
  lemma SplitPortRangeIff(s: string, start: int, end: int)
    ensures SplitPortRange(s) == Some((start, end)) <==>
      0 <= start <= end <= 65535 && exists x, y :: Spells(s, x, y, start, end)
  {
    if SplitPortRange(s) == Some((start, end)) {
      var parts := Split(s, "-");
      JoinSplit(s, "-");
      SplitParts(s, '-');
      assert parts[0] in parts && parts[1] in parts;
      assert Join(parts, "-") == parts[0] + "-" + parts[1] by {
        assert parts[1..] == [parts[1]];
      }
      assert Spells(s, parts[0], parts[1], start, end);
    }
    if 0 <= start <= end <= 65535 && exists x, y :: Spells(s, x, y, start, end) {
      var x, y :| Spells(s, x, y, start, end);
      SplitJoin([x, y], "-");
      assert Join([x, y], "-") == s by {
        assert [x, y][1..] == [y];
      }
    }
  }

  /** Reading undoes printing. */
  lemma SplitPrinted(start: nat, end: nat)
    requires start <= end <= 65535
    ensures SplitPortRange(Itoa(start) + "-" + Itoa(end)) == Some((start, end))
  {
    AtoiItoa(start);
    AtoiItoa(end);
    assert Spells(Itoa(start) + "-" + Itoa(end), Itoa(start), Itoa(end), start, end);
    SplitPortRangeIff(Itoa(start) + "-" + Itoa(end), start, end);
  }

  // Any number of clients ---------------------------------------------------------------------------------

  /** The states that initialisation and use lead to. */
  ghost predicate Sound(p: Ports) {
    p.start <= p.end && p.count == p.Width() && p.used <= Range(p.start, p.Width())
  }

  function AfterCall(p: Ports, call: Call): Ports {
    match call
    case Apply(_, _, granted) => p.(used := p.used + Elems(granted))
    case Restore(_, units) => Give(p, units)
  }

  ghost predicate LegalCall(p: Ports, held: map<string, set<string>>, call: Call) {
    match call
    case Apply(_, num, granted) => if CanTake(p, num) then IsGrant(p, num, granted) else granted == []
    case Restore(client, units) => Returnable(held, client, units)
  }

  ghost predicate LegalCalls(p: Ports, held: map<string, set<string>>, calls: seq<Call>)
    decreases calls
  {
    calls != [] ==>
      LegalCall(p, held, calls[0]) && LegalCalls(AfterCall(p, calls[0]), HeldAfter(held, calls[0]), calls[1..])
  }

  function AfterCalls(p: Ports, calls: seq<Call>): Ports
    decreases calls
  {
    if calls == [] then p else AfterCalls(AfterCall(p, calls[0]), calls[1..])
  }

  /** Returning ports that are in use is never ignored. */
  lemma GiveSound(p: Ports, ports: seq<string>)
    requires Sound(p) && NoDup(ports) && Elems(ports) <= p.used
    ensures Give(p, ports) == p.(used := p.used - Elems(ports)) && Sound(Give(p, ports))
  {
    NoDupSize(ports);
    InRange(p.start, p.Width());
    SubsetSize(Elems(ports), Range(p.start, p.Width()));
    assert ports == [] ==> p.used - Elems(ports) == p.used;
  }

  lemma CallExact(p: Ports, held: map<string, set<string>>, call: Call)
    requires Sound(p) && Exact(p.used, held) && LegalCall(p, held, call)
    ensures var q := AfterCall(p, call);
      Sound(q) && q.start == p.start && q.end == p.end && Exact(q.used, HeldAfter(held, call))
  {
    match call
    case Apply(client, num, granted) =>
      GrantExact(p.used, held, client, Elems(granted));
    case Restore(client, units) =>
      GiveSound(p, units);
      ReturnExact(p.used, held, client, Elems(units));
  }

  /**
    Over any interleaving no port is shared, and after it a request for k ports can be granted exactly when k
    is between one and the number reported as available.
   */
  lemma {:induction false} RunExact(p: Ports, held: map<string, set<string>>, calls: seq<Call>)
    requires Sound(p) && Exact(p.used, held) && LegalCalls(p, held, calls)
    ensures var q := AfterCalls(p, calls);
      && Sound(q) && Exact(q.used, HeldAfterAll(held, calls))
      && Reported(q) + |q.used| == p.Width()
      && forall k :: CanTake(q, k) <==> 1 <= k <= Reported(q)
    decreases calls
  {
    if calls != [] {
      CallExact(p, held, calls[0]);
      RunExact(AfterCall(p, calls[0]), HeldAfter(held, calls[0]), calls[1..]);
    }
  }
}
