/**
  internal/workQueue: a bounded channel, one loop that receives from it, and a goroutine per received item that
  writes to the store and sends the item back if the write fails. Goroutines run in any order.
 */
module WorkQueue {
  import opened Prelude
  import opened Mvcc

  const MAX_CONTAINER_COUNT := 110

  type Item = Op<string, string>

  /**
    buffer: the channel; senders: callers blocked in, or about to do, a send; held: the item the loop has received
    and not yet given to a goroutine; putting: goroutines that have not called the store yet; requeueing:
    goroutines whose write failed; order: everything ever submitted, in submission order.
   */
  datatype Sys = Sys(
    buffer: seq<Item>, senders: multiset<Item>, held: Option<Item>,
    putting: multiset<Item>, requeueing: multiset<Item>, wg: nat,
    log: seq<Item>, order: seq<Item>) {

    ghost function Outstanding(): multiset<Item> {
      senders + multiset(buffer) + (if held.Some? then multiset{held.value} else multiset{}) + putting + requeueing
    }
  }

  const IDLE := Sys([], multiset{}, None, multiset{}, multiset{}, 0, [], [])

  datatype Step =
    | Submit(item: Item)
    | Send(item: Item)
    | Receive
    | Spawn
    | PutOk(item: Item)
    | PutFail(item: Item)
    | Requeue(item: Item)

  predicate Enabled(s: Sys, e: Step) {
    match e
    case Submit(_) => true
    case Send(x) => x in s.senders && |s.buffer| < MAX_CONTAINER_COUNT
    case Receive => s.buffer != [] && s.held.None?
    case Spawn => s.held.Some?
    case PutOk(x) => x in s.putting
    case PutFail(x) => x in s.putting
    case Requeue(x) => x in s.requeueing && |s.buffer| < MAX_CONTAINER_COUNT && s.wg > 0
  }

  function Next(s: Sys, e: Step): Sys
    requires Enabled(s, e)
  {
    match e
    case Submit(x) => s.(senders := s.senders + multiset{x}, order := s.order + [x])
    case Send(x) => s.(senders := s.senders - multiset{x}, buffer := s.buffer + [x])
    case Receive => s.(held := Some(s.buffer[0]), buffer := s.buffer[1..])
    case Spawn => s.(putting := s.putting + multiset{s.held.value}, held := None, wg := s.wg + 1)
    case PutOk(x) => s.(putting := s.putting - multiset{x}, log := s.log + [x], wg := if s.wg > 0 then s.wg - 1 else 0)
    case PutFail(x) => s.(putting := s.putting - multiset{x}, requeueing := s.requeueing + multiset{x})
    case Requeue(x) => s.(requeueing := s.requeueing - multiset{x}, buffer := s.buffer + [x], wg := s.wg - 1)
  }

  ghost predicate LegalRun(s: Sys, es: seq<Step>)
    decreases es
  {
    es == [] || (Enabled(s, es[0]) && LegalRun(Next(s, es[0]), es[1..]))
  }

  function Run(s: Sys, es: seq<Step>): Sys
    requires LegalRun(s, es)
    decreases es
  {
    if es == [] then s else Run(Next(s, es[0]), es[1..])
  }

  // Conservation ------------------------------------------------------------------------------------------

  /** Nothing submitted is lost or doubled; the wait group counts the goroutines; the channel is bounded. */
  ghost predicate Conserved(s: Sys) {
    && multiset(s.order) == multiset(s.log) + s.Outstanding()
    && s.wg == |s.putting| + |s.requeueing|
    && |s.buffer| <= MAX_CONTAINER_COUNT
  }

  lemma SenderStep(s: Sys, e: Step)
    requires Enabled(s, e) && (e.Submit? || e.Send? || e.Receive?)
    ensures Next(s, e).Outstanding() == s.Outstanding() + if e.Submit? then multiset{e.item} else multiset{}
  {
    if e.Receive? {
      assert s.buffer == [s.buffer[0]] + s.buffer[1..];
    }
  }

  lemma WorkerStep(s: Sys, e: Step)
    requires Enabled(s, e) && (e.Spawn? || e.PutFail? || e.Requeue?)
    ensures Next(s, e).Outstanding() == s.Outstanding()
  {
  }

  lemma PutStep(s: Sys, x: Item)
    requires Enabled(s, PutOk(x))
    ensures s.Outstanding() == Next(s, PutOk(x)).Outstanding() + multiset{x}
    ensures s.Outstanding()[x] >= 1
  {
  }

  lemma StepCounts(s: Sys, e: Step)
    requires s.wg == |s.putting| + |s.requeueing| && |s.buffer| <= MAX_CONTAINER_COUNT && Enabled(s, e)
    ensures var t := Next(s, e); t.wg == |t.putting| + |t.requeueing| && |t.buffer| <= MAX_CONTAINER_COUNT
  {
  }

  lemma StepConserved(s: Sys, e: Step)
    requires Conserved(s) && Enabled(s, e)
    ensures Conserved(Next(s, e))
  {
    StepCounts(s, e);
    match e
    case PutOk(x) => PutStep(s, x);
    case Spawn => WorkerStep(s, e);
    case PutFail(_) => WorkerStep(s, e);
    case Requeue(_) => WorkerStep(s, e);
    case _ => SenderStep(s, e);
  }

  lemma {:induction false} RunConserved(s: Sys, es: seq<Step>)
    requires Conserved(s) && LegalRun(s, es)
    ensures Conserved(Run(s, es))
    decreases es
  {
    if es != [] {
      StepConserved(s, es[0]);
      RunConserved(Next(s, es[0]), es[1..]);
    }
  }

  // Progress ----------------------------------------------------------------------------------------------

  /** The steps the system takes by itself when the store answers. */
  predicate Good(e: Step) {
    !e.Submit? && !e.PutFail?
  }

  /** How many such steps the outstanding items still need. */
  ghost function Rank(s: Sys): nat {
    4 * |s.senders| + 4 * |s.requeueing| + 3 * |s.buffer| + (if s.held.Some? then 2 else 0) + |s.putting|
  }

  lemma GoodStep(s: Sys, e: Step)
    requires Conserved(s) && Enabled(s, e) && Good(e)
    ensures Rank(Next(s, e)) == Rank(s) - 1
  {
  }

  /** While anything is outstanding some good step is possible, even with a full channel of failed items. */
  lemma NeverStuck(s: Sys) returns (e: Step)
    requires Conserved(s) && s.Outstanding() != multiset{}
    ensures Good(e) && Enabled(s, e)
  {
    if s.held.Some? {
      e := Spawn;
    } else if s.buffer != [] {
      e := Receive;
    } else if s.putting != multiset{} {
      var x :| x in s.putting;
      e := PutOk(x);
    } else if s.requeueing != multiset{} {
      var x :| x in s.requeueing;
      assert s.requeueing[x] <= |s.requeueing|;
      e := Requeue(x);
    } else {
      assert s.Outstanding() == s.senders;
      var x :| x in s.senders;
      e := Send(x);
    }
  }

  ghost predicate AllGood(es: seq<Step>) {
    forall i :: 0 <= i < |es| ==> Good(es[i])
  }

  lemma Drained(s: Sys)
    requires Conserved(s) && Rank(s) == 0
    ensures s.Outstanding() == multiset{} && multiset(s.log) == multiset(s.order)
  {
  }

  lemma SomethingLeft(s: Sys)
    requires Rank(s) > 0
    ensures s.Outstanding() != multiset{}
  {
    assert |s.Outstanding()| > 0;
  }

  lemma Advance(s: Sys) returns (e: Step, t: Sys)
    requires Conserved(s) && Rank(s) > 0
    ensures Good(e) && Enabled(s, e) && t == Next(s, e) && Conserved(t) && Rank(t) == Rank(s) - 1
  {
    SomethingLeft(s);
    e := NeverStuck(s);
    GoodStep(s, e);
    StepConserved(s, e);
    t := Next(s, e);
  }

  /** A run of good steps as long as the rank exists. */
  lemma {:induction false} DrainingRun(s: Sys) returns (es: seq<Step>)
    requires Conserved(s)
    ensures LegalRun(s, es) && AllGood(es) && |es| == Rank(s)
    decreases Rank(s)
  {
    es := [];
    if Rank(s) > 0 {
      var e, t := Advance(s);
      var rest := DrainingRun(t);
      es := [e] + rest;
      assert es[0] == e && es[1..] == rest;
      RunStep(s, es);
      AllGoodCons(e, rest);
    }
  }

  lemma AllGoodCons(e: Step, es: seq<Step>)
    requires Good(e) && AllGood(es)
    ensures AllGood([e] + es)
  {
  }

  lemma {:induction false} GoodRunShort(s: Sys, es: seq<Step>)
    requires Conserved(s) && LegalRun(s, es) && AllGood(es)
    ensures |es| <= Rank(s) && Rank(Run(s, es)) == Rank(s) - |es|
    decreases es
  {
    if es != [] {
      GoodStep(s, es[0]);
      StepConserved(s, es[0]);
      GoodRunShort(Next(s, es[0]), es[1..]);
    }
  }

  /**
    Once submissions and failures cease, runs are no longer than the rank; one that long exists, and after it
    everything submitted has been applied.
   */
  lemma Drains(s: Sys) returns (es: seq<Step>)
    requires Conserved(s)
    ensures LegalRun(s, es) && AllGood(es) && |es| == Rank(s)
    ensures var t := Run(s, es); multiset(t.log) == multiset(t.order) && t.Outstanding() == multiset{}
  {
    es := DrainingRun(s);
    GoodRunShort(s, es);
    RunConserved(s, es);
    Drained(Run(s, es));
  }

  // Order -------------------------------------------------------------------------------------------------

  /** The items for one key, in order. */
  function Filter(items: seq<Item>, key: string): seq<Item> {
    if items == [] then []
    else
      var last := items[|items| - 1];
      Filter(items[..|items| - 1], key) + (if last.key == key then [last] else [])
  }

  lemma FilterAppend(items: seq<Item>, x: Item, key: string)
    ensures Filter(items + [x], key) == Filter(items, key) + (if x.key == key then [x] else [])
  {
  }

  /** At most one item of every key is on its way. */
  ghost predicate OneEach(out: multiset<Item>) {
    forall a, b :: a in out && b in out && a.key == b.key ==> a == b && out[a] == 1
  }

  ghost predicate AlwaysOneEach(s: Sys, es: seq<Step>)
    requires LegalRun(s, es)
    decreases es
  {
    OneEach(s.Outstanding()) && (es != [] ==> AlwaysOneEach(Next(s, es[0]), es[1..]))
  }

  ghost predicate Busy(s: Sys, key: string) {
    exists x :: x in s.Outstanding() && x.key == key
  }

  /** The store has every key's submissions in submission order, minus the outstanding one. */
  ghost predicate InOrder(s: Sys) {
    && (forall x :: x in s.Outstanding() ==> Filter(s.order, x.key) == Filter(s.log, x.key) + [x])
    && (forall key :: !Busy(s, key) ==> Filter(s.order, key) == Filter(s.log, key))
  }

  lemma SameOutstanding(s: Sys, t: Sys)
    requires InOrder(s) && t.order == s.order && t.log == s.log && t.Outstanding() == s.Outstanding()
    ensures InOrder(t)
  {
  }

  lemma SubmitInOrder(s: Sys, x: Item)
    requires InOrder(s) && OneEach(Next(s, Submit(x)).Outstanding())
    ensures InOrder(Next(s, Submit(x)))
  {
    var t := Next(s, Submit(x));
    SenderStep(s, Submit(x));
    assert x in t.Outstanding();
    assert !Busy(s, x.key) by {
      forall y | y in s.Outstanding()
        ensures y.key != x.key
      {
        assert y in t.Outstanding() && (y == x ==> t.Outstanding()[x] >= 2);
      }
    }
    forall y | y in t.Outstanding()
      ensures Filter(t.order, y.key) == Filter(t.log, y.key) + [y]
    {
      FilterAppend(s.order, x, y.key);
    }
    forall key | !Busy(t, key)
      ensures Filter(t.order, key) == Filter(t.log, key)
    {
      FilterAppend(s.order, x, key);
      assert !Busy(s, key) by {
        forall y | y in s.Outstanding()
          ensures y.key != key
        {
          assert y in t.Outstanding();
        }
      }
    }
  }

  lemma StillIdle(s: Sys, t: Sys, x: Item, key: string)
    requires s.Outstanding() == t.Outstanding() + multiset{x} && x.key != key && !Busy(t, key)
    ensures !Busy(s, key)
  {
  }

  /** What is still outstanding after a put has another key. */
  lemma PutOthers(s: Sys, x: Item, y: Item)
    requires OneEach(s.Outstanding()) && Enabled(s, PutOk(x)) && y in Next(s, PutOk(x)).Outstanding()
    ensures y in s.Outstanding() && y.key != x.key
  {
    PutStep(s, x);
    assert x in s.Outstanding() && y in s.Outstanding() && (y == x ==> s.Outstanding()[x] >= 2);
  }

  lemma PutInOrder(s: Sys, x: Item)
    requires InOrder(s) && OneEach(s.Outstanding()) && Enabled(s, PutOk(x))
    ensures InOrder(Next(s, PutOk(x)))
  {
    var t := Next(s, PutOk(x));
    PutStep(s, x);
    forall y | y in t.Outstanding()
      ensures Filter(t.order, y.key) == Filter(t.log, y.key) + [y]
    {
      PutOthers(s, x, y);
      FilterAppend(s.log, x, y.key);
    }
    forall key | !Busy(t, key)
      ensures Filter(t.order, key) == Filter(t.log, key)
    {
      FilterAppend(s.log, x, key);
      if key != x.key {
        StillIdle(s, t, x, key);
      }
    }
  }

  lemma StepInOrder(s: Sys, e: Step)
    requires InOrder(s) && OneEach(s.Outstanding()) && Enabled(s, e) && OneEach(Next(s, e).Outstanding())
    ensures InOrder(Next(s, e))
  {
    match e
    case Submit(x) => SubmitInOrder(s, x);
    case PutOk(x) => PutInOrder(s, x);
    case Send(_) =>
      SenderStep(s, e);
      SameOutstanding(s, Next(s, e));
    case Receive =>
      SenderStep(s, e);
      SameOutstanding(s, Next(s, e));
    case _ =>
      WorkerStep(s, e);
      SameOutstanding(s, Next(s, e));
  }

  lemma {:induction false} RunInOrder(s: Sys, es: seq<Step>)
    requires InOrder(s) && LegalRun(s, es) && AlwaysOneEach(s, es)
    ensures InOrder(Run(s, es))
    decreases es
  {
    if es != [] {
      StepInOrder(s, es[0]);
      RunInOrder(Next(s, es[0]), es[1..]);
    }
  }

  /** What a store holds for a key depends only on that key's writes. */
  lemma {:induction false} WrittenFilter(h: seq<string>, items: seq<Item>, key: string)
    ensures WrittenAll(h, Filter(items, key), key) == WrittenAll(h, items, key)
    decreases |items|
  {
    if items != [] {
      var init, last := items[..|items| - 1], items[|items| - 1];
      WrittenFilter(h, init, key);
      if last.key == key {
        WrittenAppend(h, Filter(init, key), last, key);
      } else {
        assert Filter(items, key) == Filter(init, key);
      }
    }
  }

  /** The store to which these items have been applied, in this order. */
  function Store(items: seq<Item>): seq<Item> {
    CommitAll([], items)
  }

  lemma SameFilterSameHistory(a: seq<Item>, b: seq<Item>, key: string)
    requires Filter(a, key) == Filter(b, key)
    ensures Lived(Store(a), key) == Lived(Store(b), key)
    ensures var g, h := History(Store(a), key, |Store(a)|), History(Store(b), key, |Store(b)|);
      |g| == |h| && forall i :: 0 <= i < |g| ==> g[i].version == h[i].version && g[i].value == h[i].value
  {
    CommitAllLived([], a, key);
    CommitAllLived([], b, key);
    WrittenFilter([], a, key);
    WrittenFilter([], b, key);
    HistoryNumbered(Store(a), key, |Store(a)|);
    HistoryNumbered(Store(b), key, |Store(b)|);
    var g, v, w := History(Store(a), key, |Store(a)|), Lived(Store(a), key), Lived(Store(b), key);
    assert forall i :: 0 <= i < |g| ==> v[i] == w[i];
  }

  /**
    Refinement: in any reachable state, a key with nothing outstanding has in the store exactly the history
    that a sequential store would have after that key's submissions in submission order.
   */
  lemma QueueRefinesReplay(es: seq<Step>, key: string)
    requires LegalRun(IDLE, es) && AlwaysOneEach(IDLE, es)
    ensures var s := Run(IDLE, es);
      && (!Busy(s, key) ==>
           var g, h := History(Store(s.log), key, |Store(s.log)|), History(Store(s.order), key, |Store(s.order)|);
           |g| == |h| && forall i :: 0 <= i < |g| ==> g[i].version == h[i].version && g[i].value == h[i].value)
      && (forall x :: x in s.Outstanding() && x.key == key ==> Filter(s.order, key) == Filter(s.log, key) + [x])
  {
    RunInOrder(IDLE, es);
    var s := Run(IDLE, es);
    if !Busy(s, key) {
      SameFilterSameHistory(s.log, s.order, key);
    }
  }

  // Without that discipline -------------------------------------------------------------------------------

  /** Steps that only move an item towards its goroutine. */
  predicate Moving(e: Step) {
    e.Send? || e.Receive? || e.Spawn? || e.Requeue?
  }

  lemma MoveOne(s: Sys, e: Step)
    requires Conserved(s) && Enabled(s, e) && Moving(e)
    ensures var t := Next(s, e);
      && Conserved(t) && Rank(t) < Rank(s) && t.Outstanding() == s.Outstanding()
      && t.log == s.log && t.order == s.order && s.putting <= t.putting
  {
    StepConserved(s, e);
    GoodStep(s, e);
    MoveSame(s, e);
  }

  lemma MoveSame(s: Sys, e: Step)
    requires Enabled(s, e) && Moving(e)
    ensures var t := Next(s, e);
      t.Outstanding() == s.Outstanding() && t.log == s.log && t.order == s.order && s.putting <= t.putting
  {
    if e.Send? || e.Receive? {
      SenderStep(s, e);
    } else {
      WorkerStep(s, e);
    }
  }

  /** The next such step for item x. */
  lemma NextMove(s: Sys, x: Item) returns (e: Step)
    requires Conserved(s) && x in s.Outstanding() && x !in s.putting
    ensures Moving(e) && Enabled(s, e)
  {
    if s.held.Some? {
      e := Spawn;
    } else if s.buffer != [] {
      e := Receive;
    } else if x in s.senders {
      e := Send(x);
    } else {
      assert x in s.requeueing && s.requeueing[x] <= |s.requeueing|;
      e := Requeue(x);
    }
  }

  /** Any outstanding item can be brought to the point where its goroutine calls the store. */
  lemma {:induction false} Bring(s: Sys, x: Item) returns (es: seq<Step>)
    requires Conserved(s) && x in s.Outstanding()
    ensures LegalRun(s, es)
    ensures var t := Run(s, es);
      && Conserved(t) && x in t.putting && s.putting <= t.putting && t.Outstanding() == s.Outstanding()
      && t.log == s.log && t.order == s.order
    decreases Rank(s)
  {
    es := [];
    if x !in s.putting {
      var e := NextMove(s, x);
      MoveOne(s, e);
      var rest := Bring(Next(s, e), x);
      es := [e] + rest;
      assert es[0] == e && es[1..] == rest;
      RunStep(s, es);
    }
  }

  /**
    From every reachable state, two different outstanding items can reach the store next in either order, whatever
    the order in which they were submitted.
   */
  lemma EitherOrder(s: Sys, x: Item, y: Item) returns (es: seq<Step>)
    requires Conserved(s) && x in s.Outstanding() && y in s.Outstanding() && x != y
    ensures LegalRun(s, es)
    ensures Run(s, es).log == s.log + [x, y] && Run(s, es).order == s.order && Conserved(Run(s, es))
  {
    var a := Bring(s, x);
    var t := Run(s, a);
    var b := Bring(t, y);
    var u := Run(t, b);
    var c := PutBoth(u, x, y);
    RunConcat(t, b, c);
    RunConcat(s, a, b + c);
    es := a + (b + c);
    RunConserved(s, es);
  }

  lemma PutBoth(s: Sys, x: Item, y: Item) returns (es: seq<Step>)
    requires x in s.putting && y in s.putting && x != y
    ensures LegalRun(s, es) && Run(s, es).log == s.log + [x, y] && Run(s, es).order == s.order
  {
    es := [PutOk(x), PutOk(y)];
    var t := Next(s, PutOk(x));
    assert y in t.putting;
    assert es[1..] == [PutOk(y)] && [PutOk(y)][1..] == [];
    RunStep(t, es[1..]);
    RunStep(s, es);
  }

  /** For instance: two puts of one key from the start, and the store ends up with the older value. */
  lemma TwoOutstandingReorder(key: string, a: string, b: string) returns (es: seq<Step>)
    requires a != b
    ensures LegalRun(IDLE, es)
    ensures var s := Run(IDLE, es);
      && s.order == [Put(key, a), Put(key, b)] && s.Outstanding() == multiset{}
      && s.log == [Put(key, b), Put(key, a)]
  {
    var x, y: Item := Put(key, a), Put(key, b);
    var s := IDLE.(senders := multiset{x, y}, order := [x, y]);
    var submit := Submitted(x, y, s);
    var rest := EitherOrder(s, y, x);
    RunConcat(IDLE, submit, rest);
    es := submit + rest;
    var t := Run(IDLE, es);
    assert multiset(t.order) == multiset(t.log) + t.Outstanding();
    assert multiset(t.order) == multiset{x, y} == multiset(t.log);
  }

  lemma Submitted(x: Item, y: Item, t: Sys) returns (es: seq<Step>)
    requires t == IDLE.(senders := multiset{x, y}, order := [x, y])
    ensures LegalRun(IDLE, es) && Run(IDLE, es) == t && Conserved(t)
  {
    es := [Submit(x), Submit(y)];
    var s := Next(IDLE, Submit(x));
    assert es[1..] == [Submit(y)] && [Submit(y)][1..] == [];
    assert Next(s, Submit(y)) == t;
    RunStep(s, es[1..]);
    RunStep(IDLE, es);
    assert t.Outstanding() == multiset{x, y};
  }

  lemma {:induction false} RunConcat(s: Sys, a: seq<Step>, b: seq<Step>)
    requires LegalRun(s, a) && LegalRun(Run(s, a), b)
    ensures LegalRun(s, a + b) && Run(s, a + b) == Run(Run(s, a), b)
    decreases a
  {
    if a == [] {
      assert a + b == b;
    } else {
      var t := Next(s, a[0]);
      assert LegalRun(t, a[1..]) && Run(s, a) == Run(t, a[1..]);
      RunConcat(t, a[1..], b);
      assert (a + b)[0] == a[0] && (a + b)[1..] == a[1..] + b;
      RunStep(s, a + b);
    }
  }

  lemma RunStep(s: Sys, es: seq<Step>)
    requires es != [] && Enabled(s, es[0]) && LegalRun(Next(s, es[0]), es[1..])
    ensures LegalRun(s, es) && Run(s, es) == Run(Next(s, es[0]), es[1..])
  {
  }
}
