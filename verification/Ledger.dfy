/**
  Who holds what. A ledger pairs the set of units an allocator has marked as used with the units that each
  holder believes to be its own. The lemmas say what one allocator action does to the agreement of the two.
 */
module Ledger {
  /** No unit has two holders. */
  ghost predicate Disjoint<O, U>(held: map<O, set<U>>) {
    forall a, b :: a in held && b in held && a != b ==> held[a] !! held[b]
  }

  /** Nobody holds a unit that is not marked, and nobody shares. */
  ghost predicate Covered<O, U>(used: set<U>, held: map<O, set<U>>) {
    Disjoint(held) && forall o :: o in held ==> held[o] <= used
  }

  /** The marked units are exactly the disjoint union of the holdings. */
  ghost predicate Exact<O, U>(used: set<U>, held: map<O, set<U>>) {
    Covered(used, held) && forall u :: u in used ==> exists o :: o in held && u in held[o]
  }

  function HeldBy<O, U>(held: map<O, set<U>>, o: O): set<U> {
    if o in held then held[o] else {}
  }

  /** Granting unmarked units. */
  lemma GrantExact<O, U>(used: set<U>, held: map<O, set<U>>, o: O, units: set<U>)
    requires Exact(used, held) && units !! used
    ensures Exact(used + units, held[o := HeldBy(held, o) + units])
  {
    var held' := held[o := HeldBy(held, o) + units];
    forall u | u in used + units
      ensures exists p :: p in held' && u in held'[p]
    {
      if u in used {
        var p :| p in held && u in held[p];
        assert p in held' && u in held'[p];
      } else {
        assert u in held'[o];
      }
    }
  }

  lemma GrantCovered<O, U>(used: set<U>, held: map<O, set<U>>, o: O, units: set<U>)
    requires Covered(used, held) && units !! used
    ensures Covered(used + units, held[o := HeldBy(held, o) + units])
  {
  }

  /** Returning units that are held. */
  lemma ReturnExact<O, U>(used: set<U>, held: map<O, set<U>>, o: O, units: set<U>)
    requires Exact(used, held) && o in held && units <= held[o]
    ensures Exact(used - units, held[o := held[o] - units])
  {
    var held' := held[o := held[o] - units];
    forall u | u in used - units
      ensures exists p :: p in held' && u in held'[p]
    {
      var p :| p in held && u in held[p];
      assert u in held'[p];
    }
  }

  /** Releasing everything a holder has and forgetting the holder. */
  lemma DropExact<O, U>(used: set<U>, held: map<O, set<U>>, o: O)
    requires Exact(used, held) && o in held
    ensures Exact(used - held[o], held - {o})
  {
    var held' := held - {o};
    forall u | u in used - held[o]
      ensures exists p :: p in held' && u in held'[p]
    {
      var p :| p in held && u in held[p];
      assert p in held';
    }
  }

  /** Releasing a holder's units while the holder keeps them is harmless only if it had none. */
  lemma ReleaseKept<O, U>(used: set<U>, held: map<O, set<U>>, o: O)
    requires Exact(used, held) && o in held
    ensures Exact(used - held[o], held) <==> held[o] == {}
  {
  }

  /**
    Handing over: o's units are released, fresh ones are marked, o goes and n comes holding `taken`.
    The ledger stays exact precisely when n holds what was marked for it.
   */
  lemma HandOver<O, U>(used: set<U>, held: map<O, set<U>>, o: O, n: O, marked: set<U>, taken: set<U>)
    requires Exact(used, held) && o in held && n !in held
    requires marked !! (used - held[o])
    ensures Exact((used - held[o]) + marked, (held - {o})[n := taken]) <==> taken == marked
  {
    DropExact(used, held, o);
    var used', held' := used - held[o], held - {o};
    assert HeldBy(held', n) + marked == marked;
    GrantExact(used', held', n, marked);
    if Exact(used' + marked, held'[n := taken]) {
      forall u | u in marked
        ensures u in taken
      {
        var p :| p in held'[n := taken] && u in held'[n := taken][p];
        assert u !in used' && (p in held' ==> held'[p] <= used');
      }
      forall u | u in taken
        ensures u in marked
      {
        var after := held'[n := taken];
        forall p | p in held'
          ensures u !in held'[p]
        {
          assert p in after && n in after && p != n;
          assert after[p] !! after[n];
        }
        assert u in after[n];
      }
    }
  }

  /** As HandOver, but o stays live with what it had, and nobody holds the fresh units. */
  lemma HandOverStalled<O, U>(used: set<U>, held: map<O, set<U>>, o: O, marked: set<U>)
    requires Exact(used, held) && o in held
    requires marked !! (used - held[o])
    ensures Exact((used - held[o]) + marked, held) <==> marked == held[o]
  {
  }
}
