/**
  The status map that the GPU and the CPU scheduler keep: a byte per unit, 0 for free, anything else for used.
 */
module Pools {
  type byte = b: int | 0 <= b < 256

  datatype Pool = Pool(total: int, status: map<string, byte>) {
    function Used(): set<string> {
      set k | k in status && status[k] != 0
    }

    function Free(): set<string> {
      set k | k in status && status[k] == 0
    }

    /** The pool after writing v at every one of the ids; ids that were absent become keys. */
    function Mark(ids: set<string>, v: byte): Pool {
      this.(status := map k | k in status.Keys + ids :: if k in ids then v else status[k])
    }
  }

  datatype AllocError = OutOfRange | NotEnough

  lemma MarkUsed(p: Pool, ids: set<string>)
    requires ids <= p.Free()
    ensures p.Mark(ids, 1).Used() == p.Used() + ids
    ensures p.Mark(ids, 1).status.Keys == p.status.Keys
    ensures p.Mark(ids, 1).Free() == p.Free() - ids
    ensures p.Mark(ids, 1).Mark(ids, 0) == p
  {
  }

  lemma MarkFree(p: Pool, ids: set<string>)
    ensures p.Mark(ids, 0).Used() == p.Used() - ids
    ensures p.Mark(ids, 0).status.Keys == p.status.Keys + ids
  {
  }

  lemma MarkOne(p: Pool, a: set<string>, x: string, v: byte)
    ensures p.Mark(a, v).status[x := v] == p.Mark(a + {x}, v).status
  {
  }

  lemma MarkAgain(p: Pool, ids: set<string>, v: byte)
    ensures p.Mark(ids, v).Mark(ids, v) == p.Mark(ids, v)
  {
  }

  lemma MarkNew(p: Pool, x: string, v: byte)
    requires x !in p.status
    ensures p.Mark({x}, v) == p.(status := p.status[x := v])
    ensures |p.Mark({x}, v).status| == |p.status| + 1
  {
  }

  lemma MarkNone(p: Pool, v: byte)
    ensures p.Mark({}, v) == p
  {
  }

  lemma FreeAndUsed(p: Pool)
    ensures p.Free() !! p.Used() && p.Free() + p.Used() == p.status.Keys
    ensures |p.Free()| + |p.Used()| == |p.status|
  {
  }
}
