/** Usage accounting of stores/quota/quota.go. A store is its identifier. */
module Quota {
  import opened Wrappers
  import opened RoundRobin

  // Go's uint64 wraps around.
  const WIDTH: int := 0x1_0000_0000_0000_0000

  type uint64 = x: int | 0 <= x < WIDTH

  function Add64(a: uint64, b: uint64): uint64 {
    if a + b < WIDTH then a + b else a + b - WIDTH
  }

  datatype Usage = Usage(use: uint64, max: uint64)

  type Usages<L> = map<L, Usage>

  function Limited<L>(m: Usages<L>, id: L, max: uint64): Usages<L> {
    m[id := Usage(if id in m then m[id].use else 0, max)]
  }

  // A store that reaches its maximum is dropped; one that is not managed is left alone.
  function Charged<L>(m: Usages<L>, id: L, use: uint64): Usages<L> {
    if id !in m then m
    else
      var u := m[id].(use := Add64(m[id].use, use));
      if u.use >= u.max then m - {id} else m[id := u]
  }

  predicate Fits(u: Usage, use: uint64) {
    Add64(u.use, use) <= u.max
  }

  ghost function Affordable<L>(m: Usages<L>, use: uint64): set<L> {
    set id | id in m && Fits(m[id], use)
  }

  /** The stores whose use does not go over the maximum, sums taken modulo 2^64. */
  lemma AffordableIff<L>(m: Usages<L>, use: uint64)
    ensures forall id :: id in Affordable(m, use) <==> id in m && (m[id].use + use) % WIDTH <= m[id].max
  {
    forall id | id in m
      ensures Add64(m[id].use, use) == (m[id].use + use) % WIDTH
    {
    }
  }

  class Man<L(==)> {
    var m: Usages<L>

    constructor ()
      ensures m == map[]
    {
      m := map[];
    }

    /** quota.go:34-42. */
    method AddResQuota(id: L, max: uint64)
      modifies this
      ensures m == Limited(old(m), id, max)
      ensures m.Keys == old(m).Keys + {id} && m[id].max == max
      ensures m[id].use == if id in old(m) then old(m)[id].use else 0
      ensures forall x :: x in old(m) && x != id ==> m[x] == old(m)[x]
    {
      if id !in m {
        m := m[id := Usage(0, 0)];
      }
      m := m[id := m[id].(max := max)];
    }

    /** quota.go:44-64; the report is what OnUse is called with. */
    method AddUse(id: L, use: uint64) returns (report: Option<Usage>)
      modifies this
      ensures m == Charged(old(m), id, use)
      ensures report == if id in old(m) then Some(Usage(Add64(old(m)[id].use, use), old(m)[id].max)) else None
      // managed as long as its use, modulo 2^64, is below its maximum
      ensures id in m <==> id in old(m) && (old(m)[id].use + use) % WIDTH < old(m)[id].max
      ensures id in m ==> m[id] == Usage((old(m)[id].use + use) % WIDTH, old(m)[id].max)
      ensures m.Keys <= old(m).Keys && forall x :: x in old(m) && x != id ==> x in m && m[x] == old(m)[x]
    {
      if id !in m {
        return None;
      }
      var u := m[id].(use := Add64(m[id].use, use));
      m := m[id := u];
      if u.use >= u.max {
        m := m - {id};
        assert m == old(m) - {id};
      }
      report := Some(u);
    }

    method Delete(id: L)
      modifies this
      ensures m == old(m) - {id}
    {
      m := m - {id};
    }

    /** quota.go:72-83: the stores that can take `use` more, in some order. */
    method Resources(use: uint64) returns (ress: seq<L>)
      ensures Distinct(ress) && Elems(ress) == Affordable(m, use)
      ensures forall id :: id in ress <==> id in m && (m[id].use + use) % WIDTH <= m[id].max
    {
      ress := [];
      var todo := m.Keys;
      while todo != {}
        invariant todo <= m.Keys
        invariant Distinct(ress) && Elems(ress) == Affordable(m, use) - todo
        decreases |todo|
      {
        var id :| id in todo;
        todo := todo - {id};
        if Add64(m[id].use, use) > m[id].max {
          continue;
        }
        assert id !in Elems(ress);
        assert Elems(ress + [id]) == Elems(ress) + {id};
        ress := ress + [id];
      }
      AffordableIff(m, use);
      assert forall id :: id in ress <==> id in Elems(ress);
    }
  }
}
