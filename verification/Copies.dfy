/** The registry of stores/copies/copies.go: who owns a copy of what, with one lock per checksum. */
module Copies {

  class List<L(==)> {
    var m: set<L>
    var held: bool

    constructor ()
      ensures m == {} && !held
    {
      m, held := {}, false;
    }

    method Add(o: L)
      modifies this`m
      ensures m == old(m) + {o}
    {
      m := m + {o};
    }

    method Remove(o: L)
      modifies this`m
      ensures m == old(m) - {o}
    {
      m := m - {o};
    }

    /** copies.go:68-76: the owners in some order. */
    method Owners() returns (owners: seq<L>)
      ensures |owners| == |m| && forall o :: o in owners <==> o in m
    {
      owners := [];
      var todo := m;
      while todo != {}
        invariant todo <= m && |owners| + |todo| == |m|
        invariant forall o :: o in owners <==> o in m - todo
        decreases |todo|
      {
        var o :| o in todo;
        todo := todo - {o};
        owners := owners + [o];
      }
    }

    // Mu.Lock() returns once nobody holds the lock.
    method Lock()
      requires !held
      modifies this`held
      ensures held
    {
      held := true;
    }

    method Unlock()
      requires held
      modifies this`held
      ensures !held
    {
      held := false;
    }
  }

  /** Who owns what, by value. A checksum nobody asked for has no entry, and no owner. */
  type Owning<!H, L> = map<H, set<L>>

  function OwnersOf<H, L>(owning: Owning<H, L>, h: H): set<L> {
    if h in owning then owning[h] else {}
  }

  // The registry after the lists of `hs` have been asked for.
  ghost function Asked<H, L>(owning: Owning<H, L>, hs: set<H>): Owning<H, L> {
    map h | h in owning.Keys + hs :: OwnersOf(owning, h)
  }

  class Reg<H(==), L(==)> {
    var m: map<H, List<L>>

    // What the lists hold, which of them are locked, and the lists themselves.
    ghost var owning: Owning<H, L>
    ghost var held: set<H>
    ghost var repr: set<List<L>>

    ghost predicate Valid()
      reads this, repr
    {
      && m.Keys == owning.Keys && held <= m.Keys
      && (forall h :: h in m ==> m[h] in repr && m[h].m == owning[h] && (m[h].held <==> h in held))
      && (forall a, b :: a in m && b in m && a != b ==> m[a] != m[b])
    }

    constructor ()
      ensures Valid() && owning == map[] && held == {} && repr == {}
    {
      m, owning, held, repr := map[], map[], {}, {};
    }

    /** copies.go:20-29: the list of h, made on first sight. */
    method List(h: H) returns (list: List<L>)
      requires Valid()
      modifies this
      ensures Valid() && h in m && m[h] == list && fresh(repr - old(repr))
      ensures owning == Asked(old(owning), {h}) && held == old(held)
    {
      if h !in m {
        var made := new List();
        m := m[h := made];
        owning, repr := owning[h := {}], repr + {made};
      }
      assert owning == Asked(old(owning), {h});
      list := m[h];
    }

    // reg.List(h).Add(o), for a list there is.
    method AddTo(h: H, o: L)
      requires Valid() && h in owning
      modifies `owning, repr
      ensures Valid() && owning == old(owning)[h := old(owning)[h] + {o}]
    {
      m[h].Add(o);
      owning := owning[h := owning[h] + {o}];
    }

    // reg.List(h).Mu.Lock(), then .Owners().
    method LockList(h: H) returns (owners: seq<L>)
      requires Valid() && h in owning && h !in held
      modifies `held, repr
      ensures Valid() && held == old(held) + {h}
      ensures |owners| == |owning[h]| && forall o :: o in owners <==> o in owning[h]
    {
      m[h].Lock();
      held := held + {h};
      owners := m[h].Owners();
    }

    method UnlockList(h: H)
      requires Valid() && h in held
      modifies `held, repr
      ensures Valid() && held == old(held) - {h}
    {
      m[h].Unlock();
      held := held - {h};
    }

    // list.Remove(o), for the list of h.
    method RemoveFrom(h: H, o: L)
      requires Valid() && h in owning
      modifies `owning, repr
      ensures Valid() && owning == old(owning)[h := old(owning)[h] - {o}]
    {
      m[h].Remove(o);
      owning := owning[h := owning[h] - {o}];
    }

    /** copies.go:31-37. */
    method RemoveOwner(o: L)
      requires Valid()
      modifies `owning, repr
      ensures Valid() && owning == map h | h in old(owning) :: old(owning)[h] - {o}
    {
      assert m.Keys == owning.Keys;
      hide Valid;
      var todo := m.Keys;
      while todo != {}
        invariant todo <= owning.Keys && Valid() && owning.Keys == old(owning).Keys
        invariant forall h :: h in owning ==> owning[h] == old(owning)[h] - (if h in todo then {} else {o})
        decreases |todo|
      {
        var h :| h in todo;
        RemoveFrom(h, o);
        todo := todo - {h};
      }
    }
  }
}
