/**
 The striping coordinator of stores/stripe/stripe.go: it turns a group of chunks into a striping problem
 under one lock per checksum, and commits owners and quota use as the copies end.
 */
module Coordinator {
  import opened Wrappers
  import opened RoundRobin
  import opened Stripe
  import opened StripeLaws
  import opened Quota
  import opened Copies

  datatype Error = GroupErr(code: int) | Unsized | Shortage

  // `size` is None for data of unknown size, `err` is the group error a chunk may carry.
  datatype Chunk<!H> = Chunk(num: int, hash: H, size: Option<uint64>, err: Option<Error>)

  // stripe.go:51-54.
  datatype Info<!H> = Info(chunk: Chunk<H>, quotaUse: uint64)

  /** stripe.go:61-69, 148-154: the first error of the group, in its order. */
  function Refusal<H>(group: seq<Chunk<H>>): Option<Error> {
    if group == [] then None
    else if group[0].err.Some? then group[0].err
    else if group[0].size == None then Some(Unsized)
    else Refusal(group[1..])
  }

  // A chunk without an error, whose size is known.
  ghost predicate Fine<H>(c: Chunk<H>) {
    c.err == None && c.size.Some?
  }

  /** A group is refused exactly when some chunk is not fine, for the error of the first such chunk. */
  lemma {:induction false} RefusalIsFirst<H>(group: seq<Chunk<H>>)
    ensures Refusal(group) == None <==> forall i :: 0 <= i < |group| ==> Fine(group[i])
    ensures forall i :: 0 <= i < |group| && !Fine(group[i]) && (forall j :: 0 <= j < i ==> Fine(group[j])) ==>
        Refusal(group) == Some(if group[i].err.Some? then group[i].err.value else Unsized)
    decreases group
  {
    if group != [] {
      RefusalIsFirst(group[1..]);
      assert forall i :: 0 < i < |group| ==> group[i] == group[1..][i - 1];
    }
  }

  function SizeOf<H>(c: Chunk<H>): uint64 {
    c.size.GetOr(0)
  }

  // Equal checksums collapse: the last chunk stands for all.
  function Infos<H>(group: seq<Chunk<H>>): map<H, Info<H>> {
    if group == [] then map[]
    else
      var c := group[|group| - 1];
      Infos(group[..|group| - 1])[c.hash := Info(c, SizeOf(c))]
  }

  // The use the whole group asks for, duplicates included.
  function TotalUse<H>(group: seq<Chunk<H>>): uint64 {
    if group == [] then 0 else Add64(TotalUse(group[..|group| - 1]), SizeOf(group[|group| - 1]))
  }

  // ---------------------------------------------------------------- state

  /** The wait group of one checksum: what each copy adds to the use, and the copies that have not ended. */
  datatype Wait<L> = Wait(size: uint64, left: set<L>)

  /** What the coordinator shares between calls; `waiting` has the locks some call is bound to release. */
  datatype State<!H, L> = State(quota: Usages<L>, owners: Owning<H, L>, held: set<H>, waiting: map<H, Wait<L>>)

  ghost function Locked<H, L>(st: State<H, L>, hs: set<H>): State<H, L> {
    st.(owners := Asked(st.owners, hs), held := st.held + hs)
  }

  ghost function Waits<H, L>(infos: map<H, Info<H>>, added: Placement<H, L>): map<H, Wait<L>> {
    map h | h in added :: Wait(if h in infos then infos[h].quotaUse else 0, added[h])
  }

  ghost function Scheduled<H, L>(st: State<H, L>, infos: map<H, Info<H>>, added: Placement<H, L>): State<H, L> {
    st.(waiting := st.waiting + Waits(infos, added))
  }

  /** stripe.go:132-140: one copy ends. */
  ghost function Ended<H, L>(st: State<H, L>, h: H, id: L, ok: bool): State<H, L>
    requires h in st.waiting
  {
    var w := st.waiting[h];
    State(if ok then Charged(st.quota, id, w.size) else st.quota - {id},
          if ok then st.owners[h := OwnersOf(st.owners, h) + {id}] else st.owners,
          st.held,
          st.waiting[h := w.(left := w.left - {id})])
  }

  /** stripe.go:120-123: once all copies have ended. */
  ghost function Unlocked<H, L>(st: State<H, L>, h: H): State<H, L> {
    st.(held := st.held - {h}, waiting := st.waiting - {h})
  }

  // The copies existing when the locks are taken.
  ghost function Current<H, L>(st: State<H, L>, hs: set<H>): Placement<H, L> {
    map h | h in hs :: OwnersOf(st.owners, h)
  }

  lemma CurrentKeys<H, L>(st: State<H, L>, hs: set<H>)
    ensures Current(st, hs).Keys == hs && (Current(st, hs) == map[] <==> hs == {})
    ensures hs <= Locked(st, hs).held
  {
  }

  lemma LockedNone<H, L>(st: State<H, L>)
    ensures Locked(st, {}) == st && Current(st, {}) == map[]
  {
    assert Asked(st.owners, {}) == st.owners;
  }

  lemma LockedOneMore<H, L>(st: State<H, L>, hs: set<H>, h: H)
    requires h !in hs
    ensures Locked(Locked(st, hs), {h}) == Locked(st, hs + {h}) && Locked(st, hs).held == st.held + hs
    ensures OwnersOf(Locked(st, hs).owners, h) == OwnersOf(st.owners, h)
    ensures Current(st, hs + {h}) == Current(st, hs)[h := OwnersOf(st.owners, h)]
    ensures Locked(Locked(st, hs), {h}).held == st.held + hs + {h}
  {
    assert Asked(Asked(st.owners, hs), {h}) == Asked(st.owners, hs + {h});
  }

  // The locks of `done` are taken, those of `todo` are not.
  ghost predicate Taking<H, L>(st0: State<H, L>, hashes: set<H>, todo: set<H>, done: set<H>, st: State<H, L>,
                               cur: Placement<H, L>)
  {
    && todo !! done && todo + done == hashes && hashes !! st0.held
    && st == Locked(st0, done) && cur == Current(st0, done)
  }

  lemma TakeOne<H, L>(st0: State<H, L>, hashes: set<H>, todo: set<H>, done: set<H>, st: State<H, L>,
                      cur: Placement<H, L>, h: H)
    requires Taking(st0, hashes, todo, done, st, cur) && h in todo
    ensures h !in st.held
    ensures Taking(st0, hashes, todo - {h}, done + {h}, Locked(st, {h}), cur[h := OwnersOf(st.owners, h)])
  {
    hide Locked, Current, OwnersOf;
    LockedOneMore(st0, done, h);
  }

  lemma TakeNone<H, L>(st0: State<H, L>, hashes: set<H>)
    requires hashes !! st0.held
    ensures Taking(st0, hashes, hashes, {}, st0, map[])
  {
    LockedNone(st0);
  }

  lemma TakenAll<H, L>(st0: State<H, L>, hashes: set<H>, done: set<H>, st: State<H, L>, cur: Placement<H, L>)
    requires Taking(st0, hashes, {}, done, st, cur)
    ensures st == Locked(st0, hashes) && cur == Current(st0, hashes)
  {
    assert done == hashes;
  }

  // ---------------------------------------------------------------- the class

  /** One copy process: the chunk it gets, and the store. */
  datatype Copy<!H, L> = Copy(chunk: Chunk<H>, to: L)

  // What Procs returns: the chunks the first process emits, and the copy processes.
  datatype Plan<!H, L> =
    | Plan(emitted: seq<Chunk<H>>, copies: seq<Copy<H, L>>)
    | Refused(error: Error)
    | Panicked(panic: Panic)

  datatype Panic = UnknownChunkHash | UnknownCopierId

  ghost predicate Emits<H>(emitted: seq<Chunk<H>>, infos: map<H, Info<H>>) {
    Distinct(emitted) && Elems(emitted) == set h | h in infos :: infos[h].chunk
  }

  /** One copy process per chunk of `hs` and location added to it, and no other. */
  ghost predicate CopiesOf<H, L>(copies: seq<Copy<H, L>>, infos: map<H, Info<H>>, added: Placement<H, L>, hs: set<H>) {
    && hs <= added.Keys && hs <= infos.Keys && Distinct(copies)
    && (forall c :: c in copies ==>
          c.chunk.hash in hs && c.chunk == infos[c.chunk.hash].chunk && c.to in added[c.chunk.hash])
    && (forall h, l :: h in hs && l in added[h] ==> Copy(infos[h].chunk, l) in copies)
  }

  // Every lookup of stripe.go:112-128 finds its chunk and its copier.
  ghost predicate Known<H, L>(infos: map<H, Info<H>>, all: set<L>, added: Placement<H, L>) {
    forall h :: h in added ==> h in infos && added[h] <= all
  }

  // Every chunk stands for its own checksum.
  ghost predicate Keyed<H>(infos: map<H, Info<H>>) {
    forall h :: h in infos ==> infos[h].chunk.hash == h
  }

  lemma {:induction false} InfosAreKeyed<H>(group: seq<Chunk<H>>)
    ensures Keyed(Infos(group))
    ensures Infos(group).Keys == set c | c in group :: c.hash
  {
    if group != [] {
      var init, c := group[..|group| - 1], group[|group| - 1];
      InfosAreKeyed(init);
      assert group == init + [c];
    }
  }

  /** stripe.go:59-75. */
  method Gather<H(==)>(group: seq<Chunk<H>>) returns (error: Option<Error>, infos: map<H, Info<H>>, quotaUse: uint64)
    ensures error == Refusal(group)
    ensures error == None ==> infos == Infos(group) && quotaUse == TotalUse(group)
  {
    error, infos, quotaUse := None, map[], 0;
    var i := 0;
    while i < |group|
      invariant 0 <= i <= |group| && Refusal(group) == Refusal(group[i..])
      invariant infos == Infos(group[..i]) && quotaUse == TotalUse(group[..i])
    {
      var c := group[i];
      assert group[i..][1..] == group[i + 1..];
      assert group[..i + 1][..i] == group[..i];
      if c.err.Some? {
        error := c.err;
        return;
      }
      if c.size == None {
        error := Some(Unsized);
        return;
      }
      infos := infos[c.hash := Info(c, c.size.value)];
      quotaUse := Add64(quotaUse, c.size.value);
      i := i + 1;
    }
    assert group[..i] == group;
  }

  /** stripe.go:104-107: one chunk per checksum, in some order. */
  method Emit<H(==)>(infos: map<H, Info<H>>) returns (emitted: seq<Chunk<H>>)
    requires Keyed(infos)
    ensures Emits(emitted, infos)
  {
    emitted := [];
    var todo := infos.Keys;
    while todo != {}
      invariant todo <= infos.Keys && Distinct(emitted)
      invariant Elems(emitted) == set h | h in infos && h !in todo :: infos[h].chunk
      decreases |todo|
    {
      var h :| h in todo;
      todo := todo - {h};
      assert infos[h].chunk !in Elems(emitted);
      assert Elems(emitted + [infos[h].chunk]) == Elems(emitted) + {infos[h].chunk};
      emitted := emitted + [infos[h].chunk];
    }
  }

  /** stripe.go:124-142: the copies of one checksum; false when the source panics for want of a copier. */
  method ScheduleOne<H(==), L(==)>(before: seq<Copy<H, L>>, infos: map<H, Info<H>>, all: set<L>, added: Placement<H, L>,
                                   h: H, ghost hs: set<H>)
    returns (known: bool, copies: seq<Copy<H, L>>)
    requires Keyed(infos) && CopiesOf(before, infos, added, hs) && h in added && h in infos && h !in hs
    ensures known <==> added[h] <= all
    ensures known ==> CopiesOf(copies, infos, added, hs + {h})
  {
    known, copies := true, before;
    var c, locs := infos[h].chunk, added[h];
    while locs != {}
      invariant locs <= added[h] && added[h] - locs <= all && Distinct(copies) && known
      invariant forall x :: x in copies ==>
                  && (x.chunk.hash in hs || x.chunk.hash == h) && x.chunk == infos[x.chunk.hash].chunk
                  && x.to in added[x.chunk.hash] && (x.chunk.hash == h ==> x.to !in locs)
      invariant forall k, l :: k in hs && l in added[k] ==> Copy(infos[k].chunk, l) in copies
      invariant forall l :: l in added[h] && l !in locs ==> Copy(c, l) in copies
      decreases |locs|
    {
      var l :| l in locs;
      locs := locs - {l};
      if l !in all {
        known := false;
        return;
      }
      assert Copy(c, l) !in copies;
      copies := copies + [Copy(c, l)];
    }
  }

  /** stripe.go:110-144: it panics exactly when some lookup fails. */
  method Schedule<H(==), L(==)>(infos: map<H, Info<H>>, all: set<L>, added: Placement<H, L>)
    returns (panic: Option<Panic>, copies: seq<Copy<H, L>>)
    requires Keyed(infos)
    ensures panic == None <==> Known(infos, all, added)
    ensures panic == Some(UnknownChunkHash) ==> !(added.Keys <= infos.Keys)
    ensures panic == Some(UnknownCopierId) ==> exists h :: h in added && !(added[h] <= all)
    ensures panic == None ==> CopiesOf(copies, infos, added, added.Keys)
  {
    hide CopiesOf;
    panic, copies := None, [];
    var todo := added.Keys;
    assert CopiesOf(copies, infos, added, added.Keys - todo) by {
      NoCopies(infos, added, added.Keys - todo);
    }
    while todo != {}
      invariant todo <= added.Keys && panic == None && CopiesOf(copies, infos, added, added.Keys - todo)
      invariant forall h :: h in added.Keys - todo ==> h in infos && added[h] <= all
      decreases |todo|
    {
      var h :| h in todo;
      if h !in infos {
        panic := Some(UnknownChunkHash);
        return;
      }
      var known;
      known, copies := ScheduleOne(copies, infos, all, added, h, added.Keys - todo);
      if !known {
        panic := Some(UnknownCopierId);
        return;
      }
      assert added.Keys - todo + {h} == added.Keys - (todo - {h});
      todo := todo - {h};
    }
    assert added.Keys - todo == added.Keys;
  }

  lemma NoCopies<H, L>(infos: map<H, Info<H>>, added: Placement<H, L>, hs: set<H>)
    requires hs == {}
    ensures CopiesOf<H, L>([], infos, added, hs)
  {
  }

  /** The result of the striper has the checksums of the group, and stores that were asked for: no lookup fails. */
  lemma PlacedIsKnown<H, L>(st: State<H, L>, infos: map<H, Info<H>>, all: set<L>, min: int, excl: int,
                            full: Placement<H, L>, added: Placement<H, L>)
    requires Correct(Current(st, infos.Keys), all, min, excl, full, added)
    ensures Known(infos, all, added) && added.Keys == infos.Keys && infos.Keys <= Locked(st, infos.Keys).held
  {
    CurrentKeys(st, infos.Keys);
    CorrectKeys(Current(st, infos.Keys), all, min, excl, full, added);
    FullIsMerged(Current(st, infos.Keys), all, min, full, added);
  }

  // ---------------------------------------------------------------- stores outside the round-robin

  /** Stores the round-robin does not deal are over their maximum: they were when the coordinator was made. */
  ghost predicate OverOutside<L>(m: Usages<L>, items: seq<L>) {
    forall id :: id in m ==> id in items || m[id].use > m[id].max
  }

  /** They stay so, and are never affordable, as long as their use does not wrap around. */
  lemma OutsideStaysOver<L>(m: Usages<L>, items: seq<L>, id: L, use: uint64)
    requires OverOutside(m, items) && forall x :: x in m && x !in items ==> m[x].use + use < WIDTH
    ensures OverOutside(Charged(m, id, use), items) && OverOutside(m - {id}, items)
    ensures Affordable(m, use) <= Elems(items)
  {
  }

  class Coordinator<H(==), L(==)> {
    const min: int
    const excl: int
    const qman: Man<L>
    const reg: Reg<H, L>
    const rr: RR<L>
    var waiting: map<H, Wait<L>>

    ghost predicate Valid()
      reads this, qman, reg, reg.repr, rr
    {
      && rr.Valid() && reg.Valid()
      && Distinct(rr.items) && waiting.Keys <= reg.held
    }

    ghost function Snapshot(): State<H, L>
      reads this, qman, reg
    {
      State(qman.m, reg.owning, reg.held, waiting)
    }

    /**
     The search under these locks ends: the sequence deals every used store that fits, or all chunks can be filled, or
     they have enough copies, each on stores of its own.
     */
    ghost predicate Searchable(hashes: set<H>, quotaUse: uint64)
      reads this, qman, reg, rr
    {
      || Dealable(Current(Snapshot(), hashes), Affordable(qman.m, quotaUse), rr.items)
      || AllFillable(Current(Snapshot(), hashes), Affordable(qman.m, quotaUse), rr.items, min, excl)
      || Apart(Current(Snapshot(), hashes), Affordable(qman.m, quotaUse), min)
    }

    /** stripe.go:26-48: the round-robin gets the stores that are not over their maximum, each once. */
    constructor (qman: Man<L>, min: int, excl: int)
      ensures Valid() && fresh(reg) && fresh(rr) && reg.repr == {}
      ensures this.qman == qman && this.min == min && this.excl == excl && rr.cur == 0
      ensures Elems(rr.items) == Affordable(qman.m, 0) && OverOutside(qman.m, rr.items)
      ensures Snapshot() == State(qman.m, map[], {}, map[])
    {
      var ids := qman.Resources(0);
      this.qman, this.min, this.excl := qman, min, excl;
      reg := new Reg();
      rr := new RR(ids);
      waiting := map[];
      new;
      forall id | id in qman.m && id !in ids
        ensures qman.m[id].use > qman.m[id].max
      {
        assert id !in Affordable(qman.m, 0);
      }
    }

    method AddOwner(id: L, h: H)
      requires Valid()
      modifies reg, reg.repr
      ensures Valid() && fresh(reg.repr - old(reg.repr))
      ensures Snapshot() ==
              old(Snapshot()).(owners := Asked(old(reg.owning), {h})[h := OwnersOf(old(reg.owning), h) + {id}])
    {
      var _ := reg.List(h);
      reg.AddTo(h, id);
    }

    /** stores/stores.go:75-86: a copy found on a store when the coordinator is made. */
    method AddEntry(id: L, h: H, size: uint64)
      requires Valid()
      modifies qman, reg, reg.repr
      ensures Valid() && fresh(reg.repr - old(reg.repr))
      ensures Snapshot() == old(Snapshot()).(quota := Charged(old(qman.m), id, size),
                                       owners := Asked(old(reg.owning), {h})[h := OwnersOf(old(reg.owning), h) + {id}])
    {
      var _ := qman.AddUse(id, size);
      AddOwner(id, h);
    }

    method LockOne(h: H) returns (locs: set<L>)
      requires Valid() && h !in Snapshot().held
      modifies reg, reg.repr
      ensures Valid() && fresh(reg.repr - old(reg.repr))
      ensures Snapshot() == Locked(old(Snapshot()), {h}) && locs == OwnersOf(old(Snapshot().owners), h)
    {
      var _ := reg.List(h);
      var owners := reg.LockList(h);
      locs := set o | o in owners;
    }

    /** stripe.go:77-86: take the lock of every checksum and read its owners. */
    method LockAll(hashes: set<H>) returns (cur: Placement<H, L>)
      requires Valid() && hashes !! Snapshot().held
      modifies reg, reg.repr
      ensures Valid() && fresh(reg.repr - old(reg.repr))
      ensures Snapshot() == Locked(old(Snapshot()), hashes) && cur == Current(old(Snapshot()), hashes)
    {
      hide Locked, Current, Asked, OwnersOf, Valid, Snapshot, Taking;
      cur := map[];
      var todo := hashes;
      ghost var done: set<H>, st0 := {}, Snapshot();
      TakeNone(st0, hashes);
      while todo != {}
        invariant Valid() && fresh(reg.repr - old(reg.repr))
        invariant Taking(st0, hashes, todo, done, Snapshot(), cur)
        decreases |todo|
      {
        var h :| h in todo;
        TakeOne(st0, hashes, todo, done, Snapshot(), cur, h);
        var locs := LockOne(h);
        cur := cur[h := locs];
        todo := todo - {h};
        done := done + {h};
      }
      TakenAll(st0, hashes, done, Snapshot(), cur);
    }

    /** stripe.go:76-97: the placement of the missing copies, found under the locks. */
    method Place(hashes: set<H>, quotaUse: uint64)
      returns (outcome: Outcome<H, L>, all: set<L>, ghost full: Placement<H, L>)
      requires Valid() && hashes !! reg.held && Searchable(hashes, quotaUse)
      modifies reg, reg.repr, rr
      ensures Valid() && fresh(reg.repr - old(reg.repr))
      ensures Snapshot() == Locked(old(Snapshot()), hashes) && all == Affordable(qman.m, quotaUse)
      ensures var cur := Current(old(Snapshot()), hashes);
        && (outcome.Placed? ==>
              Promised(cur, all, rr.items, min, excl, old(rr.cur), full, outcome.added, rr.cur))
        && (outcome.ErrShort? ==> MayBeShort(cur, all, rr.items, min, excl))
        && (excl <= 0 ==> (outcome.ErrShort? <==> !AllFillable(cur, all, rr.items, min, excl)))
        && (excl <= 0 && all <= Elems(rr.items) ==> (outcome.ErrShort? <==> hashes != {} && |all| < min))
    {
      hide Promised, MayBeShort, AllNew, DealtOut, Needed, Locked, Current, Dealable, AllFillable, Apart;
      hide Tells, Stuck;
      CurrentKeys(Snapshot(), hashes);
      var cur := LockAll(hashes);
      var ress := qman.Resources(quotaUse);
      all := set id | id in ress;
      assert all == Affordable(qman.m, quotaUse);
      ghost var st := Snapshot();
      ghost var story;
      outcome, full, story := Stripe.Stripe(cur, all, rr, min, excl);
      assert Snapshot() == st;
    }

    /** stripe.go:102-145. */
    method Commit(infos: map<H, Info<H>>, all: set<L>, added: Placement<H, L>) returns (plan: Plan<H, L>)
      requires Valid() && Keyed(infos) && (added.Keys <= infos.Keys ==> added.Keys <= reg.held)
      modifies this`waiting
      ensures Valid() && !plan.Refused?
      ensures plan.Plan? <==> Known(infos, all, added)
      ensures plan.Plan? ==>
          && Snapshot() == Scheduled(old(Snapshot()), infos, added)
          && Emits(plan.emitted, infos) && CopiesOf(plan.copies, infos, added, added.Keys)
      ensures plan.Panicked? ==> Snapshot() == old(Snapshot())
    {
      hide CopiesOf, Asked, Emits, Keyed;
      var emitted := Emit(infos);
      var panic, copies := Schedule(infos, all, added);
      if panic.Some? {
        plan := Panicked(panic.value);
        return;
      }
      waiting := waiting + map h | h in added :: Wait(infos[h].quotaUse, added[h]);
      assert waiting == old(waiting) + Waits(infos, added);
      plan := Plan(emitted, copies);
    }

    /** stripe.go:50-146. */
    method Procs(group: seq<Chunk<H>>)
      returns (plan: Plan<H, L>, ghost full: Placement<H, L>, ghost added: Placement<H, L>)
      requires Valid() && Infos(group).Keys !! reg.held
      requires Refusal(group) == None ==> Searchable(Infos(group).Keys, TotalUse(group))
      modifies this, reg, reg.repr, rr
      ensures Valid() && fresh(reg.repr - old(reg.repr)) && !plan.Panicked?
      ensures Refusal(group).Some? ==> plan == Refused(Refusal(group).value) && Snapshot() == old(Snapshot())
      ensures Refusal(group).Some? ==> rr.cur == old(rr.cur)
      // a shortage leaves the locks held, and the cursor where the search has come to
      ensures Refusal(group) == None && plan.Refused? ==>
          && plan.error == Shortage && Snapshot() == Locked(old(Snapshot()), Infos(group).Keys)
          && MayBeShort(Current(old(Snapshot()), Infos(group).Keys), Affordable(old(qman.m), TotalUse(group)), rr.items,
                        min, excl)
      ensures plan.Plan? ==>
          && Refusal(group) == None && Emits(plan.emitted, Infos(group))
          && Promised(Current(old(Snapshot()), Infos(group).Keys), Affordable(old(qman.m), TotalUse(group)), rr.items,
                      min, excl, old(rr.cur), full, added, rr.cur)
          && CopiesOf(plan.copies, Infos(group), added, Infos(group).Keys)
          && Snapshot() == Scheduled(Locked(old(Snapshot()), Infos(group).Keys), Infos(group), added)
      // fresh groups that fit into one turn of the round-robin are always placed
      ensures var cur, dests := Current(old(Snapshot()), Infos(group).Keys), Affordable(old(qman.m), TotalUse(group));
        Refusal(group) == None && AllNew(cur, dests, rr.items, min, excl) ==> plan.Plan?
      // without exclusivity: complete
      ensures Refusal(group) == None && excl <= 0 ==>
          (plan.Refused? <==> !AllFillable(Current(old(Snapshot()), Infos(group).Keys),
                                           Affordable(old(qman.m), TotalUse(group)), rr.items, min, excl))
      ensures Refusal(group) == None && excl <= 0 && Affordable(old(qman.m), TotalUse(group)) <= Elems(rr.items) ==>
          (plan.Refused? <==> Infos(group) != map[] && |Affordable(old(qman.m), TotalUse(group))| < min)
    {
      hide AllNew, Promised, AllFillable, MayBeShort, Asked, Infos, TotalUse, Emits, CopiesOf, Keyed, Valid, Scheduled;
      hide Searchable, Current, Known, Affordable, Locked, Refusal, Elems, Distinct, Correct;
      full, added := map[], map[];
      var error, infos, quotaUse := Gather(group);
      if error.Some? {
        plan := Refused(error.value);
        return;
      }
      InfosAreKeyed(group);
      ghost var st := Snapshot();
      var outcome, all;
      outcome, all, full := Place(infos.Keys, quotaUse);
      if outcome.ErrShort? {
        MayBeShortIsNotNew(Current(st, infos.Keys), all, rr.items, min, excl);
        plan := Refused(Shortage);
        return;
      }
      added := outcome.added;
      PromisedIsCorrect(Current(st, infos.Keys), all, rr.items, min, excl, old(rr.cur), full, added, rr.cur);
      PlacedIsKnown(st, infos, all, min, excl, full, added);
      plan := Commit(infos, all, outcome.added);
    }

    /** stripe.go:132-140: what a copy process calls when it ends. */
    method EndCopy(h: H, id: L, ok: bool)
      requires Valid() && h in waiting && id in waiting[h].left
      modifies this, qman, reg, reg.repr
      ensures Valid() && reg.repr == old(reg.repr)
      ensures Snapshot() == Ended(old(Snapshot()), h, id, ok)
      // a failed copy costs the coordinator the store, a good one makes it an owner
      ensures !ok ==> id !in qman.m && reg.owning == old(reg.owning) && qman.m == old(qman.m) - {id}
      ensures ok ==> id in OwnersOf(reg.owning, h)
    {
      var w := waiting[h];
      if ok {
        reg.AddTo(h, id);
        var _ := qman.AddUse(id, w.size);
      } else {
        qman.Delete(id);
      }
      waiting := waiting[h := w.(left := w.left - {id})];
    }

    /** stripe.go:120-123: the goroutine that waits for the copies of one checksum. */
    method Unlock(h: H)
      requires Valid() && h in waiting && waiting[h].left == {}
      modifies this, reg, reg.repr
      ensures Valid() && reg.repr == old(reg.repr)
      ensures Snapshot() == Unlocked(old(Snapshot()), h)
    {
      reg.UnlockList(h);
      waiting := waiting - {h};
    }
  }
}
