/**
 Every interleaving of the coordinator's calls: a call takes its locks one at a time, asks which stores fit, places its
 copies, and its copies end in any order while other calls are at any point of theirs.
 */
module CommitRuns {
  import opened Wrappers
  import opened RoundRobin
  import opened Stripe
  import opened StripeLaws
  import opened Quota
  import opened Copies
  import opened Coordinator

  /** The calls that will be made, and the striper's parameters. */
  datatype Config<!H> = Config(groups: seq<seq<Chunk<H>>>, min: int, excl: int)

  datatype Phase<!H, L> =
    | Taking
    | Looking(dests: set<L>)
    | Failed
    | Copying(dests: set<L>, full: Placement<H, L>, added: Placement<H, L>)

  /** One call: the owners read under each lock taken, the locks held, and whether every ended copy succeeded. */
  datatype Job<!H, L> = Job(cur: Placement<H, L>, held: set<H>, phase: Phase<H, L>, intact: bool)

  /** The round-robin all calls share: the stores it deals, and the position it deals next. */
  datatype Ring<L> = Ring(items: seq<L>, cur: nat)

  /** `spent` is what was really copied to each store, whether or not the quota manager still tracks it. */
  datatype Sys<!H, L> = Sys(st: State<H, L>, jobs: seq<Job<H, L>>, spent: map<L, int>, ring: Ring<L>)

  // `cur` is where the cursor is after the search.
  datatype Event<!H, L> =
    | Lock(h: H)
    | Look
    | Place(full: Placement<H, L>, added: Placement<H, L>, cur: nat)
    | GiveUp(cur: nat)
    | End(h: H, id: L, ok: bool)
    | Unlock(h: H)

  ghost predicate Turning<L>(items: seq<L>, cur: nat) {
    Distinct(items) && if items == [] then cur == 0 else cur < |items|
  }

  ghost predicate Enabled<H, L>(cfg: Config<H>, s: Sys<H, L>, j: nat, ev: Event<H, L>) {
    j < |cfg.groups| == |s.jobs| && Refusal(cfg.groups[j]) == None &&
    var c, infos := s.jobs[j], Infos(cfg.groups[j]);
    match ev
    case Lock(h) => c.phase == Taking && h in infos && h !in c.cur && h !in s.st.held
    case Look => c.phase == Taking && c.cur.Keys == infos.Keys
    // whatever the striper may return
    case Place(full, added, cur) =>
      && c.phase.Looking?
      && Promised(c.cur, c.phase.dests, s.ring.items, cfg.min, cfg.excl, s.ring.cur, full, added, cur)
    case GiveUp(cur) =>
      && c.phase.Looking? && Turning(s.ring.items, cur)
      && MayBeShort(c.cur, c.phase.dests, s.ring.items, cfg.min, cfg.excl)
    case End(h, id, ok) => c.phase.Copying? && h in c.held && h in s.st.waiting && id in s.st.waiting[h].left
    case Unlock(h) => c.phase.Copying? && h in c.held && h in s.st.waiting && s.st.waiting[h].left == {}
  }

  ghost function Spent<H, L>(s: Sys<H, L>, l: L): int {
    if l in s.spent then s.spent[l] else 0
  }

  ghost function Next<H, L>(cfg: Config<H>, s: Sys<H, L>, j: nat, ev: Event<H, L>): Sys<H, L>
    requires Enabled(cfg, s, j, ev)
  {
    var c, infos := s.jobs[j], Infos(cfg.groups[j]);
    match ev
    case Lock(h) =>
      s.(st := Locked(s.st, {h}),
         jobs := s.jobs[j := c.(cur := c.cur[h := OwnersOf(s.st.owners, h)], held := c.held + {h})])
    case Look => s.(jobs := s.jobs[j := c.(phase := Looking(Affordable(s.st.quota, TotalUse(cfg.groups[j]))))])
    case Place(full, added, cur) =>
      s.(st := Scheduled(s.st, infos, added), jobs := s.jobs[j := c.(phase := Copying(c.phase.dests, full, added))],
         ring := s.ring.(cur := cur))
    case GiveUp(cur) => s.(jobs := s.jobs[j := c.(phase := Failed)], ring := s.ring.(cur := cur))
    case End(h, id, ok) =>
      s.(st := Ended(s.st, h, id, ok), jobs := s.jobs[j := c.(intact := c.intact && ok)],
         spent := if ok then s.spent[id := Spent(s, id) + s.st.waiting[h].size] else s.spent)
    case Unlock(h) => s.(st := Unlocked(s.st, h), jobs := s.jobs[j := c.(held := c.held - {h})])
  }

  // No call has begun, no lock is held.
  ghost predicate Start<H, L>(cfg: Config<H>, s: Sys<H, L>) {
    && |s.jobs| == |cfg.groups| && s.st.held == {} && s.st.waiting == map[] && Turning(s.ring.items, s.ring.cur)
    && (forall j :: 0 <= j < |s.jobs| ==> s.jobs[j] == Job(map[], {}, Taking, true))
  }

  ghost predicate Runs<H, L>(cfg: Config<H>, s: Sys<H, L>, run: seq<(nat, Event<H, L>)>, t: Sys<H, L>)
    decreases run
  {
    if run == [] then s == t
    else Enabled(cfg, s, run[0].0, run[0].1) && Runs(cfg, Next(cfg, s, run[0].0, run[0].1), run[1..], t)
  }

  // ---------------------------------------------------------------- locks

  ghost predicate LockInv<H, L>(s: Sys<H, L>) {
    && s.st.waiting.Keys <= s.st.held
    && (forall j :: 0 <= j < |s.jobs| ==> s.jobs[j].held <= s.st.held && s.jobs[j].held <= s.jobs[j].cur.Keys)
    && (forall i, j :: 0 <= i < j < |s.jobs| ==> s.jobs[i].held !! s.jobs[j].held)
  }

  /** What call j knows: nobody else changes the owners of a checksum it has locked. */
  ghost predicate JobInv<H, L>(cfg: Config<H>, s: Sys<H, L>, j: nat)
    requires j < |s.jobs| == |cfg.groups|
  {
    var c, infos := s.jobs[j], Infos(cfg.groups[j]);
    match c.phase
    case Taking =>
      && c.held == c.cur.Keys && c.cur.Keys <= infos.Keys && c.held !! s.st.waiting.Keys
      && (forall h :: h in c.cur ==> c.cur[h] == OwnersOf(s.st.owners, h))
    case Looking(_) =>
      && c.held == c.cur.Keys == infos.Keys && c.held !! s.st.waiting.Keys
      && (forall h :: h in c.cur ==> c.cur[h] == OwnersOf(s.st.owners, h))
    case Failed => c.held == c.cur.Keys == infos.Keys && c.held !! s.st.waiting.Keys
    case Copying(dests, full, added) =>
      && c.cur.Keys == infos.Keys && c.held <= s.st.waiting.Keys
      && Correct(c.cur, dests, cfg.min, cfg.excl, full, added)
      && (forall h :: h in c.cur ==> CopyInv(s, c, infos, added, h))
  }

  ghost predicate CopyInv<H, L>(s: Sys<H, L>, c: Job<H, L>, infos: map<H, Info<H>>, added: Placement<H, L>, h: H) {
    && h in added && h in infos && h in c.cur
    && (h in c.held ==>
          h in s.st.waiting && s.st.waiting[h].size == infos[h].quotaUse && s.st.waiting[h].left <= added[h])
    && (c.intact ==>
          c.cur[h] + (added[h] - (if h in c.held && h in s.st.waiting then s.st.waiting[h].left else {}))
          <= OwnersOf(s.st.owners, h))
  }

  ghost predicate Inv<H, L>(cfg: Config<H>, s: Sys<H, L>) {
    && |s.jobs| == |cfg.groups| && LockInv(s) && Turning(s.ring.items, s.ring.cur)
    && (forall j :: 0 <= j < |s.jobs| ==> JobInv(cfg, s, j))
  }

  lemma StartInv<H, L>(cfg: Config<H>, s: Sys<H, L>)
    requires Start(cfg, s)
    ensures Inv(cfg, s)
  {
  }

  lemma PlacesAll<H, L>(cfg: Config<H>, s: Sys<H, L>, j: nat, ev: Event<H, L>)
    requires Enabled(cfg, s, j, ev) && Inv(cfg, s) && ev.Place?
    ensures ev.added.Keys == s.jobs[j].cur.Keys == s.jobs[j].held == Infos(cfg.groups[j]).Keys
    ensures s.jobs[j].held <= s.st.held && s.jobs[j].held !! s.st.waiting.Keys
    ensures Waits(Infos(cfg.groups[j]), ev.added).Keys == ev.added.Keys
  {
    hide Correct, Infos, TotalUse, Affordable, Refusal, Promised, MayBeShort;
    assert JobInv(cfg, s, j);
    PlaceIsCorrect(cfg, s, j, ev);
    CorrectKeys(s.jobs[j].cur, s.jobs[j].phase.dests, cfg.min, cfg.excl, ev.full, ev.added);
  }

  lemma PlaceIsCorrect<H, L>(cfg: Config<H>, s: Sys<H, L>, j: nat, ev: Event<H, L>)
    requires Enabled(cfg, s, j, ev) && ev.Place?
    ensures j < |s.jobs| && s.jobs[j].phase.Looking?
    ensures Correct(s.jobs[j].cur, s.jobs[j].phase.dests, cfg.min, cfg.excl, ev.full, ev.added)
  {
    hide Promised, MayBeShort, Correct, Refusal, Infos;
    PromisedIsCorrect(s.jobs[j].cur, s.jobs[j].phase.dests, s.ring.items, cfg.min, cfg.excl, s.ring.cur, ev.full,
                      ev.added, ev.cur);
  }

  lemma RingTurns<H, L>(cfg: Config<H>, s: Sys<H, L>, j: nat, ev: Event<H, L>)
    requires Enabled(cfg, s, j, ev) && Turning(s.ring.items, s.ring.cur)
    ensures var t := Next(cfg, s, j, ev); t.ring.items == s.ring.items && Turning(t.ring.items, t.ring.cur)
  {
    hide Correct, AllNew, AllFillable, Exact, TakesTurns, MayBeShort, Refusal, Infos, TotalUse, Affordable;
  }

  lemma LocksKept<H, L>(cfg: Config<H>, s: Sys<H, L>, j: nat, ev: Event<H, L>)
    requires Enabled(cfg, s, j, ev) && Inv(cfg, s)
    ensures LockInv(Next(cfg, s, j, ev))
  {
    hide Promised, MayBeShort, CopyInv, Infos, TotalUse, Affordable, Refusal, JobInv, Waits, Turning;
    if ev.Place? {
      PlacesAll(cfg, s, j, ev);
    }
  }

  /** A step touches no checksum but those its own job has locked, and takes no owner away. */
  lemma StepIsLocal<H(!new), L>(cfg: Config<H>, s: Sys<H, L>, j: nat, ev: Event<H, L>)
    requires Enabled(cfg, s, j, ev) && Inv(cfg, s)
    ensures var t := Next(cfg, s, j, ev);
      && |t.jobs| == |s.jobs| && (forall i :: 0 <= i < |s.jobs| && i != j ==> t.jobs[i] == s.jobs[i])
      && (forall h :: OwnersOf(s.st.owners, h) <= OwnersOf(t.st.owners, h))
      && (forall h :: h !in s.jobs[j].held ==> OwnersOf(s.st.owners, h) == OwnersOf(t.st.owners, h))
      && (forall h :: h !in s.jobs[j].held ==> (h in s.st.waiting <==> h in t.st.waiting))
      && (forall h :: h !in s.jobs[j].held && h in s.st.waiting ==> s.st.waiting[h] == t.st.waiting[h])
  {
    hide Promised, MayBeShort, CopyInv, Infos, TotalUse, Affordable, Refusal, JobInv, LockInv, Turning;
    if ev.Place? {
      PlacesAll(cfg, s, j, ev);
    }
  }

  // The step of one job, seen by another.
  lemma OthersKept<H(!new), L>(cfg: Config<H>, s: Sys<H, L>, j: nat, ev: Event<H, L>, i: nat)
    requires Enabled(cfg, s, j, ev) && Inv(cfg, s) && i < |s.jobs| && i != j
    ensures JobInv(cfg, Next(cfg, s, j, ev), i)
  {
    hide Correct, Infos, TotalUse, Affordable, Refusal, Enabled, Next;
    var t, c := Next(cfg, s, j, ev), s.jobs[i];
    StepIsLocal(cfg, s, j, ev);
    assert j < |s.jobs| by {
      SameJobs(cfg, s, j, ev);
    }
    assert t.jobs[i] == c && JobInv(cfg, s, i);
    assert c.held !! s.jobs[j].held;
    if c.phase.Copying? {
      forall h | h in c.cur
        ensures CopyInv(t, c, Infos(cfg.groups[i]), c.phase.added, h)
      {
        assert CopyInv(s, c, Infos(cfg.groups[i]), c.phase.added, h);
      }
    }
  }

  lemma OwnLock<H(!new), L>(cfg: Config<H>, s: Sys<H, L>, j: nat, ev: Event<H, L>)
    requires Enabled(cfg, s, j, ev) && Inv(cfg, s) && (ev.Lock? || ev.Look? || ev.GiveUp?)
    ensures JobInv(cfg, Next(cfg, s, j, ev), j)
  {
    hide Promised, MayBeShort, Correct, Infos, TotalUse, Affordable, Refusal, CopyInv, Turning;
    assert JobInv(cfg, s, j);
  }

  lemma OwnPlace<H(!new), L>(cfg: Config<H>, s: Sys<H, L>, j: nat, ev: Event<H, L>)
    requires Enabled(cfg, s, j, ev) && Inv(cfg, s) && ev.Place?
    ensures JobInv(cfg, Next(cfg, s, j, ev), j)
  {
    hide Promised, MayBeShort, Correct, Infos, TotalUse, Affordable, Refusal, Turning;
    var t, c, infos := Next(cfg, s, j, ev), s.jobs[j], Infos(cfg.groups[j]);
    assert JobInv(cfg, s, j);
    PlaceIsCorrect(cfg, s, j, ev);
    PlacesAll(cfg, s, j, ev);
    forall h | h in c.cur
      ensures CopyInv(t, t.jobs[j], infos, ev.added, h)
    {
    }
  }

  lemma OwnCopy<H(!new), L>(cfg: Config<H>, s: Sys<H, L>, j: nat, ev: Event<H, L>)
    requires Enabled(cfg, s, j, ev) && Inv(cfg, s) && (ev.End? || ev.Unlock?)
    ensures JobInv(cfg, Next(cfg, s, j, ev), j)
  {
    hide Promised, MayBeShort, Correct, Infos, TotalUse, Affordable, Refusal, LockInv, Turning;
    var t, c, infos := Next(cfg, s, j, ev), s.jobs[j], Infos(cfg.groups[j]);
    assert JobInv(cfg, s, j);
    forall h | h in c.cur
      ensures CopyInv(t, t.jobs[j], infos, c.phase.added, h)
    {
      assert CopyInv(s, c, infos, c.phase.added, h);
    }
  }

  lemma EventKeeps<H(!new), L>(cfg: Config<H>, s: Sys<H, L>, j: nat, ev: Event<H, L>)
    requires Enabled(cfg, s, j, ev) && Inv(cfg, s)
    ensures Inv(cfg, Next(cfg, s, j, ev))
  {
    hide Enabled, Next, JobInv, LockInv, Turning;
    LocksKept(cfg, s, j, ev);
    RingTurns(cfg, s, j, ev);
    var t := Next(cfg, s, j, ev);
    SameJobs(cfg, s, j, ev);
    forall i | 0 <= i < |t.jobs|
      ensures JobInv(cfg, t, i)
    {
      if i == j {
        if ev.Place? {
          OwnPlace(cfg, s, j, ev);
        } else if ev.End? || ev.Unlock? {
          OwnCopy(cfg, s, j, ev);
        } else {
          OwnLock(cfg, s, j, ev);
        }
      } else {
        OthersKept(cfg, s, j, ev, i);
      }
    }
  }

  lemma SameJobs<H, L>(cfg: Config<H>, s: Sys<H, L>, j: nat, ev: Event<H, L>)
    requires Enabled(cfg, s, j, ev)
    ensures |Next(cfg, s, j, ev).jobs| == |s.jobs| == |cfg.groups| && j < |s.jobs|
  {
  }

  lemma {:induction false} RunKeeps<H(!new), L>(cfg: Config<H>, s: Sys<H, L>, run: seq<(nat, Event<H, L>)>,
                                                t: Sys<H, L>)
    requires Runs(cfg, s, run, t) && Inv(cfg, s)
    ensures Inv(cfg, t)
    decreases run
  {
    hide Enabled, Next, Inv;
    if run != [] {
      EventKeeps(cfg, s, run[0].0, run[0].1);
      RunKeeps(cfg, Next(cfg, s, run[0].0, run[0].1), run[1..], t);
    }
  }

  // ---------------------------------------------------------------- what a finished job leaves

  // The job placed its copies, every lock is released, and no copy failed.
  ghost predicate Finished<H, L>(s: Sys<H, L>, j: nat) {
    j < |s.jobs| && s.jobs[j].phase.Copying? && s.jobs[j].held == {} && s.jobs[j].intact
  }

  /** Every planned copy has become an owner, next to the copies that existed under the lock. */
  lemma FinishedIsCommitted<H(!new), L>(cfg: Config<H>, s: Sys<H, L>, run: seq<(nat, Event<H, L>)>, t: Sys<H, L>,
                                        j: nat)
    requires Start(cfg, s) && Runs(cfg, s, run, t) && Finished(t, j)
    ensures j < |cfg.groups|
    ensures var c, infos := t.jobs[j], Infos(cfg.groups[j]);
      && c.cur.Keys == infos.Keys
      && Correct(c.cur, c.phase.dests, cfg.min, cfg.excl, c.phase.full, c.phase.added)
      && forall h :: h in infos ==> Merge(c.cur, c.phase.added)[h] <= OwnersOf(t.st.owners, h)
  {
    hide Runs, Correct, Infos;
    StartInv(cfg, s);
    RunKeeps(cfg, s, run, t);
    assert JobInv(cfg, t, j);
    forall h | h in Infos(cfg.groups[j])
      ensures Merge(t.jobs[j].cur, t.jobs[j].phase.added)[h] <= OwnersOf(t.st.owners, h)
    {
      assert CopyInv(t, t.jobs[j], Infos(cfg.groups[j]), t.jobs[j].phase.added, h);
    }
  }

  /** Every checksum of a finished group has at least `min` owners. */
  lemma FinishedHasMinOwners<H(!new), L>(cfg: Config<H>, s: Sys<H, L>, run: seq<(nat, Event<H, L>)>, t: Sys<H, L>,
                                         j: nat, h: H)
    requires Start(cfg, s) && Runs(cfg, s, run, t) && Finished(t, j)
    requires j < |cfg.groups| && h in Infos(cfg.groups[j])
    ensures |OwnersOf(t.st.owners, h)| >= cfg.min
  {
    hide Runs, Infos;
    FinishedIsCommitted(cfg, s, run, t, j);
    var c := t.jobs[j];
    FullIsMerged(c.cur, c.phase.dests, cfg.min, c.phase.full, c.phase.added);
    SubsetOfSameSize(c.phase.full[h], OwnersOf(t.st.owners, h));
  }

  // The checksums of a group, chunk by chunk.
  function Hashes<H>(group: seq<Chunk<H>>): (hs: seq<H>)
    ensures |hs| == |group|
  {
    if group == [] then [] else Hashes(group[..|group| - 1]) + [group[|group| - 1].hash]
  }

  lemma {:induction false} HashesAreKeys<H>(group: seq<Chunk<H>>)
    ensures Elems(Hashes(group)) == Infos(group).Keys
  {
    if group != [] {
      HashesAreKeys(group[..|group| - 1]);
    }
  }

  // The checksums that still have an owner when the stores of `lost` are gone.
  ghost function Owned<H, L>(owners: Owning<H, L>, lost: set<L>): set<H> {
    set h | h in owners && owners[h] - lost != {}
  }

  /**
   The promise of striping, end to end: once a group of ndata + nparity shards has been committed, losing any `min`
   stores leaves at least ndata of its shards, whatever the other jobs did meanwhile. No nparity + 1 shards of the
   group may be equal.
   */
  lemma FinishedToleratesLosses<H(!new), L>(cfg: Config<H>, s: Sys<H, L>, run: seq<(nat, Event<H, L>)>, t: Sys<H, L>,
                                            j: nat, ndata: nat, nparity: nat, lost: set<L>)
    requires Start(cfg, s) && Runs(cfg, s, run, t) && Finished(t, j)
    requires j < |cfg.groups| && |cfg.groups[j]| == ndata + nparity && Spares(Hashes(cfg.groups[j]), nparity)
    requires cfg.min >= 1 && cfg.excl >= ndata && |lost| <= cfg.min
    ensures Count(Hashes(cfg.groups[j]), Owned(t.st.owners, lost)) >= ndata
  {
    hide Runs, Infos, Correct, Hashes, Spares, Count;
    FinishedIsCommitted(cfg, s, run, t, j);
    var c, shards := t.jobs[j], Hashes(cfg.groups[j]);
    HashesAreKeys(cfg.groups[j]);
    FaultTolerance(c.cur, c.phase.dests, cfg.min, cfg.excl, c.phase.full, c.phase.added, shards, ndata, nparity, lost);
    var alive := Surviving(Merge(c.cur, c.phase.added), lost);
    forall h | h in alive
      ensures h in Owned(t.st.owners, lost)
    {
      var l :| l in Merge(c.cur, c.phase.added)[h] - lost;
      assert l in OwnersOf(t.st.owners, h) - lost;
    }
    CountGrows(shards, alive, Owned(t.st.owners, lost));
  }

  // ---------------------------------------------------------------- locks are returned

  ghost function Taken<H, L>(run: seq<(nat, Event<H, L>)>, j: nat, h: H): nat {
    if run == [] then 0 else (if run[0] == (j, Lock(h)) then 1 else 0) + Taken(run[1..], j, h)
  }

  ghost function Returned<H, L>(run: seq<(nat, Event<H, L>)>, j: nat, h: H): nat {
    if run == [] then 0 else (if run[0] == (j, Unlock(h)) then 1 else 0) + Returned(run[1..], j, h)
  }

  ghost function Holding<H, L>(s: Sys<H, L>, j: nat, h: H): nat {
    if j < |s.jobs| && h in s.jobs[j].held then 1 else 0
  }

  lemma {:induction false} LocksBalance<H(!new), L>(cfg: Config<H>, s: Sys<H, L>, run: seq<(nat, Event<H, L>)>,
                                                    t: Sys<H, L>, j: nat, h: H)
    requires Runs(cfg, s, run, t) && Inv(cfg, s)
    ensures Holding(s, j, h) + Taken(run, j, h) == Returned(run, j, h) + Holding(t, j, h)
    decreases run
  {
    hide Inv;
    if run != [] {
      var u := Next(cfg, s, run[0].0, run[0].1);
      EventKeeps(cfg, s, run[0].0, run[0].1);
      LocksBalance(cfg, u, run[1..], t, j, h);
      OneLock(cfg, s, run[0].0, run[0].1, j, h);
    }
  }

  lemma OneLock<H(!new), L>(cfg: Config<H>, s: Sys<H, L>, i: nat, ev: Event<H, L>, j: nat, h: H)
    requires Enabled(cfg, s, i, ev) && Inv(cfg, s)
    ensures Holding(s, j, h) + (if (i, ev) == (j, Lock(h)) then 1 else 0) ==
            (if (i, ev) == (j, Unlock(h)) then 1 else 0) + Holding(Next(cfg, s, i, ev), j, h)
  {
    hide JobInv, Promised, MayBeShort, Infos, Refusal, Affordable, TotalUse, Turning;
  }

  lemma {:induction false} TakenOnce<H(!new), L>(cfg: Config<H>, s: Sys<H, L>, run: seq<(nat, Event<H, L>)>,
                                                 t: Sys<H, L>, j: nat, h: H)
    requires Runs(cfg, s, run, t) && |s.jobs| == |cfg.groups| && j < |s.jobs|
    ensures |t.jobs| == |s.jobs| && s.jobs[j].cur.Keys <= t.jobs[j].cur.Keys
    ensures Taken(run, j, h) == if h in t.jobs[j].cur && h !in s.jobs[j].cur then 1 else 0
    decreases run
  {
    hide Promised, MayBeShort, Correct, Infos, Refusal, Affordable, TotalUse, Turning;
    if run != [] {
      TakenOnce(cfg, Next(cfg, s, run[0].0, run[0].1), run[1..], t, j, h);
    }
  }

  /** A finished job took the lock of each of its checksums exactly once and released it exactly once. */
  lemma FinishedReturnsLocks<H(!new), L>(cfg: Config<H>, s: Sys<H, L>, run: seq<(nat, Event<H, L>)>, t: Sys<H, L>,
                                         j: nat, h: H)
    requires Start(cfg, s) && Runs(cfg, s, run, t)
    requires j < |t.jobs| && t.jobs[j].phase.Copying? && t.jobs[j].held == {}
    ensures j < |cfg.groups|
    ensures Taken(run, j, h) == Returned(run, j, h) == if h in Infos(cfg.groups[j]) then 1 else 0
  {
    hide Runs, Infos, Correct;
    StartInv(cfg, s);
    RunKeeps(cfg, s, run, t);
    assert JobInv(cfg, t, j);
    LocksBalance(cfg, s, run, t, j, h);
    TakenOnce(cfg, s, run, t, j, h);
  }

  /** A job whose striping failed never gives its locks back: stripe.go:95-97 returns with them held. */
  lemma {:induction false} FailureKeepsLocks<H(!new), L>(cfg: Config<H>, s: Sys<H, L>, run: seq<(nat, Event<H, L>)>,
                                                         t: Sys<H, L>, j: nat, h: H)
    requires Inv(cfg, s) && Runs(cfg, s, run, t)
    requires j < |s.jobs| && s.jobs[j].phase == Failed && h in s.jobs[j].held
    ensures j < |t.jobs| && t.jobs[j].phase == Failed && h in t.jobs[j].held && h in t.st.held
    decreases run
  {
    hide Promised, MayBeShort, Infos, Refusal, Affordable, TotalUse, JobInv, Turning;
    if run != [] {
      EventKeeps(cfg, s, run[0].0, run[0].1);
      FailureKeepsLocks(cfg, Next(cfg, s, run[0].0, run[0].1), run[1..], t, j, h);
    }
  }

  // What job j still has to do: the copies that have not ended, and the locks to release.
  ghost function Due<H, L>(s: Sys<H, L>, j: nat): set<(H, Option<L>)>
    requires j < |s.jobs|
  {
    (set h | h in s.jobs[j].held :: (h, None)) +
    (set h, l | h in s.jobs[j].held && h in s.st.waiting && l in s.st.waiting[h].left :: (h, Some(l)))
  }

  /** A job that copies always has a next step, until it holds no lock. */
  lemma CopyingIsNeverStuck<H(!new), L(!new)>(cfg: Config<H>, s: Sys<H, L>, j: nat)
    requires Inv(cfg, s) && j < |s.jobs| && s.jobs[j].phase.Copying? && s.jobs[j].held != {}
    requires Refusal(cfg.groups[j]) == None
    ensures (exists h :: Enabled(cfg, s, j, Unlock(h))) || exists h, l :: Enabled(cfg, s, j, End(h, l, true))
  {
    hide Correct, Infos, Refusal;
    assert JobInv(cfg, s, j);
    var h :| h in s.jobs[j].held;
    var left := s.st.waiting[h].left;
    if left == {} {
      assert Enabled(cfg, s, j, Unlock(h));
    } else {
      var l :| l in left;
      assert Enabled(cfg, s, j, End(h, l, true));
    }
  }

  /** Its own steps shrink what it has to do; the steps of other jobs leave it alone. */
  lemma CopyingSettles<H(!new), L>(cfg: Config<H>, s: Sys<H, L>, i: nat, ev: Event<H, L>, j: nat)
    requires Enabled(cfg, s, i, ev) && Inv(cfg, s) && j < |s.jobs| && s.jobs[j].phase.Copying?
    ensures j < |Next(cfg, s, i, ev).jobs|
    ensures i == j ==> Due(Next(cfg, s, i, ev), j) < Due(s, j)
    ensures i != j ==> Due(Next(cfg, s, i, ev), j) == Due(s, j)
  {
    hide Promised, MayBeShort, Correct, Infos, Refusal, Affordable, TotalUse, Turning;
    assert JobInv(cfg, s, j);
    SameJobs(cfg, s, i, ev);
    var t := Next(cfg, s, i, ev);
    if i == j {
      if ev.Unlock? {
        assert (ev.h, None) in Due(s, j) && (ev.h, None) !in Due(t, j);
      } else {
        assert (ev.h, Some(ev.id)) in Due(s, j) && (ev.h, Some(ev.id)) !in Due(t, j);
      }
    } else {
      StepIsLocal(cfg, s, i, ev);
      assert s.jobs[j].held !! s.jobs[i].held;
    }
  }

  // ---------------------------------------------------------------- a store that is dropped

  // The store is not managed, and job k plans nothing for it.
  ghost predicate Unused<H, L>(s: Sys<H, L>, k: nat, id: L) {
    id !in s.st.quota && k < |s.jobs| &&
    match s.jobs[k].phase
    case Looking(dests) => id !in dests
    case Copying(dests, full, added) => id !in dests && forall h :: h in added ==> id !in added[h]
    case _ => true
  }

  lemma StaysUnused<H, L>(cfg: Config<H>, s: Sys<H, L>, j: nat, ev: Event<H, L>, k: nat, id: L)
    requires Enabled(cfg, s, j, ev) && Unused(s, k, id)
    ensures Unused(Next(cfg, s, j, ev), k, id)
  {
    hide Promised, MayBeShort, Infos, Refusal, TotalUse, Turning;
    if ev.Place? && j == k {
      PlaceIsCorrect(cfg, s, j, ev);
      hide Spread;
    }
  }

  lemma {:induction false} RunStaysUnused<H, L>(cfg: Config<H>, s: Sys<H, L>, run: seq<(nat, Event<H, L>)>,
                                                t: Sys<H, L>, k: nat, id: L)
    requires Runs(cfg, s, run, t) && Unused(s, k, id)
    ensures Unused(t, k, id)
    decreases run
  {
    hide Enabled, Next, Unused;
    if run != [] {
      StaysUnused(cfg, s, run[0].0, run[0].1, k, id);
      RunStaysUnused(cfg, Next(cfg, s, run[0].0, run[0].1), run[1..], t, k, id);
    }
  }

  // A copy that drops its store: it failed, or it filled the store.
  ghost predicate Drops<H, L>(s: Sys<H, L>, ev: Event<H, L>, id: L) {
    && ev.End? && ev.id == id && ev.h in s.st.waiting
    && (ev.ok && id in s.st.quota ==>
          Add64(s.st.quota[id].use, s.st.waiting[ev.h].size) >= s.st.quota[id].max)
  }

  /**
   A store on which a copy fails, or which a copy fills, is dropped for good: in no later state of any run is it
   managed, and a job that looks for stores after that finds it neither a destination nor places a copy on it.
   */
  lemma DroppedForGood<H, L>(cfg: Config<H>, s: Sys<H, L>, j: nat, ev: Event<H, L>, run: seq<(nat, Event<H, L>)>,
                             t: Sys<H, L>, k: nat, id: L)
    requires Enabled(cfg, s, j, ev) && Drops(s, ev, id) && Runs(cfg, Next(cfg, s, j, ev), run, t)
    requires k < |s.jobs| && s.jobs[k].phase == Taking
    ensures id !in t.st.quota && k < |t.jobs|
    ensures t.jobs[k].phase.Looking? || t.jobs[k].phase.Copying? ==> id !in t.jobs[k].phase.dests
    ensures t.jobs[k].phase.Copying? ==> forall h :: h in t.jobs[k].phase.added ==> id !in t.jobs[k].phase.added[h]
  {
    hide Runs, Promised, MayBeShort, Infos, Refusal, TotalUse, Turning;
    assert Unused(Next(cfg, s, j, ev), k, id);
    RunStaysUnused(cfg, Next(cfg, s, j, ev), run, t, k, id);
  }
}
