/** The accounting of every interleaving of the coordinator's calls: what is spent and owed, and when quotas hold. */
module QuotaRuns {
  import opened Wrappers
  import opened Stripe
  import opened StripeLaws
  import opened Quota
  import opened Copies
  import opened Coordinator
  import opened CommitRuns

  // The data of a group, without wrap-around.
  ghost function Sum<H>(group: seq<Chunk<H>>): nat {
    if group == [] then 0 else Sum(group[..|group| - 1]) + SizeOf(group[|group| - 1])
  }

  lemma {:induction false} SumFits<H>(group: seq<Chunk<H>>)
    requires Sum(group) < WIDTH
    ensures TotalUse(group) == Sum(group)
  {
    if group != [] {
      SumFits(group[..|group| - 1]);
    }
  }

  ghost predicate Left<H, L>(waiting: map<H, Wait<L>>, h: H, l: L) {
    h in waiting && l in waiting[h].left
  }

  /** What a group still has to copy to l, for its checksums in `mine`. */
  ghost function Owed<H, L>(group: seq<Chunk<H>>, waiting: map<H, Wait<L>>, mine: set<H>, l: L): nat {
    if group == [] then 0
    else
      var c := group[|group| - 1];
      Owed(group[..|group| - 1], waiting, mine - {c.hash}, l) +
      if c.hash in mine && Left(waiting, c.hash, l) then SizeOf(c) else 0
  }

  lemma {:induction false} OwedAtMostSum<H, L>(group: seq<Chunk<H>>, waiting: map<H, Wait<L>>, mine: set<H>, l: L)
    ensures Owed(group, waiting, mine, l) <= Sum(group)
  {
    if group != [] {
      OwedAtMostSum(group[..|group| - 1], waiting, mine - {group[|group| - 1].hash}, l);
    }
  }

  lemma {:induction false} OwedDepends<H, L>(group: seq<Chunk<H>>, w: map<H, Wait<L>>, v: map<H, Wait<L>>, a: set<H>,
                                             b: set<H>, l: L)
    requires forall c :: c in group ==> (c.hash in a && Left(w, c.hash, l) <==> c.hash in b && Left(v, c.hash, l))
    ensures Owed(group, w, a, l) == Owed(group, v, b, l)
  {
    if group != [] {
      var init, c := group[..|group| - 1], group[|group| - 1];
      assert c in group;
      forall x | x in init
        ensures x.hash in a - {c.hash} && Left(w, x.hash, l) <==> x.hash in b - {c.hash} && Left(v, x.hash, l)
      {
        assert x in group;
      }
      OwedDepends(init, w, v, a - {c.hash}, b - {c.hash}, l);
    }
  }

  lemma {:induction false} NothingOwed<H, L>(group: seq<Chunk<H>>, w: map<H, Wait<L>>, mine: set<H>, l: L)
    requires forall h :: h in mine ==> !Left(w, h, l)
    ensures Owed(group, w, mine, l) == 0
  {
    if group != [] {
      NothingOwed(group[..|group| - 1], w, mine - {group[|group| - 1].hash}, l);
    }
  }

  /** One copy to l of a checksum accounts for the size of the chunk that stands for it. */
  lemma {:induction false} OwedLess<H, L>(group: seq<Chunk<H>>, w: map<H, Wait<L>>, v: map<H, Wait<L>>, mine: set<H>,
                                          h: H, l: L)
    requires h in mine && h in Infos(group) && Left(w, h, l) && !Left(v, h, l)
    requires forall c :: c in group && c.hash != h ==> (Left(w, c.hash, l) <==> Left(v, c.hash, l))
    ensures Owed(group, w, mine, l) == Owed(group, v, mine, l) + Infos(group)[h].quotaUse
  {
    var init, c := group[..|group| - 1], group[|group| - 1];
    assert c in group && forall x :: x in init ==> x in group;
    if c.hash == h {
      forall x | x in init
        ensures x.hash in mine - {h} && Left(w, x.hash, l) <==> x.hash in mine - {h} && Left(v, x.hash, l)
      {
        assert x in group;
      }
      OwedDepends(init, w, v, mine - {h}, mine - {h}, l);
    } else {
      OwedLess(init, w, v, mine - {c.hash}, h, l);
    }
  }

  /** What all jobs together still have to copy to l. */
  ghost function OwedAll<H, L>(groups: seq<seq<Chunk<H>>>, jobs: seq<Job<H, L>>, waiting: map<H, Wait<L>>, l: L): nat
    requires |groups| == |jobs|
  {
    if jobs == [] then 0
    else
      var n := |jobs| - 1;
      OwedAll(groups[..n], jobs[..n], waiting, l) + Owed(groups[n], waiting, jobs[n].held, l)
  }

  // Only job j's share changes.
  lemma {:induction false} OwedAllChanges<H, L>(groups: seq<seq<Chunk<H>>>, a: seq<Job<H, L>>, w: map<H, Wait<L>>,
                                                b: seq<Job<H, L>>, v: map<H, Wait<L>>, j: nat, l: L)
    requires |groups| == |a| == |b| && j < |a|
    requires forall i :: 0 <= i < |a| && i != j ==> Owed(groups[i], w, a[i].held, l) == Owed(groups[i], v, b[i].held, l)
    ensures OwedAll(groups, a, w, l) - Owed(groups[j], w, a[j].held, l) ==
            OwedAll(groups, b, v, l) - Owed(groups[j], v, b[j].held, l)
  {
    var n := |a| - 1;
    if j < n {
      OwedAllChanges(groups[..n], a[..n], w, b[..n], v, j, l);
    } else {
      OwedAllSame(groups[..n], a[..n], w, b[..n], v, l);
    }
  }

  lemma {:induction false} OwedAllSame<H, L>(groups: seq<seq<Chunk<H>>>, a: seq<Job<H, L>>, w: map<H, Wait<L>>,
                                             b: seq<Job<H, L>>, v: map<H, Wait<L>>, l: L)
    requires |groups| == |a| == |b|
    requires forall i :: 0 <= i < |a| ==> Owed(groups[i], w, a[i].held, l) == Owed(groups[i], v, b[i].held, l)
    ensures OwedAll(groups, a, w, l) == OwedAll(groups, b, v, l)
  {
    if a != [] {
      var n := |a| - 1;
      OwedAllSame(groups[..n], a[..n], w, b[..n], v, l);
    }
  }

  ghost function Load<H, L>(cfg: Config<H>, s: Sys<H, L>, l: L): int
    requires |cfg.groups| == |s.jobs|
  {
    Spent(s, l) + OwedAll(cfg.groups, s.jobs, s.st.waiting, l)
  }

  // ---------------------------------------------------------------- steps

  // The jobs other than j are owed the same before and after a step of j.
  lemma OthersOwed<H(!new), L>(cfg: Config<H>, s: Sys<H, L>, j: nat, ev: Event<H, L>, l: L)
    requires Enabled(cfg, s, j, ev) && Inv(cfg, s)
    ensures var t := Next(cfg, s, j, ev);
      && |t.jobs| == |cfg.groups| == |s.jobs| && j < |s.jobs|
      && OwedAll(cfg.groups, t.jobs, t.st.waiting, l) - Owed(cfg.groups[j], t.st.waiting, t.jobs[j].held, l) ==
         OwedAll(cfg.groups, s.jobs, s.st.waiting, l) - Owed(cfg.groups[j], s.st.waiting, s.jobs[j].held, l)
  {
    hide Enabled, Next, JobInv, Owed, OwedAll;
    var t := Next(cfg, s, j, ev);
    SameJobs(cfg, s, j, ev);
    StepIsLocal(cfg, s, j, ev);
    forall i | 0 <= i < |s.jobs| && i != j
      ensures Owed(cfg.groups[i], s.st.waiting, s.jobs[i].held, l) ==
              Owed(cfg.groups[i], t.st.waiting, t.jobs[i].held, l)
    {
      assert s.jobs[i].held !! s.jobs[j].held;
      OwedDepends(cfg.groups[i], s.st.waiting, t.st.waiting, s.jobs[i].held, t.jobs[i].held, l);
    }
    OwedAllChanges(cfg.groups, s.jobs, s.st.waiting, t.jobs, t.st.waiting, j, l);
  }

  lemma EndIsOwn<H, L>(cfg: Config<H>, s: Sys<H, L>, j: nat, ev: Event<H, L>)
    requires Enabled(cfg, s, j, ev) && ev.End?
    ensures j < |s.jobs| == |cfg.groups| && s.jobs[j].phase.Copying? && ev.h in s.jobs[j].held
    ensures Left(s.st.waiting, ev.h, ev.id)
  {
  }

  /** A copy that ends well moves what is owed into what is spent; a failed one is no longer owed. */
  lemma EndMovesLoad<H(!new), L>(cfg: Config<H>, s: Sys<H, L>, j: nat, ev: Event<H, L>, l: L)
    requires Enabled(cfg, s, j, ev) && Inv(cfg, s) && ev.End?
    ensures var t := Next(cfg, s, j, ev);
      && |t.jobs| == |cfg.groups| == |s.jobs| && ev.h in s.st.waiting
      && Load(cfg, t, l) == Load(cfg, s, l) - (if l == ev.id && !ev.ok then s.st.waiting[ev.h].size else 0)
  {
    hide Correct, Promised, Refusal, Affordable, TotalUse, Infos, Owed, OwedAll, Enabled, Turning;
    EndIsOwn(cfg, s, j, ev);
    var t, c := Next(cfg, s, j, ev), s.jobs[j];
    OthersOwed(cfg, s, j, ev, l);
    assert JobInv(cfg, s, j);
    assert CopyInv(s, c, Infos(cfg.groups[j]), c.phase.added, ev.h);
    if l == ev.id {
      OwedLess(cfg.groups[j], s.st.waiting, t.st.waiting, c.held, ev.h, l);
    } else {
      OwedDepends(cfg.groups[j], s.st.waiting, t.st.waiting, c.held, t.jobs[j].held, l);
    }
  }

  lemma LocksMoveNoLoad<H(!new), L>(cfg: Config<H>, s: Sys<H, L>, j: nat, ev: Event<H, L>, l: L)
    requires Enabled(cfg, s, j, ev) && Inv(cfg, s) && (ev.Lock? || ev.Look? || ev.GiveUp? || ev.Unlock?)
    ensures var t := Next(cfg, s, j, ev);
      |t.jobs| == |cfg.groups| == |s.jobs| && Load(cfg, t, l) == Load(cfg, s, l)
  {
    hide Promised, MayBeShort, Refusal, Affordable, TotalUse, Infos, Owed, OwedAll, JobInv, Turning;
    var t := Next(cfg, s, j, ev);
    OthersOwed(cfg, s, j, ev, l);
    OwedDepends(cfg.groups[j], s.st.waiting, t.st.waiting, s.jobs[j].held, t.jobs[j].held, l);
  }

  /** A placement adds to a store at most the data of the group, and only if it uses the store. */
  lemma PlaceAddsLoad<H(!new), L>(cfg: Config<H>, s: Sys<H, L>, j: nat, ev: Event<H, L>, l: L)
    requires Enabled(cfg, s, j, ev) && Inv(cfg, s) && ev.Place?
    ensures var t := Next(cfg, s, j, ev);
      && |t.jobs| == |cfg.groups| == |s.jobs| && j < |cfg.groups|
      && Load(cfg, t, l) <= Load(cfg, s, l) + (if Uses(ev, l) then Sum(cfg.groups[j]) else 0)
  {
    hide Promised, MayBeShort, Refusal, Affordable, TotalUse, Infos, Owed, OwedAll, JobInv, Turning;
    var t := Next(cfg, s, j, ev);
    OthersOwed(cfg, s, j, ev, l);
    PlacesAll(cfg, s, j, ev);
    if Uses(ev, l) {
      OwedAtMostSum(cfg.groups[j], t.st.waiting, t.jobs[j].held, l);
    } else {
      NothingOwed(cfg.groups[j], t.st.waiting, t.jobs[j].held, l);
    }
  }

  // A placement that copies something to l.
  ghost predicate Uses<H, L>(ev: Event<H, L>, l: L) {
    ev.Place? && exists h :: h in ev.added && l in ev.added[h]
  }

  // A placement uses no store but those that fitted when its job looked.
  lemma UsedIsLookedAt<H, L>(cfg: Config<H>, s: Sys<H, L>, j: nat, ev: Event<H, L>, l: L)
    requires Enabled(cfg, s, j, ev) && Uses(ev, l)
    ensures j < |s.jobs| == |cfg.groups| && s.jobs[j].phase.Looking? && l in s.jobs[j].phase.dests
  {
    hide Promised, Refusal, TotalUse, Infos;
    PlaceIsCorrect(cfg, s, j, ev);
    var h :| h in ev.added && l in ev.added[h];
    FullIsMerged(s.jobs[j].cur, s.jobs[j].phase.dests, cfg.min, ev.full, ev.added);
  }

  // ---------------------------------------------------------------- quotas hold

  /** What a job has seen to fit still fits, and nothing else is on its way there. */
  ghost predicate Reserved<H, L>(cfg: Config<H>, s: Sys<H, L>, j: nat, limits: map<L, uint64>)
    requires j < |s.jobs| == |cfg.groups|
  {
    s.jobs[j].phase.Looking? ==>
      && (forall l :: l in s.jobs[j].phase.dests && l in limits ==>
            OwedAll(cfg.groups, s.jobs, s.st.waiting, l) == 0 && Spent(s, l) + Sum(cfg.groups[j]) <= limits[l])
      && (forall i :: 0 <= i < |s.jobs| && s.jobs[i].phase.Looking? ==> i == j)
  }

  /** No store has been, or is going to be, given more than its limit. */
  ghost predicate Within<H, L>(cfg: Config<H>, s: Sys<H, L>, limits: map<L, uint64>) {
    && |cfg.groups| == |s.jobs|
    && (forall l :: l in limits ==> Load(cfg, s, l) <= limits[l])
    && (forall l :: l in limits && l in s.st.quota ==>
          s.st.quota[l].max == limits[l] && s.st.quota[l].use == Spent(s, l))
    && (forall j :: 0 <= j < |s.jobs| ==> Reserved(cfg, s, j, limits))
  }

  /**
   A job looks for stores when no other job is between its look and its placement, no copy is on its way to a store
   that fits, and sums do not wrap.
   */
  ghost predicate Spaced<H, L>(cfg: Config<H>, s: Sys<H, L>, j: nat, ev: Event<H, L>)
    requires |cfg.groups| == |s.jobs|
  {
    ev.Look? && j < |cfg.groups| ==>
      && (forall i :: 0 <= i < |s.jobs| ==> !s.jobs[i].phase.Looking?)
      && (forall l :: l in Affordable(s.st.quota, TotalUse(cfg.groups[j])) ==>
            OwedAll(cfg.groups, s.jobs, s.st.waiting, l) == 0 && Spent(s, l) + Sum(cfg.groups[j]) < WIDTH)
  }

  // Nothing but job j moves, and what is spent and owed stays.
  lemma ReservedStays<H, L>(cfg: Config<H>, s: Sys<H, L>, t: Sys<H, L>, j: nat, i: nat, limits: map<L, uint64>)
    requires i < |s.jobs| == |cfg.groups| == |t.jobs| && j < |s.jobs|
    requires Reserved(cfg, s, i, limits) && t.jobs[i].phase == s.jobs[i].phase
    requires !t.jobs[j].phase.Looking? || t.jobs[j].phase == s.jobs[j].phase
    requires forall k :: 0 <= k < |s.jobs| && k != j ==> t.jobs[k] == s.jobs[k]
    requires forall l :: l in limits ==> Spent(t, l) + OwedAll(cfg.groups, t.jobs, t.st.waiting, l) <=
                                         Spent(s, l) + OwedAll(cfg.groups, s.jobs, s.st.waiting, l)
    requires forall l :: l in limits ==> Spent(t, l) >= Spent(s, l)
    ensures Reserved(cfg, t, i, limits)
  {
    hide OwedAll, Sum;
  }

  lemma LookStaysWithin<H(!new), L>(cfg: Config<H>, s: Sys<H, L>, j: nat, limits: map<L, uint64>)
    requires Enabled(cfg, s, j, Look) && Inv(cfg, s)
    requires Within(cfg, s, limits) && Spaced<H, L>(cfg, s, j, Look)
    ensures Within(cfg, Next<H, L>(cfg, s, j, Look), limits)
  {
    hide Refusal, TotalUse, Infos, Owed, OwedAll, JobInv, LockInv, Turning;
    var t := Next<H, L>(cfg, s, j, Look);
    assert t.jobs[j].phase.dests == Affordable(s.st.quota, TotalUse(cfg.groups[j]));
    forall l | l in limits
      ensures Load(cfg, t, l) == Load(cfg, s, l) && Spent(t, l) == Spent(s, l)
    {
      LocksMoveNoLoad<H, L>(cfg, s, j, Look, l);
    }
    forall l | l in t.jobs[j].phase.dests && l in limits
      ensures Spent(s, l) + Sum(cfg.groups[j]) <= limits[l]
    {
      if Spent(s, l) >= 0 {
        SumFits(cfg.groups[j]);
      }
    }
  }

  lemma PlaceStaysWithin<H(!new), L>(cfg: Config<H>, s: Sys<H, L>, j: nat, ev: Event<H, L>, limits: map<L, uint64>)
    requires Enabled(cfg, s, j, ev) && Inv(cfg, s) && ev.Place?
    requires Within(cfg, s, limits)
    ensures Within(cfg, Next(cfg, s, j, ev), limits)
  {
    hide Refusal, TotalUse, Infos, Owed, OwedAll, JobInv, LockInv, Promised, Turning;
    var t := Next(cfg, s, j, ev);
    assert Reserved(cfg, s, j, limits);
    forall l | l in limits
      ensures |cfg.groups| == |t.jobs|
      ensures Load(cfg, t, l) <= limits[l]
    {
      PlaceAddsLoad(cfg, s, j, ev, l);
      if Uses(ev, l) {
        UsedIsLookedAt(cfg, s, j, ev, l);
      }
    }
    forall i | 0 <= i < |t.jobs|
      ensures Reserved(cfg, t, i, limits)
    {
      assert Reserved(cfg, s, i, limits);
    }
  }

  lemma EndStaysWithin<H(!new), L>(cfg: Config<H>, s: Sys<H, L>, j: nat, ev: Event<H, L>, limits: map<L, uint64>)
    requires Enabled(cfg, s, j, ev) && Inv(cfg, s) && ev.End?
    requires Within(cfg, s, limits)
    ensures Within(cfg, Next(cfg, s, j, ev), limits)
  {
    hide Refusal, TotalUse, Infos, Owed, OwedAll, JobInv, LockInv, Promised, Turning, Reserved;
    var t := Next(cfg, s, j, ev);
    forall l | l in limits
      ensures |cfg.groups| == |t.jobs| && Load(cfg, t, l) <= Load(cfg, s, l) && Spent(t, l) >= Spent(s, l)
      ensures l in t.st.quota ==> t.st.quota[l].max == limits[l] && t.st.quota[l].use == Spent(t, l)
    {
      EndMovesLoad(cfg, s, j, ev, l);
    }
    forall i | 0 <= i < |t.jobs|
      ensures Reserved(cfg, t, i, limits)
    {
      ReservedStays(cfg, s, t, j, i, limits);
    }
  }

  ghost predicate SpacedRun<H, L>(cfg: Config<H>, s: Sys<H, L>, run: seq<(nat, Event<H, L>)>, t: Sys<H, L>)
    requires Runs(cfg, s, run, t) && |cfg.groups| == |s.jobs|
    decreases run
  {
    run != [] ==>
      var u := Next(cfg, s, run[0].0, run[0].1);
      Spaced(cfg, s, run[0].0, run[0].1) && SpacedRun(cfg, u, run[1..], t)
  }

  lemma {:induction false} RunStaysWithin<H(!new), L>(cfg: Config<H>, s: Sys<H, L>, run: seq<(nat, Event<H, L>)>,
                                                            t: Sys<H, L>, limits: map<L, uint64>)
    requires Runs(cfg, s, run, t) && Inv(cfg, s) && Within(cfg, s, limits) && SpacedRun(cfg, s, run, t)
    ensures Within(cfg, t, limits)
    decreases run
  {
    hide Enabled, Next, Spaced, Within, JobInv, LockInv;
    if run != [] {
      var j, ev, u := run[0].0, run[0].1, Next(cfg, s, run[0].0, run[0].1);
      EventKeeps(cfg, s, j, ev);
      if ev.Look? {
        LookStaysWithin(cfg, s, j, limits);
      } else if ev.Place? {
        PlaceStaysWithin(cfg, s, j, ev, limits);
      } else if ev.End? {
        EndStaysWithin(cfg, s, j, ev, limits);
      } else {
        LocksStayWithin(cfg, s, j, ev, limits);
      }
      RunStaysWithin(cfg, u, run[1..], t, limits);
    }
  }

  lemma LocksStayWithin<H(!new), L>(cfg: Config<H>, s: Sys<H, L>, j: nat, ev: Event<H, L>, limits: map<L, uint64>)
    requires Enabled(cfg, s, j, ev) && Inv(cfg, s) && (ev.Lock? || ev.GiveUp? || ev.Unlock?)
    requires Within(cfg, s, limits)
    ensures Within(cfg, Next(cfg, s, j, ev), limits)
  {
    hide Refusal, TotalUse, Infos, Owed, OwedAll, JobInv, LockInv, MayBeShort, Turning, Reserved;
    var t := Next(cfg, s, j, ev);
    forall l | l in limits
      ensures |cfg.groups| == |t.jobs| && Load(cfg, t, l) == Load(cfg, s, l) && Spent(t, l) == Spent(s, l)
    {
      LocksMoveNoLoad(cfg, s, j, ev, l);
    }
    forall i | 0 <= i < |t.jobs|
      ensures Reserved(cfg, t, i, limits)
    {
      if i == j && ev.GiveUp? {
        NotLooking(cfg, t, i, limits);
      } else {
        ReservedStays(cfg, s, t, j, i, limits);
      }
    }
  }

  lemma NotLooking<H, L>(cfg: Config<H>, s: Sys<H, L>, j: nat, limits: map<L, uint64>)
    requires j < |s.jobs| == |cfg.groups| && !s.jobs[j].phase.Looking?
    ensures Reserved(cfg, s, j, limits)
  {
  }

  /** The stores within their maximum at the start: each with its maximum. */
  ghost function Limits<H, L>(s: Sys<H, L>): map<L, uint64> {
    map l | l in s.st.quota && s.st.quota[l].use <= s.st.quota[l].max :: s.st.quota[l].max
  }

  /** No store within its maximum is ever given more, dropped from the manager or not. */
  lemma QuotasHold<H(!new), L(!new)>(cfg: Config<H>, s: Sys<H, L>, run: seq<(nat, Event<H, L>)>, t: Sys<H, L>, l: L)
    requires Start(cfg, s) && Runs(cfg, s, run, t) && SpacedRun(cfg, s, run, t)
    requires s.spent == map id | id in s.st.quota :: s.st.quota[id].use
    requires l in s.st.quota && s.st.quota[l].use <= s.st.quota[l].max
    ensures Spent(t, l) <= s.st.quota[l].max
    ensures l in t.st.quota ==> t.st.quota[l].use == Spent(t, l) && t.st.quota[l].max == s.st.quota[l].max
  {
    hide Runs, SpacedRun, Next, Enabled, JobInv;
    StartInv(cfg, s);
    forall id
      ensures OwedAll(cfg.groups, s.jobs, s.st.waiting, id) == 0
    {
      NothingOwedAtAll(cfg.groups, s.jobs, s.st.waiting, id);
    }
    RunStaysWithin(cfg, s, run, t, Limits(s));
    assert l in Limits(s) && Load(cfg, t, l) <= Limits(s)[l];
  }

  lemma {:induction false} NothingOwedAtAll<H, L>(groups: seq<seq<Chunk<H>>>, jobs: seq<Job<H, L>>, w: map<H, Wait<L>>,
                                                  l: L)
    requires |groups| == |jobs| && w == map[]
    ensures OwedAll(groups, jobs, w, l) == 0
  {
    if jobs != [] {
      var n := |jobs| - 1;
      NothingOwedAtAll(groups[..n], jobs[..n], w, l);
      NothingOwed(groups[n], w, jobs[n].held, l);
    }
  }

  // ---------------------------------------------------------------- building runs

  lemma RunsOn<H, L>(cfg: Config<H>, s: Sys<H, L>, j: nat, ev: Event<H, L>, u: Sys<H, L>, run: seq<(nat, Event<H, L>)>,
                     t: Sys<H, L>)
    requires Enabled(cfg, s, j, ev) && Next(cfg, s, j, ev) == u && Runs(cfg, u, run, t)
    ensures Runs(cfg, s, [(j, ev)] + run, t)
  {
    assert ([(j, ev)] + run)[1..] == run;
  }

  lemma RunsNowhere<H, L>(cfg: Config<H>, s: Sys<H, L>)
    ensures Runs(cfg, s, [], s)
  {
  }
}