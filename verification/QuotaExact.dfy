/**
 What a store can be given at most, on any schedule, and when that is exact: when no more stores fit a group than copies
 are made of it, so that the striper has no choice.
 */
module QuotaExact {
  import opened Wrappers
  import opened RoundRobin
  import opened Stripe
  import opened Quota
  import opened Copies
  import opened Coordinator
  import opened CommitRuns
  import opened QuotaRuns

  // ---------------------------------------------------------------- the data of a group

  // The chunks of `mine`, each checksum once: the last chunk stands for all.
  ghost function Kept<H>(group: seq<Chunk<H>>, mine: set<H>): nat {
    if group == [] then 0
    else
      var c := group[|group| - 1];
      Kept(group[..|group| - 1], mine - {c.hash}) + if c.hash in mine then SizeOf(c) else 0
  }

  /** What copying a group to one store takes. */
  ghost function Stored<H>(group: seq<Chunk<H>>): nat {
    Kept(group, Infos(group).Keys)
  }

  lemma {:induction false} KeptAtMostSum<H>(group: seq<Chunk<H>>, mine: set<H>)
    ensures Kept(group, mine) <= Sum(group)
  {
    if group != [] {
      KeptAtMostSum(group[..|group| - 1], mine - {group[|group| - 1].hash});
    }
  }

  lemma {:induction false} OwedAtMostKept<H, L>(group: seq<Chunk<H>>, w: map<H, Wait<L>>, mine: set<H>, l: L)
    ensures Owed(group, w, mine, l) <= Kept(group, mine)
  {
    if group != [] {
      OwedAtMostKept(group[..|group| - 1], w, mine - {group[|group| - 1].hash}, l);
    }
  }

  lemma {:induction false} OwedIsKept<H, L>(group: seq<Chunk<H>>, w: map<H, Wait<L>>, mine: set<H>, l: L)
    requires forall h :: h in mine ==> Left(w, h, l)
    ensures Owed(group, w, mine, l) == Kept(group, mine)
  {
    if group != [] {
      OwedIsKept(group[..|group| - 1], w, mine - {group[|group| - 1].hash}, l);
    }
  }

  // ---------------------------------------------------------------- sums over the groups

  ghost function Total(xs: seq<nat>): nat {
    if xs == [] then 0 else Total(xs[..|xs| - 1]) + xs[|xs| - 1]
  }

  lemma TotalOneMore(xs: seq<nat>, k: nat)
    requires k < |xs|
    ensures Total(xs[..k + 1]) == Total(xs[..k]) + xs[k]
  {
    assert xs[..k + 1][..k] == xs[..k];
  }

  lemma {:induction false} TotalOfUpdate(xs: seq<nat>, j: nat, v: nat)
    requires j < |xs|
    ensures Total(xs[j := v]) == Total(xs) - xs[j] + v && xs[j] <= Total(xs)
  {
    var n := |xs| - 1;
    if j < n {
      TotalOfUpdate(xs[..n], j, v);
      assert xs[j := v][..n] == xs[..n][j := v];
    } else {
      assert xs[j := v][..n] == xs[..n];
    }
  }

  lemma {:induction false} TotalAtMost(xs: seq<nat>, ys: seq<nat>)
    requires |xs| == |ys| && forall i :: 0 <= i < |xs| ==> xs[i] <= ys[i]
    ensures Total(xs) <= Total(ys)
  {
    if xs != [] {
      TotalAtMost(xs[..|xs| - 1], ys[..|ys| - 1]);
    }
  }

  /** The group is no error, and fits on a store with this use. */
  predicate Admitted<H>(group: seq<Chunk<H>>, u: Usage) {
    Refusal(group) == None && Fits(u, TotalUse(group))
  }

  ghost function Share<H>(group: seq<Chunk<H>>, u: Usage): nat {
    if Admitted(group, u) then Stored(group) else 0
  }

  ghost function Shares<H>(groups: seq<seq<Chunk<H>>>, u: Usage): (xs: seq<nat>)
    ensures |xs| == |groups| && forall i :: 0 <= i < |xs| ==> xs[i] == Share(groups[i], u)
  {
    seq(|groups|, i requires 0 <= i < |groups| => Share(groups[i], u))
  }

  /** What all groups that fit at the start take together. */
  ghost function Demand<H>(groups: seq<seq<Chunk<H>>>, u: Usage): nat {
    Total(Shares(groups, u))
  }

  ghost function Sums<H>(groups: seq<seq<Chunk<H>>>): (xs: seq<nat>)
    ensures |xs| == |groups| && forall i :: 0 <= i < |xs| ==> xs[i] == Sum(groups[i])
  {
    seq(|groups|, i requires 0 <= i < |groups| => Sum(groups[i]))
  }

  // What a job may still be given on l: nothing any more once it has placed its group, or seen that l does not fit.
  ghost function OpenOf<H, L>(group: seq<Chunk<H>>, job: Job<H, L>, u: Usage, l: L): nat {
    match job.phase
    case Taking => Share(group, u)
    case Looking(dests) => if l in dests then Stored(group) else 0
    case _ => 0
  }

  ghost function OpenShares<H, L>(groups: seq<seq<Chunk<H>>>, jobs: seq<Job<H, L>>, u: Usage, l: L): (xs: seq<nat>)
    requires |groups| == |jobs|
    ensures |xs| == |groups| && forall i :: 0 <= i < |xs| ==> xs[i] == OpenOf(groups[i], jobs[i], u, l)
  {
    seq(|groups|, i requires 0 <= i < |groups| => OpenOf(groups[i], jobs[i], u, l))
  }

  ghost function Open<H, L>(cfg: Config<H>, s: Sys<H, L>, u: Usage, l: L): nat
    requires |cfg.groups| == |s.jobs|
  {
    Total(OpenShares(cfg.groups, s.jobs, u, l))
  }

  lemma OpenOfUpdate<H, L>(cfg: Config<H>, s: Sys<H, L>, t: Sys<H, L>, j: nat, u: Usage, l: L)
    requires |cfg.groups| == |s.jobs| == |t.jobs| && j < |s.jobs|
    requires forall i :: 0 <= i < |s.jobs| && i != j ==> t.jobs[i] == s.jobs[i]
    ensures Open(cfg, t, u, l) ==
            Open(cfg, s, u, l) - OpenOf(cfg.groups[j], s.jobs[j], u, l) + OpenOf(cfg.groups[j], t.jobs[j], u, l)
  {
    hide OpenOf, Total;
    var xs, ys := OpenShares(cfg.groups, s.jobs, u, l), OpenShares(cfg.groups, t.jobs, u, l);
    TotalOfUpdate(xs, j, ys[j]);
    assert ys == xs[j := ys[j]];
  }

  lemma ShareAtMostSum<H>(group: seq<Chunk<H>>, u: Usage)
    ensures Share(group, u) <= Sum(group)
  {
    KeptAtMostSum(group, Infos(group).Keys);
  }

  lemma SharesAtMostSums<H>(groups: seq<seq<Chunk<H>>>, u: Usage)
    ensures Demand(groups, u) <= Total(Sums(groups))
  {
    forall i | 0 <= i < |groups|
      ensures Shares(groups, u)[i] <= Sums(groups)[i]
    {
      ShareAtMostSum(groups[i], u);
    }
    TotalAtMost(Shares(groups, u), Sums(groups));
  }

  // A group that does not fit leaves its data out of the demand.
  lemma DemandLeaves<H>(groups: seq<seq<Chunk<H>>>, u: Usage, j: nat)
    requires j < |groups| && !Admitted(groups[j], u)
    ensures Demand(groups, u) + Sum(groups[j]) <= Total(Sums(groups))
  {
    var xs := Shares(groups, u)[j := Sum(groups[j])];
    TotalOfUpdate(Shares(groups, u), j, Sum(groups[j]));
    forall i | 0 <= i < |groups|
      ensures xs[i] <= Sums(groups)[i]
    {
      ShareAtMostSum(groups[i], u);
    }
    TotalAtMost(xs, Sums(groups));
  }

  // ---------------------------------------------------------------- no schedule takes more

  /** What l has, is owed and may still be given stays within the demand of the start. */
  ghost predicate Budget<H, L>(cfg: Config<H>, s: Sys<H, L>, l: L, u: Usage) {
    && |cfg.groups| == |s.jobs|
    && Load(cfg, s, l) + Open(cfg, s, u, l) <= u.use + Demand(cfg.groups, u)
    && u.use <= Spent(s, l)
    && (l in s.st.quota ==> s.st.quota[l].use == Spent(s, l) && s.st.quota[l].max == u.max)
  }

  // A store that fits a group later fitted it at the start.
  lemma LaterFitsFitted<H, L>(cfg: Config<H>, s: Sys<H, L>, j: nat, l: L, u: Usage)
    requires Budget(cfg, s, l, u) && u.use + Total(Sums(cfg.groups)) < WIDTH
    requires j < |cfg.groups| && Refusal(cfg.groups[j]) == None
    requires l in s.st.quota && Fits(s.st.quota[l], TotalUse(cfg.groups[j]))
    ensures Admitted(cfg.groups[j], u)
  {
    hide Refusal, TotalUse, Sum, OwedAll, Demand, Open;
    if !Admitted(cfg.groups[j], u) {
      DemandLeaves(cfg.groups, u, j);
      SumFits(cfg.groups[j]);
    }
  }

  lemma PlaceAddsStored<H(!new), L>(cfg: Config<H>, s: Sys<H, L>, j: nat, ev: Event<H, L>, l: L)
    requires Enabled(cfg, s, j, ev) && Inv(cfg, s) && ev.Place?
    ensures var t := Next(cfg, s, j, ev);
      && |t.jobs| == |cfg.groups| == |s.jobs| && j < |cfg.groups|
      && Load(cfg, t, l) <= Load(cfg, s, l) + (if Uses(ev, l) then Stored(cfg.groups[j]) else 0)
      && ((forall h :: h in ev.added ==> l in ev.added[h]) ==>
            Load(cfg, t, l) == Load(cfg, s, l) + Stored(cfg.groups[j]))
  {
    hide Promised, MayBeShort, Refusal, Affordable, TotalUse, Infos, Owed, OwedAll, JobInv, Kept, Turning;
    var t := Next(cfg, s, j, ev);
    OthersOwed(cfg, s, j, ev, l);
    PlacesAll(cfg, s, j, ev);
    NothingOwed(cfg.groups[j], s.st.waiting, s.jobs[j].held, l);
    OwedAtMostKept(cfg.groups[j], t.st.waiting, t.jobs[j].held, l);
    if !Uses(ev, l) {
      NothingOwed(cfg.groups[j], t.st.waiting, t.jobs[j].held, l);
    }
    if forall h :: h in ev.added ==> l in ev.added[h] {
      OwedIsKept(cfg.groups[j], t.st.waiting, t.jobs[j].held, l);
    }
  }

  lemma PlaceKeepsBudget<H(!new), L>(cfg: Config<H>, s: Sys<H, L>, j: nat, ev: Event<H, L>, l: L, u: Usage)
    requires Enabled(cfg, s, j, ev) && Inv(cfg, s) && ev.Place?
    requires Budget(cfg, s, l, u) && u.use + Total(Sums(cfg.groups)) < WIDTH
    ensures Budget(cfg, Next(cfg, s, j, ev), l, u)
  {
    hide Refusal, TotalUse, Infos, OwedAll, JobInv, LockInv, Promised, MayBeShort, Turning, Open, Demand, Total, Stored;
    hide Fits;
    PlaceAddsStored(cfg, s, j, ev, l);
    if Uses(ev, l) {
      UsedIsLookedAt(cfg, s, j, ev, l);
    }
    OpenOfUpdate(cfg, s, Next(cfg, s, j, ev), j, u, l);
  }

  lemma LookKeepsBudget<H(!new), L>(cfg: Config<H>, s: Sys<H, L>, j: nat, l: L, u: Usage)
    requires Enabled(cfg, s, j, Look) && Inv(cfg, s)
    requires Budget(cfg, s, l, u) && u.use + Total(Sums(cfg.groups)) < WIDTH
    ensures Budget(cfg, Next<H, L>(cfg, s, j, Look), l, u)
  {
    hide Refusal, TotalUse, Infos, OwedAll, JobInv, LockInv, Turning, Open, Demand, Total, Stored;
    var t := Next<H, L>(cfg, s, j, Look);
    LocksMoveNoLoad<H, L>(cfg, s, j, Look, l);
    assert t.jobs[j].phase.dests == Affordable(s.st.quota, TotalUse(cfg.groups[j]));
    if l in t.jobs[j].phase.dests {
      LaterFitsFitted(cfg, s, j, l, u);
    }
    OpenOfUpdate(cfg, s, t, j, u, l);
  }

  lemma EndKeepsBudget<H(!new), L>(cfg: Config<H>, s: Sys<H, L>, j: nat, ev: Event<H, L>, l: L, u: Usage)
    requires Enabled(cfg, s, j, ev) && Inv(cfg, s) && ev.End?
    requires Budget(cfg, s, l, u) && u.use + Total(Sums(cfg.groups)) < WIDTH
    ensures Budget(cfg, Next(cfg, s, j, ev), l, u)
  {
    hide Refusal, TotalUse, Infos, OwedAll, JobInv, LockInv, Promised, MayBeShort, Turning, Open, Demand, Total, Share;
    EndMovesLoad(cfg, s, j, ev, l);
    OpenOfUpdate(cfg, s, Next(cfg, s, j, ev), j, u, l);
    SharesAtMostSums(cfg.groups, u);
  }

  lemma LockKeepsBudget<H(!new), L>(cfg: Config<H>, s: Sys<H, L>, j: nat, ev: Event<H, L>, l: L, u: Usage)
    requires Enabled(cfg, s, j, ev) && Inv(cfg, s) && (ev.Lock? || ev.GiveUp? || ev.Unlock?)
    requires Budget(cfg, s, l, u)
    ensures Budget(cfg, Next(cfg, s, j, ev), l, u)
  {
    hide Refusal, TotalUse, Infos, OwedAll, JobInv, LockInv, Promised, MayBeShort, Turning, Open, Demand, Total, Share;
    LocksMoveNoLoad(cfg, s, j, ev, l);
    OpenOfUpdate(cfg, s, Next(cfg, s, j, ev), j, u, l);
  }

  lemma EventKeepsBudget<H(!new), L>(cfg: Config<H>, s: Sys<H, L>, j: nat, ev: Event<H, L>, l: L, u: Usage)
    requires Enabled(cfg, s, j, ev) && Inv(cfg, s)
    requires Budget(cfg, s, l, u) && u.use + Total(Sums(cfg.groups)) < WIDTH
    ensures Budget(cfg, Next(cfg, s, j, ev), l, u)
  {
    hide Enabled, Next, Budget, Inv;
    if ev.Look? {
      LookKeepsBudget(cfg, s, j, l, u);
    } else if ev.Place? {
      PlaceKeepsBudget(cfg, s, j, ev, l, u);
    } else if ev.End? {
      EndKeepsBudget(cfg, s, j, ev, l, u);
    } else {
      LockKeepsBudget(cfg, s, j, ev, l, u);
    }
  }

  lemma {:induction false} RunKeepsBudget<H(!new), L>(cfg: Config<H>, s: Sys<H, L>, run: seq<(nat, Event<H, L>)>,
                                                      t: Sys<H, L>, l: L, u: Usage)
    requires Runs(cfg, s, run, t) && Inv(cfg, s)
    requires Budget(cfg, s, l, u) && u.use + Total(Sums(cfg.groups)) < WIDTH
    ensures Budget(cfg, t, l, u)
    decreases run
  {
    hide Enabled, Next, Budget, Inv;
    if run != [] {
      var j, ev := run[0].0, run[0].1;
      EventKeeps(cfg, s, j, ev);
      EventKeepsBudget(cfg, s, j, ev, l, u);
      RunKeepsBudget(cfg, Next(cfg, s, j, ev), run[1..], t, l, u);
    }
  }

  lemma StartBudget<H, L>(cfg: Config<H>, s: Sys<H, L>, l: L)
    requires Start(cfg, s) && l in s.st.quota && Spent(s, l) == s.st.quota[l].use
    ensures Budget(cfg, s, l, s.st.quota[l])
    ensures Load(cfg, s, l) == s.st.quota[l].use
  {
    NothingOwedAtAll(cfg.groups, s.jobs, s.st.waiting, l);
    assert OpenShares(cfg.groups, s.jobs, s.st.quota[l], l) == Shares(cfg.groups, s.st.quota[l]);
  }

  /** On no schedule is a store given more than its use and the groups that fit at the start. */
  lemma SpentWithinDemand<H(!new), L>(cfg: Config<H>, s: Sys<H, L>, run: seq<(nat, Event<H, L>)>, t: Sys<H, L>, l: L)
    requires Start(cfg, s) && l in s.st.quota && Spent(s, l) == s.st.quota[l].use
    requires s.st.quota[l].use + Total(Sums(cfg.groups)) < WIDTH
    requires Runs(cfg, s, run, t)
    ensures Spent(t, l) <= s.st.quota[l].use + Demand(cfg.groups, s.st.quota[l])
  {
    hide Runs, Start, Demand, Open, OwedAll, Total;
    StartBudget(cfg, s, l);
    assert Inv(cfg, s) by {
      StartInv(cfg, s);
    }
    RunKeepsBudget(cfg, s, run, t, l, s.st.quota[l]);
  }

  // ---------------------------------------------------------------- some schedule takes it all

  lemma {:induction false} RunsTogether<H, L>(cfg: Config<H>, s: Sys<H, L>, a: seq<(nat, Event<H, L>)>, t: Sys<H, L>,
                                              b: seq<(nat, Event<H, L>)>, v: Sys<H, L>)
    requires Runs(cfg, s, a, t) && Runs(cfg, t, b, v)
    ensures Runs(cfg, s, a + b, v)
    decreases a
  {
    hide Enabled, Next;
    if a == [] {
      assert a + b == b;
    } else {
      RunsTogether(cfg, Next(cfg, s, a[0].0, a[0].1), a[1..], t, b, v);
      assert (a + b)[1..] == a[1..] + b;
    }
  }

  // Every copy ends well.
  ghost predicate NoneFails<H, L>(run: seq<(nat, Event<H, L>)>) {
    forall i :: 0 <= i < |run| && run[i].1.End? ==> run[i].1.ok
  }

  // The checksums whose copy to l is on its way.
  ghost function OnTheWay<H, L>(s: Sys<H, L>, l: L): set<H> {
    set h | h in s.st.waiting && l in s.st.waiting[h].left
  }

  // Only jobs without an error in their group copy anything.
  ghost predicate Accepted<H, L>(cfg: Config<H>, s: Sys<H, L>) {
    |s.jobs| == |cfg.groups| &&
    forall j :: 0 <= j < |s.jobs| && s.jobs[j].phase != Taking ==> Refusal(cfg.groups[j]) == None
  }

  lemma StaysAccepted<H, L>(cfg: Config<H>, s: Sys<H, L>, j: nat, ev: Event<H, L>)
    requires Accepted(cfg, s) && Enabled(cfg, s, j, ev)
    ensures Accepted(cfg, Next(cfg, s, j, ev))
  {
    hide Refusal, Promised, MayBeShort, Infos, TotalUse, Affordable;
  }

  // A job that owes something to l has a copy on its way there.
  lemma {:induction false} OwesACopy<H, L>(group: seq<Chunk<H>>, w: map<H, Wait<L>>, mine: set<H>, l: L) returns (h: H)
    requires Owed(group, w, mine, l) > 0
    ensures h in mine && Left(w, h, l)
  {
    var c := group[|group| - 1];
    if c.hash in mine && Left(w, c.hash, l) {
      h := c.hash;
    } else {
      h := OwesACopy(group[..|group| - 1], w, mine - {c.hash}, l);
    }
  }

  lemma {:induction false} SomeJobOwes<H, L>(groups: seq<seq<Chunk<H>>>, jobs: seq<Job<H, L>>, w: map<H, Wait<L>>, l: L)
    returns (j: nat)
    requires |groups| == |jobs| && OwedAll(groups, jobs, w, l) > 0
    ensures j < |jobs| && Owed(groups[j], w, jobs[j].held, l) > 0
  {
    var n := |jobs| - 1;
    if Owed(groups[n], w, jobs[n].held, l) > 0 {
      j := n;
    } else {
      j := SomeJobOwes(groups[..n], jobs[..n], w, l);
    }
  }

  lemma CopyCanEnd<H, L>(cfg: Config<H>, s: Sys<H, L>, l: L) returns (j: nat, h: H)
    requires Inv(cfg, s) && Accepted(cfg, s) && OwedAll(cfg.groups, s.jobs, s.st.waiting, l) > 0
    ensures Enabled(cfg, s, j, End(h, l, true)) && h in OnTheWay(s, l)
  {
    hide Refusal, Correct, Infos;
    j := SomeJobOwes(cfg.groups, s.jobs, s.st.waiting, l);
    h := OwesACopy(cfg.groups[j], s.st.waiting, s.jobs[j].held, l);
    assert JobInv(cfg, s, j);
  }

  lemma EndLeavesOne<H, L>(cfg: Config<H>, s: Sys<H, L>, j: nat, h: H, l: L)
    requires Enabled(cfg, s, j, End(h, l, true)) && h in OnTheWay(s, l)
    ensures OnTheWay(Next(cfg, s, j, End(h, l, true)), l) == OnTheWay(s, l) - {h}
  {
    hide Refusal, Correct, Infos;
  }

  /** Every copy to l may end well before anything else happens. */
  lemma {:induction false} CopiesEnd<H(!new), L>(cfg: Config<H>, s: Sys<H, L>, l: L)
    returns (run: seq<(nat, Event<H, L>)>, t: Sys<H, L>)
    requires Inv(cfg, s) && Accepted(cfg, s)
    ensures Runs(cfg, s, run, t) && NoneFails(run) && Spent(t, l) == Load(cfg, s, l)
    decreases OnTheWay(s, l)
  {
    hide JobInv, LockInv, Enabled, Next, Spent, OnTheWay, OwedAll;
    if OwedAll(cfg.groups, s.jobs, s.st.waiting, l) == 0 {
      run, t := [], s;
    } else {
      var j, h := CopyCanEnd(cfg, s, l);
      var ev := End(h, l, true);
      var u := Next(cfg, s, j, ev);
      EventKeeps(cfg, s, j, ev);
      StaysAccepted(cfg, s, j, ev);
      EndMovesLoad(cfg, s, j, ev, l);
      EndLeavesOne(cfg, s, j, h, l);
      run, t := CopiesEnd(cfg, u, l);
      RunsOn(cfg, s, j, ev, u, run, t);
      run := [(j, ev)] + run;
    }
  }

  /** The first k jobs are done placing; the rest have not begun, and nothing keeps them from it. */
  ghost predicate Ready<H(!new), L>(cfg: Config<H>, s0: Sys<H, L>, s: Sys<H, L>, k: nat) {
    && k <= |cfg.groups| == |s.jobs| && Inv(cfg, s) && Accepted(cfg, s)
    && s.st.quota == s0.st.quota && s.ring.items == s0.ring.items
    && (forall h :: OwnersOf(s.st.owners, h) == OwnersOf(s0.st.owners, h))
    && (forall j :: k <= j < |s.jobs| ==> s.jobs[j] == Job(map[], {}, Taking, true))
    && (forall j :: k <= j < |s.jobs| ==> Infos(cfg.groups[j]).Keys !! s.st.held)
  }

  // Between two states only job j has moved, and it has only taken the locks of hs.
  ghost predicate Locks<H(!new), L>(s: Sys<H, L>, t: Sys<H, L>, j: nat, hs: set<H>) {
    && |t.jobs| == |s.jobs| && j < |s.jobs| && s.jobs[j].phase == t.jobs[j].phase == Taking
    && t.jobs[j].cur.Keys == s.jobs[j].cur.Keys + hs
    && t.st.held == s.st.held + hs && t.st.quota == s.st.quota && t.ring == s.ring
    && (forall i :: 0 <= i < |s.jobs| && i != j ==> t.jobs[i] == s.jobs[i])
    && (forall h :: OwnersOf(t.st.owners, h) == OwnersOf(s.st.owners, h))
  }

  lemma LockLocks<H(!new), L>(cfg: Config<H>, s: Sys<H, L>, j: nat, h: H)
    requires j < |s.jobs| == |cfg.groups| && s.jobs[j].phase == Taking && Refusal(cfg.groups[j]) == None
    requires h in Infos(cfg.groups[j]) && h !in s.jobs[j].cur && h !in s.st.held
    ensures Enabled<H, L>(cfg, s, j, Lock(h)) && Locks(s, Next<H, L>(cfg, s, j, Lock(h)), j, {h})
  {
    hide Refusal, Infos;
  }

  lemma LocksChain<H(!new), L>(s: Sys<H, L>, t: Sys<H, L>, v: Sys<H, L>, j: nat, a: set<H>, b: set<H>, c: set<H>)
    requires Locks(s, t, j, a) && Locks(t, v, j, b) && c == a + b
    ensures Locks(s, v, j, c)
  {
  }

  lemma {:induction false} LockKeys<H(!new), L>(cfg: Config<H>, s: Sys<H, L>, j: nat, hs: set<H>, l: L)
    returns (run: seq<(nat, Event<H, L>)>, t: Sys<H, L>)
    requires Inv(cfg, s) && Accepted(cfg, s)
    requires j < |s.jobs| == |cfg.groups| && s.jobs[j].phase == Taking && Refusal(cfg.groups[j]) == None
    requires hs <= Infos(cfg.groups[j]).Keys && hs !! s.jobs[j].cur.Keys && hs !! s.st.held
    ensures Runs(cfg, s, run, t) && NoneFails(run) && Inv(cfg, t) && Accepted(cfg, t)
    ensures Locks(s, t, j, hs) && Load(cfg, t, l) == Load(cfg, s, l)
    decreases hs
  {
    hide Enabled, Next, JobInv, LockInv, Refusal, Infos, Load;
    if hs == {} {
      run, t := [], s;
    } else {
      var h :| h in hs;
      var ev: Event<H, L> := Lock(h);
      LockLocks(cfg, s, j, h);
      var u := Next(cfg, s, j, ev);
      EventKeeps(cfg, s, j, ev);
      StaysAccepted(cfg, s, j, ev);
      LocksMoveNoLoad(cfg, s, j, ev, l);
      run, t := LockKeys(cfg, u, j, hs - {h}, l);
      RunsOn(cfg, s, j, ev, u, run, t);
      run := [(j, ev)] + run;
      LocksChain(s, u, t, j, {h}, hs - {h}, hs);
    }
  }

  // Group k is about to be placed; those behind it have not begun.
  ghost predicate Looked<H(!new), L>(cfg: Config<H>, s0: Sys<H, L>, s: Sys<H, L>, k: nat) {
    && k < |cfg.groups| == |s.jobs| && Inv(cfg, s) && Accepted(cfg, s)
    && s.st.quota == s0.st.quota && s.ring.items == s0.ring.items
    && (forall h :: OwnersOf(s.st.owners, h) == OwnersOf(s0.st.owners, h))
    && s.jobs[k].phase == Looking(Affordable(s0.st.quota, TotalUse(cfg.groups[k])))
    && (forall j :: k < j < |s.jobs| ==> s.jobs[j] == Job(map[], {}, Taking, true))
    && (forall j :: k < j < |s.jobs| ==> Infos(cfg.groups[j]).Keys !! s.st.held)
  }

  // A look changes nothing but the job.
  lemma LookLooks<H, L>(cfg: Config<H>, s: Sys<H, L>, j: nat)
    requires j < |s.jobs| == |cfg.groups| && s.jobs[j].phase == Taking && Refusal(cfg.groups[j]) == None
    requires s.jobs[j].cur.Keys == Infos(cfg.groups[j]).Keys
    ensures Enabled(cfg, s, j, Look)
    ensures Next<H, L>(cfg, s, j, Look) ==
            s.(jobs := s.jobs[j := s.jobs[j].(phase := Looking(Affordable(s.st.quota, TotalUse(cfg.groups[j]))))])
  {
    hide Refusal, Infos, TotalUse, Affordable;
  }

  // Group k takes its locks and looks.
  lemma LockAndLook<H(!new), L>(cfg: Config<H>, s0: Sys<H, L>, s: Sys<H, L>, k: nat, l: L)
    returns (run: seq<(nat, Event<H, L>)>, t: Sys<H, L>)
    requires Ready(cfg, s0, s, k) && k < |cfg.groups| && Refusal(cfg.groups[k]) == None
    requires forall j :: k < j < |cfg.groups| ==> Infos(cfg.groups[k]).Keys !! Infos(cfg.groups[j]).Keys
    ensures Runs(cfg, s, run, t) && NoneFails(run) && Looked(cfg, s0, t, k)
    ensures t.ring == s.ring && Load(cfg, t, l) == Load(cfg, s, l)
  {
    hide Enabled, Next, Inv, Refusal, Infos, Load, TotalUse, Affordable;
    var a, v := LockKeys(cfg, s, k, Infos(cfg.groups[k]).Keys, l);
    LookLooks(cfg, v, k);
    t := Next<H, L>(cfg, v, k, Look);
    EventKeeps<H, L>(cfg, v, k, Look);
    StaysAccepted<H, L>(cfg, v, k, Look);
    LocksMoveNoLoad<H, L>(cfg, v, k, Look, l);
    RunsNowhere(cfg, t);
    RunsOn(cfg, v, k, Look, t, [], t);
    run := [(k, Look)] + [];
    RunsTogether(cfg, s, a, v, run, t);
    run := a + run;
  }

  // And once it is placed the next one is at the turn.
  lemma PlacedIsReady<H(!new), L>(cfg: Config<H>, s0: Sys<H, L>, s: Sys<H, L>, k: nat, ev: Event<H, L>)
    requires Looked(cfg, s0, s, k) && Enabled(cfg, s, k, ev) && ev.Place?
    ensures Ready(cfg, s0, Next(cfg, s, k, ev), k + 1)
  {
    hide Enabled, Next, Inv, Infos, Accepted, TotalUse, Affordable;
    EventKeeps(cfg, s, k, ev);
    StaysAccepted(cfg, s, k, ev);
    PlaceKeepsRest(cfg, s, k, ev);
  }

  lemma {:induction false} ListingOf<I, L>(s: Placement<I, L>) returns (order: seq<I>)
    ensures Listed(order, s)
    decreases |s|
  {
    if s == map[] {
      order := [];
    } else {
      var it :| it in s;
      var rest := s - {it};
      assert rest.Keys == s.Keys - {it};
      order := ListingOf(rest);
      assert rest[it := s[it]] == s;
      ListedOneMore(order, rest, it, s[it]);
      order := order + [it];
    }
  }

  /** With no more destinations than copies asked for there is only one correct placement: on all of them. */
  lemma OnlyPlacement<I, L>(s: Placement<I, L>, dests: set<L>, min: int, excl: int, full: Placement<I, L>,
                            added: Placement<I, L>)
    requires Correct(s, dests, min, excl, full, added) && |dests| == min
    ensures full.Keys == s.Keys == added.Keys
    ensures forall it :: it in s ==> full[it] == dests && added[it] == dests - s[it]
  {
    hide Spread;
    forall it | it in s
      ensures full[it] == dests
    {
      SubsetOfSameSize(full[it], dests);
    }
  }

  // And it is one the striper may return, wherever the cursor is.
  lemma OnAll<H, L>(cur: Placement<H, L>, dests: set<L>, items: seq<L>, min: int, excl: int, c0: nat)
    returns (full: Placement<H, L>, added: Placement<H, L>, c: nat)
    requires Turning(items, c0) && dests <= Elems(items) && |dests| == min && min >= 1 && excl <= 0
    ensures Promised(cur, dests, items, min, excl, c0, full, added, c)
    ensures added.Keys == cur.Keys && forall h :: h in cur ==> added[h] == dests - cur[h]
  {
    hide Correct, Exact, AllFillable, Listed, InTurn, CursorAt, AllNew, Distinct;
    full := map h | h in cur :: dests;
    added := map h | h in cur :: dests - cur[h];
    var order := ListingOf(cur);
    NotEmpty(items, dests);
    c := if cur != map[] && Apart(cur, dests, min) then c0 else CursorAt(items, dests, min, c0, |order|);
    if cur == map[] {
      NoneListed(order, cur);
      AtStart(items, dests, min, c0);
    } else if Apart(cur, dests, min) {
      ApartIsNotNew(cur, dests, items, min, excl);
      ApartHasAll(cur, dests, min);
    }
    hide Apart;
    AllIsCorrect(cur, dests, min, excl, full, added);
    AllIsExact(cur, dests, items, min, excl, added);
    ListedKeys(order, cur);
    AllInTurn(order, items, dests, min, c0, full);
  }

  lemma NoneListed<I, L>(order: seq<I>, s: Placement<I, L>)
    requires Listed(order, s) && s == map[]
    ensures order == []
  {
  }

  lemma AtStart<L>(items: seq<L>, dests: set<L>, min: int, c0: nat)
    requires c0 < |items|
    ensures CursorAt(items, dests, min, c0, 0) == c0
  {
  }

  // Items with copies are not fresh.
  lemma ApartIsNotNew<I, L>(s: Placement<I, L>, dests: set<L>, items: seq<L>, min: int, excl: int)
    requires Apart(s, dests, min) && s != map[]
    ensures !AllNew(s, dests, items, min, excl)
  {
    var it :| it in s;
    ApartHas(s, dests, min, it);
  }

  lemma ApartHas<I, L>(s: Placement<I, L>, dests: set<L>, min: int, it: I)
    requires Apart(s, dests, min) && it in s
    ensures s[it] != {}
  {
    var l :| l in s[it] * dests;
  }

  lemma ApartHasAll<I, L>(s: Placement<I, L>, dests: set<L>, min: int)
    requires Apart(s, dests, min) && |dests| == min
    ensures forall it :: it in s ==> dests - s[it] == {}
  {
    forall it | it in s
      ensures dests - s[it] == {}
    {
      SubsetOfSameSize(s[it] * dests, dests);
    }
  }

  lemma NotEmpty<L>(items: seq<L>, dests: set<L>)
    requires dests <= Elems(items) && |dests| >= 1
    ensures items != []
  {
    var l :| l in dests;
    assert l in items;
  }

  lemma ListedKeys<I, L>(order: seq<I>, s: Placement<I, L>)
    requires Listed(order, s)
    ensures Elems(order) == s.Keys
  {
  }

  lemma AllIsCorrect<H, L>(cur: Placement<H, L>, dests: set<L>, min: int, excl: int, full: Placement<H, L>,
                           added: Placement<H, L>)
    requires |dests| == min && min >= 1 && excl <= 0
    requires full == (map h | h in cur :: dests) && added == (map h | h in cur :: dests - cur[h])
    ensures Correct(cur, dests, min, excl, full, added)
  {
    NothingIsUndone(full, excl);
    hide Spread;
  }

  lemma AllIsExact<H, L>(cur: Placement<H, L>, dests: set<L>, items: seq<L>, min: int, excl: int,
                         added: Placement<H, L>)
    requires |dests| == min && excl <= 0 && dests <= Elems(items)
    requires added == map h | h in cur :: dests - cur[h]
    ensures Exact(cur, dests, min, added) && AllFillable(cur, dests, items, min, excl)
  {
    forall h | h in cur
      ensures Missing(cur[h], dests, min, added[h]) && Fillable(cur[h], dests, items, min, excl)
    {
      var mine := cur[h] * dests;
      assert dests - cur[h] == dests - mine;
      assert dests == mine + (dests - mine);
      assert (cur[h] + Elems(items)) * dests == dests;
    }
  }

  lemma AllInTurn<H, L>(order: seq<H>, items: seq<L>, dests: set<L>, min: int, c0: nat, full: Placement<H, L>)
    requires Turning(items, c0) && items != [] && dests <= Elems(items) && |dests| == min
    requires full.Keys == Elems(order) && forall h :: h in full ==> full[h] == dests
    ensures InTurn(order, items, dests, min, c0, full, CursorAt(items, dests, min, c0, |order|))
  {
    hide Portion;
    forall i | 0 <= i < |order|
      ensures order[i] in full && full[order[i]] == Portion(items, dests, CursorAt(items, dests, min, c0, i), min)
    {
      assert order[i] in Elems(order);
      PortionHas(items, dests, CursorAt(items, dests, min, c0, i), min);
      SubsetOfSameSize(Portion(items, dests, CursorAt(items, dests, min, c0, i), min), dests);
    }
  }

  /**
   What makes the worst case certain: checksums of their own, nothing on l yet, and for every group that fits on l no
   more stores that fit than copies are made.
   */
  ghost predicate Promising<H, L>(cfg: Config<H>, s: Sys<H, L>, l: L) {
    && cfg.min >= 1 && cfg.excl <= 0 && l in s.st.quota && s.st.quota.Keys <= Elems(s.ring.items)
    && (forall i, j :: 0 <= i < j < |cfg.groups| ==> Infos(cfg.groups[i]).Keys !! Infos(cfg.groups[j]).Keys)
    && (forall j, h :: 0 <= j < |cfg.groups| && h in Infos(cfg.groups[j]) ==> l !in OwnersOf(s.st.owners, h))
    && (forall j :: 0 <= j < |cfg.groups| && Admitted(cfg.groups[j], s.st.quota[l]) ==>
          |Affordable(s.st.quota, TotalUse(cfg.groups[j]))| == cfg.min)
  }

  // A job that has found no more stores than copies are made gives l everything.
  lemma PlaceAllOn<H(!new), L>(cfg: Config<H>, s0: Sys<H, L>, s: Sys<H, L>, j: nat, l: L)
    returns (ev: Event<H, L>)
    requires Promising(cfg, s0, l) && Looked(cfg, s0, s, j) && Admitted(cfg.groups[j], s0.st.quota[l])
    ensures ev.Place? && Enabled(cfg, s, j, ev) && forall h :: h in ev.added ==> l in ev.added[h]
  {
    hide Promised, Refusal, Infos, TotalUse, LockInv;
    var cur, dests := s.jobs[j].cur, s.jobs[j].phase.dests;
    assert JobInv(cfg, s, j);
    var full, added, c := OnAll(cur, dests, s.ring.items, cfg.min, cfg.excl, s.ring.cur);
    ev := Place(full, added, c);
  }

  lemma PlaceKeepsRest<H(!new), L>(cfg: Config<H>, s: Sys<H, L>, j: nat, ev: Event<H, L>)
    requires Enabled(cfg, s, j, ev) && ev.Place?
    ensures var t := Next(cfg, s, j, ev);
      && |t.jobs| == |s.jobs| && j < |s.jobs| && t.st.held == s.st.held && t.st.quota == s.st.quota
      && t.st.owners == s.st.owners && t.ring.items == s.ring.items
      && forall i :: 0 <= i < |s.jobs| && i != j ==> t.jobs[i] == s.jobs[i]
  {
    hide Promised, Refusal, Infos, TotalUse, Affordable;
  }

  /** One more group is placed, all of it on l if it fits there. */
  lemma GroupIsGiven<H(!new), L>(cfg: Config<H>, s0: Sys<H, L>, s: Sys<H, L>, k: nat, l: L)
    returns (run: seq<(nat, Event<H, L>)>, t: Sys<H, L>)
    requires Promising(cfg, s0, l) && Ready(cfg, s0, s, k) && k < |cfg.groups|
    ensures Runs(cfg, s, run, t) && Ready(cfg, s0, t, k + 1)
    ensures Load(cfg, t, l) == Load(cfg, s, l) + Share(cfg.groups[k], s0.st.quota[l])
  {
    hide Enabled, Next, JobInv, LockInv, Refusal, Infos, Load, TotalUse, Stored;
    if !Admitted(cfg.groups[k], s0.st.quota[l]) {
      run, t := [], s;
    } else {
      var a, v := LockAndLook(cfg, s0, s, k, l);
      var ev := PlaceAllOn(cfg, s0, v, k, l);
      t := Next(cfg, v, k, ev);
      PlacedIsReady(cfg, s0, v, k, ev);
      PlaceAddsStored(cfg, v, k, ev, l);
      RunsNowhere(cfg, t);
      RunsOn(cfg, v, k, ev, t, [], t);
      run := [(k, ev)] + [];
      RunsTogether(cfg, s, a, v, run, t);
      run := a + run;
    }
  }

  lemma ReadyIs<H(!new), L>(cfg: Config<H>, s0: Sys<H, L>, s: Sys<H, L>, k: nat, l: L)
    requires Promising(cfg, s0, l) && Ready(cfg, s0, s, k)
    ensures l in s0.st.quota && k <= |cfg.groups| == |s.jobs| && Inv(cfg, s) && Accepted(cfg, s)
  {
    hide Refusal, Infos, JobInv, LockInv;
  }

  lemma {:induction false} GroupsAreGiven<H(!new), L>(cfg: Config<H>, s0: Sys<H, L>, s: Sys<H, L>, k: nat, l: L)
    returns (run: seq<(nat, Event<H, L>)>, t: Sys<H, L>)
    requires Promising(cfg, s0, l) && Ready(cfg, s0, s, k)
    ensures Runs(cfg, s, run, t) && Inv(cfg, t) && Accepted(cfg, t)
    ensures var u := s0.st.quota[l];
      Load(cfg, t, l) + Total(Shares(cfg.groups, u)[..k]) == Load(cfg, s, l) + Demand(cfg.groups, u)
    decreases |cfg.groups| - k
  {
    hide Enabled, Next, Inv, Load, Share, Promising, Ready, Accepted, Total, JobInv, LockInv, Stored, Refusal;
    assert l in s0.st.quota && k <= |cfg.groups| == |s.jobs| && Inv(cfg, s) && Accepted(cfg, s) by {
      ReadyIs(cfg, s0, s, k, l);
    }
    var xs := Shares(cfg.groups, s0.st.quota[l]);
    if k == |cfg.groups| {
      assert xs[..k] == xs;
      run, t := [], s;
    } else {
      hide Runs, Admitted, Stored;
      var a, v := GroupIsGiven(cfg, s0, s, k, l);
      var b;
      b, t := GroupsAreGiven(cfg, s0, v, k + 1, l);
      RunsTogether(cfg, s, a, v, b, t);
      run := a + b;
      TotalOneMore(xs, k);
    }
  }

  /** Some schedule gives l its use and all groups that fit at the start. */
  lemma DemandCanBeSpent<H(!new), L>(cfg: Config<H>, s: Sys<H, L>, l: L)
    returns (run: seq<(nat, Event<H, L>)>, t: Sys<H, L>)
    requires Start(cfg, s) && Promising(cfg, s, l) && Spent(s, l) == s.st.quota[l].use
    ensures Runs(cfg, s, run, t) && Spent(t, l) == s.st.quota[l].use + Demand(cfg.groups, s.st.quota[l])
  {
    assert l in s.st.quota;
    hide Runs, Promising, Demand, Load, JobInv;
    StartInv(cfg, s);
    StartBudget(cfg, s, l);
    var a, v := GroupsAreGiven(cfg, s, s, 0, l);
    var b;
    b, t := CopiesEnd(cfg, v, l);
    RunsTogether(cfg, s, a, v, b, t);
    run := a + b;
  }

  /**
   Then the condition is exact: a store keeps its maximum on every schedule if and only if its use and the groups that
   fit on it at the start do not exceed the maximum together.
   */
  lemma QuotaHoldsIff<H(!new), L(!new)>(cfg: Config<H>, s: Sys<H, L>, l: L)
    requires Start(cfg, s) && Promising(cfg, s, l) && Spent(s, l) == s.st.quota[l].use
    requires s.st.quota[l].use + Total(Sums(cfg.groups)) < WIDTH
    ensures (forall run, t :: Runs(cfg, s, run, t) ==> Spent(t, l) <= s.st.quota[l].max) <==>
            s.st.quota[l].use + Demand(cfg.groups, s.st.quota[l]) <= s.st.quota[l].max
  {
    hide Runs, Start, Demand, Total, Spent;
    assert l in s.st.quota;
    hide Promising;
    var worst, end := DemandCanBeSpent(cfg, s, l);
    forall run, t | Runs(cfg, s, run, t)
      ensures Spent(t, l) <= s.st.quota[l].use + Demand(cfg.groups, s.st.quota[l])
    {
      SpentWithinDemand(cfg, s, run, t, l);
    }
  }

  // ---------------------------------------------------------------- the smallest case

  function Alone(h: int, size: uint64): seq<Chunk<int>> {
    [Chunk(h, h, Some(size), None)]
  }

  lemma AloneIs(h: int, size: uint64)
    ensures Refusal(Alone(h, size)) == None && TotalUse(Alone(h, size)) == size
    ensures Infos(Alone(h, size)).Keys == {h} && Stored(Alone(h, size)) == size
  {
    var g := Alone(h, size);
    assert g[1..] == [] && g[..0] == [];
    assert Infos<int>([]) == map[];
    assert Infos(g) == map[h := Info(g[0], size)];
    var none: seq<Chunk<int>> := [];
    assert Kept(g, {h}) == Kept(none, {h} - {h}) + size;
  }

  // Two groups of one chunk each, for one store.
  function Pair(a: uint64, b: uint64): Config<int> {
    Config([Alone(0, a), Alone(1, b)], 1, 0)
  }

  const FRESH: Job<int, int> := Job(map[], {}, Taking, true)

  function Before(u: Usage): Sys<int, int> {
    Sys(State(map[0 := u], map[], {}, map[]), [FRESH, FRESH], map[0 := u.use], Ring([0], 0))
  }

  lemma PairDemands(u: Usage, a: uint64, b: uint64)
    requires Fits(u, a) && Fits(u, b)
    ensures Demand(Pair(a, b).groups, u) == a + b
  {
    hide Alone, Stored, Infos, TotalUse, Refusal;
    AloneIs(0, a);
    AloneIs(1, b);
    var xs := Shares(Pair(a, b).groups, u);
    assert xs[0] == a && xs[1] == b && xs == [a, b];
    var one: seq<nat> := [a];
    assert xs[..1] == one && one[..0] == [];
    assert Total(one) == Total(one[..0]) + a;
  }

  /**
   Two groups in flight at once can spend the quota twice: each fits on its own, both are placed, and the store ends
   up with the sum, whether or not it is over the maximum.
   */
  lemma OverlapSpendsBoth(u: Usage, a: uint64, b: uint64) returns (run: seq<(nat, Event<int, int>)>, t: Sys<int, int>)
    requires Fits(u, a) && Fits(u, b)
    ensures Start(Pair(a, b), Before(u)) && Runs(Pair(a, b), Before(u), run, t)
    ensures Spent(t, 0) == u.use + a + b
  {
    hide Runs, Alone, Infos, TotalUse, Refusal, Demand;
    AloneIs(0, a);
    AloneIs(1, b);
    assert Affordable(Before(u).st.quota, a) == {0} && Affordable(Before(u).st.quota, b) == {0};
    PairDemands(u, a, b);
    run, t := DemandCanBeSpent(Pair(a, b), Before(u), 0);
  }
}
