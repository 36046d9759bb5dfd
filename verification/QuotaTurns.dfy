/**
 The quota of one store when more stores fit than copies are made, so that the shared round-robin decides who gets what:
 for chunks of one size, and as long as no copy fails, a store never gets more than its turns, on any schedule.
 */
module QuotaTurns {
  import opened Wrappers
  import opened RoundRobin
  import opened Stripe
  import opened Quota
  import opened Copies
  import opened Coordinator
  import opened CommitRuns
  import opened QuotaRuns
  import opened QuotaExact

  // ---------------------------------------------------------------- turns

  /** The turns of position p, the draws, and the way to the next turn of p. */
  lemma {:induction false} DealtIs(p: nat, c: nat, t: nat, n: nat)
    requires c < n && p < n
    ensures n * Dealt(p, c, t, n) + Offset(c, p, n) == t + Offset(Spin(c, t, n), p, n)
    decreases t
  {
    if t > 0 {
      DealtIs(p, Succ(c, n), t - 1, n);
      OneTimesMore(n, Dealt(p, Succ(c, n), t - 1, n));
    }
  }

  // h turns that took no more than t draws.
  lemma AtMostDealt(p: nat, c: nat, t: nat, n: nat, taken: nat, gap: nat, h: nat)
    requires c < n && p < n && taken <= t && gap < n && taken + gap >= Offset(c, p, n) + n * h
    ensures h <= Dealt(p, c, t, n)
  {
    DealtIs(p, c, t, n);
    hide Dealt, Spin, Offset;
    var d := Dealt(p, c, t, n);
    OneTimesMore(n, d);
    if h > d {
      TimesGrows(n, d + 1, h);
    }
  }

  lemma OneTimesMore(n: nat, d: nat)
    ensures n * (d + 1) == n * d + n
  {
  }

  lemma TimesGrows(n: nat, a: nat, b: nat)
    requires a <= b
    ensures n * a <= n * b
  {
  }

  // Nothing but the store at position p may be missing from the destinations.
  ghost predicate AllBut<L>(dests: set<L>, items: seq<L>, p: nat) {
    p < |items| && dests <= Elems(items) && Elems(items) - {items[p]} <= dests
  }

  /** What one fresh item draws brings the next turn of p nearer, or is its turn. */
  lemma PortionTurns<L>(items: seq<L>, dests: set<L>, c: nat, min: int, p: nat)
    requires Distinct(items) && c < |items| && AllBut(dests, items, p) && min <= |dests|
    ensures Max(min, 0) + Offset(Moved(items, dests, c, min), p, |items|) >=
            Offset(c, p, |items|) + if items[p] in Portion(items, dests, c, min) then |items| else 0
  {
    var n, k := |items|, Length(items, dests, c, min);
    PortionHas(items, dests, c, min);
    HandSize(items, c, k);
    InHand(items, c, k, p);
    DealtWithinOneTurn(p, c, k, n);
    DealtIs(p, c, k, n);
    hide Hand, Length, Dealt, Spin, Distinct;
    var hand := Hand(items, c, k);
    if items[p] in dests {
      assert hand * dests == hand;
    } else if items[p] !in hand {
      assert hand * dests == hand;
    }
  }

  /** The items of a call together: every turn of p costs a whole round of copies. */
  lemma {:induction false} InTurnTurns<I, L>(order: seq<I>, items: seq<L>, dests: set<L>, min: int, c0: nat,
                                             res: Placement<I, L>, cur: nat, p: nat)
    requires InTurn(order, items, dests, min, c0, res, cur) && Distinct(order) && Distinct(items)
    requires c0 < |items| && p < |items| && AllBut(dests, items, p) && min <= |dests|
    ensures cur < |items|
    ensures Needed(|order|, min) + Offset(cur, p, |items|) >=
            Offset(c0, p, |items|) + |items| * |Holders(res, items[p])|
    decreases order
  {
    hide Portion, Moved, Distinct, InTurn, Holders, AllBut, Offset, Needed, CursorAt;
    if order == [] {
      NoTurns(items, dests, min, c0, res, cur, p);
    } else {
      var n := |order| - 1;
      var it, before := order[n], CursorAt(items, dests, min, c0, n);
      var res0 := InTurnOneLess(order, items, dests, min, c0, res, cur);
      FirstAreDistinct(order, n);
      InTurnTurns(order[..n], items, dests, min, c0, res0, before, p);
      PortionTurns(items, dests, before, min, p);
      assert res == res0[it := res[it]];
      HoldersOneMore(res0, it, res[it], items[p]);
      NeededOneMore(n, min);
      OneTimesMore(|items|, |Holders(res0, items[p])|);
    }
  }

  lemma NoTurns<I, L>(items: seq<L>, dests: set<L>, min: int, c0: nat, res: Placement<I, L>, cur: nat, p: nat)
    requires InTurn<I, L>([], items, dests, min, c0, res, cur) && p < |items|
    ensures c0 == cur < |items| && Needed(0, min) == 0 && Holders(res, items[p]) == {}
  {
  }

  // ---------------------------------------------------------------- chunks of one size

  ghost predicate Uniform<H>(group: seq<Chunk<H>>, z: uint64) {
    forall i :: 0 <= i < |group| ==> group[i].err == None && group[i].size == Some(z)
  }

  lemma {:induction false} UniformIsAccepted<H>(group: seq<Chunk<H>>, z: uint64)
    requires Uniform(group, z)
    ensures Refusal(group) == None
  {
    if group != [] {
      UniformIsAccepted(group[1..], z);
    }
  }

  // The checksums of a group, among `mine`, whose copy to l is still to be made.
  ghost function Owing<H, L>(group: seq<Chunk<H>>, w: map<H, Wait<L>>, mine: set<H>, l: L): set<H> {
    set h | h in Infos(group) && h in mine && Left(w, h, l)
  }

  lemma {:induction false} OwedUniform<H, L>(group: seq<Chunk<H>>, w: map<H, Wait<L>>, mine: set<H>, l: L, z: uint64)
    requires Uniform(group, z)
    ensures Owed(group, w, mine, l) == z * |Owing(group, w, mine, l)|
  {
    if group == [] {
      assert Owing(group, w, mine, l) == {};
    } else {
      var n := |group| - 1;
      var init, c := group[..n], group[n];
      OwedUniform(init, w, mine - {c.hash}, l, z);
      var rest, all := Owing(init, w, mine - {c.hash}, l), Owing(group, w, mine, l);
      if c.hash in mine && Left(w, c.hash, l) {
        assert all == rest + {c.hash};
        OneTimesMore(z, |rest|);
      } else {
        assert all == rest;
      }
    }
  }

  /** What a placement of fresh chunks of one size adds to a store: the size, for every chunk that goes there. */
  lemma PlaceAddsHolders<H(!new), L>(cfg: Config<H>, s: Sys<H, L>, j: nat, ev: Event<H, L>, l: L, z: uint64)
    requires Enabled(cfg, s, j, ev) && Inv(cfg, s) && ev.Place?
    requires j < |cfg.groups| && Uniform(cfg.groups[j], z)
    ensures var t := Next(cfg, s, j, ev);
      && |t.jobs| == |cfg.groups| == |s.jobs|
      && Load(cfg, t, l) == Load(cfg, s, l) + z * |Holders(ev.added, l)|
  {
    hide Promised, MayBeShort, Refusal, Affordable, TotalUse, Infos, Owed, OwedAll, JobInv, Uniform, Turning;
    var t := Next(cfg, s, j, ev);
    OthersOwed(cfg, s, j, ev, l);
    PlacesAll(cfg, s, j, ev);
    NothingOwed(cfg.groups[j], s.st.waiting, s.jobs[j].held, l);
    OwedUniform(cfg.groups[j], t.st.waiting, t.jobs[j].held, l, z);
    assert Owing(cfg.groups[j], t.st.waiting, t.jobs[j].held, l) == Holders(ev.added, l);
  }

  // ---------------------------------------------------------------- counting the copies

  // The checksums of the groups, group by group.
  ghost function Sizes<H>(groups: seq<seq<Chunk<H>>>): (xs: seq<nat>)
    ensures |xs| == |groups| && forall i :: 0 <= i < |xs| ==> xs[i] == |Infos(groups[i])|
  {
    seq(|groups|, i requires 0 <= i < |groups| => |Infos(groups[i])|)
  }

  ghost function PlacedOf<H, L>(group: seq<Chunk<H>>, job: Job<H, L>): nat {
    if job.phase.Copying? then |Infos(group)| else 0
  }

  ghost function PlacedSizes<H, L>(groups: seq<seq<Chunk<H>>>, jobs: seq<Job<H, L>>): (xs: seq<nat>)
    requires |groups| == |jobs|
    ensures |xs| == |groups| && forall i :: 0 <= i < |xs| ==> xs[i] == PlacedOf(groups[i], jobs[i])
  {
    seq(|groups|, i requires 0 <= i < |groups| => PlacedOf(groups[i], jobs[i]))
  }

  /** How many checksums have been placed. */
  ghost function Placed<H, L>(cfg: Config<H>, s: Sys<H, L>): nat
    requires |cfg.groups| == |s.jobs|
  {
    Total(PlacedSizes(cfg.groups, s.jobs))
  }

  lemma PlacedOfUpdate<H, L>(cfg: Config<H>, s: Sys<H, L>, t: Sys<H, L>, j: nat)
    requires |cfg.groups| == |s.jobs| == |t.jobs| && j < |s.jobs|
    requires forall i :: 0 <= i < |s.jobs| && i != j ==> t.jobs[i] == s.jobs[i]
    ensures Placed(cfg, t) == Placed(cfg, s) - PlacedOf(cfg.groups[j], s.jobs[j]) + PlacedOf(cfg.groups[j], t.jobs[j])
  {
    hide PlacedOf, Total;
    var xs, ys := PlacedSizes(cfg.groups, s.jobs), PlacedSizes(cfg.groups, t.jobs);
    TotalOfUpdate(xs, j, ys[j]);
    assert ys == xs[j := ys[j]];
  }

  lemma PlacedAtMostAll<H, L>(cfg: Config<H>, s: Sys<H, L>)
    requires |cfg.groups| == |s.jobs|
    ensures Placed(cfg, s) <= Total(Sizes(cfg.groups))
  {
    TotalAtMost(PlacedSizes(cfg.groups, s.jobs), Sizes(cfg.groups));
  }

  lemma {:induction false} NeededAdds(a: nat, b: nat, min: int)
    ensures Needed(a + b, min) == Needed(a, min) + Needed(b, min)
    decreases b
  {
    if b > 0 {
      NeededAdds(a, b - 1, min);
      assert a + b - 1 == a + (b - 1);
    }
  }

  // ---------------------------------------------------------------- where turns decide

  /** New chunks of one size and their own checksums, more stores than copies, all in the round-robin. */
  ghost predicate Ordinary<H, L>(cfg: Config<H>, s: Sys<H, L>, z: uint64) {
    && cfg.min >= 1 && cfg.excl <= 0 && cfg.min < |s.ring.items| && s.st.quota.Keys == Elems(s.ring.items)
    && (forall j :: 0 <= j < |cfg.groups| ==> Uniform(cfg.groups[j], z))
    && (forall i, j :: 0 <= i < j < |cfg.groups| ==> Infos(cfg.groups[i]).Keys !! Infos(cfg.groups[j]).Keys)
    && (forall j, h :: 0 <= j < |cfg.groups| && h in Infos(cfg.groups[j]) ==> OwnersOf(s.st.owners, h) == {})
    && (forall x :: x in s.st.quota ==> Spent(s, x) == s.st.quota[x].use)
  }

  /** The other stores have room for everything, and the store at position p has room for each group on its own. */
  ghost predicate Roomy<H, L>(cfg: Config<H>, s: Sys<H, L>, p: nat) {
    && p < |s.ring.items| && s.ring.items[p] in s.st.quota
    && (forall x :: x in s.st.quota && x != s.ring.items[p] ==>
          s.st.quota[x].use + Total(Sums(cfg.groups)) < s.st.quota[x].max)
    && s.st.quota[s.ring.items[p]].use + Total(Sums(cfg.groups)) < WIDTH
    && (forall j :: 0 <= j < |cfg.groups| ==>
          Fits(s.st.quota[s.ring.items[p]], TotalUse(cfg.groups[j])))
  }

  // What the store at position p comes to when `draws` copies have been dealt.
  ghost function AfterDraws<H, L>(s: Sys<H, L>, p: nat, z: uint64, draws: nat): nat
    requires p < |s.ring.items| && s.ring.cur < |s.ring.items| && s.ring.items[p] in s.st.quota
  {
    s.st.quota[s.ring.items[p]].use + z * Dealt(p, s.ring.cur, draws, |s.ring.items|)
  }

  lemma AfterMoreDraws<H, L>(s: Sys<H, L>, p: nat, z: uint64, draws: nat, more: nat)
    requires p < |s.ring.items| && s.ring.cur < |s.ring.items| && s.ring.items[p] in s.st.quota
    ensures var n := |s.ring.items|;
      && AfterDraws(s, p, z, draws + more) ==
         AfterDraws(s, p, z, draws) + z * Dealt(p, Spin(s.ring.cur, draws, n), more, n)
      && Spin(s.ring.cur, draws + more, n) == Spin(Spin(s.ring.cur, draws, n), more, n)
  {
    var n := |s.ring.items|;
    DealtAdds(p, s.ring.cur, draws, more, n);
    hide Dealt, Spin;
    Distributes(z, Dealt(p, s.ring.cur, draws, n), Dealt(p, Spin(s.ring.cur, draws, n), more, n));
  }

  /** What the store at position p may come to: its use, and the size for each of its turns. */
  ghost function InTurns<H, L>(cfg: Config<H>, s: Sys<H, L>, p: nat, z: uint64): nat
    requires p < |s.ring.items| && s.ring.cur < |s.ring.items| && s.ring.items[p] in s.st.quota
  {
    AfterDraws(s, p, z, Needed(Total(Sizes(cfg.groups)), cfg.min))
  }

  // ---------------------------------------------------------------- no schedule takes more than its turns

  // Chunks that are not placed yet are nowhere.
  ghost predicate Fresh<H, L>(cfg: Config<H>, s: Sys<H, L>, j: nat)
    requires j < |s.jobs| == |cfg.groups|
  {
    !s.jobs[j].phase.Copying? ==> forall h :: h in Infos(cfg.groups[j]) ==> OwnersOf(s.st.owners, h) == {}
  }

  // The other stores are still there, with room.
  ghost predicate Other<H, L>(cfg: Config<H>, s0: Sys<H, L>, s: Sys<H, L>, x: L) {
    x in s0.st.quota && x in s.st.quota && Budget(cfg, s, x, s0.st.quota[x])
  }

  ghost predicate Seen<H, L>(s: Sys<H, L>, j: nat, p: nat)
    requires j < |s.jobs|
  {
    s.jobs[j].phase.Looking? ==> AllBut(s.jobs[j].phase.dests, s.ring.items, p)
  }

  /** After h turns of the store at position p. */
  ghost predicate Tally<H, L>(cfg: Config<H>, s0: Sys<H, L>, s: Sys<H, L>, p: nat, z: uint64, h: nat) {
    && p < |s0.ring.items| && s0.ring.cur < |s0.ring.items| && s0.ring.items[p] in s0.st.quota
    && |s.jobs| == |cfg.groups| && s.ring.items == s0.ring.items && s.ring.cur < |s.ring.items|
    && s.st.quota.Keys <= Elems(s.ring.items)
    && (forall j :: 0 <= j < |s.jobs| ==> Fresh(cfg, s, j) && Seen(s, j, p))
    && (forall x :: x in s0.st.quota && x != s0.ring.items[p] ==> Other(cfg, s0, s, x))
    && Load(cfg, s, s0.ring.items[p]) == s0.st.quota[s0.ring.items[p]].use + z * h
    && Needed(Placed(cfg, s), cfg.min) + Offset(s.ring.cur, p, |s.ring.items|) >=
       Offset(s0.ring.cur, p, |s.ring.items|) + |s.ring.items| * h
  }

  lemma StartTally<H, L>(cfg: Config<H>, s: Sys<H, L>, p: nat, z: uint64)
    requires Start(cfg, s) && Ordinary(cfg, s, z) && Roomy(cfg, s, p)
    ensures Tally(cfg, s, s, p, z, 0)
  {
    hide Infos, Affordable, TotalUse, Budget, Load, Total, Uniform;
    assert s.st.quota.Keys == Elems(s.ring.items);
    NothingPlaced(cfg, s);
    forall x | x in s.st.quota
      ensures Budget(cfg, s, x, s.st.quota[x]) && Load(cfg, s, x) == s.st.quota[x].use
    {
      StartBudget(cfg, s, x);
    }
  }

  lemma NothingPlaced<H, L>(cfg: Config<H>, s: Sys<H, L>)
    requires Start(cfg, s)
    ensures Placed(cfg, s) == 0
  {
    NoneIsNothing(PlacedSizes(cfg.groups, s.jobs));
  }

  lemma {:induction false} NoneIsNothing(xs: seq<nat>)
    requires forall i :: 0 <= i < |xs| ==> xs[i] == 0
    ensures Total(xs) == 0
  {
    if xs != [] {
      NoneIsNothing(xs[..|xs| - 1]);
    }
  }

  // ---------------------------------------------------------------- one step

  // What job j has to itself nobody else touches.
  lemma StaysFresh<H(!new), L>(cfg: Config<H>, s: Sys<H, L>, j: nat, ev: Event<H, L>, i: nat)
    requires Enabled(cfg, s, j, ev) && Inv(cfg, s) && i < |s.jobs| == |cfg.groups| && i != j
    requires Fresh(cfg, s, i) && Infos(cfg.groups[i]).Keys !! Infos(cfg.groups[j]).Keys
    ensures i < |Next(cfg, s, j, ev).jobs| && Fresh(cfg, Next(cfg, s, j, ev), i)
  {
    hide Enabled, Next, Infos, LockInv;
    SameJobs(cfg, s, j, ev);
    StepIsLocal(cfg, s, j, ev);
    HeldIsOwn(cfg, s, j);
  }

  lemma HeldIsOwn<H, L>(cfg: Config<H>, s: Sys<H, L>, j: nat)
    requires Inv(cfg, s) && j < |s.jobs|
    ensures s.jobs[j].held <= Infos(cfg.groups[j]).Keys
  {
    hide Infos, CopyInv, Correct;
    assert JobInv(cfg, s, j);
  }

  // A step other than a placement or the end of a copy gives nobody an owner.
  lemma OwnersStay<H(!new), L>(cfg: Config<H>, s: Sys<H, L>, j: nat, ev: Event<H, L>)
    requires Enabled(cfg, s, j, ev) && !ev.End?
    ensures forall h :: OwnersOf(Next(cfg, s, j, ev).st.owners, h) == OwnersOf(s.st.owners, h)
  {
    hide Promised, MayBeShort, Refusal, Infos, TotalUse, Affordable;
  }

  lemma OwnStaysFresh<H(!new), L>(cfg: Config<H>, s: Sys<H, L>, j: nat, ev: Event<H, L>)
    requires Enabled(cfg, s, j, ev) && j < |s.jobs| == |cfg.groups| && Fresh(cfg, s, j)
    ensures j < |Next(cfg, s, j, ev).jobs| && Fresh(cfg, Next(cfg, s, j, ev), j)
  {
    hide Promised, MayBeShort, Refusal, Infos, TotalUse, Affordable;
    if !ev.End? {
      OwnersStay(cfg, s, j, ev);
    }
  }

  lemma AllStayFresh<H(!new), L>(cfg: Config<H>, s0: Sys<H, L>, s: Sys<H, L>, j: nat, ev: Event<H, L>, z: uint64)
    requires Enabled(cfg, s, j, ev) && Inv(cfg, s) && |s.jobs| == |cfg.groups| && Ordinary(cfg, s0, z)
    requires forall i :: 0 <= i < |s.jobs| ==> Fresh(cfg, s, i)
    ensures var t := Next(cfg, s, j, ev);
      |t.jobs| == |s.jobs| && forall i :: 0 <= i < |t.jobs| ==> Fresh(cfg, t, i)
  {
    hide Enabled, Next, Fresh, Infos, Uniform, Inv;
    SameJobs(cfg, s, j, ev);
    forall i | 0 <= i < |s.jobs|
      ensures Fresh(cfg, Next(cfg, s, j, ev), i)
    {
      if i == j {
        OwnStaysFresh(cfg, s, j, ev);
      } else {
        OwnKeys(cfg, s0, z, i, j);
        StaysFresh(cfg, s, j, ev, i);
      }
    }
  }

  lemma OwnKeys<H, L>(cfg: Config<H>, s0: Sys<H, L>, z: uint64, i: nat, j: nat)
    requires Ordinary(cfg, s0, z) && i < |cfg.groups| && j < |cfg.groups| && i != j
    ensures Infos(cfg.groups[i]).Keys !! Infos(cfg.groups[j]).Keys
  {
    hide Infos, Uniform;
    assert i < j || j < i;
  }

  /** The other stores fit every group that comes to look. */
  lemma OtherFits<H, L>(cfg: Config<H>, s0: Sys<H, L>, s: Sys<H, L>, j: nat, x: L)
    requires Other(cfg, s0, s, x) && j < |cfg.groups| && s.jobs[j].phase == Taking && Refusal(cfg.groups[j]) == None
    requires s0.st.quota[x].use + Total(Sums(cfg.groups)) < s0.st.quota[x].max && Spent(s, x) >= 0
    ensures Fits(s.st.quota[x], TotalUse(cfg.groups[j]))
  {
    hide Refusal, OwedAll, Stored, Total, Infos;
    var u := s0.st.quota[x];
    GroupWithin(cfg.groups, u, j);
    OpenAtLeast(cfg, s, u, x, j);
    SumFits(cfg.groups[j]);
  }

  // One group, and what the others add to the demand.
  lemma GroupWithin<H>(groups: seq<seq<Chunk<H>>>, u: Usage, j: nat)
    requires j < |groups|
    ensures Sum(groups[j]) <= Total(Sums(groups))
    ensures Demand(groups, u) - QuotaExact.Share(groups[j], u) + Sum(groups[j]) <= Total(Sums(groups))
  {
    hide QuotaExact.Share;
    var xs := Shares(groups, u)[j := Sum(groups[j])];
    TotalOfUpdate(Shares(groups, u), j, Sum(groups[j]));
    TotalOfUpdate(Sums(groups), j, Sum(groups[j]));
    forall i | 0 <= i < |groups|
      ensures xs[i] <= Sums(groups)[i]
    {
      ShareAtMostSum(groups[i], u);
    }
    TotalAtMost(xs, Sums(groups));
  }

  lemma OpenAtLeast<H, L>(cfg: Config<H>, s: Sys<H, L>, u: Usage, l: L, j: nat)
    requires j < |s.jobs| == |cfg.groups|
    ensures Open(cfg, s, u, l) >= OpenOf(cfg.groups[j], s.jobs[j], u, l)
  {
    hide OpenOf, Total;
    TotalOfUpdate(OpenShares(cfg.groups, s.jobs, u, l), j, 0);
  }

  lemma LookSees<H(!new), L>(cfg: Config<H>, s0: Sys<H, L>, s: Sys<H, L>, j: nat, p: nat, z: uint64, h: nat)
    requires Roomy(cfg, s0, p) && Tally(cfg, s0, s, p, z, h) && Enabled(cfg, s, j, Look)
    requires s0.st.quota.Keys == Elems(s0.ring.items)
    ensures j < |s.jobs| && AllBut(Affordable(s.st.quota, TotalUse(cfg.groups[j])), s.ring.items, p)
  {
    hide TotalUse, Infos, Refusal, Load, Total, OwedAll, Fresh, Seen, Open, Demand, Needed;
    var dests := Affordable(s.st.quota, TotalUse(cfg.groups[j]));
    forall x | x in Elems(s.ring.items) && x != s.ring.items[p]
      ensures x in dests
    {
      assert Other(cfg, s0, s, x);
      OtherFits(cfg, s0, s, j, x);
    }
  }

  // A job that may place its chunks finds enough stores for them.
  lemma LookingIsNew<H(!new), L>(cfg: Config<H>, s: Sys<H, L>, j: nat, p: nat)
    requires Inv(cfg, s) && j < |s.jobs| && s.jobs[j].phase.Looking? && Fresh(cfg, s, j) && Seen(s, j, p)
    requires cfg.excl <= 0 && cfg.min < |s.ring.items|
    ensures AllNew(s.jobs[j].cur, s.jobs[j].phase.dests, s.ring.items, cfg.min, cfg.excl)
    ensures cfg.min <= |s.jobs[j].phase.dests| && forall h :: h in s.jobs[j].cur ==> s.jobs[j].cur[h] == {}
  {
    hide Infos, LockInv, Needed;
    assert JobInv(cfg, s, j);
    ManyBut(s.jobs[j].phase.dests, s.ring.items, p);
  }

  lemma ManyBut<L>(dests: set<L>, items: seq<L>, p: nat)
    requires AllBut(dests, items, p) && Distinct(items)
    ensures |dests| + 1 >= |items|
  {
    SizeOfElems(items);
    SubsetOfSameSize(Elems(items) - {items[p]}, dests);
  }

  lemma NeverGivesUp<H(!new), L>(cfg: Config<H>, s: Sys<H, L>, j: nat, ev: Event<H, L>, p: nat)
    requires Inv(cfg, s) && Enabled(cfg, s, j, ev) && j < |s.jobs| && Fresh(cfg, s, j) && Seen(s, j, p)
    requires cfg.excl <= 0 && cfg.min < |s.ring.items|
    ensures !ev.GiveUp?
  {
    hide Infos, Refusal, Inv, AllNew, MayBeShort, Promised;
    if ev.GiveUp? {
      LookingIsNew(cfg, s, j, p);
      MayBeShortIsNotNew(s.jobs[j].cur, s.jobs[j].phase.dests, s.ring.items, cfg.min, cfg.excl);
    }
  }

  // Stores are only ever dropped.
  lemma StoresShrink<H, L>(cfg: Config<H>, s: Sys<H, L>, j: nat, ev: Event<H, L>)
    requires Enabled(cfg, s, j, ev)
    ensures Next(cfg, s, j, ev).st.quota.Keys <= s.st.quota.Keys
    ensures !ev.End? ==> Next(cfg, s, j, ev).st.quota == s.st.quota
  {
    hide Promised, MayBeShort, Refusal, Infos, TotalUse, Affordable;
  }

  // A store with room for everything is not dropped by a copy that ends well.
  lemma OtherStays<H(!new), L>(cfg: Config<H>, s0: Sys<H, L>, s: Sys<H, L>, j: nat, ev: Event<H, L>, x: L)
    requires Enabled(cfg, s, j, ev) && Inv(cfg, s) && Other(cfg, s0, s, x) && (ev.End? ==> ev.ok)
    requires s0.st.quota[x].use + Total(Sums(cfg.groups)) < s0.st.quota[x].max
    ensures Other(cfg, s0, Next(cfg, s, j, ev), x)
  {
    EventKeepsBudget(cfg, s, j, ev, x, s0.st.quota[x]);
    hide Inv, Refusal, Infos, TotalUse, Affordable, Promised, MayBeShort, Total, Demand, OwedAll;
    SharesAtMostSums(cfg.groups, s0.st.quota[x]);
    StoresShrink(cfg, s, j, ev);
    if ev.End? {
      SpentIsLess(cfg, Next(cfg, s, j, ev), x, s0.st.quota[x]);
    }
  }

  lemma SpentIsLess<H, L>(cfg: Config<H>, t: Sys<H, L>, x: L, u: Usage)
    requires Budget(cfg, t, x, u) && Demand(cfg.groups, u) <= Total(Sums(cfg.groups))
    ensures Spent(t, x) <= u.use + Total(Sums(cfg.groups))
  {
  }

  // Everything but a placement leaves the cursor and the number of checksums placed alone.
  lemma NothingDealtOut<H(!new), L>(cfg: Config<H>, s: Sys<H, L>, j: nat, ev: Event<H, L>)
    requires Enabled(cfg, s, j, ev) && Inv(cfg, s) && !ev.Place? && !ev.GiveUp?
    ensures var t := Next(cfg, s, j, ev);
      |t.jobs| == |s.jobs| == |cfg.groups| && t.ring == s.ring && Placed(cfg, t) == Placed(cfg, s)
  {
    hide Promised, MayBeShort, Refusal, Infos, TotalUse, Affordable, Placed, Inv;
    PlacedOfUpdate(cfg, s, Next(cfg, s, j, ev), j);
  }

  lemma LoadStays<H(!new), L>(cfg: Config<H>, s: Sys<H, L>, j: nat, ev: Event<H, L>, l: L)
    requires Enabled(cfg, s, j, ev) && Inv(cfg, s) && !ev.Place? && (ev.End? ==> ev.ok)
    ensures |Next(cfg, s, j, ev).jobs| == |cfg.groups| == |s.jobs|
    ensures Load(cfg, Next(cfg, s, j, ev), l) == Load(cfg, s, l)
  {
    hide Enabled, Next, Load, Inv;
    if ev.End? {
      EndMovesLoad(cfg, s, j, ev, l);
    } else {
      LocksMoveNoLoad(cfg, s, j, ev, l);
    }
  }

  lemma SeenStays<H(!new), L>(cfg: Config<H>, s0: Sys<H, L>, s: Sys<H, L>, j: nat, ev: Event<H, L>, p: nat, z: uint64,
                              h: nat, i: nat)
    requires Enabled(cfg, s, j, ev) && Roomy(cfg, s0, p) && Tally(cfg, s0, s, p, z, h)
    requires s0.st.quota.Keys == Elems(s0.ring.items) && i < |s.jobs| && Seen(s, i, p)
    ensures i < |Next(cfg, s, j, ev).jobs| && Seen(Next(cfg, s, j, ev), i, p)
  {
    hide Promised, MayBeShort, Refusal, Infos, TotalUse, Affordable, AllBut, Tally, Roomy;
    if ev.Look? && i == j {
      LookSees(cfg, s0, s, j, p, z, h);
    }
  }

  // ---------------------------------------------------------------- a placement

  /** A placement of fresh chunks is one turn after the other. */
  lemma PlaceTurns<H(!new), L>(cfg: Config<H>, s: Sys<H, L>, j: nat, ev: Event<H, L>, p: nat)
    requires Enabled(cfg, s, j, ev) && ev.Place? && Inv(cfg, s) && j < |s.jobs| && Fresh(cfg, s, j) && Seen(s, j, p)
    requires cfg.excl <= 0 && cfg.min < |s.ring.items| && p < |s.ring.items| && s.ring.cur < |s.ring.items|
    ensures ev.cur < |s.ring.items| && ev.added.Keys == Infos(cfg.groups[j]).Keys
    ensures Needed(|Infos(cfg.groups[j])|, cfg.min) + Offset(ev.cur, p, |s.ring.items|) >=
            Offset(s.ring.cur, p, |s.ring.items|) + |s.ring.items| * |Holders(ev.added, s.ring.items[p])|
  {
    hide Infos, Refusal, MayBeShort, CopyInv, LockInv, Needed, Offset, Holders;
    LookingIsNew(cfg, s, j, p);
    PlaceIsCorrect(cfg, s, j, ev);
    PlacesAll(cfg, s, j, ev);
    var c, dests, items := s.jobs[j].cur, s.jobs[j].phase.dests, s.ring.items;
    FreshIsAdded(c, dests, cfg.min, cfg.excl, ev.full, ev.added);
    hide AllNew, Correct;
    var order :| Listed(order, c) && InTurn(order, items, dests, cfg.min, s.ring.cur, ev.full, ev.cur);
    hide InTurn;
    assert Turning(items, s.ring.cur);
    InTurnTurns(order, items, dests, cfg.min, s.ring.cur, ev.full, ev.cur, p);
    SameKeysSameSize(c, Infos(cfg.groups[j]));
  }

  lemma SameKeysSameSize<K, A, B>(a: map<K, A>, b: map<K, B>)
    requires a.Keys == b.Keys
    ensures |a| == |b|
  {
    assert |a| == |a.Keys| && |b| == |b.Keys|;
  }

  // Nothing is taken off what fresh items get.
  lemma FreshIsAdded<I, L>(s: Placement<I, L>, dests: set<L>, min: int, excl: int, full: Placement<I, L>,
                           added: Placement<I, L>)
    requires Correct(s, dests, min, excl, full, added) && forall it :: it in s ==> s[it] == {}
    ensures full == added
  {
    hide Spread;
    forall it | it in s
      ensures added[it] == full[it]
    {
      assert added[it] == full[it] - {};
    }
    assert full.Keys == added.Keys;
  }

  lemma PlaceTallies<H(!new), L>(cfg: Config<H>, s0: Sys<H, L>, s: Sys<H, L>, j: nat, ev: Event<H, L>, p: nat,
                                 z: uint64, h: nat)
    returns (h': nat)
    requires Enabled(cfg, s, j, ev) && ev.Place? && Inv(cfg, s) && Ordinary(cfg, s0, z) && Roomy(cfg, s0, p)
    requires Tally(cfg, s0, s, p, z, h)
    ensures var t := Next(cfg, s, j, ev);
      && |t.jobs| == |cfg.groups| && t.ring.items == s.ring.items && t.ring.cur < |s.ring.items|
      && Load(cfg, t, s0.ring.items[p]) == s0.st.quota[s0.ring.items[p]].use + z * h'
      && Needed(Placed(cfg, t), cfg.min) + Offset(t.ring.cur, p, |s.ring.items|) >=
         Offset(s0.ring.cur, p, |s.ring.items|) + |s.ring.items| * h'
  {
    hide Enabled, Next, Inv, Tally, Ordinary, Roomy, Infos, Load, Placed, Needed, Uniform, Holders, Offset, Fresh, Seen;
    SameJobs(cfg, s, j, ev);
    TallyFacts(cfg, s0, s, j, p, z, h);
    var t, l, a := Next(cfg, s, j, ev), s0.ring.items[p], |Infos(cfg.groups[j])|;
    PlaceTurns(cfg, s, j, ev, p);
    PlaceAddsHolders(cfg, s, j, ev, l, z);
    PlaceMoves(cfg, s, j, ev);
    NeededAdds(Placed(cfg, s), a, cfg.min);
    var more := |Holders(ev.added, l)|;
    h' := h + more;
    Distributes(z, h, more);
    AddTurns(|s.ring.items|, h, more, Needed(Placed(cfg, s), cfg.min), Needed(a, cfg.min),
             Offset(s0.ring.cur, p, |s.ring.items|), Offset(s.ring.cur, p, |s.ring.items|),
             Offset(ev.cur, p, |s.ring.items|));
  }

  lemma PlaceMoves<H(!new), L>(cfg: Config<H>, s: Sys<H, L>, j: nat, ev: Event<H, L>)
    requires Enabled(cfg, s, j, ev) && ev.Place?
    ensures var t := Next(cfg, s, j, ev);
      && |t.jobs| == |cfg.groups| == |s.jobs| && j < |s.jobs| && t.ring == s.ring.(cur := ev.cur)
      && Placed(cfg, t) == Placed(cfg, s) + |Infos(cfg.groups[j])|
  {
    hide Promised, Refusal, Infos, Placed;
    PlacedOfUpdate(cfg, s, Next(cfg, s, j, ev), j);
  }

  lemma TallyFacts<H, L>(cfg: Config<H>, s0: Sys<H, L>, s: Sys<H, L>, j: nat, p: nat, z: uint64, h: nat)
    requires Tally(cfg, s0, s, p, z, h) && Ordinary(cfg, s0, z) && j < |cfg.groups|
    ensures p < |s0.ring.items| && s0.ring.cur < |s0.ring.items| && s0.ring.items[p] in s0.st.quota
    ensures s.ring.items == s0.ring.items && s.ring.cur < |s.ring.items| && j < |s.jobs| == |cfg.groups|
    ensures Uniform(cfg.groups[j], z) && Fresh(cfg, s, j) && Seen(s, j, p)
    ensures cfg.excl <= 0 && cfg.min < |s.ring.items|
    ensures Load(cfg, s, s0.ring.items[p]) == s0.st.quota[s0.ring.items[p]].use + z * h
    ensures Needed(Placed(cfg, s), cfg.min) + Offset(s.ring.cur, p, |s.ring.items|) >=
            Offset(s0.ring.cur, p, |s.ring.items|) + |s.ring.items| * h
  {
    hide Uniform, Fresh, Seen, Other, Load, Needed, Offset, Placed, Infos;
  }

  lemma AddTurns(n: nat, h: nat, more: nat, taken: nat, few: nat, gap0: nat, gap1: nat, gap2: nat)
    requires taken + gap1 >= gap0 + n * h && few + gap2 >= gap1 + n * more
    ensures taken + few + gap2 >= gap0 + n * (h + more)
  {
    Distributes(n, h, more);
  }

  lemma Distributes(n: nat, a: nat, b: nat)
    ensures n * (a + b) == n * a + n * b
  {
  }

  // ---------------------------------------------------------------- all runs

  lemma EventTallies<H(!new), L>(cfg: Config<H>, s0: Sys<H, L>, s: Sys<H, L>, j: nat, ev: Event<H, L>, p: nat,
                                 z: uint64, h: nat)
    returns (h': nat)
    requires Enabled(cfg, s, j, ev) && Inv(cfg, s) && Ordinary(cfg, s0, z) && Roomy(cfg, s0, p)
    requires Tally(cfg, s0, s, p, z, h) && (ev.End? ==> ev.ok)
    ensures Tally(cfg, s0, Next(cfg, s, j, ev), p, z, h')
  {
    hide Enabled, Next, Inv, Load, Placed, Needed, Uniform, Offset, Infos, Fresh, Seen, Other, Total, TotalUse, Fits;
    var t, l := Next(cfg, s, j, ev), s0.ring.items[p];
    SameJobs(cfg, s, j, ev);
    StoresShrink(cfg, s, j, ev);
    AllStayFresh(cfg, s0, s, j, ev, z);
    forall i | 0 <= i < |t.jobs|
      ensures Seen(t, i, p)
    {
      SeenStays(cfg, s0, s, j, ev, p, z, h, i);
    }
    forall x | x in s0.st.quota && x != l
      ensures Other(cfg, s0, t, x)
    {
      OtherStays(cfg, s0, s, j, ev, x);
    }
    NeverGivesUp(cfg, s, j, ev, p);
    if ev.Place? {
      h' := PlaceTallies(cfg, s0, s, j, ev, p, z, h);
    } else {
      h' := h;
      NothingDealtOut(cfg, s, j, ev);
      LoadStays(cfg, s, j, ev, l);
    }
  }

  lemma {:induction false} RunTallies<H(!new), L>(cfg: Config<H>, s0: Sys<H, L>, s: Sys<H, L>,
                                                  run: seq<(nat, Event<H, L>)>, t: Sys<H, L>, p: nat, z: uint64, h: nat)
    returns (h': nat)
    requires Runs(cfg, s, run, t) && NoneFails(run) && Inv(cfg, s) && Ordinary(cfg, s0, z) && Roomy(cfg, s0, p)
    requires Tally(cfg, s0, s, p, z, h)
    ensures Tally(cfg, s0, t, p, z, h')
    decreases run
  {
    hide Enabled, Next, Inv, Tally, Ordinary, Roomy;
    h' := h;
    if run != [] {
      var j, ev, u := run[0].0, run[0].1, Next(cfg, s, run[0].0, run[0].1);
      EventKeeps(cfg, s, j, ev);
      h' := EventTallies(cfg, s0, s, j, ev, p, z, h);
      assert forall i :: 0 <= i < |run[1..]| ==> run[1..][i] == run[i + 1];
      h' := RunTallies(cfg, s0, u, run[1..], t, p, z, h');
    }
  }

  /** As long as no copy fails, no schedule gives the store at position p more than its turns. */
  lemma SpentInTurns<H(!new), L>(cfg: Config<H>, s: Sys<H, L>, run: seq<(nat, Event<H, L>)>, t: Sys<H, L>, p: nat,
                                 z: uint64)
    requires Start(cfg, s) && Ordinary(cfg, s, z) && Roomy(cfg, s, p) && Runs(cfg, s, run, t) && NoneFails(run)
    ensures s.ring.cur < |s.ring.items| && Spent(t, s.ring.items[p]) <= InTurns(cfg, s, p, z)
  {
    assert s.ring.cur < |s.ring.items|;
    StartInv(cfg, s);
    StartTally(cfg, s, p, z);
    hide Inv, Ordinary, Roomy, Start, Runs;
    var h := RunTallies(cfg, s, s, run, t, p, z, 0);
    var n, all := |s.ring.items|, Needed(Total(Sizes(cfg.groups)), cfg.min);
    hide Placed, Total, Fresh, Seen, Other, OwedAll, Needed, Dealt, Offset;
    PlacedAtMostAll(cfg, t);
    NeededGrows(Placed(cfg, t), Total(Sizes(cfg.groups)), cfg.min);
    OffsetFits(t.ring.cur, p, n);
    AtMostDealt(p, s.ring.cur, all, n, Needed(Placed(cfg, t), cfg.min), Offset(t.ring.cur, p, n), h);
    TimesGrows(z, h, Dealt(p, s.ring.cur, all, n));
  }

  lemma OffsetFits(c: nat, p: nat, n: nat)
    requires c < n && p < n
    ensures Offset(c, p, n) < n
  {
  }

  // ---------------------------------------------------------------- some schedule takes all its turns

  lemma {:induction false} DealOut<I, L>(order: seq<I>, items: seq<L>, dests: set<L>, min: int, c0: nat)
    returns (res: Placement<I, L>)
    requires c0 < |items| && Distinct(order)
    ensures InTurn(order, items, dests, min, c0, res, CursorAt(items, dests, min, c0, |order|))
    decreases order
  {
    hide Portion, Moved;
    if order == [] {
      res := map[];
    } else {
      var n := |order| - 1;
      FirstAreDistinct(order, n);
      var res0 := DealOut(order[..n], items, dests, min, c0);
      var cur := CursorAt(items, dests, min, c0, n);
      assert order == order[..n] + [order[n]];
      assert order[n] !in res0;
      InTurnOneMore(order[..n], items, dests, min, c0, res0, cur, order[n]);
      res := res0[order[n] := Portion(items, dests, cur, min)];
    }
  }

  lemma InTurnIsSized<I, L>(order: seq<I>, items: seq<L>, dests: set<L>, min: int, c0: nat, res: Placement<I, L>,
                            cur: nat)
    requires InTurn(order, items, dests, min, c0, res, cur) && Distinct(items) && dests <= Elems(items)
    requires min <= |dests|
    ensures Sized(res, dests, min)
  {
    hide Portion, Distinct;
    forall x | x in res
      ensures res[x] <= dests && |res[x]| == Max(min, 0)
    {
      assert x in Elems(order);
      var i :| 0 <= i < |order| && order[i] == x;
      PortionHas(items, dests, CursorAt(items, dests, min, c0, i), min);
    }
  }

  lemma FreshIsCorrect<H, L>(cur: Placement<H, L>, dests: set<L>, items: seq<L>, min: int, excl: int,
                             full: Placement<H, L>)
    requires full.Keys == cur.Keys && Sized(full, dests, min) && forall h :: h in cur ==> cur[h] == {}
    requires min >= 1 && excl <= 0 && dests == Elems(items) && min <= |dests|
    ensures Correct(cur, dests, min, excl, full, full) && Exact(cur, dests, min, full)
    ensures AllFillable(cur, dests, items, min, excl)
  {
    NothingIsUndone(full, excl);
    FreshIsTopped(cur, dests, min, full);
    FreshIsExact(cur, dests, min, full);
    FillableWithin(cur, dests, items, min, excl);
    hide Spread, Sized, Topped, Exact, Elems, AllFillable;
  }

  lemma FreshIsTopped<H, L>(cur: Placement<H, L>, dests: set<L>, min: int, full: Placement<H, L>)
    requires full.Keys == cur.Keys && Sized(full, dests, min) && forall h :: h in cur ==> cur[h] == {}
    ensures Topped(cur, dests, min, full, full)
  {
    forall h | h in cur
      ensures full[h] == full[h] - cur[h]
    {
      assert cur[h] == {};
    }
  }

  lemma FreshIsExact<H, L>(cur: Placement<H, L>, dests: set<L>, min: int, full: Placement<H, L>)
    requires full.Keys == cur.Keys && Sized(full, dests, min) && forall h :: h in cur ==> cur[h] == {}
    ensures Exact(cur, dests, min, full)
  {
    forall h | h in cur
      ensures Missing(cur[h], dests, min, full[h])
    {
      assert cur[h] * dests == {};
    }
  }

  /** The striper may deal fresh items over all its stores, and then every store gets its turns. */
  lemma ByTurns<H, L>(cur: Placement<H, L>, items: seq<L>, min: int, excl: int, c0: nat, p: nat)
    returns (full: Placement<H, L>, c: nat)
    requires Turning(items, c0) && p < |items| && 1 <= min <= |items| && excl <= 0
    requires forall h :: h in cur ==> cur[h] == {}
    ensures Promised(cur, Elems(items), items, min, excl, c0, full, full, c) && full.Keys == cur.Keys
    ensures c == Spin(c0, Needed(|cur|, min), |items|)
    ensures |Holders(full, items[p])| == Dealt(p, c0, Needed(|cur|, min), |items|)
  {
    hide Correct, Exact, AllFillable, InTurn, CursorAt, AllNew, Distinct, Sized, Holders, Dealt, Spin, Needed, Elems;
    var order := ListingOf(cur);
    ListedKeys(order, cur);
    ListedIsDistinct(order, cur);
    full := DealOut(order, items, Elems(items), min, c0);
    c := CursorAt(items, Elems(items), min, c0, |order|);
    InTurnKeys(order, items, Elems(items), min, c0, full, c);
    SizeOfElems(items);
    InTurnIsSized(order, items, Elems(items), min, c0, full, c);
    FreshIsCorrect(cur, Elems(items), items, min, excl, full);
    FreshIsApart(cur, Elems(items), items, min, excl, order, c0);
    hide Apart;
    InTurnIsDealt(order, items, min, c0, full, c);
    DealtOutAt(items, c0, Needed(|cur|, min), full, c, p);
  }

  // Only where there is nothing to place.
  lemma FreshIsApart<I, L>(s: Placement<I, L>, dests: set<L>, items: seq<L>, min: int, excl: int, order: seq<I>,
                           c0: nat)
    requires c0 < |items| && min >= 1 && Listed(order, s) && forall it :: it in s ==> s[it] == {}
    ensures Apart(s, dests, min) ==> s == map[] && CursorAt(items, dests, min, c0, |order|) == c0
  {
    if s != map[] {
      var it :| it in s;
      assert s[it] * dests == {};
    }
  }

  lemma ListedIsDistinct<I, L>(order: seq<I>, s: Placement<I, L>)
    requires Listed(order, s)
    ensures Distinct(order) && |order| == |s|
  {
  }

  lemma InTurnKeys<I, L>(order: seq<I>, items: seq<L>, dests: set<L>, min: int, c0: nat, res: Placement<I, L>,
                         cur: nat)
    requires InTurn(order, items, dests, min, c0, res, cur)
    ensures res.Keys == Elems(order)
  {
  }

  lemma DealtOutAt<I, L>(items: seq<L>, c0: nat, draws: nat, res: Placement<I, L>, cur: nat, p: nat)
    requires DealtOut(items, c0, draws, res, cur) && p < |items|
    ensures c0 < |items| && cur == Spin(c0, draws, |items|)
    ensures |Holders(res, items[p])| == Dealt(p, c0, draws, |items|)
  {
  }

  // At the start every group fits everywhere.
  lemma AllFit<H, L>(cfg: Config<H>, s: Sys<H, L>, p: nat, z: uint64, j: nat)
    requires Ordinary(cfg, s, z) && Roomy(cfg, s, p) && j < |cfg.groups|
    ensures Affordable(s.st.quota, TotalUse(cfg.groups[j])) == Elems(s.ring.items)
  {
    hide Infos, Uniform, TotalUse, Total, Sum;
    GroupWithin(cfg.groups, Usage(0, 0), j);
    SumFits(cfg.groups[j]);
    forall x | x in s.st.quota
      ensures Fits(s.st.quota[x], TotalUse(cfg.groups[j]))
    {
    }
  }

  /** The first k groups are placed, by turns. */
  ghost predicate Turned<H(!new), L>(cfg: Config<H>, s0: Sys<H, L>, s: Sys<H, L>, k: nat, p: nat, z: uint64) {
    && Ready(cfg, s0, s, k) && p < |s0.ring.items| && s0.ring.cur < |s0.ring.items|
    && s0.ring.items[p] in s0.st.quota && s.ring.items == s0.ring.items
    && var draws := Needed(Total(Sizes(cfg.groups)[..k]), cfg.min);
      && s.ring.cur == Spin(s0.ring.cur, draws, |s0.ring.items|)
      && Load(cfg, s, s0.ring.items[p]) == AfterDraws(s0, p, z, draws)
  }

  lemma TurnedOneMore<H(!new), L>(cfg: Config<H>, s0: Sys<H, L>, s: Sys<H, L>, t: Sys<H, L>, k: nat, p: nat, z: uint64)
    requires Turned(cfg, s0, s, k, p, z) && Ready(cfg, s0, t, k + 1)
    requires s.ring.cur < |s.ring.items| && k < |cfg.groups| == |s.jobs| == |t.jobs|
    requires var draws := Needed(|Infos(cfg.groups[k])|, cfg.min);
      && t.ring == s.ring.(cur := Spin(s.ring.cur, draws, |s.ring.items|))
      && Load(cfg, t, s0.ring.items[p]) ==
         Load(cfg, s, s0.ring.items[p]) + z * Dealt(p, s.ring.cur, draws, |s.ring.items|)
    ensures Turned(cfg, s0, t, k + 1, p, z)
  {
    hide Ready, Load, Needed, Dealt, Spin, Infos, AfterDraws;
    var xs := Sizes(cfg.groups);
    assert xs[..k + 1][..k] == xs[..k] && xs[..k + 1][k] == xs[k];
    NeededAdds(Total(xs[..k]), xs[k], cfg.min);
    AfterMoreDraws(s0, p, z, Needed(Total(xs[..k]), cfg.min), Needed(xs[k], cfg.min));
  }

  // Group k can be placed wherever it finds room.
  lemma GroupMayTurn<H(!new), L>(cfg: Config<H>, s: Sys<H, L>, p: nat, z: uint64, k: nat)
    requires Ordinary(cfg, s, z) && Roomy(cfg, s, p) && k < |cfg.groups|
    ensures Uniform(cfg.groups[k], z) && Refusal(cfg.groups[k]) == None
    ensures Affordable(s.st.quota, TotalUse(cfg.groups[k])) == Elems(s.ring.items)
    ensures forall j :: k < j < |cfg.groups| ==> Infos(cfg.groups[k]).Keys !! Infos(cfg.groups[j]).Keys
  {
    hide Infos, Roomy, Uniform;
    UniformIsAccepted(cfg.groups[k], z);
    AllFit(cfg, s, p, z, k);
  }

  /** One more group is placed, by turns. */
  lemma GroupTakesTurns<H(!new), L>(cfg: Config<H>, s0: Sys<H, L>, s: Sys<H, L>, k: nat, p: nat, z: uint64)
    returns (run: seq<(nat, Event<H, L>)>, t: Sys<H, L>)
    requires Ordinary(cfg, s0, z) && Roomy(cfg, s0, p) && Turned(cfg, s0, s, k, p, z) && k < |cfg.groups|
    ensures Runs(cfg, s, run, t) && NoneFails(run) && Turned(cfg, s0, t, k + 1, p, z)
  {
    hide Enabled, Next, Inv, Refusal, Infos, Load, TotalUse, Affordable, Elems, Uniform, Accepted, Needed, Dealt, Spin;
    hide Roomy, Ordinary, Looked, AfterDraws, Holders, Total;
    GroupMayTurn(cfg, s0, p, z, k);
    var l := s0.ring.items[p];
    var a, v := LockAndLook(cfg, s0, s, k, l);
    var ev := PlaceByTurns(cfg, s0, v, k, p, z);
    t := Next(cfg, v, k, ev);
    PlacedIsReady(cfg, s0, v, k, ev);
    LookedIsInv(cfg, s0, v, k);
    PlaceAddsHolders(cfg, v, k, ev, l, z);
    PlaceMoves(cfg, v, k, ev);
    TurnedOneMore(cfg, s0, s, t, k, p, z);
    RunsNowhere(cfg, t);
    RunsOn(cfg, v, k, ev, t, [], t);
    run := [(k, ev)] + [];
    RunsTogether(cfg, s, a, v, run, t);
    run := a + run;
  }

  lemma LookedIsInv<H(!new), L>(cfg: Config<H>, s0: Sys<H, L>, s: Sys<H, L>, k: nat)
    requires Looked(cfg, s0, s, k)
    ensures Inv(cfg, s) && s.ring.items == s0.ring.items
  {
  }

  // A group of new chunks that has found all stores may be dealt over them.
  lemma PlaceByTurns<H(!new), L>(cfg: Config<H>, s0: Sys<H, L>, s: Sys<H, L>, k: nat, p: nat, z: uint64)
    returns (ev: Event<H, L>)
    requires Ordinary(cfg, s0, z) && Looked(cfg, s0, s, k) && Refusal(cfg.groups[k]) == None && p < |s.ring.items|
    requires Affordable(s0.st.quota, TotalUse(cfg.groups[k])) == Elems(s.ring.items)
    ensures ev.Place? && Enabled(cfg, s, k, ev) && s.ring.cur < |s.ring.items|
    ensures var draws := Needed(|Infos(cfg.groups[k])|, cfg.min);
      && ev.cur == Spin(s.ring.cur, draws, |s.ring.items|)
      && |Holders(ev.added, s.ring.items[p])| == Dealt(p, s.ring.cur, draws, |s.ring.items|)
  {
    FreshKeys(cfg, s0, z, k);
    SizeOfMin(cfg, s0, z);
    LookingKeys(cfg, s, k);
    hide Enabled, Inv, Refusal, Infos, TotalUse, Ordinary, Needed, Dealt, Spin, Elems, Holders, Affordable;
    var cur := s.jobs[k].cur;
    SameKeysSameSize(cur, Infos(cfg.groups[k]));
    var full, c := ByTurns(cur, s.ring.items, cfg.min, cfg.excl, s.ring.cur, p);
    ev := Place(full, full, c);
    MayPlace(cfg, s, k, full, c);
  }

  lemma FreshKeys<H, L>(cfg: Config<H>, s: Sys<H, L>, z: uint64, k: nat)
    requires Ordinary(cfg, s, z) && k < |cfg.groups|
    ensures forall h :: h in Infos(cfg.groups[k]) ==> OwnersOf(s.st.owners, h) == {}
  {
    hide Infos, Uniform;
  }

  lemma SizeOfMin<H, L>(cfg: Config<H>, s: Sys<H, L>, z: uint64)
    requires Ordinary(cfg, s, z)
    ensures 1 <= cfg.min <= |s.ring.items| && cfg.excl <= 0
  {
  }

  // What a job knows that looks.
  lemma LookingKeys<H, L>(cfg: Config<H>, s: Sys<H, L>, j: nat)
    requires Inv(cfg, s) && j < |s.jobs| && s.jobs[j].phase.Looking?
    ensures s.jobs[j].cur.Keys == Infos(cfg.groups[j]).Keys && Turning(s.ring.items, s.ring.cur)
    ensures forall h :: h in s.jobs[j].cur ==> s.jobs[j].cur[h] == OwnersOf(s.st.owners, h)
  {
    hide Infos, LockInv, Turning;
    assert JobInv(cfg, s, j);
  }

  lemma MayPlace<H, L>(cfg: Config<H>, s: Sys<H, L>, j: nat, full: Placement<H, L>, c: nat)
    requires j < |s.jobs| == |cfg.groups| && Refusal(cfg.groups[j]) == None && s.jobs[j].phase.Looking?
    requires Promised(s.jobs[j].cur, s.jobs[j].phase.dests, s.ring.items, cfg.min, cfg.excl, s.ring.cur, full, full, c)
    ensures Enabled(cfg, s, j, Place(full, full, c))
  {
    hide Promised, Refusal, Infos;
  }

  lemma {:induction false} GroupsTakeTurns<H(!new), L>(cfg: Config<H>, s0: Sys<H, L>, s: Sys<H, L>, k: nat, p: nat,
                                                       z: uint64)
    returns (run: seq<(nat, Event<H, L>)>, t: Sys<H, L>)
    requires Ordinary(cfg, s0, z) && Roomy(cfg, s0, p) && Turned(cfg, s0, s, k, p, z) && k <= |cfg.groups|
    ensures Runs(cfg, s, run, t) && NoneFails(run) && Turned(cfg, s0, t, |cfg.groups|, p, z)
    decreases |cfg.groups| - k
  {
    hide Enabled, Next, Ordinary, Roomy, Turned;
    if k == |cfg.groups| {
      run, t := [], s;
    } else {
      var a, v := GroupTakesTurns(cfg, s0, s, k, p, z);
      var b;
      b, t := GroupsTakeTurns(cfg, s0, v, k + 1, p, z);
      RunsTogether(cfg, s, a, v, b, t);
      run := a + b;
    }
  }

  lemma StartTurned<H(!new), L>(cfg: Config<H>, s: Sys<H, L>, p: nat, z: uint64)
    requires Start(cfg, s) && Ordinary(cfg, s, z) && Roomy(cfg, s, p)
    ensures Turned(cfg, s, s, 0, p, z)
  {
    StartInv(cfg, s);
    StartBudget(cfg, s, s.ring.items[p]);
    hide Load, JobInv, LockInv, Infos, Uniform, TotalUse, Budget;
    assert Sizes(cfg.groups)[..0] == [];
  }

  lemma AllTurned<H(!new), L>(cfg: Config<H>, s0: Sys<H, L>, t: Sys<H, L>, p: nat, z: uint64)
    requires Turned(cfg, s0, t, |cfg.groups|, p, z)
    ensures Inv(cfg, t) && Accepted(cfg, t)
    ensures p < |s0.ring.items| && s0.ring.cur < |s0.ring.items| && s0.ring.items[p] in s0.st.quota
    ensures Load(cfg, t, s0.ring.items[p]) == InTurns(cfg, s0, p, z)
  {
    hide Load, Inv, Accepted, Needed, AfterDraws;
    assert Sizes(cfg.groups)[..|cfg.groups|] == Sizes(cfg.groups);
  }

  /** Some schedule without a failing copy gives the store at position p all its turns. */
  lemma TurnsCanBeSpent<H(!new), L>(cfg: Config<H>, s: Sys<H, L>, p: nat, z: uint64)
    returns (run: seq<(nat, Event<H, L>)>, t: Sys<H, L>)
    requires Start(cfg, s) && Ordinary(cfg, s, z) && Roomy(cfg, s, p)
    ensures Runs(cfg, s, run, t) && NoneFails(run)
    ensures s.ring.cur < |s.ring.items| && Spent(t, s.ring.items[p]) == InTurns(cfg, s, p, z)
  {
    StartTurned(cfg, s, p, z);
    hide Runs, Ordinary, Roomy, Inv, Turned, Start, InTurns, Load;
    var a, v := GroupsTakeTurns(cfg, s, s, 0, p, z);
    AllTurned(cfg, s, v, p, z);
    var b;
    b, t := CopiesEnd(cfg, v, s.ring.items[p]);
    RunsTogether(cfg, s, a, v, b, t);
    run := a + b;
  }

  /**
   Exactly, when the round-robin decides: as long as no copy fails, a store keeps its maximum on every schedule if and
   only if its use and the size for each of its turns do not exceed it together.
   */
  lemma QuotaInTurnsIff<H(!new), L(!new)>(cfg: Config<H>, s: Sys<H, L>, p: nat, z: uint64)
    requires Start(cfg, s) && Ordinary(cfg, s, z) && Roomy(cfg, s, p)
    ensures s.ring.cur < |s.ring.items|
    ensures var l := s.ring.items[p];
      (forall run, t :: Runs(cfg, s, run, t) && NoneFails(run) ==> Spent(t, l) <= s.st.quota[l].max) <==>
      InTurns(cfg, s, p, z) <= s.st.quota[l].max
  {
    var l := s.ring.items[p];
    assert s.ring.cur < |s.ring.items| && l in s.st.quota;
    hide Runs, Start, Ordinary, Roomy, InTurns, Spent, NoneFails;
    var worst, end := TurnsCanBeSpent(cfg, s, p, z);
    forall run, t | Runs(cfg, s, run, t) && NoneFails(run)
      ensures Spent(t, l) <= InTurns(cfg, s, p, z)
    {
      SpentInTurns(cfg, s, run, t, p, z);
    }
  }

  // ---------------------------------------------------------------- the smallest case

  // Two stores in the round-robin, the cursor anywhere.
  function Both(u: Usage, v: Usage, c: nat): Sys<int, int> {
    Sys(State(map[0 := u, 1 := v], map[], {}, map[]), [FRESH, FRESH], map[0 := u.use, 1 := v.use], Ring([0, 1], c))
  }

  lemma PairIsOrdinary(u: Usage, v: Usage, z: uint64, c: nat)
    requires c < 2
    ensures Start(Pair(z, z), Both(u, v, c)) && Ordinary(Pair(z, z), Both(u, v, c), z)
  {
    hide Infos, Refusal, TotalUse;
    AloneIs(0, z);
    AloneIs(1, z);
  }

  lemma PairIsRoomy(u: Usage, v: Usage, z: uint64, c: nat)
    requires c < 2 && Fits(u, z) && u.use + 2 * z < WIDTH && v.use + 2 * z < v.max
    ensures Roomy(Pair(z, z), Both(u, v, c), 0)
  {
    hide Infos, Refusal, Alone, TotalUse, Sum;
    AloneIs(0, z);
    AloneIs(1, z);
    AloneSums(0, z);
    AloneSums(1, z);
    TotalOfTwo(Sums(Pair(z, z).groups));
  }

  lemma AloneSums(h: int, z: uint64)
    ensures Sum(Alone(h, z)) == z
  {
    assert Alone(h, z)[..0] == [];
  }

  lemma TotalOfTwo(xs: seq<nat>)
    requires |xs| == 2
    ensures Total(xs) == xs[0] + xs[1]
  {
    var one := xs[..1];
    assert one[..0] == [] && Total(one) == Total(one[..0]) + one[0];
  }

  // Two draws from two stores are one for each.
  lemma TwoDraws(c: nat)
    requires c < 2
    ensures Dealt(0, c, Needed(2, 1), 2) == 1
  {
    assert Needed(2, 1) == Needed(1, 1) + 1 == Needed(0, 1) + 2;
    assert Succ(Succ(c, 2), 2) == c && Dealt(0, c, 0, 2) == 0;
  }

  lemma PairTurns(u: Usage, v: Usage, z: uint64, c: nat)
    requires c < 2
    ensures InTurns(Pair(z, z), Both(u, v, c), 0, z) == u.use + z
  {
    hide Infos, Alone, Needed, Dealt, Total;
    var xs := Sizes(Pair(z, z).groups);
    assert xs[0] == |{0}| && xs[1] == |{1}| by {
      AloneIs(0, z);
      AloneIs(1, z);
    }
    TotalOfTwo(xs);
    TwoDraws(c);
  }

  /**
   With a second store, two groups in flight at once cannot spend the quota twice: they demand two chunks, but wherever
   the cursor is each store gets one of them.
   */
  lemma CursorSharesBoth(u: Usage, v: Usage, z: uint64, c: nat)
    requires c < 2 && Fits(u, z) && u.use + 2 * z < WIDTH && v.use + 2 * z < v.max
    ensures Start(Pair(z, z), Both(u, v, c)) && Demand(Pair(z, z).groups, u) == 2 * z
    ensures forall run, t :: Runs(Pair(z, z), Both(u, v, c), run, t) && NoneFails(run) ==> Spent(t, 0) <= u.max
  {
    hide Runs, NoneFails, Ordinary, Roomy, Demand, InTurns, Spent;
    PairDemands(u, z, z);
    PairIsOrdinary(u, v, z, c);
    PairIsRoomy(u, v, z, c);
    PairTurns(u, v, z, c);
    QuotaInTurnsIff(Pair(z, z), Both(u, v, c), 0, z);
  }
}
