/** What the allocator's result is for: surviving lost locations, re-running, and sharing the load. */
module StripeLaws {
  import opened Wrappers
  import opened RoundRobin
  import opened Stripe

  /** The copies an item has once the added ones are made. */
  ghost function Merge<I, L>(s: Placement<I, L>, added: Placement<I, L>): Placement<I, L> {
    map it | it in s :: s[it] + (if it in added then added[it] else {})
  }

  // The items that still have a copy when every location of `lost` is gone.
  ghost function Surviving<I, L>(s: Placement<I, L>, lost: set<L>): set<I> {
    set it | it in s && s[it] - lost != {}
  }

  lemma FullIsMerged<I, L>(s: Placement<I, L>, dests: set<L>, min: int, full: Placement<I, L>, added: Placement<I, L>)
    requires Topped(s, dests, min, full, added)
    ensures forall it :: it in s ==> full[it] <= Merge(s, added)[it] && full[it] <= (s[it] * dests) + added[it]
    ensures forall it :: it in s ==> added[it] !! s[it] && added[it] <= dests
  {
  }

  lemma LostItemsAreAlike<I, L>(s: Placement<I, L>, dests: set<L>, min: int, full: Placement<I, L>,
                                added: Placement<I, L>, lost: set<L>, it: I)
    requires Topped(s, dests, min, full, added) && |lost| <= min
    requires it in s && it !in Surviving(Merge(s, added), lost)
    ensures full[it] == lost
  {
    FullIsMerged(s, dests, min, full, added);
    var copies := Merge(s, added)[it];
    forall l | l in copies
      ensures l in lost
    {
      assert l in lost || l in copies - lost;
    }
    SubsetOfSameSize(full[it], lost);
  }

  lemma AlikeIsNotExclusive<I, L>(full: Placement<I, L>, dead: set<I>, lost: set<L>)
    requires dead <= full.Keys && |dead| >= 2 && forall it :: it in dead ==> full[it] == lost
    ensures Exclusives(full) !! dead
  {
    forall a | a in dead
      ensures a !in Exclusives(full)
    {
      assert |dead - {a}| >= 1;
      var b :| b in dead - {a};
      assert full[b] == full[a];
    }
  }

  /** At most one item dies, unless ndata live: the core of RAID 5 and RAID 1+5. */
  lemma {:induction false} FewItemsDie<I, L>(s: Placement<I, L>, dests: set<L>, min: int, excl: int,
                                             full: Placement<I, L>, added: Placement<I, L>, ndata: nat, lost: set<L>)
    requires Correct(s, dests, min, excl, full, added)
    requires min >= 1 && excl >= ndata && |lost| <= min
    ensures var alive := Surviving(Merge(s, added), lost);
      alive <= s.Keys && (|s.Keys - alive| <= 1 || |alive| >= ndata)
  {
    hide Topped, Exclusives;
    var alive := Surviving(Merge(s, added), lost);
    CorrectKeys(s, dests, min, excl, full, added);
    var dead := s.Keys - alive;
    if |dead| >= 2 {
      forall it | it in dead
        ensures full[it] == lost
      {
        LostItemsAreAlike(s, dests, min, full, added, lost, it);
      }
      AlikeIsNotExclusive(full, dead, lost);
      SubsetOfSameSize(Exclusives(full), alive);
      ProperSubsetIsSmaller(alive, s.Keys, dead);
    }
  }

  lemma ProperSubsetIsSmaller<T>(a: set<T>, b: set<T>, rest: set<T>)
    requires a <= b && rest == b - a
    ensures |b| == |a| + |rest|
  {
    assert b == a + rest;
  }

  // How many entries of `items` are in `alive`.
  ghost function Count<I>(items: seq<I>, alive: set<I>): nat {
    if items == [] then 0
    else Count(items[..|items| - 1], alive) + if items[|items| - 1] in alive then 1 else 0
  }

  lemma {:induction false} CountAtLeast<I>(items: seq<I>, alive: set<I>)
    requires alive <= Elems(items)
    ensures Count(items, alive) >= |alive|
  {
    if items == [] {
      assert alive == {};
    } else {
      var init, last := items[..|items| - 1], items[|items| - 1];
      assert items == init + [last];
      CountAtLeast(init, alive - {last});
      CountGrows(init, alive - {last}, alive);
    }
  }

  lemma {:induction false} CountGrows<I>(items: seq<I>, a: set<I>, b: set<I>)
    requires a <= b
    ensures Count(items, a) <= Count(items, b)
  {
    if items != [] {
      CountGrows(items[..|items| - 1], a, b);
    }
  }

  // All entries but those of one item.
  lemma {:induction false} CountAllBut<I>(items: seq<I>, alive: set<I>, dead: I)
    requires forall x :: x in items ==> x == dead || x in alive
    requires dead !in alive
    ensures Count(items, alive) + multiset(items)[dead] == |items|
  {
    if items != [] {
      var init, last := items[..|items| - 1], items[|items| - 1];
      assert items == init + [last];
      CountAllBut(init, alive, dead);
    }
  }

  lemma {:induction false} CountAll<I>(items: seq<I>, alive: set<I>)
    requires forall x :: x in items ==> x in alive
    ensures Count(items, alive) == |items|
  {
    if items != [] {
      CountAll(items[..|items| - 1], alive);
    }
  }

  lemma {:induction false} CountNoneOf<I>(items: seq<I>, alive: set<I>, dead: I)
    requires dead !in alive
    ensures Count(items, alive) + multiset(items)[dead] <= |items|
  {
    if items != [] {
      var init, last := items[..|items| - 1], items[|items| - 1];
      assert items == init + [last];
      CountNoneOf(init, alive, dead);
    }
  }

  // No item stands for more shards than may be lost.
  ghost predicate Spares<I>(shards: seq<I>, nparity: nat) {
    forall it {:trigger multiset(shards)[it]} :: it in shards ==> multiset(shards)[it] <= nparity
  }

  /**
   RAID 5 and RAID 1+5: losing any `min` locations leaves ndata shards to rebuild the data from, provided no
   nparity + 1 shards are equal. Equal shards are one item to the allocator, and are lost together.
   */
  lemma {:induction false} FaultTolerance<I, L>(s: Placement<I, L>, dests: set<L>, min: int, excl: int,
                                                full: Placement<I, L>, added: Placement<I, L>, shards: seq<I>,
                                                ndata: nat, nparity: nat, lost: set<L>)
    requires Correct(s, dests, min, excl, full, added)
    requires Elems(shards) == s.Keys && |shards| == ndata + nparity && Spares(shards, nparity)
    requires min >= 1 && excl >= ndata && |lost| <= min
    ensures Count(shards, Surviving(Merge(s, added), lost)) >= ndata
  {
    hide Correct, Count;
    assert Outlasts(shards, Merge(s, added), nparity, min);
    OutlastsLoss(s, dests, min, excl, full, added, shards, ndata, nparity, lost);
  }

  // Shards that are equal too often have more copies than may be lost.
  ghost predicate Outlasts<I, L>(shards: seq<I>, copies: Placement<I, L>, nparity: nat, min: int) {
    forall it :: it in shards && it in copies && multiset(shards)[it] > nparity ==> |copies[it]| > min
  }

  /**
   Exactly: the loss of every set of `min` locations is survived if and only if every shard that occurs more than
   nparity times has copies on more than `min` locations.
   */
  lemma {:induction false} FaultToleranceIff<I, L(!new)>(s: Placement<I, L>, dests: set<L>, min: int, excl: int,
                                                         full: Placement<I, L>, added: Placement<I, L>, shards: seq<I>,
                                                         ndata: nat, nparity: nat)
    requires Correct(s, dests, min, excl, full, added)
    requires Elems(shards) == s.Keys && |shards| == ndata + nparity
    requires min >= 1 && excl >= ndata
    ensures (forall lost: set<L> :: |lost| <= min ==> Count(shards, Surviving(Merge(s, added), lost)) >= ndata)
            <==> Outlasts(shards, Merge(s, added), nparity, min)
  {
    hide Correct, Surviving, Outlasts, Count;
    if Outlasts(shards, Merge(s, added), nparity, min) {
      forall lost: set<L> | |lost| <= min
        ensures Count(shards, Surviving(Merge(s, added), lost)) >= ndata
      {
        OutlastsLoss(s, dests, min, excl, full, added, shards, ndata, nparity, lost);
      }
    } else {
      var it := TooManyAlike(shards, Merge(s, added), nparity, min);
      LosingOneItem(s, added, it);
      CountNoneOf(shards, Surviving(Merge(s, added), Merge(s, added)[it]), it);
    }
  }

  lemma OutlastsLoss<I, L>(s: Placement<I, L>, dests: set<L>, min: int, excl: int, full: Placement<I, L>,
                           added: Placement<I, L>, shards: seq<I>, ndata: nat, nparity: nat, lost: set<L>)
    requires Correct(s, dests, min, excl, full, added)
    requires Elems(shards) == s.Keys && |shards| == ndata + nparity && Outlasts(shards, Merge(s, added), nparity, min)
    requires min >= 1 && excl >= ndata && |lost| <= min
    ensures Count(shards, Surviving(Merge(s, added), lost)) >= ndata
  {
    hide Correct, Surviving, Merge, Outlasts, Count;
    var alive := Surviving(Merge(s, added), lost);
    FewItemsDie(s, dests, min, excl, full, added, ndata, lost);
    var dead := s.Keys - alive;
    assert forall x :: x in shards ==> x in Elems(shards);
    if |alive| >= ndata {
      CountAtLeast(shards, alive);
    } else if dead == {} {
      CountAll(shards, alive);
    } else {
      var it :| it in dead;
      SubsetOfSameSize({it}, dead);
      forall x | x in shards
        ensures x == it || x in alive
      {
        assert x in s.Keys && (x in alive || x in dead);
        assert x in dead ==> x in {it};
      }
      assert it in Elems(shards);
      LostIsSpared(s, added, shards, nparity, min, lost, it);
      CountAllBut(shards, alive, it);
    }
  }

  lemma LostIsSpared<I, L>(s: Placement<I, L>, added: Placement<I, L>, shards: seq<I>, nparity: nat, min: int,
                           lost: set<L>, it: I)
    requires Outlasts(shards, Merge(s, added), nparity, min) && |lost| <= min
    requires it in shards && it in s && it !in Surviving(Merge(s, added), lost)
    ensures multiset(shards)[it] <= nparity
  {
    AllCopiesLost(Merge(s, added)[it], lost);
  }

  lemma AllCopiesLost<L>(copies: set<L>, lost: set<L>)
    requires copies - lost == {}
    ensures |copies| <= |lost|
  {
    assert forall l :: l in copies ==> l in lost || l in copies - lost;
    SubsetOfSameSize(copies, lost);
  }

  lemma TooManyAlike<I, L>(shards: seq<I>, copies: Placement<I, L>, nparity: nat, min: int) returns (it: I)
    requires !Outlasts(shards, copies, nparity, min)
    ensures it in shards && it in copies && multiset(shards)[it] > nparity && |copies[it]| <= min
  {
    it :| it in shards && it in copies && multiset(shards)[it] > nparity && |copies[it]| <= min;
  }

  lemma LosingOneItem<I, L>(s: Placement<I, L>, added: Placement<I, L>, it: I)
    requires it in s
    ensures it !in Surviving(Merge(s, added), Merge(s, added)[it])
  {
  }

  /** For shards without earlier copies the condition is one on the group alone. */
  lemma FreshToleranceIff<I, L(!new)>(s: Placement<I, L>, dests: set<L>, min: int, excl: int, full: Placement<I, L>,
                                      added: Placement<I, L>, shards: seq<I>, ndata: nat, nparity: nat)
    requires Correct(s, dests, min, excl, full, added) && forall it :: it in s ==> s[it] == {}
    requires Elems(shards) == s.Keys && |shards| == ndata + nparity
    requires min >= 1 && excl >= ndata
    ensures (forall lost: set<L> :: |lost| <= min ==> Count(shards, Surviving(Merge(s, added), lost)) >= ndata)
            <==> Spares(shards, nparity)
  {
    hide Correct, Surviving, Count, Merge;
    FaultToleranceIff(s, dests, min, excl, full, added, shards, ndata, nparity);
    forall it | it in shards
      ensures it in Merge(s, added) && |Merge(s, added)[it]| == min
    {
      assert it in Elems(shards);
      FreshHasMin(s, dests, min, excl, full, added, it);
    }
  }

  lemma FreshHasMin<I, L>(s: Placement<I, L>, dests: set<L>, min: int, excl: int, full: Placement<I, L>,
                          added: Placement<I, L>, it: I)
    requires Correct(s, dests, min, excl, full, added) && it in s && s[it] == {} && min >= 1
    ensures it in Merge(s, added) && |Merge(s, added)[it]| == min
  {
    hide Spread;
    assert Merge(s, added)[it] == full[it];
  }

  lemma CorrectKeys<I, L>(s: Placement<I, L>, dests: set<L>, min: int, excl: int, full: Placement<I, L>,
                          added: Placement<I, L>)
    requires Correct(s, dests, min, excl, full, added)
    ensures full.Keys == s.Keys && added.Keys == s.Keys && |full| == |s|
    ensures Exclusives(full) <= s.Keys
    ensures min >= 1 ==> |Exclusives(full)| >= Min(excl, |s|)
  {
    assert |full| == |full.Keys| && |s| == |s.Keys|;
  }

  lemma UniformHasNoExclusives<I, L>(full: Placement<I, L>)
    requires forall it :: it in full ==> full[it] == {}
    ensures |full| >= 2 ==> Exclusives(full) == {}
    ensures |full| <= 1 ==> Exclusives(full) == full.Keys
  {
    if |full| >= 2 {
      forall a | a in full
        ensures a !in Exclusives(full)
      {
        assert |full.Keys - {a}| >= 1;
        var b :| b in full.Keys - {a};
        assert full[b] == full[a];
      }
    } else {
      forall a, b | a in full && b in full
        ensures a == b
      {
        SubsetOfSameSize({a, b}, full.Keys);
      }
    }
  }

  /** The exclusivity a successful call promises is kept exactly when copies are made at all, or none was needed. */
  lemma ExclusivityNeedsCopies<I, L>(s: Placement<I, L>, dests: set<L>, min: int, excl: int, full: Placement<I, L>,
                                     added: Placement<I, L>)
    requires Correct(s, dests, min, excl, full, added)
    ensures Spread(full, excl) <==> min >= 1 || |s| <= 1 || excl <= 0
  {
    assert full.Keys == s.Keys && |full| == |s|;
    if min < 1 {
      UniformHasNoExclusives(full);
    }
  }

  /** Running again on what the first run left adds nothing, to no item. */
  lemma {:induction false} TopUpIsIdempotent<I, L>(s: Placement<I, L>, dests: set<L>, min: int, full: Placement<I, L>,
                                                   added: Placement<I, L>, it: I, again: set<L>)
    requires Topped(s, dests, min, full, added) && it in s
    requires Missing(Merge(s, added)[it], dests, min, again)
    ensures again == {} && min <= |dests|
  {
    FullIsMerged(s, dests, min, full, added);
    SubsetOfSameSize(full[it], Merge(s, added)[it] * dests);
    SubsetOfSameSize(full[it], dests);
  }

  // What a successful call promises, and leaves.
  lemma PromisedIsStocked<I, L>(s: Placement<I, L>, dests: set<L>, items: seq<L>, min: int, c0: nat,
                                full: Placement<I, L>, added: Placement<I, L>, cur: nat, copies: Placement<I, L>)
    requires Promised(s, dests, items, min, 0, c0, full, added, cur)
    requires copies.Keys == s.Keys && added.Keys == s.Keys && forall it :: it in s ==> copies[it] == s[it] + added[it]
    ensures Topped(s, dests, min, full, added) && copies == Merge(s, added) && Exact(s, dests, min, added)
    ensures AllStocked(copies, dests, min, 0) && AllFillable(copies, dests, items, min, 0)
  {
    hide Exact, AllFillable, AllStocked, TakesTurns, AllNew, Spread;
    assert copies == Merge(s, added);
    ToppedIsStocked(s, dests, min, full, added, items);
  }

  lemma PromisedIsExact<I, L>(s: Placement<I, L>, dests: set<L>, items: seq<L>, min: int, excl: int, c0: nat,
                           full: Placement<I, L>, added: Placement<I, L>, cur: nat)
    requires Promised(s, dests, items, min, excl, c0, full, added, cur)
    ensures added.Keys == s.Keys && (excl <= 0 ==> Exact(s, dests, min, added))
  {
  }

  // The second call adds the exact shortfall, which is nothing.
  lemma NothingMore<I, L>(s: Placement<I, L>, dests: set<L>, min: int, full: Placement<I, L>, added: Placement<I, L>,
                          copies: Placement<I, L>, again: Placement<I, L>)
    requires Topped(s, dests, min, full, added) && copies == Merge(s, added)
    requires copies.Keys == s.Keys && again.Keys == s.Keys && Exact(copies, dests, min, again)
    ensures again == map it | it in s :: {}
  {
    hide Topped, Merge;
    forall it | it in s
      ensures again[it] == {}
    {
      TopUpIsIdempotent(s, dests, min, full, added, it, again[it]);
    }
  }

  // What a successful call leaves needs nothing more.
  lemma ToppedIsStocked<I, L>(s: Placement<I, L>, dests: set<L>, min: int, full: Placement<I, L>,
                              added: Placement<I, L>, items: seq<L>)
    requires Topped(s, dests, min, full, added)
    ensures AllStocked(Merge(s, added), dests, min, 0) && AllFillable(Merge(s, added), dests, items, min, 0)
  {
    FullIsMerged(s, dests, min, full, added);
    forall it | it in s
      ensures Stocked(Merge(s, added)[it], dests, min, 0) && Fillable(Merge(s, added)[it], dests, items, min, 0)
    {
      SubsetOfSameSize(full[it], Merge(s, added)[it] * dests);
      StockedIsFillable(Merge(s, added)[it], dests, items, min, 0);
    }
  }

  /** Two calls, the second on what the first one leaves: without exclusivity it succeeds and adds nothing. */
  method TopUpTwice<I(==), L(==)>(s: Placement<I, L>, dests: set<L>, rr: RR<L>, min: int)
    returns (first: Outcome<I, L>, second: Outcome<I, L>)
    requires rr.Valid()
    requires Dealable(s, dests, rr.items) || AllFillable(s, dests, rr.items, min, 0)
    modifies rr
    ensures first.ErrShort? ==> MayBeShort(s, dests, rr.items, min, 0)
    ensures first.Placed? ==> first.added.Keys == s.Keys && Exact(s, dests, min, first.added)
    ensures first.Placed? ==> second == Placed(map it | it in s :: {})
  {
    hide Topped, Exact, AllStocked, AllFillable, Dealable, Merge, AllNew, DealtOut, Promised;
    ghost var full, fullB;
    ghost var c0 := rr.cur;
    ghost var story;
    first, full, story := Stripe.Stripe(s, dests, rr, min, 0);
    second := first;
    if first.Placed? {
      ghost var c1 := rr.cur;
      PromisedIsExact(s, dests, rr.items, min, 0, c0, full, first.added, c1);
      var copies := map it | it in s :: s[it] + first.added[it];
      PromisedIsStocked(s, dests, rr.items, min, c0, full, first.added, c1, copies);
      second, fullB, story := Stripe.Stripe(copies, dests, rr, min, 0);
      PromisedIsExact(copies, dests, rr.items, min, 0, c1, fullB, second.added, rr.cur);
      NothingMore(s, dests, min, full, first.added, copies, second.added);
    }
  }

  /** A destination in use that the sequence does not deal keeps its priority, and what can be drawn is too little. */
  ghost predicate Endless<I, L>(p: Problem<I, L>, a: Search<I, L>, l: L) {
    && l in a.prios && l !in p.items && |(p.got + Elems(p.items)) * p.dests| < p.min
    && a.left <= p.got && p.it in a.res && a.res[p.it] <= (p.got + Elems(p.items)) * p.dests
    && (p.items == [] || a.cur < |p.items|) && (p.pass > 0 || p.excl <= 0)
  }

  /**
   Then the search never ends, with or without exclusivity: whatever a turn draws, it is not short, the item still
   lacks locations, and the next turn is in the same position. StripeCalls.EndlessIff says when whole calls get there.
   */
  lemma {:induction false} EndlessGoesOn<I, L>(p: Problem<I, L>, a: Search<I, L>, loc: Option<L>, l: L)
    requires Endless(p, a, l) && Drawable(p, a, loc)
    ensures var (b, v) := Turn(p, a, loc);
      v == Again && Endless(p, b, l) && |b.res[p.it]| < p.min && exists next :: Drawable(p, b, next)
  {
    EndlessTurn(p, a, loc, l);
    hide Turn;
    var b := Turn(p, a, loc).0;
    SubsetOfSameSize(b.res[p.it], (p.got + Elems(p.items)) * p.dests);
    EndlessDraws(p, b, l);
  }

  lemma EndlessTurn<I, L>(p: Problem<I, L>, a: Search<I, L>, loc: Option<L>, l: L)
    requires Endless(p, a, l) && Drawable(p, a, loc)
    ensures Turn(p, a, loc).1 == Again && Endless(p, Turn(p, a, loc).0, l)
  {
    hide Spread;
    DrawnIsThere(p, a, loc);
    hide Elems;
    if loc.Some? && p.excl <= 0 {
      NothingIsUndone(a.res[p.it := a.res[p.it] + {loc.value}], p.excl);
    }
    assert a.left == {} ==> l in Without(a.prios, loc);
  }

  lemma DrawnIsThere<I, L>(p: Problem<I, L>, a: Search<I, L>, loc: Option<L>)
    requires Drawable(p, a, loc) && a.left <= p.got
    ensures loc.Some? ==> loc.value in p.got + Elems(p.items)
  {
  }

  lemma EndlessDraws<I, L>(p: Problem<I, L>, a: Search<I, L>, l: L)
    requires Endless(p, a, l)
    ensures exists next :: Drawable(p, a, next)
  {
    if a.left != {} {
      var next :| next in a.left;
      assert Drawable(p, a, Some(next));
    } else {
      assert Drawable(p, a, if p.items == [] then None else Some(p.items[a.cur]));
    }
  }

  // ---------------------------------------------------------------- load

  /** One successful call on fresh items: what it placed, and where the cursor was before and after. */
  datatype Call<!I, L> = Call(full: Placement<I, L>, draws: nat, before: nat, after: nat)

  ghost predicate Chained<I, L>(items: seq<L>, calls: seq<Call<I, L>>, c0: nat) {
    c0 < |items| &&
    (calls == [] ||
     (&& calls[0].before == c0
      && DealtOut(items, c0, calls[0].draws, calls[0].full, calls[0].after)
      && Chained(items, calls[1..], calls[0].after)))
  }

  // The copies location p got over all calls.
  ghost function Load<I, L>(items: seq<L>, calls: seq<Call<I, L>>, p: nat): nat
    requires p < |items|
  {
    if calls == [] then 0 else |Holders(calls[0].full, items[p])| + Load(items, calls[1..], p)
  }

  ghost function Draws<I, L>(calls: seq<Call<I, L>>): nat {
    if calls == [] then 0 else calls[0].draws + Draws(calls[1..])
  }

  lemma {:induction false} LoadIsDealt<I, L>(items: seq<L>, calls: seq<Call<I, L>>, c0: nat, p: nat)
    requires Chained(items, calls, c0) && p < |items|
    ensures Load(items, calls, p) == Dealt(p, c0, Draws(calls), |items|)
  {
    if calls != [] {
      LoadIsDealt(items, calls[1..], calls[0].after, p);
      DealtAdds(p, c0, calls[0].draws, Draws(calls[1..]), |items|);
    }
  }

  /** Round-robin balance: over any run of calls, no location holds two copies more than another. */
  lemma LoadIsBalanced<I, L>(items: seq<L>, calls: seq<Call<I, L>>, c0: nat, p: nat, q: nat)
    requires Chained(items, calls, c0) && p < |items| && q < |items|
    ensures -1 <= Load(items, calls, p) - Load(items, calls, q) <= 1
  {
    LoadIsDealt(items, calls, c0, p);
    LoadIsDealt(items, calls, c0, q);
    DealingIsBalanced(p, q, c0, Draws(calls), |items|);
  }
}
