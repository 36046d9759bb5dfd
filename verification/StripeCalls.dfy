/**
 Whole calls of the striper, one step at a time and for any order of the items: exactly when a call can go on for ever.
 */
module StripeCalls {
  import opened Wrappers
  import opened RoundRobin
  import opened Stripe

  ghost predicate Steps<I(!new), L(!new)>(inp: Input<I, L>, x: CallState<I, L>, y: CallState<I, L>)
    requires Ordered(inp)
  {
    && x.Searching? && x.pass < 2 && x.i < |inp.order| && inp.order[x.i] in x.a.res
    && if |x.a.res[inp.order[x.i]]| >= inp.min then y == Advance(inp, x.pass, x.i, x.a)
       else exists loc :: Drawable(ProblemAt(inp, x.pass, x.i), x.a, loc) && y == After(inp, x, loc)
  }

  /** n steps lead from x to y. */
  ghost predicate Reaches<I(!new), L(!new)>(inp: Input<I, L>, x: CallState<I, L>, n: nat, y: CallState<I, L>)
    requires Ordered(inp)
  {
    if n == 0 then x == y else exists z :: Reaches(inp, x, n - 1, z) && Steps(inp, z, y)
  }

  // A move is a step.
  lemma {:induction false} MovesReach<I(!new), L(!new)>(inp: Input<I, L>, x: CallState<I, L>, n: nat,
                                                        y: CallState<I, L>, moves: seq<Move<L>>, z: CallState<I, L>)
    requires Ordered(inp) && Reaches(inp, x, n, y) && Plays(inp, y, moves, z)
    ensures Reaches(inp, x, n + |moves|, z)
    decreases moves
  {
    hide Ordered, Advance, After;
    if moves != [] {
      var w := Go(inp, y, moves[0]);
      assert Steps(inp, y, w);
      assert Reaches(inp, x, n + 1, w);
      MovesReach(inp, x, n + 1, w, moves[1..], z);
    }
  }

  /** What the striper does is one of these calls: from the beginning, step by step, to the end its outcome says. */
  lemma TellsReaches<I(!new), L(!new)>(story: Story<I, L>, s: Placement<I, L>, dests: set<L>, items: seq<L>, min: int,
                                       excl: int, c0: nat, end: CallState<I, L>)
    requires Tells(story, s, dests, items, min, excl, c0, end)
    ensures var inp := Input(s, dests, items, min, excl, story.order);
      && Ordered(inp) && Counts(story.uses, s, dests)
      && Reaches(inp, Begin(inp, story.uses, c0), |story.moves|, end)
  {
    hide Ordered, Counts, Begin, Plays;
    var inp := Input(s, dests, items, min, excl, story.order);
    MovesReach(inp, Begin(inp, story.uses, c0), 0, Begin(inp, story.uses, c0), story.moves, end);
  }

  /** A call that never ends. */
  ghost predicate Endless<I(!new), L(!new)>(inp: Input<I, L>, f: nat -> CallState<I, L>, x: CallState<I, L>)
    requires Ordered(inp)
  {
    f(0) == x && forall n: nat :: Steps(inp, f(n), f(n + 1))
  }

  // ---------------------------------------------------------------- calls that never end

  /** An item that cannot be filled is still to come, and a priority never drawn keeps the call from giving up. */
  ghost predicate Doomed<I, L>(inp: Input<I, L>, l: L, b: nat, x: CallState<I, L>)
    requires Ordered(inp)
  {
    && x.Searching? && x.pass == 0 && x.i <= b < |inp.order| && inp.excl <= 0
    && !Fillable(inp.s[inp.order[b]], inp.dests, inp.items, inp.min, inp.excl)
    && l in x.a.prios && l !in inp.items
    && (inp.items == [] || x.a.cur < |inp.items|)
    && var it := inp.order[x.i];
      && it in x.a.res && x.a.left <= inp.s[it]
      && x.a.res[it] <= inp.dests && x.a.res[it] <= inp.s[it] + Elems(inp.items)
      && (forall j :: x.i < j < |inp.order| ==> inp.order[j] !in x.a.res)
  }

  // The item that cannot be filled never is.
  lemma DoomedIsNotFull<I, L>(inp: Input<I, L>, l: L, b: nat, x: CallState<I, L>)
    requires Ordered(inp) && Doomed(inp, l, b, x) && |x.a.res[inp.order[x.i]]| >= inp.min
    ensures x.i < b
  {
    var it := inp.order[x.i];
    SubsetOfSameSize(x.a.res[it], (inp.s[it] + Elems(inp.items)) * inp.dests);
  }

  lemma DoomedAdvances<I, L>(inp: Input<I, L>, l: L, b: nat, x: CallState<I, L>)
    requires Ordered(inp) && Doomed(inp, l, b, x) && |x.a.res[inp.order[x.i]]| >= inp.min
    ensures Doomed(inp, l, b, Advance(inp, x.pass, x.i, x.a))
  {
    hide Fillable;
    DoomedIsNotFull(inp, l, b, x);
    assert Distinct(inp.order);
  }

  lemma DoomedDraws<I, L>(inp: Input<I, L>, l: L, b: nat, x: CallState<I, L>) returns (loc: Option<L>)
    requires Ordered(inp) && Doomed(inp, l, b, x)
    ensures Drawable(ProblemAt(inp, x.pass, x.i), x.a, loc)
  {
    if x.a.left != {} {
      var some :| some in x.a.left;
      loc := Some(some);
    } else {
      loc := if inp.items == [] then None else Some(inp.items[x.a.cur]);
    }
  }

  lemma DoomedTurns<I, L>(inp: Input<I, L>, l: L, b: nat, x: CallState<I, L>, loc: Option<L>)
    requires Ordered(inp) && Doomed(inp, l, b, x) && Drawable(ProblemAt(inp, x.pass, x.i), x.a, loc)
    ensures Doomed(inp, l, b, After(inp, x, loc))
  {
    hide Spread, Fillable, Listed;
    var p := ProblemAt(inp, x.pass, x.i);
    if loc.Some? {
      NothingIsUndone(x.a.res[p.it := x.a.res[p.it] + {loc.value}], p.excl);
    }
    assert x.a.left == {} ==> l in Without(x.a.prios, loc);
  }

  lemma DoomedGoesOn<I(!new), L(!new)>(inp: Input<I, L>, l: L, b: nat, x: CallState<I, L>) returns (y: CallState<I, L>)
    requires Ordered(inp) && Doomed(inp, l, b, x)
    ensures Steps(inp, x, y) && Doomed(inp, l, b, y)
  {
    hide Ordered, Advance, After, Fillable;
    if |x.a.res[inp.order[x.i]]| >= inp.min {
      DoomedAdvances(inp, l, b, x);
      y := Advance(inp, x.pass, x.i, x.a);
    } else {
      var loc := DoomedDraws(inp, l, b, x);
      DoomedTurns(inp, l, b, x, loc);
      y := After(inp, x, loc);
    }
  }

  /** Whatever it draws, such a call does not come to an end. */
  lemma {:induction false} DoomedStays<I(!new), L(!new)>(inp: Input<I, L>, l: L, b: nat, x: CallState<I, L>, n: nat,
                                                         y: CallState<I, L>)
    requires Ordered(inp) && Doomed(inp, l, b, x) && Reaches(inp, x, n, y)
    ensures Doomed(inp, l, b, y) && exists z :: Steps(inp, y, z)
    decreases n
  {
    hide Advance, After, Fillable, Listed;
    if n > 0 {
      var w :| Reaches(inp, x, n - 1, w) && Steps(inp, w, y);
      DoomedStays(inp, l, b, x, n - 1, w);
      if |w.a.res[inp.order[w.i]]| >= inp.min {
        DoomedAdvances(inp, l, b, w);
      } else {
        var loc :| Drawable(ProblemAt(inp, w.pass, w.i), w.a, loc) && y == After(inp, w, loc);
        DoomedTurns(inp, l, b, w, loc);
      }
    }
    var z := DoomedGoesOn(inp, l, b, y);
  }

  // The n-th state of a call that is doomed.
  ghost function Later<I(!new), L(!new)>(inp: Input<I, L>, l: L, b: nat, x: CallState<I, L>, n: nat):
    (y: CallState<I, L>)
    requires Ordered(inp) && Doomed(inp, l, b, x)
    ensures Doomed(inp, l, b, y)
  {
    if n == 0 then x
    else
      var z := Later(inp, l, b, x, n - 1);
      assert exists y :: Steps(inp, z, y) && Doomed(inp, l, b, y) by {
        var y := DoomedGoesOn(inp, l, b, z);
      }
      var y :| Steps(inp, z, y) && Doomed(inp, l, b, y);
      y
  }

  lemma DoomedNeverEnds<I(!new), L(!new)>(inp: Input<I, L>, l: L, b: nat, x: CallState<I, L>)
    returns (f: nat -> CallState<I, L>)
    requires Ordered(inp) && Doomed(inp, l, b, x)
    ensures Endless(inp, f, x)
  {
    f := (n: nat) => Later(inp, l, b, x, n);
    forall n: nat
      ensures Steps(inp, f(n), f(n + 1))
    {
      hide Steps, Doomed;
      assert f(n + 1) == Later(inp, l, b, x, n + 1);
    }
  }

  // ---------------------------------------------------------------- calls that end

  /** Item i of a pass is being searched for; `resB` is the placement before it came up. */
  ghost predicate Alive<I, L>(inp: Input<I, L>, x: CallState<I, L>, resB: Placement<I, L>, before: map<L, int>, c0: nat,
                              k: nat)
    requires Ordered(inp)
  {
    && x.Searching? && x.i < |inp.order| && x.pass < 2 && inp.excl <= 0
    && Stage(inp.s, inp.dests, inp.order, inp.min, inp.excl, x.pass, x.i, resB)
    && (Priorities(x.a.prios, inp.items) || AllFillable(inp.s, inp.dests, inp.items, inp.min, inp.excl))
    && var it := inp.order[x.i];
      && Kept(ProblemAt(inp, x.pass, x.i), before, Entered(resB, it), c0, k, x.a) && it in x.a.res
      && (|Entered(resB, it)[it]| >= inp.min ==> x.a.res == Entered(resB, it))
  }

  lemma EntersAlive<I, L>(inp: Input<I, L>, pass: nat, i: nat, prios: map<L, int>, res: Placement<I, L>, cur: nat)
    requires Ordered(inp) && i < |inp.order| && pass < 2 && inp.excl <= 0 && Patient(prios)
    requires Stage(inp.s, inp.dests, inp.order, inp.min, inp.excl, pass, i, res)
    requires Priorities(prios, inp.items) || AllFillable(inp.s, inp.dests, inp.items, inp.min, inp.excl)
    requires if inp.items == [] then cur == 0 else cur < |inp.items|
    ensures Alive(inp, Enter(inp, pass, i, prios, res, cur), res, prios, cur, 0)
  {
    hide Stage, Priorities, Patient, Fillable, Kept, NewStage, NewItem, Stocked;
    var it := inp.order[i];
    EnteredFits(inp.s, inp.dests, inp.order, inp.min, inp.excl, pass, i, res, it, prios, inp.items, cur, 0);
    KeptAtStart(ProblemAt(inp, pass, i), prios, Entered(res, it), cur);
  }

  // What the search knows at any time.
  lemma AliveIsSane<I, L>(inp: Input<I, L>, x: CallState<I, L>, resB: Placement<I, L>, before: map<L, int>, c0: nat,
                          k: nat)
    requires Ordered(inp) && Alive(inp, x, resB, before, c0, k)
    ensures Patient(x.a.prios) && if inp.items == [] then x.a.cur == 0 else x.a.cur < |inp.items|
  {
    hide Stage, Spread, Reuses, Visited, Dealing, NewItem;
  }

  lemma AliveAdvances<I, L>(inp: Input<I, L>, x: CallState<I, L>, resB: Placement<I, L>, before: map<L, int>, c0: nat,
                            k: nat)
    requires Ordered(inp) && Alive(inp, x, resB, before, c0, k) && |x.a.res[inp.order[x.i]]| >= inp.min
    ensures x.i + 1 < |inp.order| || x.pass == 0 ==>
        Alive(inp, Advance(inp, x.pass, x.i, x.a), x.a.res, x.a.prios, x.a.cur, 0)
  {
    hide Stage, Priorities, Patient, AllFillable, Kept, NewItem, Filled;
    var p, it := ProblemAt(inp, x.pass, x.i), inp.order[x.i];
    AliveIsSane(inp, x, resB, before, c0, k);
    KeptAtEnd(p, before, Entered(resB, it), c0, k, x.a);
    NextItem(inp.s, inp.order, x.i, resB, p, before, c0, x.a.prios, x.a.res, x.a.cur);
    if x.i + 1 < |inp.order| {
      EntersAlive(inp, x.pass, x.i + 1, x.a.prios, x.a.res, x.a.cur);
    } else if x.pass == 0 {
      NextPass(inp.s, inp.dests, inp.order, inp.min, inp.excl, x.a.res);
      EntersAlive(inp, 1, 0, x.a.prios, x.a.res, x.a.cur);
    }
  }

  lemma AliveTurns<I, L>(inp: Input<I, L>, x: CallState<I, L>, resB: Placement<I, L>, before: map<L, int>, c0: nat,
                         k: nat, loc: Option<L>)
    requires Ordered(inp) && Alive(inp, x, resB, before, c0, k) && |x.a.res[inp.order[x.i]]| < inp.min
    requires Drawable(ProblemAt(inp, x.pass, x.i), x.a, loc)
    ensures var p, y := ProblemAt(inp, x.pass, x.i), After(inp, x, loc);
      y == CameShort ||
      (&& y.Searching? && y.pass == x.pass && y.i == x.i && Smaller(p, y.a, x.a)
       && Alive(inp, y, resB, before, c0, OneMore(p, k, x.a)))
  {
    hide Stage, Priorities, Patient, AllFillable, Kept, NewItem, Filled, Drawable, Turn, Smaller, Distance, OneMore;
    var p, it := ProblemAt(inp, x.pass, x.i), inp.order[x.i];
    KeptByTurn(p, before, Entered(resB, it), c0, k, x.a, loc);
  }

  // No state of an endless call is alive: every step makes the measure of the search smaller.
  lemma {:induction false} AliveEnds<I(!new), L(!new)>(inp: Input<I, L>, f: nat -> CallState<I, L>, n: nat,
                                                       resB: Placement<I, L>, before: map<L, int>, c0: nat, k: nat)
    requires Ordered(inp) && forall m: nat :: Steps(inp, f(m), f(m + 1))
    requires f(n).Searching? && f(n).pass < 2 && f(n).i < |inp.order|
    ensures !Alive(inp, f(n), resB, before, c0, k)
    decreases 2 - f(n).pass, |inp.order| - f(n).i, Patience(f(n).a.prios), f(n).a.left,
              Unseen(inp.items, f(n).a.seen), Distance(ProblemAt(inp, f(n).pass, f(n).i), f(n).a)
  {
    hide Alive, Patience, Unseen, Distance, Drawable, After, Ordered, OneMore;
    if Alive(inp, f(n), resB, before, c0, k) {
      var x, y := f(n), f(n + 1);
      assert Steps(inp, x, y) && Steps(inp, y, f(n + 2));
      if |x.a.res[inp.order[x.i]]| >= inp.min {
        AliveAdvances(inp, x, resB, before, c0, k);
        AliveEnds(inp, f, n + 1, x.a.res, x.a.prios, x.a.cur, 0);
      } else {
        var loc :| Drawable(ProblemAt(inp, x.pass, x.i), x.a, loc) && y == After(inp, x, loc);
        AliveTurns(inp, x, resB, before, c0, k, loc);
        AliveEnds(inp, f, n + 1, resB, before, c0, OneMore(ProblemAt(inp, x.pass, x.i), k, x.a));
      }
    }
  }

  // ---------------------------------------------------------------- exactly when

  lemma BeginsAlive<I, L>(inp: Input<I, L>, prios: map<L, int>, c0: nat)
    requires Ordered(inp) && Counts(prios, inp.s, inp.dests) && inp.excl <= 0 && inp.order != []
    requires if inp.items == [] then c0 == 0 else c0 < |inp.items|
    requires Dealable(inp.s, inp.dests, inp.items) || AllFillable(inp.s, inp.dests, inp.items, inp.min, inp.excl)
    ensures Alive(inp, Begin(inp, prios, c0), map[], prios, c0, 0)
  {
    hide Listed, Counts, AllFillable, Dealable, Priorities, Patient, Stage, AllNew, NewStage, Alive;
    FirstStage(inp.s, inp.dests, inp.order, inp.min, inp.excl, prios, inp.items, c0);
    EntersAlive(inp, 0, 0, prios, map[], c0);
  }

  lemma BeginsDoomed<I, L>(inp: Input<I, L>, prios: map<L, int>, c0: nat) returns (l: L, b: nat)
    requires Ordered(inp) && Counts(prios, inp.s, inp.dests) && inp.excl <= 0
    requires if inp.items == [] then c0 == 0 else c0 < |inp.items|
    requires !Dealable(inp.s, inp.dests, inp.items) && !AllFillable(inp.s, inp.dests, inp.items, inp.min, inp.excl)
    ensures Doomed(inp, l, b, Begin(inp, prios, c0))
  {
    hide Fillable;
    var it;
    it, l :| it in inp.s && l in inp.s[it] && l in inp.dests && l !in inp.items;
    assert it in Holders(inp.s, l);
    var bad :| bad in inp.s && !Fillable(inp.s[bad], inp.dests, inp.items, inp.min, inp.excl);
    assert bad in inp.order;
    b :| 0 <= b < |inp.order| && inp.order[b] == bad;
  }

  /**
   Without exclusivity, whatever the order of the items, a call can go on for ever if and only if the sequence leaves
   out a destination in use, and some item cannot be filled from what it has and what the sequence deals.
   */
  lemma EndlessIff<I(!new), L(!new)>(inp: Input<I, L>, prios: map<L, int>, c0: nat)
    requires Ordered(inp) && Counts(prios, inp.s, inp.dests) && inp.excl <= 0
    requires if inp.items == [] then c0 == 0 else c0 < |inp.items|
    ensures (exists f: nat -> CallState<I, L> :: Endless(inp, f, Begin(inp, prios, c0))) <==>
            !Dealable(inp.s, inp.dests, inp.items) && !AllFillable(inp.s, inp.dests, inp.items, inp.min, inp.excl)
  {
    hide Ordered, Counts, Dealable, AllFillable, Alive, Doomed, Steps;
    var x := Begin(inp, prios, c0);
    if !Dealable(inp.s, inp.dests, inp.items) && !AllFillable(inp.s, inp.dests, inp.items, inp.min, inp.excl) {
      var l, b := BeginsDoomed(inp, prios, c0);
      var f := DoomedNeverEnds(inp, l, b, x);
    } else {
      forall f: nat -> CallState<I, L>
        ensures !Endless(inp, f, x)
      {
        if Endless(inp, f, x) {
          NeverEmpty(inp, f, x);
          BeginsAlive(inp, prios, c0);
          AliveEnds(inp, f, 0, map[], prios, c0, 0);
        }
      }
    }
  }

  // An endless call has something to do.
  lemma NeverEmpty<I(!new), L(!new)>(inp: Input<I, L>, f: nat -> CallState<I, L>, x: CallState<I, L>)
    requires Ordered(inp) && Endless(inp, f, x)
    ensures x == f(0) && x.Searching? && x.pass < 2 && x.i < |inp.order|
    ensures forall m: nat :: Steps(inp, f(m), f(m + 1))
  {
    assert Steps(inp, f(0), f(0 + 1));
  }
}
