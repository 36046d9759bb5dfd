/**
 The allocator of stripe/stripe.go: it tops up every item to `min` locations so that at least
 `excl` items end up with a set of locations shared by no other item.
 */
module Stripe {
  import opened Wrappers
  import opened RoundRobin

  // Go's S: the locations of every item.
  type Placement<!I, L> = map<I, set<L>>

  datatype Outcome<!I, L> = Placed(added: Placement<I, L>) | ErrShort

  /** The items whose set of locations is shared by no other item. */
  ghost function Exclusives<I, L>(s: Placement<I, L>): set<I> {
    set a | a in s && forall b :: b in s && b != a ==> s[b] != s[a]
  }

  // The items held at l.
  ghost function Holders<I, L>(s: Placement<I, L>, l: L): set<I> {
    set it | it in s && l in s[it]
  }

  method Equal<L(==)>(a: set<L>, b: set<L>) returns (eq: bool)
    ensures eq <==> a == b
  {
    if |a| != |b| {
      return false;
    }
    var todo := a;
    while todo != {}
      invariant todo <= a && a - todo <= b
      decreases |todo|
    {
      var l :| l in todo;
      if l !in b {
        return false;
      }
      todo := todo - {l};
    }
    SubsetOfSameSize(a, b);
    return true;
  }

  lemma {:induction false} SubsetOfSameSize<T>(a: set<T>, b: set<T>)
    requires a <= b
    ensures |a| <= |b|
    ensures |a| == |b| ==> a == b
  {
    assert b == a + (b - a);
    assert |b| == |a| + |b - a|;
  }

  /** stripe.go:116-130. */
  method CountExclusives<I(==), L(==)>(s: Placement<I, L>) returns (count: nat)
    ensures count == |Exclusives(s)|
  {
    count := 0;
    ghost var done: set<I> := {};
    var todo := s.Keys;
    while todo != {}
      invariant todo <= s.Keys && done == Exclusives(s) - todo && count == |done|
      decreases |todo|
    {
      var a :| a in todo;
      var excl := true;
      var others := s.Keys;
      while others != {}
        invariant others <= s.Keys
        invariant excl
        invariant forall b :: b in s.Keys - others && b != a ==> s[b] != s[a]
        decreases |others|
      {
        var b :| b in others;
        others := others - {b};
        if a != b {
          var eq := Equal(s[a], s[b]);
          if eq {
            excl := false;
            break;
          }
        }
      }
      if excl {
        count := count + 1;
        done := done + {a};
      }
      todo := todo - {a};
    }
  }

  // ---------------------------------------------------------------- priorities

  /** `prios` counts, for every destination in use, the items that use it. */
  ghost predicate Counts<I, L>(prios: map<L, int>, s: Placement<I, L>, dests: set<L>) {
    && prios.Keys == (set l | l in dests && Holders(s, l) != {})
    && (forall l :: l in prios ==> prios[l] == |Holders(s, l)|)
  }

  /** stripe.go:25-34: the items in some order, and how many of them use each destination. */
  method CountUses<I(==), L(==)>(s: Placement<I, L>, dests: set<L>) returns (items: seq<I>, prios: map<L, int>)
    ensures Listed(items, s)
    ensures Counts(prios, s, dests)
  {
    hide Counts, CountedOnce, Listed;
    items, prios := [], map[];
    var todo := s.Keys;
    ghost var seen: Placement<I, L> := map[];
    NothingCounted<I, L>(dests);
    while todo != {}
      invariant todo <= s.Keys && seen == s - todo
      invariant Listed(items, seen)
      invariant Counts(prios, seen, dests)
      decreases |todo|
    {
      var it :| it in todo;
      ghost var before := prios;
      prios := CountLocs(s[it], dests, prios);
      CountsOneMore(before, prios, seen, it, s[it], dests);
      ListedOneMore(items, seen, it, s[it]);
      items := items + [it];
      ShrinkTodo(s, todo, it);
      seen := seen[it := s[it]];
      todo := todo - {it};
    }
    assert seen == s;
  }

  lemma NothingCounted<I, L>(dests: set<L>)
    ensures Listed<I, L>([], map[]) && Counts<I, L>(map[], map[], dests)
  {
    forall l
      ensures Holders<I, L>(map[], l) == {}
    {
    }
  }

  lemma ShrinkTodo<I, L>(s: Placement<I, L>, todo: set<I>, it: I)
    requires it in todo && it in s
    ensures (s - todo)[it := s[it]] == s - (todo - {it})
  {
    var a, b := (s - todo)[it := s[it]], s - (todo - {it});
    assert a.Keys == b.Keys;
  }

  // `items` lists the keys of s, each once.
  ghost predicate Listed<I, L>(older items: seq<I>, s: Placement<I, L>) {
    && Distinct(items) && (set it | it in items) == s.Keys && |items| == |s|
    && forall i :: 0 <= i < |items| ==> items[i] in s
  }

  lemma ListedOneMore<I, L>(items: seq<I>, s: Placement<I, L>, it: I, got: set<L>)
    requires Listed(items, s) && it !in s
    ensures Listed(items + [it], s[it := got])
  {
    assert (set x | x in items + [it]) == (set x | x in items) + {it};
    assert s[it := got].Keys == s.Keys + {it};
  }

  /** stripe.go:28-33: one item's locations. */
  method CountLocs<L(==)>(got: set<L>, dests: set<L>, before: map<L, int>) returns (prios: map<L, int>)
    ensures CountedOnce(got, dests, before, prios)
  {
    prios := before;
    var locs := got;
    while locs != {}
      invariant locs <= got
      invariant CountedOnce(got - locs, dests, before, prios)
      decreases |locs|
    {
      var l :| l in locs;
      locs := locs - {l};
      if l !in dests {
        continue;
      }
      prios := prios[l := (if l in prios then prios[l] else 0) + 1];
    }
  }

  ghost predicate CountedOnce<L>(got: set<L>, dests: set<L>, before: map<L, int>, prios: map<L, int>) {
    && prios.Keys == before.Keys + got * dests
    && (forall l :: l in prios ==>
          prios[l] == (if l in before then before[l] else 0) + (if l in got && l in dests then 1 else 0))
  }

  lemma HoldersOneMore<I, L>(s: Placement<I, L>, it: I, got: set<L>, l: L)
    requires it !in s
    ensures Holders(s[it := got], l) == Holders(s, l) + (if l in got then {it} else {})
    ensures |Holders(s[it := got], l)| == |Holders(s, l)| + (if l in got then 1 else 0)
  {
    assert Holders(s[it := got], l) == Holders(s, l) + (if l in got then {it} else {});
  }

  lemma CountsOneMore<I, L>(before: map<L, int>, prios: map<L, int>, s: Placement<I, L>, it: I, got: set<L>,
                            dests: set<L>)
    requires it !in s && Counts(before, s, dests) && CountedOnce(got, dests, before, prios)
    ensures Counts(prios, s[it := got], dests)
  {
    var s' := s[it := got];
    forall l | l in dests
      ensures l in prios <==> Holders(s', l) != {}
      ensures l in prios ==> prios[l] == |Holders(s', l)|
    {
      HoldersOneMore(s, it, got, l);
    }
  }

  // ---------------------------------------------------------------- one item's search

  /** What stays fixed while one item is topped up. */
  datatype Problem<!I, L> = Problem(it: I, got: set<L>, dests: set<L>, items: seq<L>, min: int, excl: int, pass: nat)

  /** What the search for one item reads and writes. */
  datatype Search<!I, L> =
    Search(left: set<L>, seen: set<Option<L>>, prios: map<L, int>, res: Placement<I, L>, cur: nat)

  datatype Verdict = Again | Stop | Short

  /** At least min(excl, number of items) items keep a set of locations of their own. */
  ghost predicate Spread<I, L>(res: Placement<I, L>, excl: int) {
    |Exclusives(res)| >= Min(excl, |res|)
  }

  ghost predicate Drawable<I, L>(p: Problem<I, L>, a: Search<I, L>, loc: Option<L>) {
    if a.left != {} then loc.Some? && loc.value in a.left
    else if p.items == [] then loc == None
    else a.cur < |p.items| && loc == Some(p.items[a.cur])
  }

  /** One turn of the loop of stripe.go:69-104, given the location it draws. */
  ghost function Turn<I, L>(p: Problem<I, L>, a: Search<I, L>, loc: Option<L>): (Search<I, L>, Verdict)
    requires Drawable(p, a, loc) && p.it in a.res
  {
    if a.left != {} then
      Consider(p, a.(left := a.left - {loc.value}), loc.value)
    else
      var b := a.(cur := if p.items == [] then a.cur else Succ(a.cur, |p.items|));
      if loc in a.seen then
        (b.(prios := Without(a.prios, loc)), if Without(a.prios, loc) == map[] then Short else Again)
      else if loc == None then
        (b.(seen := a.seen + {None}), Again)
      else
        var l := loc.value;
        if l !in p.got && l in a.prios && a.prios[l] > 0 then
          (b.(prios := a.prios[l := a.prios[l] - 1]), Again)
        else
          Consider(p, b.(seen := a.seen + {loc}, prios := if l in p.got then a.prios else a.prios - {l}), l)
  }

  /** Take l unless it is no use or leaves too few items exclusive. */
  ghost function Consider<I, L>(p: Problem<I, L>, a: Search<I, L>, l: L): (Search<I, L>, Verdict)
    requires p.it in a.res
  {
    if l in a.res[p.it] || l !in p.dests then
      (a, Again)
    else
      var res := a.res[p.it := a.res[p.it] + {l}];
      if Spread(res, p.excl) then (a.(res := res), Again)
      else (a, if p.pass == 0 then Stop else Again)
  }

  // Go's delete(prios, drawn); a nil is never a key of prios.
  function Without<L>(prios: map<L, int>, drawn: Option<L>): map<L, int> {
    if drawn.Some? then prios - {drawn.value} else prios
  }

  // Everything the sequence can yield that has not been seen.
  ghost function Unseen<L>(items: seq<L>, seen: set<Option<L>>): set<Option<L>> {
    (if items == [] then {None} else set x | x in items :: Some(x)) - seen
  }

  // The locations a draw can still turn into progress.
  ghost function Hot<L>(items: seq<L>, seen: set<Option<L>>, prios: map<L, int>): set<L> {
    (set x | x in items && Some(x) !in seen) + prios.Keys
  }

  // A finite set that shrinks whenever a priority decays or is dropped.
  ghost function Patience<L>(prios: map<L, int>): set<(L, int)> {
    set l, j | l in prios.Keys && 0 <= j <= prios[l] :: (l, j)
  }

  lemma PatienceShrinks<L>(prios: map<L, int>, l: L)
    requires l in prios && prios[l] >= 0
    ensures Patience(prios - {l}) < Patience(prios)
    ensures prios[l] > 0 ==> Patience(prios[l := prios[l] - 1]) < Patience(prios)
  {
    assert (l, prios[l]) in Patience(prios);
    assert (l, prios[l]) !in Patience(prios - {l});
    if prios[l] > 0 {
      assert (l, prios[l]) !in Patience(prios[l := prios[l] - 1]);
    }
  }

  /** Drawing a seen location again drops its priority or brings a hot location nearer. */
  lemma SeenAgain<L>(items: seq<L>, cur: nat, seen: set<Option<L>>, prios: map<L, int>)
    requires cur < |items| && Some(items[cur]) in seen && Patient(prios)
    requires (Priorities(prios, items) && prios - {items[cur]} != map[]) || exists x :: x in items && Some(x) !in seen
    ensures items[cur] in prios ==> Patience(prios - {items[cur]}) < Patience(prios)
    ensures items[cur] !in prios ==>
        && prios - {items[cur]} == prios
        && Gap(From(items, Succ(cur, |items|)), Hot(items, seen, prios)) <
           Gap(From(items, cur), Hot(items, seen, prios))
  {
    if items[cur] in prios {
      PatienceShrinks(prios, items[cur]);
    } else {
      assert prios - {items[cur]} == prios;
      assert exists x :: x in items && x in Hot(items, seen, prios) by {
        if exists x :: x in items && Some(x) !in seen {
          var x :| x in items && Some(x) !in seen;
          assert x in Hot(items, seen, prios);
        } else {
          var l :| l in prios;
          assert l in items && l in Hot(items, seen, prios);
        }
      }
      ColdStepApproaches(items, cur, Hot(items, seen, prios));
    }
  }

  // The sequence deals every destination that has a priority.
  ghost predicate Priorities<L>(prios: map<L, int>, items: seq<L>) {
    forall l :: l in prios ==> l in items
  }

  ghost predicate Patient<L>(prios: map<L, int>) {
    forall l :: l in prios ==> prios[l] >= 0
  }

  /** stripe.go:48-63: an existing location first, then the shared sequence; None is Go's nil. */
  method NextLoc<L(==)>(rr: RR<L>, left: set<L>, seen: set<Option<L>>, prios: map<L, int>)
    returns (loc: Option<L>, short: bool, left': set<L>, seen': set<Option<L>>, prios': map<L, int>,
             ghost drawn: Option<L>)
    requires rr.Valid()
    modifies rr
    ensures rr.Valid()
    ensures left != {} ==>
        && !short && loc == drawn && drawn.Some? && drawn.value in left && left' == left - {drawn.value}
        && seen' == seen && prios' == prios && rr.cur == old(rr.cur)
    ensures left == {} ==>
        && left' == {}
        && drawn == (if rr.items == [] then None else Some(rr.items[old(rr.cur)]))
        && rr.cur == (if rr.items == [] then old(rr.cur) else Succ(old(rr.cur), |rr.items|))
        && (drawn in seen ==>
              && loc == None && seen' == seen && prios' == Without(prios, drawn)
              && (short <==> prios' == map[]))
        && (drawn !in seen ==> loc == drawn && seen' == seen + {drawn} && prios' == prios && !short)
  {
    left', seen', prios', short := left, seen, prios, false;
    if left != {} {
      var l :| l in left;
      left' := left - {l};
      loc, drawn := Some(l), Some(l);
      return;
    }
    var next := rr.Next();
    drawn := next;
    if next in seen {
      prios' := Without(prios, next);
      loc, short := None, |prios'| == 0;
    } else {
      seen' := seen + {next};
      loc := next;
    }
  }

  /** stripe.go:93-99: add tentatively, and undo when too few items stay exclusive. */
  method TryAdd<I(==), L(==)>(it: I, l: L, res: Placement<I, L>, excl: int)
    returns (kept: bool, res': Placement<I, L>)
    requires it in res && l !in res[it]
    ensures kept <==> Spread(res[it := res[it] + {l}], excl)
    ensures res' == if kept then res[it := res[it] + {l}] else res
  {
    var nexcl := excl;
    if nexcl > |res| {
      nexcl := |res|;
    }
    res' := res[it := res[it] + {l}];
    assert |res'| == |res| by {
      assert res'.Keys == res.Keys;
    }
    var exclusives := CountExclusives(res');
    kept := true;
    if exclusives < nexcl {
      kept := false;
      res' := res'[it := res'[it] - {l}];
      assert res'[it] == res[it];
    }
  }

  /** stripe.go:70-103: the body of the loop. */
  method TakeTurn<I(==), L(==)>(ghost p: Problem<I, L>, it: I, got: set<L>, dests: set<L>, rr: RR<L>, excl: int,
                                pass: nat, left: set<L>, seen: set<Option<L>>, prios: map<L, int>, res: Placement<I, L>)
    returns (v: Verdict, left': set<L>, seen': set<Option<L>>, prios': map<L, int>, res': Placement<I, L>,
             ghost drawn: Option<L>)
    requires rr.Valid() && it in res && left <= got
    requires p == Problem(it, got, dests, rr.items, p.min, excl, pass)
    modifies rr
    ensures rr.Valid()
    ensures Drawable(p, Search(left, seen, prios, res, old(rr.cur)), drawn)
    ensures (Search(left', seen', prios', res', rr.cur), v) ==
            Turn(p, Search(left, seen, prios, res, old(rr.cur)), drawn)
  {
    res', v := res, Again;
    var loc, short;
    loc, short, left', seen', prios', drawn := NextLoc(rr, left, seen, prios);
    if short {
      v := Short;
      return;
    }
    if loc == None {
      return;
    }
    var l := loc.value;
    if l !in got {
      if l in prios' {
        if prios'[l] > 0 {
          prios' := prios'[l := prios'[l] - 1];
          seen' := seen' - {loc};
          assert seen' == seen;
          return;
        }
        prios' := prios' - {l};
      }
      assert prios' == prios - {l};
    }
    if l in res[it] {
      return;
    }
    if l !in dests {
      return;
    }
    var kept;
    kept, res' := TryAdd(it, l, res, excl);
    if !kept && pass == 0 {
      v := Stop;
    }
  }

  // ---------------------------------------------------------------- what every turn keeps

  /** The copies an item has are enough, and none of them will be refused. */
  ghost predicate Stocked<L>(got: set<L>, dests: set<L>, min: int, excl: int) {
    min <= 0 || (excl <= 0 && |got * dests| >= min)
  }

  /** What an item has and what the sequence deals is enough for it, and nothing of it will be refused. */
  ghost predicate Fillable<L>(got: set<L>, dests: set<L>, items: seq<L>, min: int, excl: int) {
    min <= 0 || (excl <= 0 && |(got + Elems(items)) * dests| >= min)
  }

  lemma StockedIsFillable<L>(got: set<L>, dests: set<L>, items: seq<L>, min: int, excl: int)
    requires Stocked(got, dests, min, excl)
    ensures Fillable(got, dests, items, min, excl)
  {
    SubsetOfSameSize(got * dests, (got + Elems(items)) * dests);
  }

  /** The copies an item has are enough, and enough items stay exclusive whichever of them are taken. */
  ghost predicate OwnFits<I, L>(p: Problem<I, L>, res0: Placement<I, L>) {
    && p.min >= 1 && p.it in res0 && res0[p.it] == {} && |p.got * p.dests| >= p.min
    && forall r :: r <= p.got * p.dests && r != {} ==> Spread(res0[p.it := r], p.excl)
  }

  // What lets a search end.
  ghost predicate Ends<I, L>(p: Problem<I, L>, res0: Placement<I, L>, prios: map<L, int>) {
    || Priorities(prios, p.items) || Fillable(p.got, p.dests, p.items, p.min, p.excl) || OwnFits(p, res0)
    || (p.it in res0 && |res0[p.it]| >= p.min)
  }

  ghost predicate Sane<I, L>(p: Problem<I, L>, res0: Placement<I, L>, a: Search<I, L>) {
    && a.left <= p.got && Patient(a.prios) && Ends(p, res0, a.prios)
    && (if p.items == [] then a.cur == 0 else a.cur < |p.items|)
    && p.it in res0 && a.res.Keys == res0.Keys
    && (forall x :: x in a.res && x != p.it ==> a.res[x] == res0[x])
    && a.res[p.it] <= p.dests && |a.res[p.it]| <= Max(p.min, 0)
    && a.res[p.it] <= res0[p.it] + p.got + Elems(p.items)
    && (a.res == res0 || Spread(a.res, p.excl))
  }

  lemma ConsiderStaysSane<I, L>(p: Problem<I, L>, res0: Placement<I, L>, a: Search<I, L>, l: L)
    requires Sane(p, res0, a) && |a.res[p.it]| < p.min && (l in p.got || l in p.items)
    ensures Sane(p, res0, Consider(p, a, l).0)
    ensures Consider(p, a, l).1 == Stop ==> p.pass == 0 && p.excl > 0
    ensures Consider(p, a, l).1 != Short
  {
  }

  lemma TurnStaysSane<I, L>(p: Problem<I, L>, res0: Placement<I, L>, a: Search<I, L>, loc: Option<L>)
    requires Sane(p, res0, a) && Drawable(p, a, loc) && |a.res[p.it]| < p.min
    ensures Sane(p, res0, Turn(p, a, loc).0)
    ensures Priorities(a.prios, p.items) ==> Priorities(Turn(p, a, loc).0.prios, p.items)
    ensures Turn(p, a, loc).1 == Stop ==> p.pass == 0 && p.excl > 0
  {
    hide OwnFits, Fillable, Spread;
    if a.left != {} {
      ConsiderStaysSane(p, res0, a.(left := a.left - {loc.value}), loc.value);
    } else if loc !in a.seen && loc.Some? {
      var l := loc.value;
      if l in p.got || l !in a.prios || a.prios[l] <= 0 {
        var b := a.(cur := Succ(a.cur, |p.items|), seen := a.seen + {loc},
                    prios := if l in p.got then a.prios else a.prios - {l});
        ConsiderStaysSane(p, res0, b, l);
      }
    }
  }

  ghost predicate Smaller<I, L>(p: Problem<I, L>, b: Search<I, L>, a: Search<I, L>) {
    || Patience(b.prios) < Patience(a.prios)
    || (b.prios == a.prios &&
        (|| b.left < a.left
         || (b.left == a.left &&
             (|| Unseen(p.items, b.seen) < Unseen(p.items, a.seen)
              || (Unseen(p.items, b.seen) == Unseen(p.items, a.seen) && Distance(p, b) < Distance(p, a))))))
  }

  /** The termination measure: every turn that goes on makes it lexicographically smaller. */
  lemma TurnProgresses<I, L>(p: Problem<I, L>, res0: Placement<I, L>, a: Search<I, L>, loc: Option<L>)
    requires Sane(p, res0, a) && Drawable(p, a, loc) && Turn(p, a, loc).1 == Again
    requires a.left != {} || Priorities(a.prios, p.items) || exists x :: x in p.items && Some(x) !in a.seen
    ensures Smaller(p, Turn(p, a, loc).0, a)
  {
    var b := Turn(p, a, loc).0;
    if a.left == {} {
      if loc in a.seen {
        if loc.Some? {
          SeenAgain(p.items, a.cur, a.seen, a.prios);
        }
      } else {
        assert loc in Unseen(p.items, a.seen);
        if loc.Some? && loc.value !in p.got {
          if loc.value in a.prios {
            PatienceShrinks(a.prios, loc.value);
          } else {
            assert a.prios - {loc.value} == a.prios;
          }
        }
      }
    }
  }

  ghost function Distance<I, L>(p: Problem<I, L>, a: Search<I, L>): nat {
    if p.items == [] || a.cur >= |p.items| then 0
    else Gap(From(p.items, a.cur), Hot(p.items, a.seen, a.prios))
  }

  // ---------------------------------------------------------------- without exclusivity (excl <= 0)

  // No addition is ever undone.
  lemma NothingIsUndone<I, L>(res: Placement<I, L>, excl: int)
    requires excl <= 0
    ensures Spread(res, excl)
  {
  }

  /** Existing destinations are used up before the sequence is asked. */
  ghost predicate Reuses<I, L>(p: Problem<I, L>, a: Search<I, L>) {
    && p.it in a.res
    && (a.left == {} || a.res[p.it] <= p.got)
    && (forall l :: l in p.got && l !in a.left && l in p.dests ==> l in a.res[p.it])
  }

  // With enough copies there is one left to take, until the search is over.
  lemma StockedHasLeft<I, L>(p: Problem<I, L>, res0: Placement<I, L>, a: Search<I, L>)
    requires Sane(p, res0, a) && Stocked(p.got, p.dests, p.min, p.excl) && |a.res[p.it]| < p.min
    requires Reuses(p, a)
    ensures a.left != {}
  {
    if a.left == {} {
      SubsetOfSameSize(p.got * p.dests, a.res[p.it]);
    }
  }

  lemma TurnReuses<I, L>(p: Problem<I, L>, res0: Placement<I, L>, a: Search<I, L>, loc: Option<L>)
    requires Sane(p, res0, a) && Drawable(p, a, loc) && p.excl <= 0 && Reuses(p, a)
    ensures Reuses(p, Turn(p, a, loc).0)
  {
    if loc.Some? {
      NothingIsUndone(a.res[p.it := a.res[p.it] + {loc.value}], p.excl);
    }
  }

  /** The exact number of locations a top-up adds. */
  lemma ReuseShortfall<I, L>(p: Problem<I, L>, res0: Placement<I, L>, a: Search<I, L>)
    requires Sane(p, res0, a) && Reuses(p, a) && |a.res[p.it]| == Max(p.min, 0)
    ensures |a.res[p.it] - p.got| == Max(0, p.min - |p.got * p.dests|)
  {
    var locs, mine := a.res[p.it], p.got * p.dests;
    if a.left == {} {
      assert mine <= locs;
      assert locs - p.got == locs - mine;
      assert locs == (locs - mine) + mine;
    } else {
      assert locs - p.got == {};
      SubsetOfSameSize(locs, mine);
    }
  }

  /** With what the item has, or had before, taking l leaves too few items exclusive. */
  ghost predicate Refused<I, L>(res: Placement<I, L>, it: I, l: L, excl: int) {
    it in res && exists r :: r <= res[it] && !Spread(res[it := r + {l}], excl)
  }

  // The search has only added to the item.
  ghost predicate Grows<I, L>(it: I, res: Placement<I, L>, res': Placement<I, L>) {
    && it in res && res'.Keys == res.Keys && res[it] <= res'[it]
    && forall x :: x in res && x != it ==> res'[x] == res[x]
  }

  lemma RefusedStays<I, L>(it: I, res: Placement<I, L>, res': Placement<I, L>, l: L, excl: int)
    requires Grows(it, res, res') && Refused(res, it, l, excl)
    ensures Refused(res', it, l, excl)
  {
    hide Spread;
    var r :| r <= res[it] && !Spread(res[it := r + {l}], excl);
    assert res[it := r + {l}] == res'[it := r + {l}];
  }

  lemma NeverRefused<I, L>(res: Placement<I, L>, it: I, l: L, excl: int)
    requires excl <= 0
    ensures !Refused(res, it, l, excl)
  {
  }

  /** The first k locations dealt from c0 have been visited: each was tried, or still waits for its priority. */
  ghost predicate Visited<I, L>(p: Problem<I, L>, c0: nat, k: nat, a: Search<I, L>) {
    && p.it in a.res && c0 <= |p.items| && k <= |p.items|
    && (p.items == [] ==> k == 0)
    && (k < |p.items| ==> a.cur == if c0 + k < |p.items| then c0 + k else c0 + k - |p.items|)
    && (forall x :: x in a.seen && x.Some? ==>
          x.value in From(p.items, c0)[..k]
          && (x.value in p.dests ==> x.value in a.res[p.it] || Refused(a.res, p.it, x.value, p.excl)))
    && (forall j :: 0 <= j < k ==> Some(From(p.items, c0)[j]) in a.seen || From(p.items, c0)[j] in a.prios)
  }

  ghost function OneMore<I, L>(p: Problem<I, L>, k: nat, a: Search<I, L>): nat {
    if a.left == {} && k < |p.items| then k + 1 else k
  }

  // A draw of x from the sequence, whatever becomes of x.
  ghost predicate Tried<I, L>(p: Problem<I, L>, a: Search<I, L>, b: Search<I, L>) {
    && p.it in a.res && p.it in b.res && a.cur < |p.items|
    && var x := p.items[a.cur];
    && b.cur == Succ(a.cur, |p.items|)
    && a.seen <= b.seen <= a.seen + {Some(x)}
    && Grows(p.it, a.res, b.res)
    && (Some(x) in b.seen && x in p.dests && Some(x) !in a.seen ==>
          x in b.res[p.it] || Refused(b.res, p.it, x, p.excl))
    && (Some(x) in b.seen || x in b.prios)
    && (forall y :: y in a.prios && y != x ==> y in b.prios)
  }

  lemma TurnTries<I, L>(p: Problem<I, L>, res0: Placement<I, L>, a: Search<I, L>, loc: Option<L>)
    requires Sane(p, res0, a) && Drawable(p, a, loc) && a.left == {} && p.items != []
    ensures Tried(p, a, Turn(p, a, loc).0)
  {
    hide Spread, Ends;
    TurnGrows(p, a, loc);
    var l := loc.value;
    if !Spread(a.res[p.it := a.res[p.it] + {l}], p.excl) {
      assert Refused(a.res, p.it, l, p.excl);
    }
  }

  lemma TurnGrows<I, L>(p: Problem<I, L>, a: Search<I, L>, loc: Option<L>)
    requires Drawable(p, a, loc) && p.it in a.res
    ensures Grows(p.it, a.res, Turn(p, a, loc).0.res)
  {
    hide Spread;
  }

  // What the next draw is, in the order of the turn.
  lemma DrawnFrom<I, L>(p: Problem<I, L>, c0: nat, k: nat, a: Search<I, L>)
    requires Visited(p, c0, k, a) && a.cur < |p.items|
    ensures var turn := From(p.items, c0);
      && |turn| == |p.items| && k <= |turn|
      && (k < |turn| ==> p.items[a.cur] == turn[k] && turn[..k + 1] == turn[..k] + [turn[k]])
      && (k == |turn| ==> turn[..k] == turn && p.items[a.cur] in turn)
  {
    if k == |p.items| {
      DealsAll(p.items, c0, a.cur);
    }
  }

  lemma VisitOneMore<I, L>(p: Problem<I, L>, c0: nat, k: nat, a: Search<I, L>, b: Search<I, L>)
    requires Visited(p, c0, k, a) && Tried(p, a, b)
    ensures Visited(p, c0, if k < |p.items| then k + 1 else k, b)
  {
    hide From, Refused;
    var turn, x, n := From(p.items, c0), p.items[a.cur], if k < |p.items| then k + 1 else k;
    DrawnFrom(p, c0, k, a);
    forall y | y in b.seen && y.Some?
      ensures y.value in turn[..n]
      ensures y.value in p.dests ==> y.value in b.res[p.it] || Refused(b.res, p.it, y.value, p.excl)
    {
      assert y in a.seen || y == Some(x);
      if y in a.seen && Refused(a.res, p.it, y.value, p.excl) {
        RefusedStays(p.it, a.res, b.res, y.value, p.excl);
      }
    }
    forall j | 0 <= j < n
      ensures Some(turn[j]) in b.seen || turn[j] in b.prios
    {
      assert j < k ==> Some(turn[j]) in a.seen || turn[j] in a.prios;
    }
  }

  lemma TurnVisits<I, L>(p: Problem<I, L>, res0: Placement<I, L>, c0: nat, k: nat, a: Search<I, L>, loc: Option<L>)
    requires Sane(p, res0, a) && Drawable(p, a, loc) && Visited(p, c0, k, a)
    ensures Visited(p, c0, OneMore(p, k, a), Turn(p, a, loc).0)
  {
    if a.left == {} {
      if p.items != [] {
        TurnTries(p, res0, a, loc);
        VisitOneMore(p, c0, k, a, Turn(p, a, loc).0);
      } else {
        hide Spread, Refused, Ends;
      }
    } else {
      TakesLeft(p, a, loc);
      VisitedStays(p, c0, k, a, Turn(p, a, loc).0);
    }
  }

  // An existing location changes neither the sequence nor what was seen of it.
  lemma TakesLeft<I, L>(p: Problem<I, L>, a: Search<I, L>, loc: Option<L>)
    requires Drawable(p, a, loc) && p.it in a.res && a.left != {}
    ensures var b := Turn(p, a, loc).0;
      && Grows(p.it, a.res, b.res) && b.seen == a.seen && b.cur == a.cur && b.prios == a.prios
      && b.left == a.left - {loc.value}
  {
    hide Spread;
  }

  lemma VisitedStays<I, L>(p: Problem<I, L>, c0: nat, k: nat, a: Search<I, L>, b: Search<I, L>)
    requires Visited(p, c0, k, a) && Grows(p.it, a.res, b.res)
    requires b.seen == a.seen && b.cur == a.cur && b.prios == a.prios
    ensures Visited(p, c0, k, b)
  {
    hide From, Refused;
    forall y | y in b.seen && y.Some? && y.value in p.dests
      ensures y.value in b.res[p.it] || Refused(b.res, p.it, y.value, p.excl)
    {
      if Refused(a.res, p.it, y.value, p.excl) {
        RefusedStays(p.it, a.res, b.res, y.value, p.excl);
      }
    }
  }

  // Until an item is given up, or without exclusivity, what was seen of the destinations was taken.
  ghost predicate Held<I, L>(p: Problem<I, L>, a: Search<I, L>) {
    p.it in a.res && forall x :: x in a.seen && x.Some? && x.value in p.dests ==> x.value in a.res[p.it]
  }

  lemma TurnHolds<I, L>(p: Problem<I, L>, a: Search<I, L>, loc: Option<L>)
    requires Drawable(p, a, loc) && Held(p, a) && Turn(p, a, loc).1 == Again && (p.pass == 0 || p.excl <= 0)
    ensures Held(p, Turn(p, a, loc).0)
  {
    hide Spread;
    if loc.Some? && p.excl <= 0 {
      NothingIsUndone(a.res[p.it := a.res[p.it] + {loc.value}], p.excl);
    }
  }

  // Without exclusivity nothing is refused.
  lemma VisitedIsHeld<I, L>(p: Problem<I, L>, c0: nat, k: nat, a: Search<I, L>)
    requires Visited(p, c0, k, a) && p.excl <= 0
    ensures Held(p, a)
  {
    hide Refused;
    forall x | x in a.seen && x.Some? && x.value in p.dests
      ensures x.value in a.res[p.it]
    {
      NeverRefused(a.res, p.it, x.value, p.excl);
    }
  }

  lemma DealsAll<L>(items: seq<L>, c0: nat, i: nat)
    requires c0 <= |items| && i < |items|
    ensures items[i] in From(items, c0)
  {
    assert From(items, c0)[if i >= c0 then i - c0 else |items| - c0 + i] == items[i];
  }

  lemma NotYetSeen<I, L>(p: Problem<I, L>, c0: nat, k: nat, a: Search<I, L>)
    requires Distinct(p.items) && Visited(p, c0, k, a) && k < |p.items|
    ensures a.cur < |p.items| && Some(p.items[a.cur]) !in a.seen
  {
    var turn := From(p.items, c0);
    DistinctFrom(p.items, c0);
    assert p.items[a.cur] == turn[k];
    assert turn[k] !in turn[..k];
  }

  // Only a draw seen before, with no other priority left, ends a search.
  lemma ShortIsSeen<I, L>(p: Problem<I, L>, a: Search<I, L>, loc: Option<L>)
    requires Drawable(p, a, loc) && p.it in a.res && Turn(p, a, loc).1 == Short
    ensures a.left == {} && loc in a.seen && Without(a.prios, loc) == map[]
  {
    hide Spread;
  }

  /** A search that comes up short has seen every destination: the item holds it, or it was refused. */
  lemma ShortTriedAll<I, L>(p: Problem<I, L>, c0: nat, k: nat, a: Search<I, L>, loc: Option<L>)
    requires Drawable(p, a, loc) && p.it in a.res && Turn(p, a, loc).1 == Short
    requires Distinct(p.items) && Visited(p, c0, k, a)
    ensures Blocked(p.dests * Elems(p.items), p.excl, p.it, a.res)
    ensures Held(p, a) && p.dests <= Elems(p.items) ==> |p.dests| <= |a.res[p.it]|
  {
    hide Turn, Distinct, Spread, From, Refused;
    ShortIsSeen(p, a, loc);
    forall l | l in p.dests * Elems(p.items)
      ensures Some(l) in a.seen
    {
      if k < |p.items| {
        NotYetSeen(p, c0, k, a);
      }
      TriedAtLast(p, c0, k, a, loc.value, l);
    }
    if Held(p, a) && p.dests <= Elems(p.items) {
      assert forall l :: l in p.dests ==> Some(l) in a.seen;
      SubsetOfSameSize(p.dests, a.res[p.it]);
    }
  }

  /** None of these destinations is left for the item: it holds them all but those refused. */
  ghost predicate Blocked<I, L>(dests: set<L>, excl: int, it: I, res: Placement<I, L>) {
    it in res && forall l :: l in dests ==> l in res[it] || Refused(res, it, l, excl)
  }

  // Without a priority left, a whole turn has tried l.
  lemma TriedAtLast<I, L>(p: Problem<I, L>, c0: nat, k: nat, a: Search<I, L>, drawn: L, l: L)
    requires Visited(p, c0, k, a) && k == |p.items| && Some(drawn) in a.seen && a.prios - {drawn} == map[]
    requires l in p.items
    ensures Some(l) in a.seen
  {
    hide Refused;
    var i :| 0 <= i < |p.items| && p.items[i] == l;
    DealsAll(p.items, c0, i);
    var j :| 0 <= j < |p.items| && From(p.items, c0)[j] == l;
    assert l in a.prios ==> l == drawn || l in a.prios - {drawn};
  }

  // While an item that can be filled is not full, the sequence has something for it that was not drawn yet.
  lemma FillableHasUnseen<I, L>(p: Problem<I, L>, c0: nat, k: nat, a: Search<I, L>)
    requires Fillable(p.got, p.dests, p.items, p.min, p.excl) && Reuses(p, a) && Visited(p, c0, k, a)
    requires a.left == {} && |a.res[p.it]| < p.min
    ensures exists x :: x in p.items && Some(x) !in a.seen
  {
    VisitedIsHeld(p, c0, k, a);
    hide Visited;
    if forall x :: x in p.items ==> Some(x) in a.seen {
      forall l | l in (p.got + Elems(p.items)) * p.dests
        ensures l in a.res[p.it]
      {
        assert l in p.items ==> Some(l) in a.seen;
      }
      SubsetOfSameSize((p.got + Elems(p.items)) * p.dests, a.res[p.it]);
    }
  }

  /** The search for an item that can be filled never comes up short. */
  lemma FillableIsNeverShort<I, L>(p: Problem<I, L>, c0: nat, k: nat, a: Search<I, L>, loc: Option<L>)
    requires Fillable(p.got, p.dests, p.items, p.min, p.excl) && Reuses(p, a) && Visited(p, c0, k, a)
    requires Distinct(p.items) && Drawable(p, a, loc) && |a.res[p.it]| < p.min
    ensures Turn(p, a, loc).1 != Short
  {
    hide Turn, Distinct, Spread, From, Fillable, Reuses;
    if Turn(p, a, loc).1 == Short {
      ShortIsSeen(p, a, loc);
      FillableHasUnseen(p, c0, k, a);
      if k < |p.items| {
        NotYetSeen(p, c0, k, a);
      }
      var x :| x in p.items && Some(x) !in a.seen;
      Awaited(p, c0, k, a, loc.value, x);
    }
  }

  // After a whole turn, what was not tried waits for its priority.
  lemma Awaited<I, L>(p: Problem<I, L>, c0: nat, k: nat, a: Search<I, L>, drawn: L, x: L)
    requires Visited(p, c0, k, a) && k == |p.items| && Some(drawn) in a.seen
    requires x in p.items && Some(x) !in a.seen
    ensures a.prios - {drawn} != map[]
  {
    var i :| 0 <= i < |p.items| && p.items[i] == x;
    DealsAll(p.items, c0, i);
    var j :| 0 <= j < |p.items| && From(p.items, c0)[j] == x;
    assert x in a.prios - {drawn};
  }

  lemma DistinctFrom<L>(items: seq<L>, c: nat)
    requires Distinct(items) && c <= |items|
    ensures Distinct(From(items, c))
  {
  }

  // The first k locations dealt from c0 on.
  ghost function Hand<L>(items: seq<L>, c0: nat, k: nat): set<L>
    requires c0 <= |items| && k <= |items|
  {
    Elems(From(items, c0)[..k])
  }

  // How many draws from the front of `turn` it takes to come by m of `dests`.
  ghost function DrawsFor<L>(turn: seq<L>, dests: set<L>, m: int): (k: nat)
    ensures k <= |turn|
  {
    if m <= 0 || turn == [] then 0 else 1 + DrawsFor(turn[1..], dests, if turn[0] in dests then m - 1 else m)
  }

  /** The draws of a fresh item from position c on, what it gets of them, and where the cursor is afterwards. */
  ghost function Length<L>(items: seq<L>, dests: set<L>, c: nat, min: int): (k: nat)
    requires c <= |items|
    ensures k <= |items|
  {
    DrawsFor(From(items, c), dests, min)
  }

  ghost function Portion<L>(items: seq<L>, dests: set<L>, c: nat, min: int): set<L>
    requires c <= |items|
  {
    Hand(items, c, Length(items, dests, c, min)) * dests
  }

  ghost function Moved<L>(items: seq<L>, dests: set<L>, c: nat, min: int): (c': nat)
    requires c < |items|
    ensures c' < |items|
  {
    Spin(c, Length(items, dests, c, min), |items|)
  }

  lemma {:induction false} DrawsAre<L>(turn: seq<L>, dests: set<L>, m: int, k: nat)
    requires Distinct(turn) && k <= |turn| && |Elems(turn[..k]) * dests| == Max(m, 0)
    requires k > 0 ==> turn[k - 1] in dests
    ensures DrawsFor(turn, dests, m) == k
    decreases k
  {
    hide Elems;
    if k == 0 {
      NothingDrawn(turn, dests);
    } else {
      LastIsDrawn(turn, dests, k);
      FirstDraw(turn, dests, k);
      var rest := turn[1..];
      assert Distinct(rest);
      assert k > 1 ==> rest[k - 2] == turn[k - 1];
      if k == 1 {
        NothingDrawn(rest, dests);
      }
      DrawsAre(rest, dests, if turn[0] in dests then m - 1 else m, k - 1);
    }
  }

  lemma NothingDrawn<L>(turn: seq<L>, dests: set<L>)
    ensures Elems(turn[..0]) * dests == {}
  {
  }

  lemma LastIsDrawn<L>(turn: seq<L>, dests: set<L>, k: nat)
    requires 0 < k <= |turn| && turn[k - 1] in dests
    ensures |Elems(turn[..k]) * dests| > 0
  {
    assert turn[..k][k - 1] in Elems(turn[..k]) * dests;
  }

  lemma FirstDraw<L>(turn: seq<L>, dests: set<L>, k: nat)
    requires Distinct(turn) && 0 < k <= |turn|
    ensures |Elems(turn[..k]) * dests| == |Elems(turn[1..][..k - 1]) * dests| + if turn[0] in dests then 1 else 0
  {
    var few, all := Elems(turn[1..][..k - 1]) * dests, Elems(turn[..k]) * dests;
    assert turn[..k] == [turn[0]] + turn[1..][..k - 1];
    assert turn[0] !in turn[1..][..k - 1];
    assert all == few + if turn[0] in dests then {turn[0]} else {};
  }

  // When the sequence deals nothing but destinations, every draw is taken.
  lemma FullPortion<L>(items: seq<L>, c: nat, min: int)
    requires c < |items| && Distinct(items) && min <= |items|
    ensures Length(items, Elems(items), c, min) == Max(min, 0)
    ensures Portion(items, Elems(items), c, min) == Hand(items, c, Max(min, 0))
  {
    var k: nat := Max(min, 0);
    HandSize(items, c, k);
    DistinctFrom(items, c);
    assert Hand(items, c, k) * Elems(items) == Hand(items, c, k);
    assert k > 0 ==> From(items, c)[k - 1] in items;
    DrawsAre(From(items, c), Elems(items), min, k);
  }

  /** Whatever is dealt to the item leaves enough items exclusive. */
  ghost predicate Accepts<I, L>(p: Problem<I, L>, res0: Placement<I, L>, c0: nat) {
    c0 < |p.items| &&
    forall j: nat :: j <= |p.items| && 1 <= |Hand(p.items, c0, j) * p.dests| <= p.min ==>
      Spread(res0[p.it := Hand(p.items, c0, j) * p.dests], p.excl)
  }

  /** A fresh item: the destinations among the first k dealt are its locations. */
  ghost predicate Dealing<I, L>(p: Problem<I, L>, res0: Placement<I, L>, c0: nat, k: nat, a: Search<I, L>) {
    && p.got == {} && a.left == {} && a.prios == map[] && c0 < |p.items| && p.min <= |p.dests| && Accepts(p, res0, c0)
    && Distinct(p.items) && p.dests <= Elems(p.items) && k <= |p.items|
    && a.cur == (if c0 + k < |p.items| then c0 + k else c0 + k - |p.items|)
    && p.it in res0 && a.res == res0[p.it := Hand(p.items, c0, k) * p.dests] && |a.res[p.it]| <= Max(p.min, 0)
    && (k > 0 && |a.res[p.it]| == Max(p.min, 0) ==> From(p.items, c0)[k - 1] in p.dests)
    && (forall x :: x in a.seen ==> x.Some? && x.value in Hand(p.items, c0, k))
  }

  // A fresh item keeps the destination dealt to it if enough items stay exclusive.
  lemma FreshTakes<I, L>(p: Problem<I, L>, a: Search<I, L>, l: L)
    requires a.left == {} && p.items != [] && a.cur < |p.items| && p.items[a.cur] == l
    requires p.it in a.res && l !in a.res[p.it] && l in p.dests && l !in p.got
    requires Some(l) !in a.seen && a.prios == map[] && Spread(a.res[p.it := a.res[p.it] + {l}], p.excl)
    ensures Drawable(p, a, Some(l))
    ensures Turn(p, a, Some(l)) ==
            (Search({}, a.seen + {Some(l)}, map[], a.res[p.it := a.res[p.it] + {l}], Succ(a.cur, |p.items|)), Again)
  {
    hide Spread;
    assert a.prios - {l} == map[];
  }

  // And passes by a location that is no destination.
  lemma FreshPasses<I, L>(p: Problem<I, L>, a: Search<I, L>, l: L)
    requires a.left == {} && p.items != [] && a.cur < |p.items| && p.items[a.cur] == l
    requires p.it in a.res && l !in p.dests && l !in p.got && Some(l) !in a.seen && a.prios == map[]
    ensures Drawable(p, a, Some(l))
    ensures Turn(p, a, Some(l)) == (Search({}, a.seen + {Some(l)}, map[], a.res, Succ(a.cur, |p.items|)), Again)
  {
    hide Spread;
    assert a.prios - {l} == map[];
  }

  lemma HandOneMore<L>(items: seq<L>, c0: nat, k: nat)
    requires c0 < |items| && k < |items| && Distinct(items)
    ensures var l := items[if c0 + k < |items| then c0 + k else c0 + k - |items|];
      l !in Hand(items, c0, k) && Hand(items, c0, k + 1) == Hand(items, c0, k) + {l}
  {
    var turn := From(items, c0);
    var l := items[if c0 + k < |items| then c0 + k else c0 + k - |items|];
    DistinctFrom(items, c0);
    assert l == turn[k];
    assert turn[..k + 1] == turn[..k] + [l];
  }

  lemma TurnDeals<I, L>(p: Problem<I, L>, res0: Placement<I, L>, c0: nat, k: nat, a: Search<I, L>, loc: Option<L>)
    requires Dealing(p, res0, c0, k, a) && Drawable(p, a, loc) && |a.res[p.it]| < p.min
    ensures k < |p.items| && OneMore(p, k, a) == k + 1
    ensures Dealing(p, res0, c0, k + 1, Turn(p, a, loc).0) && Turn(p, a, loc).1 == Again
  {
    NotAllDealt(p, res0, c0, k, a);
    hide Turn, Spread, Accepts;
    NextIs(p, res0, c0, k, a);
    HandOneMore(p.items, c0, k);
    hide Hand, From, Distinct;
    if loc.value in p.dests {
      TurnDealsOne(p, res0, c0, k, a, loc.value);
    } else {
      TurnPassesOne(p, res0, c0, k, a, loc.value);
    }
  }

  lemma NextIs<I, L>(p: Problem<I, L>, res0: Placement<I, L>, c0: nat, k: nat, a: Search<I, L>)
    requires Dealing(p, res0, c0, k, a) && k < |p.items|
    ensures a.cur < |p.items| && p.items[a.cur] == From(p.items, c0)[k]
  {
    hide Spread, Accepts, Hand, Distinct;
  }

  lemma TurnDealsOne<I, L>(p: Problem<I, L>, res0: Placement<I, L>, c0: nat, k: nat, a: Search<I, L>, l: L)
    requires Dealing(p, res0, c0, k, a) && |a.res[p.it]| < p.min && k < |p.items| && a.cur < |p.items|
    requires l == p.items[a.cur] == From(p.items, c0)[k] && l in p.dests
    requires l !in Hand(p.items, c0, k) && Hand(p.items, c0, k + 1) == Hand(p.items, c0, k) + {l}
    ensures Drawable(p, a, Some(l))
    ensures Dealing(p, res0, c0, k + 1, Turn(p, a, Some(l)).0) && Turn(p, a, Some(l)).1 == Again
  {
    hide Turn, Spread, Distinct, Accepts, Hand, From;
    var hand, hand' := Hand(p.items, c0, k) * p.dests, Hand(p.items, c0, k + 1) * p.dests;
    assert hand' == hand + {l};
    assert a.res[p.it := a.res[p.it] + {l}] == res0[p.it := hand'];
    AcceptsHand(p, res0, c0, k + 1);
    FreshTakes(p, a, l);
  }

  lemma TurnPassesOne<I, L>(p: Problem<I, L>, res0: Placement<I, L>, c0: nat, k: nat, a: Search<I, L>, l: L)
    requires Dealing(p, res0, c0, k, a) && |a.res[p.it]| < p.min && k < |p.items| && a.cur < |p.items|
    requires l == p.items[a.cur] == From(p.items, c0)[k] && l !in p.dests
    requires l !in Hand(p.items, c0, k) && Hand(p.items, c0, k + 1) == Hand(p.items, c0, k) + {l}
    ensures Drawable(p, a, Some(l))
    ensures Dealing(p, res0, c0, k + 1, Turn(p, a, Some(l)).0) && Turn(p, a, Some(l)).1 == Again
  {
    hide Turn, Spread, Distinct, Accepts, Hand, From;
    assert Hand(p.items, c0, k + 1) * p.dests == Hand(p.items, c0, k) * p.dests;
    FreshPasses(p, a, l);
  }

  lemma AcceptsHand<I, L>(p: Problem<I, L>, res0: Placement<I, L>, c0: nat, j: nat)
    requires Accepts(p, res0, c0) && j <= |p.items| && 1 <= |Hand(p.items, c0, j) * p.dests| <= p.min
    ensures Spread(res0[p.it := Hand(p.items, c0, j) * p.dests], p.excl)
  {
    hide Spread, Hand;
  }

  // A whole turn has all destinations.
  lemma NotAllDealt<I, L>(p: Problem<I, L>, res0: Placement<I, L>, c0: nat, k: nat, a: Search<I, L>)
    requires Dealing(p, res0, c0, k, a) && |a.res[p.it]| < p.min
    ensures k < |p.items|
  {
    hide Spread;
    if k == |p.items| {
      WholeHand(p.items, c0);
      SubsetOfSameSize(p.dests, Hand(p.items, c0, k) * p.dests);
    }
  }

  lemma WholeHand<L>(items: seq<L>, c0: nat)
    requires c0 < |items|
    ensures Hand(items, c0, |items|) == Elems(items)
  {
    forall l | l in items
      ensures l in Hand(items, c0, |items|)
    {
      var i :| 0 <= i < |items| && items[i] == l;
      DealsAll(items, c0, i);
    }
    assert From(items, c0)[..|items|] == From(items, c0);
  }

  // ---------------------------------------------------------------- whole calls

  /** What a call is given, and the order in which its items come up. */
  datatype Input<!I, L> =
    Input(s: Placement<I, L>, dests: set<L>, items: seq<L>, min: int, excl: int, order: seq<I>)

  /** A call: searching for item i of a pass, or over. */
  datatype CallState<!I, L> =
    | Searching(pass: nat, i: nat, a: Search<I, L>)
    | Served(res: Placement<I, L>)
    | CameShort

  ghost predicate Ordered<I, L>(inp: Input<I, L>) {
    Listed(inp.order, inp.s)
  }

  ghost function ProblemAt<I, L>(inp: Input<I, L>, pass: nat, i: nat): Problem<I, L>
    requires Ordered(inp) && i < |inp.order|
  {
    Problem(inp.order[i], inp.s[inp.order[i]], inp.dests, inp.items, inp.min, inp.excl, pass)
  }

  // The placement with `it` entered, as stripe.go:64-68 does on first sight.
  ghost function Entered<I, L>(res: Placement<I, L>, it: I): Placement<I, L> {
    if it in res then res else res[it := {}]
  }

  // stripe.go:38-68: the search for the next item begins.
  ghost function Enter<I, L>(inp: Input<I, L>, pass: nat, i: nat, prios: map<L, int>, res: Placement<I, L>, cur: nat):
    CallState<I, L>
    requires Ordered(inp) && i < |inp.order|
  {
    Searching(pass, i, Search(inp.s[inp.order[i]], {}, prios, Entered(res, inp.order[i]), cur))
  }

  ghost function Advance<I, L>(inp: Input<I, L>, pass: nat, i: nat, a: Search<I, L>): CallState<I, L>
    requires Ordered(inp) && i < |inp.order|
  {
    if i + 1 < |inp.order| then Enter(inp, pass, i + 1, a.prios, a.res, a.cur)
    else if pass == 0 then Enter(inp, 1, 0, a.prios, a.res, a.cur)
    else Served(a.res)
  }

  ghost function Begin<I, L>(inp: Input<I, L>, prios: map<L, int>, c0: nat): CallState<I, L>
    requires Ordered(inp)
  {
    if inp.order == [] then Served(map[]) else Enter(inp, 0, 0, prios, map[], c0)
  }

  // An item that is not full takes a turn.
  ghost function After<I, L>(inp: Input<I, L>, x: CallState<I, L>, loc: Option<L>): CallState<I, L>
    requires Ordered(inp) && x.Searching? && x.i < |inp.order| && inp.order[x.i] in x.a.res
    requires Drawable(ProblemAt(inp, x.pass, x.i), x.a, loc)
  {
    var (b, v) := Turn(ProblemAt(inp, x.pass, x.i), x.a, loc);
    match v
    case Again => Searching(x.pass, x.i, b)
    case Stop => Advance(inp, x.pass, x.i, b)
    case Short => CameShort
  }

  /** A step: a full item makes way for the next one, or a turn draws a location. */
  datatype Move<L> = Full | Draw(loc: Option<L>)

  ghost predicate Can<I, L>(inp: Input<I, L>, x: CallState<I, L>, m: Move<L>)
    requires Ordered(inp)
  {
    && x.Searching? && x.pass < 2 && x.i < |inp.order| && inp.order[x.i] in x.a.res
    && match m
       case Full => |x.a.res[inp.order[x.i]]| >= inp.min
       case Draw(loc) => |x.a.res[inp.order[x.i]]| < inp.min && Drawable(ProblemAt(inp, x.pass, x.i), x.a, loc)
  }

  ghost function Go<I, L>(inp: Input<I, L>, x: CallState<I, L>, m: Move<L>): CallState<I, L>
    requires Ordered(inp) && Can(inp, x, m)
  {
    match m
    case Full => Advance(inp, x.pass, x.i, x.a)
    case Draw(loc) => After(inp, x, loc)
  }

  /** These moves lead from x to y. */
  ghost predicate Plays<I, L>(inp: Input<I, L>, x: CallState<I, L>, moves: seq<Move<L>>, y: CallState<I, L>)
    requires Ordered(inp)
    decreases moves
  {
    if moves == [] then x == y else Can(inp, x, moves[0]) && Plays(inp, Go(inp, x, moves[0]), moves[1..], y)
  }

  lemma {:induction false} PlaysThen<I, L>(inp: Input<I, L>, x: CallState<I, L>, a: seq<Move<L>>, y: CallState<I, L>,
                                           b: seq<Move<L>>, z: CallState<I, L>)
    requires Ordered(inp) && Plays(inp, x, a, y) && Plays(inp, y, b, z)
    ensures Plays(inp, x, a + b, z)
    decreases a
  {
    hide Can, Go, Ordered;
    if a == [] {
      assert a + b == b;
    } else {
      assert (a + b)[1..] == a[1..] + b;
      PlaysThen(inp, Go(inp, x, a[0]), a[1..], y, b, z);
    }
  }

  lemma PlaysOneMore<I, L>(inp: Input<I, L>, x: CallState<I, L>, moves: seq<Move<L>>, y: CallState<I, L>, m: Move<L>)
    requires Ordered(inp) && Plays(inp, x, moves, y) && Can(inp, y, m)
    ensures Plays(inp, x, moves + [m], Go(inp, y, m))
  {
    hide Can, Go, Ordered;
    assert [m][1..] == [];
    assert Plays(inp, Go(inp, y, m), [], Go(inp, y, m));
    PlaysThen(inp, x, moves, y, [m], Go(inp, y, m));
  }

  // A turn of the loop, and its end.
  lemma PlaysTurn<I, L>(inp: Input<I, L>, x: CallState<I, L>, moves: seq<Move<L>>, pass: nat, i: nat, a: Search<I, L>,
                        loc: Option<L>, v: Verdict, b: Search<I, L>)
    requires Ordered(inp) && i < |inp.order| && pass < 2 && Plays(inp, x, moves, Searching(pass, i, a))
    requires var p := ProblemAt(inp, pass, i);
      p.it in a.res && |a.res[p.it]| < p.min && Drawable(p, a, loc) && Turn(p, a, loc) == (b, v)
    ensures Plays(inp, x, moves + [Draw(loc)],
                  match v
                  case Again => Searching(pass, i, b)
                  case Stop => Advance(inp, pass, i, b)
                  case Short => CameShort)
  {
    hide Plays, Turn, Advance, Listed;
    PlaysOneMore(inp, x, moves, Searching(pass, i, a), Draw(loc));
  }

  lemma PlaysFull<I, L>(inp: Input<I, L>, x: CallState<I, L>, moves: seq<Move<L>>, pass: nat, i: nat, a: Search<I, L>)
    requires Ordered(inp) && i < |inp.order| && pass < 2 && Plays(inp, x, moves, Searching(pass, i, a))
    requires inp.order[i] in a.res && |a.res[inp.order[i]]| >= inp.min
    ensures Plays(inp, x, moves + [Full], Advance(inp, pass, i, a))
  {
    hide Plays, Turn, Advance, Listed;
    PlaysOneMore(inp, x, moves, Searching(pass, i, a), Full);
  }

  lemma AdvanceForgets<I, L>(inp: Input<I, L>, pass: nat, i: nat, a: Search<I, L>)
    requires Ordered(inp) && i < |inp.order|
    ensures Advance(inp, pass, i, a) == Advance(inp, pass, i, Search({}, {}, a.prios, a.res, a.cur))
  {
  }

  lemma PlaysNothing<I, L>(inp: Input<I, L>, x: CallState<I, L>)
    requires Ordered(inp)
    ensures Plays(inp, x, [], x)
  {
  }

  // ---------------------------------------------------------------- the allocator

  /** An item that has enough takes its own copies, and nothing is drawn. */
  ghost predicate OwnOnly<I, L>(p: Problem<I, L>, before: map<L, int>, c0: nat, a: Search<I, L>) {
    && p.it in a.res && a.res[p.it] <= p.got * p.dests && a.prios == before && a.cur == c0
    && (forall l :: l in p.got * p.dests && l !in a.left ==> l in a.res[p.it])
  }

  lemma TurnTakesOwn<I, L>(p: Problem<I, L>, res0: Placement<I, L>, before: map<L, int>, c0: nat, a: Search<I, L>,
                           loc: Option<L>)
    requires OwnFits(p, res0) && OwnOnly(p, before, c0, a) && Drawable(p, a, loc) && |a.res[p.it]| < p.min
    requires a.left <= p.got && Grows(p.it, res0, a.res)
    ensures a.left != {} && OwnOnly(p, before, c0, Turn(p, a, loc).0) && Turn(p, a, loc).1 == Again
  {
    hide Spread;
    if a.left == {} {
      SubsetOfSameSize(p.got * p.dests, a.res[p.it]);
    }
    var l := loc.value;
    if l in p.dests {
      var r := a.res[p.it] + {l};
      assert r <= p.got * p.dests && a.res[p.it := r] == res0[p.it := r];
    }
  }

  // A lone item is exclusive.
  lemma LonerSpreads<I, L>(res: Placement<I, L>, it: I, excl: int)
    requires it in res && |res| <= 1
    ensures Spread(res, excl)
  {
    SubsetOfSameSize({it}, res.Keys);
    assert |res| == |res.Keys| && res.Keys == {it};
    assert Exclusives(res) == {it};
  }

  lemma LonerGoesOn<I, L>(p: Problem<I, L>, a: Search<I, L>, loc: Option<L>)
    requires p.it in a.res && |a.res| <= 1 && Drawable(p, a, loc)
    ensures Turn(p, a, loc).1 != Stop
  {
    if loc.Some? {
      var res := a.res[p.it := a.res[p.it] + {loc.value}];
      assert |res| == |res.Keys| && res.Keys == a.res.Keys && |a.res| == |a.res.Keys|;
      LonerSpreads(res, p.it, p.excl);
    }
    hide Spread;
  }

  /** Everything the turns of one search keep: its start is (c0, res0, before). */
  ghost predicate Kept<I, L>(p: Problem<I, L>, before: map<L, int>, res0: Placement<I, L>, c0: nat, k: nat,
                             a: Search<I, L>)
  {
    && Sane(p, res0, a)
    && (p.excl <= 0 && res0[p.it] == {} ==> Reuses(p, a))
    && Visited(p, c0, k, a) && Grows(p.it, res0, a.res)
    && (OwnFits(p, res0) ==> OwnOnly(p, before, c0, a))
    && (NewItem(p, before, res0, c0) ==> Dealing(p, res0, c0, k, a))
    && (Priorities(a.prios, p.items) || res0[p.it] == {} || |res0[p.it]| >= p.min)
  }

  ghost predicate NewItem<I, L>(p: Problem<I, L>, before: map<L, int>, res0: Placement<I, L>, c0: nat) {
    && p.got == {} && p.it in res0 && res0[p.it] == {} && before == map[]
    && Distinct(p.items) && p.dests <= Elems(p.items)
    && c0 < |p.items| && p.min <= |p.dests| && Accepts(p, res0, c0)
  }

  lemma KeptAtStart<I, L>(p: Problem<I, L>, before: map<L, int>, res0: Placement<I, L>, c0: nat)
    requires Patient(before) && Ends(p, res0, before)
    requires if p.items == [] then c0 == 0 else c0 < |p.items|
    requires p.it in res0 && (Priorities(before, p.items) || res0[p.it] == {} || |res0[p.it]| >= p.min)
    requires p.it in res0 && res0[p.it] <= p.dests && |res0[p.it]| <= Max(p.min, 0)
    ensures Kept(p, before, res0, c0, 0, Search(p.got, {}, before, res0, c0))
  {
    hide Spread, Distinct, Ends, Visited, Dealing, NewItem;
    VisitedAtStart(p, before, res0, c0);
    if NewItem(p, before, res0, c0) {
      DealingAtStart(p, before, res0, c0);
    }
  }

  lemma VisitedAtStart<I, L>(p: Problem<I, L>, before: map<L, int>, res0: Placement<I, L>, c0: nat)
    requires p.it in res0 && if p.items == [] then c0 == 0 else c0 < |p.items|
    ensures Visited(p, c0, 0, Search(p.got, {}, before, res0, c0))
  {
  }

  lemma DealingAtStart<I, L>(p: Problem<I, L>, before: map<L, int>, res0: Placement<I, L>, c0: nat)
    requires NewItem(p, before, res0, c0)
    ensures Dealing(p, res0, c0, 0, Search(p.got, {}, before, res0, c0))
  {
    hide Spread, Accepts;
    assert Hand(p.items, c0, 0) * p.dests == {};
    assert res0[p.it := Hand(p.items, c0, 0) * p.dests] == res0;
  }

  lemma KeptByTurn<I, L>(p: Problem<I, L>, before: map<L, int>, res0: Placement<I, L>, c0: nat, k: nat, a: Search<I, L>,
                         loc: Option<L>)
    requires Kept(p, before, res0, c0, k, a) && Drawable(p, a, loc) && p.it in a.res && |a.res[p.it]| < p.min
    requires |res0[p.it]| < p.min
    ensures Kept(p, before, res0, c0, OneMore(p, k, a), Turn(p, a, loc).0) && p.it in Turn(p, a, loc).0.res
    ensures Priorities(a.prios, p.items) ==> Priorities(Turn(p, a, loc).0.prios, p.items)
    ensures Turn(p, a, loc).0.left <= p.got && Patient(Turn(p, a, loc).0.prios)
    ensures Stocked(p.got, p.dests, p.min, p.excl) && res0[p.it] == {} ==> Turn(p, a, loc).1 != Short
    ensures Fillable(p.got, p.dests, p.items, p.min, p.excl) && res0[p.it] == {} && Distinct(p.items) ==>
        Turn(p, a, loc).1 != Short
    ensures Turn(p, a, loc).1 == Again ==> Smaller(p, Turn(p, a, loc).0, a)
    ensures Turn(p, a, loc).1 == Stop ==> p.pass == 0 && p.excl > 0 && |res0| > 1
    ensures NewItem(p, before, res0, c0) || OwnFits(p, res0) ==> Turn(p, a, loc).1 == Again
    ensures Turn(p, a, loc).1 == Short ==> Turn(p, a, loc).0.res == a.res
    ensures Turn(p, a, loc).1 == Short && Distinct(p.items) ==>
        && Blocked(p.dests * Elems(p.items), p.excl, p.it, a.res)
        && (Held(p, a) && p.dests <= Elems(p.items) ==> |p.dests| < p.min)
    ensures Turn(p, a, loc).1 == Again && (p.pass == 0 || p.excl <= 0) && Held(p, a) ==> Held(p, Turn(p, a, loc).0)
  {
    hide Blocked, Visited, Held, Grows, OwnFits, OwnOnly, NewItem, Dealing, Reuses, Distinct, Spread;
    TurnStaysSane(p, res0, a, loc);
    TurnGrows(p, a, loc);
    GrowsOn(p.it, res0, a.res, Turn(p, a, loc).0.res);
    TurnVisits(p, res0, c0, k, a, loc);
    if |res0| <= 1 {
      GrowsSize(p.it, res0, a.res);
      LonerGoesOn(p, a, loc);
    }
    if Turn(p, a, loc).1 == Short {
      ShortIsSeen(p, a, loc);
      if Distinct(p.items) {
        ShortTriedAll(p, c0, k, a, loc);
      }
    }
    if Turn(p, a, loc).1 == Again && (p.pass == 0 || p.excl <= 0) && Held(p, a) {
      TurnHolds(p, a, loc);
    }
    if OwnFits(p, res0) {
      TurnTakesOwn(p, res0, before, c0, a, loc);
    }
    if Stocked(p.got, p.dests, p.min, p.excl) && res0[p.it] == {} {
      StockedHasLeft(p, res0, a);
    }
    if p.excl <= 0 {
      if res0[p.it] == {} {
        TurnReuses(p, res0, a, loc);
        if Fillable(p.got, p.dests, p.items, p.min, p.excl) {
          if a.left == {} {
            FillableHasUnseen(p, c0, k, a);
          }
          if Distinct(p.items) {
            FillableIsNeverShort(p, c0, k, a, loc);
          }
        }
      }
    }
    if NewItem(p, before, res0, c0) {
      TurnDeals(p, res0, c0, k, a, loc);
    }
    if Turn(p, a, loc).1 == Again {
      TurnProgresses(p, res0, a, loc);
    }
  }

  lemma KeptAtEnd<I, L>(p: Problem<I, L>, before: map<L, int>, res0: Placement<I, L>, c0: nat, k: nat, a: Search<I, L>)
    requires Kept(p, before, res0, c0, k, a) && p.it in a.res
    requires
      || |a.res[p.it]| >= p.min
      || (p.pass == 0 && p.excl > 0 && |res0| > 1 && !NewItem(p, before, res0, c0) && !OwnFits(p, res0))
    ensures Filled(p, before, res0, c0, a.prios, a.res, a.cur)
  {
    hide Spread, Reuses, Visited, Hand, From, Distinct, NewItem, Dealing, Fillable, Portion, Moved, Patient, Priorities;
    hide OwnFits, Ends, Grows;
    if p.excl <= 0 && res0[p.it] == {} {
      ReuseShortfall(p, res0, a);
    }
    if NewItem(p, before, res0, c0) {
      DealtAtEnd(p, res0, c0, k, a);
    }
  }

  lemma DealtAtEnd<I, L>(p: Problem<I, L>, res0: Placement<I, L>, c0: nat, k: nat, a: Search<I, L>)
    requires Dealing(p, res0, c0, k, a) && |a.res[p.it]| >= p.min
    ensures a.prios == map[] && c0 < |p.items|
    ensures a.cur == Moved(p.items, p.dests, c0, p.min) && a.res[p.it] == Portion(p.items, p.dests, c0, p.min)
  {
    hide Spread, Accepts;
    SpinWithinOneTurn(c0, k, |p.items|);
    DistinctFrom(p.items, c0);
    DrawsAre(From(p.items, c0), p.dests, p.min, k);
  }

  /** What one search promises when it does not come up short. */
  ghost predicate Filled<I, L>(p: Problem<I, L>, before: map<L, int>, res0: Placement<I, L>, c0: nat,
                               prios: map<L, int>, res: Placement<I, L>, cur: nat)
  {
    && p.it in res0 && res.Keys == res0.Keys && (forall x :: x in res && x != p.it ==> res[x] == res0[x])
    && res[p.it] <= p.dests && |res[p.it]| <= Max(p.min, 0)
    && res[p.it] <= res0[p.it] + p.got + Elems(p.items)
    && (p.pass > 0 || p.excl <= 0 || |res0| <= 1 || OwnFits(p, res0) ==> |res[p.it]| == Max(p.min, 0))
    && (res == res0 || Spread(res, p.excl))
    && (OwnFits(p, res0) ==> res[p.it] <= p.got * p.dests && prios == before && cur == c0)
    && (p.excl <= 0 && res0[p.it] == {} ==> |res[p.it] - p.got| == Max(0, p.min - |p.got * p.dests|))
    && (NewItem(p, before, res0, c0) ==>
          && prios == map[] && c0 < |p.items| && cur == Moved(p.items, p.dests, c0, p.min)
          && res[p.it] == Portion(p.items, p.dests, c0, p.min))
  }

  lemma FilledIsFillable<I, L>(p: Problem<I, L>, before: map<L, int>, res0: Placement<I, L>, c0: nat,
                               prios: map<L, int>, res: Placement<I, L>, cur: nat)
    requires Filled(p, before, res0, c0, prios, res, cur) && p.excl <= 0 && res0[p.it] == {}
    ensures Fillable(p.got, p.dests, p.items, p.min, p.excl)
  {
    hide Spread, NewItem;
    SubsetOfSameSize(res[p.it], (p.got + Elems(p.items)) * p.dests);
  }

  /** stripe.go:69-104: search locations for one item. */
  method Fill<I(==), L(==)>(it: I, got: set<L>, dests: set<L>, rr: RR<L>, before: map<L, int>, res0: Placement<I, L>,
                            min: int, excl: int, pass: nat, ghost inp: Input<I, L>, ghost i: nat)
    returns (short: bool, prios: map<L, int>, res: Placement<I, L>, ghost moves: seq<Move<L>>)
    requires rr.Valid() && Patient(before)
    requires Ordered(inp) && i < |inp.order| && pass < 2
    requires Problem(it, got, dests, rr.items, min, excl, pass) == ProblemAt(inp, pass, i)
    requires Ends(Problem(it, got, dests, rr.items, min, excl, pass), res0, before)
    requires it in res0 && res0[it] <= dests && |res0[it]| <= Max(min, 0)
    requires Priorities(before, rr.items) || res0[it] == {} || |res0[it]| >= min
    modifies rr
    ensures rr.Valid() && Patient(prios) && (Priorities(before, rr.items) ==> Priorities(prios, rr.items))
    ensures Stocked(got, dests, min, excl) && res0[it] == {} ==> !short
    ensures excl <= 0 && res0[it] == {} && !short ==> Fillable(got, dests, rr.items, min, excl)
    ensures Fillable(got, dests, rr.items, min, excl) && res0[it] == {} && Distinct(rr.items) ==> !short
    ensures var p := Problem(it, got, dests, rr.items, min, excl, pass);
      && (!short ==> Filled(p, before, res0, old(rr.cur), prios, res, rr.cur))
      && (short ==> !NewItem(p, before, res0, old(rr.cur)) && !OwnFits(p, res0))
    ensures |res0[it]| >= min ==> !short && prios == before && res == res0 && rr.cur == old(rr.cur)
    ensures short ==> it in res && Grows(it, res0, res) && |res[it]| < min
    // the item is given up only when nothing is left for it; the first pass never refuses and goes on
    ensures short && Distinct(rr.items) ==>
        && Blocked(dests * Elems(rr.items), excl, it, res)
        && ((pass == 0 || excl <= 0) && dests <= Elems(rr.items) ==> |dests| < min)
    // the very steps of the call
    ensures Plays(inp, Searching(pass, i, Search(got, {}, before, res0, old(rr.cur))), moves,
                  if short then CameShort else Advance(inp, pass, i, Search({}, {}, prios, res, rr.cur)))
  {
    hide Kept, Filled, NewItem, Patience, Unseen, Distance, Drawable, Turn, Blocked, Held, Ends, OwnFits, Grows;
    hide Fillable, Distinct, Elems, Plays, Advance, Ordered;
    short, prios, res, moves := false, before, res0, [];
    var left, seen: set<Option<L>> := got, {};
    ghost var p := Problem(it, got, dests, rr.items, min, excl, pass);
    ghost var c0, k := rr.cur, 0;
    KeptAtStart(p, before, res0, c0);
    HeldAtStart(p, before, res0, c0);
    ghost var x0 := Searching(pass, i, Search(got, {}, before, res0, c0));
    ghost var stopped := false;
    PlaysNothing(inp, x0);
    while |res[it]| < min
      invariant !short && !stopped && rr.Valid() && it in res && left <= got && Patient(prios)
      invariant Priorities(before, rr.items) ==> Priorities(prios, rr.items)
      invariant Kept(p, before, res0, c0, k, Search(left, seen, prios, res, rr.cur))
      invariant pass == 0 || excl <= 0 ==> Held(p, Search(left, seen, prios, res, rr.cur))
      invariant Plays(inp, x0, moves, Searching(pass, i, Search(left, seen, prios, res, rr.cur)))
      invariant |res0[it]| >= min ==> prios == before && res == res0 && rr.cur == c0
      decreases Patience(prios), left, Unseen(rr.items, seen), Distance(p, Search(left, seen, prios, res, rr.cur))
    {
      ghost var a := Search(left, seen, prios, res, rr.cur);
      var v;
      ghost var drawn;
      v, left, seen, prios, res, drawn := TakeTurn(p, it, got, dests, rr, excl, pass, left, seen, prios, res);
      KeptByTurn(p, before, res0, c0, k, a, drawn);
      k := OneMore(p, k, a);
      PlaysTurn(inp, x0, moves, pass, i, a, drawn, v, Search(left, seen, prios, res, rr.cur));
      moves := moves + [Draw(drawn)];
      if v == Short {
        KeptGrows(p, before, res0, c0, k, Search(left, seen, prios, res, rr.cur));
        short := true;
        return;
      }
      if v == Stop {
        stopped := true;
        break;
      }
    }
    AdvanceForgets(inp, pass, i, Search(left, seen, prios, res, rr.cur));
    if !stopped {
      PlaysFull(inp, x0, moves, pass, i, Search(left, seen, prios, res, rr.cur));
      moves := moves + [Full];
    }
    KeptAtEnd(p, before, res0, c0, k, Search(left, seen, prios, res, rr.cur));
    if excl <= 0 && res0[it] == {} {
      FilledIsFillable(p, before, res0, c0, prios, res, rr.cur);
    }
  }

  lemma HeldAtStart<I, L>(p: Problem<I, L>, before: map<L, int>, res0: Placement<I, L>, c0: nat)
    requires p.it in res0
    ensures Held(p, Search(p.got, {}, before, res0, c0))
  {
  }

  lemma GrowsOn<I, L>(it: I, a: Placement<I, L>, b: Placement<I, L>, c: Placement<I, L>)
    requires Grows(it, a, b) && Grows(it, b, c)
    ensures Grows(it, a, c)
  {
  }

  lemma GrowsSize<I, L>(it: I, a: Placement<I, L>, b: Placement<I, L>)
    requires Grows(it, a, b)
    ensures it in b && |b| == |a|
  {
    assert |b| == |b.Keys| && |a| == |a.Keys|;
  }

  lemma KeptGrows<I, L>(p: Problem<I, L>, before: map<L, int>, res0: Placement<I, L>, c0: nat, k: nat, a: Search<I, L>)
    requires Kept(p, before, res0, c0, k, a)
    ensures Grows(p.it, res0, a.res)
  {
    hide Sane, Visited, Dealing, NewItem, OwnFits;
  }

  /** The locations of an item that held `got`: complete at once without exclusivity. */
  ghost predicate WellServed<L>(got: set<L>, dests: set<L>, min: int, excl: int, locs: set<L>) {
    && locs <= dests && |locs| <= Max(min, 0)
    && (excl <= 0 ==> |locs| == Max(min, 0) && |locs - got| == Max(0, min - |got * dests|))
  }

  lemma FilledServes<I, L>(p: Problem<I, L>, before: map<L, int>, res0: Placement<I, L>, c0: nat, prios: map<L, int>,
                           res: Placement<I, L>, cur: nat)
    requires Filled(p, before, res0, c0, prios, res, cur)
    ensures p.it in res0 && res.Keys == res0.Keys && forall x :: x in res && x != p.it ==> res[x] == res0[x]
    ensures res == res0 || Spread(res, p.excl)
    ensures res0[p.it] == {} ==> WellServed(p.got, p.dests, p.min, p.excl, res[p.it])
    ensures p.pass > 0 ==> |res[p.it]| == Max(p.min, 0)
    ensures res[p.it] <= p.dests && |res[p.it]| <= Max(p.min, 0)
  {
    hide Spread, NewItem, Elems, From;
  }

  /** What a placement holds after serving `res.Keys`, the items of `done` completely; `last` was inserted last. */
  ghost predicate Partial<I, L>(s: Placement<I, L>, dests: set<L>, min: int, excl: int, done: set<I>, last: Option<I>,
                                res: Placement<I, L>)
  {
    && res.Keys <= s.Keys && done <= res.Keys
    && (forall it :: it in res ==> WellServed(s[it], dests, min, excl, res[it]))
    && (forall it :: it in done ==> |res[it]| == Max(min, 0))
    && (last.Some? ==> last.value in res && (res[last.value] == {} || Spread(res, excl)))
  }

  // The copies n fresh items need.
  ghost function Needed(n: nat, min: int): nat {
    if n == 0 then 0 else Needed(n - 1, min) + Max(min, 0)
  }

  /**
   Fresh items, and enough destinations in the sequence for each of them; with exclusivity, nothing but destinations,
   and enough of them for all copies.
   */
  ghost predicate AllNew<I, L>(s: Placement<I, L>, dests: set<L>, items: seq<L>, min: int, excl: int) {
    && (forall it :: it in s ==> s[it] == {})
    && items != [] && Distinct(items) && dests <= Elems(items) && min <= |dests|
    && (excl <= 0 || (dests == Elems(items) && Needed(|s|, min) <= |items|))
  }

  /** Where the cursor is after i fresh items. */
  ghost function CursorAt<L>(items: seq<L>, dests: set<L>, min: int, c0: nat, i: nat): (c: nat)
    requires c0 < |items|
    ensures c < |items|
  {
    if i == 0 then c0 else Moved(items, dests, CursorAt(items, dests, min, c0, i - 1), min)
  }

  /** The items of `order` took their shares one after the other, from c0 on. */
  ghost predicate InTurn<I, L>(order: seq<I>, items: seq<L>, dests: set<L>, min: int, c0: nat, res: Placement<I, L>,
                               cur: nat)
  {
    && c0 < |items| && res.Keys == Elems(order) && cur == CursorAt(items, dests, min, c0, |order|)
    && forall i :: 0 <= i < |order| ==>
         order[i] in res && res[order[i]] == Portion(items, dests, CursorAt(items, dests, min, c0, i), min)
  }

  lemma InTurnOneMore<I, L>(order: seq<I>, items: seq<L>, dests: set<L>, min: int, c0: nat, res: Placement<I, L>,
                            cur: nat, it: I)
    requires InTurn(order, items, dests, min, c0, res, cur) && it !in res
    ensures InTurn(order + [it], items, dests, min, c0, res[it := Portion(items, dests, cur, min)],
                   Moved(items, dests, cur, min))
  {
    hide Portion, Moved;
    assert Elems(order + [it]) == Elems(order) + {it};
    forall i | 0 <= i < |order|
      ensures (order + [it])[i] in res
    {
      assert order[i] in Elems(order);
    }
  }

  /** All copies so far were dealt one position after the other, from c0 on. */
  ghost predicate DealtOut<I, L>(items: seq<L>, c0: nat, draws: nat, res: Placement<I, L>, cur: nat) {
    && c0 < |items| && cur == Spin(c0, draws, |items|)
    && forall p :: 0 <= p < |items| ==> |Holders(res, items[p])| == Dealt(p, c0, draws, |items|)
  }

  // Pass 0 meets an item for the first time.
  lemma ServedFirst<I, L>(s: Placement<I, L>, last: Option<I>, res: Placement<I, L>, p: Problem<I, L>,
                          before: map<L, int>, c0: nat, prios: map<L, int>, res': Placement<I, L>, cur: nat)
    requires Partial(s, p.dests, p.min, p.excl, {}, last, res) && p.it in s && p.it !in res && p.got == s[p.it]
    requires Filled(p, before, res[p.it := {}], c0, prios, res', cur)
    ensures Partial(s, p.dests, p.min, p.excl, {}, Some(p.it), res') && res'.Keys == res.Keys + {p.it}
  {
    hide Spread, Filled, WellServed;
    FilledServes(p, before, res[p.it := {}], c0, prios, res', cur);
    assert res'.Keys == res.Keys + {p.it};
  }

  // Pass 1 meets it again.
  lemma ServedAgain<I, L>(s: Placement<I, L>, done: set<I>, last: Option<I>, res: Placement<I, L>, p: Problem<I, L>,
                          before: map<L, int>, c0: nat, prios: map<L, int>, res': Placement<I, L>, cur: nat)
    requires Partial(s, p.dests, p.min, p.excl, done, last, res) && p.it in res && p.got == s[p.it] && p.pass > 0
    requires Filled(p, before, res, c0, prios, res', cur)
    requires |res[p.it]| >= p.min ==> res' == res
    ensures Partial(s, p.dests, p.min, p.excl, done + {p.it}, last, res') && res'.Keys == res.Keys
  {
    hide Spread, Filled;
    FilledServes(p, before, res, c0, prios, res', cur);
    if last.Some? && res' != res {
      assert Spread(res', p.excl);
    }
  }

  // The position p of the sequence is among the next m dealt exactly when its turn comes within m draws.
  lemma InHand<L>(items: seq<L>, cur: nat, m: nat, p: nat)
    requires Distinct(items) && cur < |items| && m <= |items| && p < |items|
    ensures items[p] in Hand(items, cur, m) <==> Offset(cur, p, |items|) < m
  {
    var turn, o := From(items, cur), Offset(cur, p, |items|);
    assert turn[o] == items[p];
    DistinctFrom(items, cur);
    assert o < m ==> items[p] == turn[..m][o];
  }

  // One fresh item gets the next m locations of the turn.
  lemma DealtToOneMore<I, L>(items: seq<L>, c0: nat, draws: nat, res: Placement<I, L>, cur: nat, m: nat, it: I,
                             res': Placement<I, L>)
    requires DealtOut(items, c0, draws, res, cur) && Distinct(items) && it !in res && m <= |items|
    requires res'.Keys == res.Keys + {it} && forall x :: x in res ==> res'[x] == res[x]
    requires res'[it] == Hand(items, cur, m)
    ensures DealtOut(items, c0, draws + m, res', Spin(cur, m, |items|))
  {
    hide From, Hand, Distinct, Offset;
    assert res' == res[it := res'[it]];
    forall p | 0 <= p < |items|
      ensures |Holders(res', items[p])| == Dealt(p, c0, draws + m, |items|)
    {
      HoldersOneMore(res, it, res'[it], items[p]);
      DealtAdds(p, c0, draws, m, |items|);
      DealtWithinOneTurn(p, cur, m, |items|);
      InHand(items, cur, m, p);
    }
    DealtAdds(0, c0, draws, m, |items|);
  }

  /** When the sequence deals nothing but destinations, the copies are dealt one position after the other. */
  lemma {:induction false} InTurnIsDealt<I, L>(order: seq<I>, items: seq<L>, min: int, c0: nat, res: Placement<I, L>,
                                               cur: nat)
    requires InTurn(order, items, Elems(items), min, c0, res, cur) && Distinct(order) && Distinct(items)
    requires min <= |items|
    ensures DealtOut(items, c0, Needed(|order|, min), res, cur)
    decreases order
  {
    hide Portion, Moved, Elems, DealtOut, Length, Hand;
    if order == [] {
      NothingInTurn(items, min, c0, res, cur);
    } else {
      var n := |order| - 1;
      var init, it, before := order[..n], order[n], CursorAt(items, Elems(items), min, c0, n);
      var res0 := InTurnOneLess(order, items, Elems(items), min, c0, res, cur);
      InTurnIsDealt(init, items, min, c0, res0, before);
      FullPortion(items, before, min);
      FullMove(items, before, min);
      DealtToOneMore(items, c0, Needed(n, min), res0, before, Max(min, 0), it, res);
    }
  }

  lemma NothingInTurn<I, L>(items: seq<L>, min: int, c0: nat, res: Placement<I, L>, cur: nat)
    requires InTurn([], items, Elems(items), min, c0, res, cur)
    ensures DealtOut(items, c0, Needed(0, min), res, cur)
  {
    assert res == map[];
    NothingDealt<I, L>(items, c0);
  }

  lemma FullMove<L>(items: seq<L>, c: nat, min: int)
    requires c < |items| && Length(items, Elems(items), c, min) == Max(min, 0)
    ensures Moved(items, Elems(items), c, min) == Spin(c, Max(min, 0), |items|)
  {
  }

  // Without the last item.
  lemma InTurnOneLess<I, L>(order: seq<I>, items: seq<L>, dests: set<L>, min: int, c0: nat, res: Placement<I, L>,
                            cur: nat)
    returns (res0: Placement<I, L>)
    requires order != [] && InTurn(order, items, dests, min, c0, res, cur) && Distinct(order)
    ensures var n := |order| - 1;
      && InTurn(order[..n], items, dests, min, c0, res0, CursorAt(items, dests, min, c0, n))
      && order[n] in res && order[n] !in res0 && res.Keys == res0.Keys + {order[n]}
      && cur == Moved(items, dests, CursorAt(items, dests, min, c0, n), min)
      && res[order[n]] == Portion(items, dests, CursorAt(items, dests, min, c0, n), min)
      && forall x :: x in res0 ==> x in res && res[x] == res0[x]
  {
    hide Portion, Moved;
    var n := |order| - 1;
    res0 := map x | x in res && x != order[n] :: res[x];
    assert order == order[..n] + [order[n]];
    assert res0.Keys == Elems(order[..n]);
  }

  lemma NothingDealt<I, L>(items: seq<L>, c0: nat)
    requires c0 < |items|
    ensures DealtOut<I, L>(items, c0, 0, map[], c0)
  {
    forall p | 0 <= p < |items|
      ensures Holders<I, L>(map[], items[p]) == {}
    {
    }
  }

  /** Every item has exactly `min` destinations in `full`, of which `added` are the ones it did not hold yet. */
  ghost predicate Topped<I, L>(s: Placement<I, L>, dests: set<L>, min: int, full: Placement<I, L>,
                               added: Placement<I, L>)
  {
    && full.Keys == s.Keys && added.Keys == s.Keys
    && (forall it :: it in s ==> full[it] <= dests && |full[it]| == Max(min, 0) && added[it] == full[it] - s[it])
  }

  /** The result of a successful call: `full` is the whole placement, existing copies included. */
  ghost predicate Correct<I, L>(s: Placement<I, L>, dests: set<L>, min: int, excl: int, full: Placement<I, L>,
                                added: Placement<I, L>)
  {
    && Topped(s, dests, min, full, added)
    && (min >= 1 ==> Spread(full, excl))
  }

  /** Where the two passes over the items stand: i items of this pass are behind. */
  ghost predicate Stage<I, L>(s: Placement<I, L>, dests: set<L>, items: seq<I>, min: int, excl: int, pass: nat, i: nat,
                              res: Placement<I, L>)
  {
    && i <= |items| && Listed(items, s)
    && if pass == 0 then
         && res.Keys == Elems(items[..i])
         && Partial(s, dests, min, excl, {}, if i == 0 then None else Some(items[i - 1]), res)
       else
         && res.Keys == s.Keys
         && Partial(s, dests, min, excl, Elems(items[..i]), if items == [] then None else Some(items[|items| - 1]), res)
  }

  lemma NextPass<I, L>(s: Placement<I, L>, dests: set<L>, items: seq<I>, min: int, excl: int, res: Placement<I, L>)
    requires Stage(s, dests, items, min, excl, 0, |items|, res)
    ensures Stage(s, dests, items, min, excl, 1, 0, res)
  {
    assert items[..|items|] == items;
  }

  lemma NextItem<I, L>(s: Placement<I, L>, items: seq<I>, i: nat, res: Placement<I, L>, p: Problem<I, L>,
                       before: map<L, int>, c0: nat, prios: map<L, int>, res': Placement<I, L>, cur: nat)
    requires i < |items| && p.it == items[i] && p.it in s && p.got == s[p.it]
    requires Stage(s, p.dests, items, p.min, p.excl, p.pass, i, res)
    requires Filled(p, before, Entered(res, p.it), c0, prios, res', cur)
    requires p.it in res && |res[p.it]| >= p.min ==> res' == res
    ensures Stage(s, p.dests, items, p.min, p.excl, p.pass, i + 1, res')
    ensures p.pass == 0 ==> p.it !in res
  {
    hide Partial, Filled;
    assert items[..i + 1] == items[..i] + [p.it];
    if p.pass == 0 {
      assert p.it !in items[..i];
      ServedFirst(s, if i == 0 then None else Some(items[i - 1]), res, p, before, c0, prios, res', cur);
    } else {
      assert Elems(items[..i + 1]) == Elems(items[..i]) + {p.it};
      var last := if items == [] then None else Some(items[|items| - 1]);
      ServedAgain(s, Elems(items[..i]), last, res, p, before, c0, prios, res', cur);
    }
  }

  // What is known while fresh items are served in some order: i of them in this pass.
  ghost predicate NewStage<I, L>(s: Placement<I, L>, dests: set<L>, rrItems: seq<L>, min: int, excl: int, c0: nat,
                                 order: seq<I>, pass: nat, i: nat, prios: map<L, int>, res: Placement<I, L>, cur: nat)
  {
    && AllNew(s, dests, rrItems, min, excl) && Listed(order, s) && i <= |order|
    && prios == map[] && InTurn(if pass == 0 then order[..i] else order, rrItems, dests, min, c0, res, cur)
    && Sized(res, dests, min)
  }

  ghost predicate Sized<I, L>(res: Placement<I, L>, dests: set<L>, min: int) {
    forall x :: x in res ==> res[x] <= dests && |res[x]| == Max(min, 0)
  }

  lemma SizedOneMore<I, L>(res: Placement<I, L>, dests: set<L>, min: int, it: I, locs: set<L>)
    requires Sized(res, dests, min) && locs <= dests && |locs| == Max(min, 0)
    ensures Sized(res[it := locs], dests, min)
  {
  }

  // The second pass starts where the first one ended, and deals nothing.
  lemma NextNewPass<I, L>(s: Placement<I, L>, dests: set<L>, rrItems: seq<L>, min: int, excl: int, c0: nat,
                          order: seq<I>, prios: map<L, int>, res: Placement<I, L>, cur: nat)
    requires NewStage(s, dests, rrItems, min, excl, c0, order, 0, |order|, prios, res, cur)
    ensures NewStage(s, dests, rrItems, min, excl, c0, order, 1, 0, prios, res, cur)
  {
    hide AllNew, InTurn, Listed;
    assert order[..|order|] == order;
  }

  /** Some order of the items in which they took their shares. */
  ghost predicate TakesTurns<I, L>(s: Placement<I, L>, dests: set<L>, items: seq<L>, min: int, c0: nat,
                                   full: Placement<I, L>, cur: nat)
  {
    exists order :: Listed(order, s) && InTurn(order, items, dests, min, c0, full, cur)
  }

  lemma NewStageIsDealt<I, L>(s: Placement<I, L>, dests: set<L>, rrItems: seq<L>, min: int, excl: int, c0: nat,
                              order: seq<I>, i: nat, prios: map<L, int>, res: Placement<I, L>, cur: nat)
    requires NewStage(s, dests, rrItems, min, excl, c0, order, 1, i, prios, res, cur)
    ensures TakesTurns(s, dests, rrItems, min, c0, res, cur)
    ensures dests == Elems(rrItems) ==> DealtOut(rrItems, c0, Needed(|s|, min), res, cur)
  {
    if dests == Elems(rrItems) {
      DestsAreItems(rrItems, dests);
      hide InTurn, Needed, DealtOut, Elems;
      InTurnIsDealt(order, rrItems, min, c0, res, cur);
    }
  }

  lemma DestsAreItems<L>(items: seq<L>, dests: set<L>)
    requires Distinct(items) && dests <= Elems(items)
    ensures |dests| <= |items|
  {
    SizeOfElems(items);
    SubsetOfSameSize(dests, Elems(items));
  }

  lemma {:induction false} SizeOfElems<L>(items: seq<L>)
    requires Distinct(items)
    ensures |Elems(items)| == |items|
  {
    if items != [] {
      var n := |items| - 1;
      SizeOfElems(items[..n]);
      assert items == items[..n] + [items[n]];
      assert Elems(items) == Elems(items[..n]) + {items[n]};
    }
  }

  lemma {:induction false} NeededGrows(m: nat, n: nat, min: int)
    requires m <= n
    ensures Needed(m, min) <= Needed(n, min)
    decreases n
  {
    if m < n {
      NeededGrows(m, n - 1, min);
    }
  }

  // Within one turn of the cursor no location is dealt twice.
  lemma HeldOnce<I, L>(items: seq<L>, c0: nat, draws: nat, res: Placement<I, L>, cur: nat, a: I, b: I, l: L)
    requires DealtOut(items, c0, draws, res, cur) && draws <= |items| && l in items
    requires a in res && b in res && a != b && l in res[a]
    ensures l !in res[b]
  {
    var p :| 0 <= p < |items| && items[p] == l;
    DealtWithinOneTurn(p, c0, draws, |items|);
    if l in res[b] {
      SubsetOfSameSize({a, b}, Holders(res, l));
    }
  }

  // Sets that do not meet are exclusive.
  lemma DisjointIsSpread<I, L>(items: seq<L>, c0: nat, draws: nat, res: Placement<I, L>, cur: nat, excl: int)
    requires DealtOut(items, c0, draws, res, cur) && draws <= |items|
    requires forall x :: x in res ==> res[x] != {} && res[x] <= Elems(items)
    ensures Spread(res, excl)
  {
    forall a, b | a in res && b in res && b != a
      ensures res[b] != res[a]
    {
      var l :| l in res[a];
      assert l in Elems(items);
      HeldOnce(items, c0, draws, res, cur, a, b, l);
    }
    assert Exclusives(res) == res.Keys;
  }

  lemma HandSize<L>(items: seq<L>, c0: nat, k: nat)
    requires c0 < |items| && k <= |items| && Distinct(items)
    ensures |Hand(items, c0, k)| == k && Hand(items, c0, k) <= Elems(items)
  {
    if k > 0 {
      HandSize(items, c0, k - 1);
      HandOneMore(items, c0, k - 1);
    }
  }

  /** As long as the turn lasts, a fresh item is dealt locations nobody else has. */
  lemma FreshIsAccepted<I, L>(p: Problem<I, L>, c0: nat, draws: nat, res: Placement<I, L>, cur: nat)
    requires DealtOut(p.items, c0, draws, res, cur) && Distinct(p.items) && p.it !in res && cur < |p.items|
    requires p.dests == Elems(p.items) && draws + Max(p.min, 0) <= |p.items|
    requires forall x :: x in res ==> res[x] <= Elems(p.items) && |res[x]| == Max(p.min, 0)
    ensures Accepts(p, res[p.it := {}], cur)
  {
    hide Spread, Hand, DealtOut, Elems;
    forall j: nat | j <= |p.items| && 1 <= |Hand(p.items, cur, j) * p.dests| <= p.min
      ensures Spread(res[p.it := {}][p.it := Hand(p.items, cur, j) * p.dests], p.excl)
    {
      HandSize(p.items, cur, j);
      assert Hand(p.items, cur, j) * p.dests == Hand(p.items, cur, j);
      var res' := res[p.it := Hand(p.items, cur, j)];
      assert res[p.it := {}][p.it := Hand(p.items, cur, j) * p.dests] == res';
      DealtToOneMore(p.items, c0, draws, res, cur, j, p.it, res');
      DisjointIsSpread(p.items, c0, draws + j, res', Spin(cur, j, |p.items|), p.excl);
    }
  }

  // Without exclusivity anything is accepted.
  lemma AnythingIsAccepted<I, L>(p: Problem<I, L>, res0: Placement<I, L>, c0: nat)
    requires p.excl <= 0 && c0 < |p.items|
    ensures Accepts(p, res0, c0)
  {
    hide Spread, Hand;
    forall j: nat | j <= |p.items| && 1 <= |Hand(p.items, c0, j) * p.dests| <= p.min
      ensures Spread(res0[p.it := Hand(p.items, c0, j) * p.dests], p.excl)
    {
      NothingIsUndone(res0[p.it := Hand(p.items, c0, j) * p.dests], p.excl);
    }
  }

  lemma FilledNew<I, L>(p: Problem<I, L>, before: map<L, int>, res0: Placement<I, L>, c0: nat, prios: map<L, int>,
                        res: Placement<I, L>, cur: nat)
    requires Filled(p, before, res0, c0, prios, res, cur) && NewItem(p, before, res0, c0)
    ensures prios == map[] && c0 < |p.items| && cur == Moved(p.items, p.dests, c0, p.min)
    ensures res == res0[p.it := Portion(p.items, p.dests, c0, p.min)]
  {
    hide Spread, NewItem, Portion, Moved;
  }

  // What a fresh item gets is as much as it needs.
  lemma {:induction false} PortionSize<L>(turn: seq<L>, dests: set<L>, m: int)
    requires Distinct(turn) && m <= |Elems(turn) * dests|
    ensures |Elems(turn[..DrawsFor(turn, dests, m)]) * dests| == Max(m, 0)
    decreases turn
  {
    hide Elems;
    if m <= 0 || turn == [] {
      NothingDrawn(turn, dests);
      assert turn[..|turn|] == turn;
    } else {
      var rest, m' := turn[1..], if turn[0] in dests then m - 1 else m;
      assert turn[..|turn|] == turn && rest[..|rest|] == rest && Distinct(rest);
      FirstDraw(turn, dests, |turn|);
      PortionSize(rest, dests, m');
      var k := DrawsFor(turn, dests, m);
      FirstDraw(turn, dests, k);
    }
  }

  lemma PortionHas<L>(items: seq<L>, dests: set<L>, c: nat, min: int)
    requires c < |items| && Distinct(items) && dests <= Elems(items) && min <= |dests|
    ensures |Portion(items, dests, c, min)| == Max(min, 0) && Portion(items, dests, c, min) <= dests
  {
    DistinctFrom(items, c);
    WholeHand(items, c);
    assert Elems(From(items, c)) * dests == dests;
    PortionSize(From(items, c), dests, min);
  }

  lemma NewFacts<I, L>(s: Placement<I, L>, dests: set<L>, items: seq<L>, min: int, excl: int)
    requires AllNew(s, dests, items, min, excl)
    ensures Distinct(items) && dests <= Elems(items) && min <= |dests|
  {
  }

  // The next item of an order takes its turn.
  lemma NextInTurn<I, L>(order: seq<I>, i: nat, items: seq<L>, dests: set<L>, min: int, c0: nat, res: Placement<I, L>,
                         cur: nat)
    requires i < |order| && InTurn(order[..i], items, dests, min, c0, res, cur) && order[i] !in res
    requires cur < |items|
    ensures InTurn(order[..i + 1], items, dests, min, c0, res[order[i] := Portion(items, dests, cur, min)],
                   Moved(items, dests, cur, min))
  {
    hide InTurn, Portion, Moved;
    assert order[..i + 1] == order[..i] + [order[i]];
    InTurnOneMore(order[..i], items, dests, min, c0, res, cur, order[i]);
  }

  lemma NextSized<I, L>(res: Placement<I, L>, items: seq<L>, dests: set<L>, min: int, it: I, cur: nat)
    requires Sized(res, dests, min) && it !in res && cur < |items|
    requires Distinct(items) && dests <= Elems(items) && min <= |dests|
    ensures Sized(res[it := Portion(items, dests, cur, min)], dests, min)
  {
    hide Portion, Sized, Distinct, Elems;
    PortionHas(items, dests, cur, min);
    SizedOneMore(res, dests, min, it, Portion(items, dests, cur, min));
  }

  lemma NextNewItem<I, L>(s: Placement<I, L>, dests: set<L>, rrItems: seq<L>, min: int, excl: int, c0: nat,
                          order: seq<I>, i: nat, res: Placement<I, L>, it: I, cur: nat)
    requires NewStage(s, dests, rrItems, min, excl, c0, order, 0, i, map[], res, cur) && i < |order| && order[i] == it
    requires it !in res && cur < |rrItems|
    ensures NewStage(s, dests, rrItems, min, excl, c0, order, 0, i + 1, map[],
                     res[it := Portion(rrItems, dests, cur, min)], Moved(rrItems, dests, cur, min))
  {
    hide InTurn, Portion, Moved, Distinct, AllNew, Listed, Elems, Sized;
    NewFacts(s, dests, rrItems, min, excl);
    NextInTurn(order, i, rrItems, dests, min, c0, res, cur);
    NextSized(res, rrItems, dests, min, it, cur);
  }

  /** Every item has enough copies already. */
  ghost predicate AllStocked<I, L>(s: Placement<I, L>, dests: set<L>, min: int, excl: int) {
    forall it :: it in s ==> Stocked(s[it], dests, min, excl)
  }

  /** Every item can be filled from what it has and what the sequence deals. */
  ghost predicate AllFillable<I, L>(s: Placement<I, L>, dests: set<L>, items: seq<L>, min: int, excl: int) {
    forall it :: it in s ==> Fillable(s[it], dests, items, min, excl)
  }

  // ---------------------------------------------------------------- with exclusivity

  /** Every item has enough copies on destinations, and no two items share one. */
  ghost predicate Apart<I, L>(s: Placement<I, L>, dests: set<L>, min: int) {
    && min >= 1 && (forall it :: it in s ==> |s[it] * dests| >= min)
    && (forall x, y :: x in s && y in s && x != y ==> s[x] * dests !! s[y] * dests)
  }

  // Every item placed so far has `min` of its own copies.
  ghost predicate OwnStage<I, L>(s: Placement<I, L>, dests: set<L>, min: int, res: Placement<I, L>) {
    forall x :: x in res ==> x in s && res[x] <= s[x] * dests && |res[x]| == min
  }

  lemma DisjointIsExclusive<I, L>(res: Placement<I, L>, excl: int)
    requires forall x :: x in res ==> res[x] != {}
    requires forall x, y :: x in res && y in res && x != y ==> res[x] !! res[y]
    ensures Spread(res, excl)
  {
    forall x, y | x in res && y in res && x != y
      ensures res[x] != res[y]
    {
      var l :| l in res[x];
    }
    assert Exclusives(res) == res.Keys && |res| == |res.Keys|;
  }

  lemma OwnEnters<I, L>(s: Placement<I, L>, p: Problem<I, L>, res: Placement<I, L>)
    requires Apart(s, p.dests, p.min) && OwnStage(s, p.dests, p.min, res)
    requires p.it in s && p.it !in res && p.got == s[p.it]
    ensures OwnFits(p, Entered(res, p.it))
  {
    hide Spread;
    forall r | r <= p.got * p.dests && r != {}
      ensures Spread(Entered(res, p.it)[p.it := r], p.excl)
    {
      DisjointIsExclusive(Entered(res, p.it)[p.it := r], p.excl);
    }
  }

  lemma OwnServes<I, L>(s: Placement<I, L>, p: Problem<I, L>, res: Placement<I, L>, before: map<L, int>, c0: nat,
                        prios: map<L, int>, res': Placement<I, L>, cur: nat)
    requires OwnFits(p, Entered(res, p.it)) && Filled(p, before, Entered(res, p.it), c0, prios, res', cur)
    requires OwnStage(s, p.dests, p.min, res) && p.it in s && p.got == s[p.it]
    ensures OwnStage(s, p.dests, p.min, res') && prios == before && cur == c0
  {
    hide Spread, OwnFits, NewItem;
    assert p.min >= 1 by { OwnAsks(p, Entered(res, p.it)); }
  }

  lemma OwnAsks<I, L>(p: Problem<I, L>, res0: Placement<I, L>)
    requires OwnFits(p, res0)
    ensures p.min >= 1
  {
  }

  // The item that comes first is full once it has come up.
  ghost predicate FirstFull<I, L>(items: seq<I>, min: int, res: Placement<I, L>) {
    items != [] && items[0] in res ==> |res[items[0]]| == Max(min, 0)
  }

  // No two items hold the same, except nothing.
  ghost predicate Unlike<I, L>(res: Placement<I, L>) {
    forall x, y :: x in res && y in res && x != y && res[x] == res[y] ==> res[x] == {}
  }

  ghost predicate Orderly<I, L>(items: seq<I>, min: int, excl: int, res: Placement<I, L>) {
    FirstFull(items, min, res) && (|items| <= 3 && excl >= 2 ==> Unlike(res))
  }

  // Of three items, two exclusive ones leave no room for two alike.
  lemma SpreadIsUnlike<I, L>(res: Placement<I, L>, excl: int)
    requires Spread(res, excl) && |res| <= 3 && excl >= 2
    ensures Unlike(res)
  {
    forall x, y | x in res && y in res && x != y
      ensures res[x] != res[y]
    {
      if res[x] == res[y] {
        var rest := res.Keys - {x, y};
        assert res.Keys == rest + {x, y} && |res| == |res.Keys| == |rest| + 2;
        SubsetOfSameSize(Exclusives(res), rest);
      }
    }
  }

  lemma EnteredIsUnlike<I, L>(res: Placement<I, L>, it: I)
    requires Unlike(res)
    ensures Unlike(Entered(res, it))
  {
  }

  lemma StaysOrderly<I, L>(items: seq<I>, i: nat, p: Problem<I, L>, before: map<L, int>, res: Placement<I, L>, c0: nat,
                           prios: map<L, int>, res': Placement<I, L>, cur: nat)
    requires i < |items| && p.it == items[i] && Distinct(items) && Orderly(items, p.min, p.excl, res)
    requires if p.pass == 0 then res.Keys == Elems(items[..i]) else res.Keys == Elems(items)
    requires Filled(p, before, Entered(res, p.it), c0, prios, res', cur)
    ensures Orderly(items, p.min, p.excl, res')
  {
    hide Spread, NewItem, OwnFits, Unlike;
    if p.pass == 0 && i == 0 {
      assert items[..0] == [] && Entered(res, p.it).Keys == {p.it};
      assert |Entered(res, p.it)| == |Entered(res, p.it).Keys|;
    }
    assert FirstFull(items, p.min, res');
    if |items| <= 3 && p.excl >= 2 {
      EnteredIsUnlike(res, p.it);
      AtMostItems(items, res'.Keys);
      assert |res'| == |res'.Keys|;
      if Spread(res', p.excl) {
        SpreadIsUnlike(res', p.excl);
      }
    }
  }

  lemma {:induction false} AtMostItems<I>(items: seq<I>, keys: set<I>)
    requires forall x :: x in keys ==> x in items
    ensures |keys| <= |items|
  {
    if items != [] {
      var n := |items| - 1;
      AtMostItems(items[..n], keys - {items[n]});
      SubsetOfSameSize(keys, (keys - {items[n]}) + {items[n]});
    }
  }

  // Whatever the item is given, the others stay different from one another.
  ghost predicate OthersUnlike<I, L>(res: Placement<I, L>, it: I) {
    forall x, y :: x in res && y in res && x != y && x != it && y != it ==> res[x] != res[y]
  }

  // The item would hold what x holds.
  ghost predicate Matches<I, L>(res: Placement<I, L>, it: I, l: L, x: I) {
    it in res && x in res && x != it && l in res[x] && res[x] - {l} <= res[it]
  }

  /** A destination is refused only for making the item like another one. */
  lemma RefusedMatches<I, L>(res: Placement<I, L>, it: I, l: L, excl: int)
    requires Refused(res, it, l, excl) && (excl <= 1 || OthersUnlike(res, it))
    ensures exists x :: Matches(res, it, l, x)
  {
    hide Spread;
    var r :| r <= res[it] && !Spread(res[it := r + {l}], excl);
    if x :| x in res && x != it && res[x] == r + {l} {
      assert Matches(res, it, l, x);
    } else {
      UniqueSpreads(res[it := r + {l}], it, excl);
    }
  }

  lemma UniqueSpreads<I, L>(res: Placement<I, L>, it: I, excl: int)
    requires it in res && forall x :: x in res && x != it ==> res[x] != res[it]
    requires excl <= 1 || OthersUnlike(res, it)
    ensures Spread(res, excl)
  {
    assert |res| == |res.Keys|;
    SubsetOfSameSize({it}, Exclusives(res));
    if excl > 1 {
      assert Exclusives(res) == res.Keys;
    }
  }

  lemma OneEach<I, L>(res: Placement<I, L>, it: I, l: L, l': L, x: I)
    requires Matches(res, it, l, x) && Matches(res, it, l', x) && l != l'
    ensures l in res[it]
  {
    assert l in res[x] - {l'};
  }

  // Two destinations the item lacks cannot both match the same other item.
  lemma {:induction false} FewMatch<I, L>(res: Placement<I, L>, it: I, lacks: set<L>, others: set<I>)
    requires it in res && lacks !! res[it]
    requires forall l :: l in lacks ==> exists x :: x in others && Matches(res, it, l, x)
    ensures |lacks| <= |others|
    decreases |others|
  {
    if others != {} {
      var x :| x in others;
      if l :| l in lacks && Matches(res, it, l, x) {
        forall l' | l' in lacks - {l}
          ensures exists y :: y in others - {x} && Matches(res, it, l', y)
        {
          var y :| y in others && Matches(res, it, l', y);
          if y == x {
            OneEach(res, it, l, l', x);
          }
        }
        FewMatch(res, it, lacks - {l}, others - {x});
      } else {
        FewMatch(res, it, lacks, others - {x});
      }
    } else {
      assert forall l :: l !in lacks;
    }
  }

  /** An item for which nothing is left: there are fewer destinations than copies for it and one more per other item. */
  lemma BlockedIsFew<I, L>(dests: set<L>, excl: int, it: I, res: Placement<I, L>, min: int)
    requires Blocked(dests, excl, it, res) && |res[it]| < min && (excl <= 1 || OthersUnlike(res, it))
    ensures |dests| < min + |res| - 1
  {
    hide Refused, Matches, OthersUnlike;
    var lacks, others := dests - res[it], res.Keys - {it};
    forall l | l in lacks
      ensures exists x :: x in others && Matches(res, it, l, x)
    {
      RefusedMatches(res, it, l, excl);
      var x :| Matches(res, it, l, x);
      MatchIsOther(res, it, l, x);
    }
    FewMatch(res, it, lacks, others);
    SubsetOfSameSize(dests, lacks + res[it]);
    assert |res| == |res.Keys| && res.Keys == others + {it};
  }

  lemma MatchIsOther<I, L>(res: Placement<I, L>, it: I, l: L, x: I)
    requires Matches(res, it, l, x)
    ensures x in res.Keys - {it}
  {
  }

  // In the second pass.
  lemma ShortIsFew<I, L>(items: seq<I>, min: int, excl: int, dests: set<L>, it: I, res0: Placement<I, L>,
                         res: Placement<I, L>)
    requires Orderly(items, min, excl, res0) && res0.Keys == Elems(items) && Distinct(items) && |res0| == |items|
    requires Grows(it, res0, res) && |res[it]| < min && Blocked(dests, excl, it, res)
    requires |items| <= 3 || excl <= 1
    ensures |dests| < min + |items| - 1
  {
    hide Blocked;
    GrowsSize(it, res0, res);
    if excl > 1 {
      SubsetOfSameSize(res0[it], res[it]);
      assert items[0] in res0 && it != items[0];
      forall x, y | x in res && y in res && x != y && x != it && y != it
        ensures res[x] != res[y]
      {
        OneIsFirst(items, it, x, y);
      }
    }
    BlockedIsFew(dests, excl, it, res, min);
  }

  lemma OneIsFirst<I>(items: seq<I>, it: I, x: I, y: I)
    requires |items| <= 3 && it in items && x in items && y in items && it != x && it != y && x != y
    requires it != items[0]
    ensures x == items[0] || y == items[0]
  {
  }

  /** The moves of a whole pass, or of one that came short. */
  ghost predicate PassPlays<I, L>(inp: Input<I, L>, pass: nat, before: map<L, int>, res0: Placement<I, L>, c0: nat,
                                  moves: seq<Move<L>>, short: bool, prios: map<L, int>, res: Placement<I, L>, cur: nat)
  {
    inp.order != [] ==>
      && Ordered(inp)
      && Plays(inp, Enter(inp, pass, 0, before, res0, c0), moves,
               if short then CameShort else Advance(inp, pass, |inp.order| - 1, Search({}, {}, prios, res, cur)))
  }

  lemma EmptyPlays<I, L>(inp: Input<I, L>, pass: nat, before: map<L, int>, res0: Placement<I, L>, c0: nat,
                         moves: seq<Move<L>>, prios: map<L, int>, res: Placement<I, L>, cur: nat)
    ensures inp.order == [] ==> PassPlays(inp, pass, before, res0, c0, moves, false, prios, res, cur)
  {
  }

  lemma PassIsPlayed<I, L>(inp: Input<I, L>, pass: nat, before: map<L, int>, res0: Placement<I, L>, c0: nat,
                           moves: seq<Move<L>>, short: bool, prios: map<L, int>, res: Placement<I, L>, cur: nat)
    requires Ordered(inp) && inp.order != []
    requires Plays(inp, Enter(inp, pass, 0, before, res0, c0), moves,
                   if short then CameShort else Advance(inp, pass, |inp.order| - 1, Search({}, {}, prios, res, cur)))
    ensures PassPlays(inp, pass, before, res0, c0, moves, short, prios, res, cur)
  {
  }

  /** stripe.go:38-105: one pass over the items. */
  method Pass<I(==), L(==)>(s: Placement<I, L>, items: seq<I>, dests: set<L>, rr: RR<L>, before: map<L, int>,
                            res0: Placement<I, L>, min: int, excl: int, pass: nat, ghost c0: nat)
    returns (short: bool, prios: map<L, int>, res: Placement<I, L>, ghost moves: seq<Move<L>>)
    requires rr.Valid() && Patient(before) && pass < 2
    requires Priorities(before, rr.items) || AllFillable(s, dests, rr.items, min, excl) || Apart(s, dests, min)
    requires Stage(s, dests, items, min, excl, pass, 0, res0) && Orderly(items, min, excl, res0)
    requires Apart(s, dests, min) ==> OwnStage(s, dests, min, res0)
    requires AllNew(s, dests, rr.items, min, excl) ==>
        NewStage(s, dests, rr.items, min, excl, c0, items, pass, 0, before, res0, rr.cur)
    modifies rr
    ensures AllNew(s, dests, rr.items, min, excl) ==>
        !short && NewStage(s, dests, rr.items, min, excl, c0, items, pass, |items|, prios, res, rr.cur)
    ensures rr.Valid() && Patient(prios) && (Priorities(before, rr.items) ==> Priorities(prios, rr.items))
    ensures AllStocked(s, dests, min, excl) ==> !short
    ensures AllFillable(s, dests, rr.items, min, excl) && Distinct(rr.items) ==> !short
    ensures excl <= 0 && pass == 0 && !short ==> AllFillable(s, dests, rr.items, min, excl)
    ensures !short ==> Stage(s, dests, items, min, excl, pass, |items|, res)
    ensures short ==> items != [] && min > 0
    ensures short && Distinct(rr.items) ==> Stuck(dests * Elems(rr.items), min, excl, res)
    ensures short && Distinct(rr.items) && dests <= Elems(rr.items) ==>
        && (pass == 0 || excl <= 0 ==> |dests| < min)
        && (|items| <= 3 || excl <= 1 ==> |dests| < min + |items| - 1)
    ensures !short ==> Orderly(items, min, excl, res)
    ensures Apart(s, dests, min) ==>
        !short && OwnStage(s, dests, min, res) && prios == before && rr.cur == old(rr.cur)
    // the very steps of the call
    ensures PassPlays(Input(s, dests, rr.items, min, excl, items), pass, before, res0, old(rr.cur), moves, short, prios,
                      res, rr.cur)
  {
    hide Partial, Filled, Kept, DealtOut, AllNew, NewItem, Accepts, Stage, Priorities, Patient, Needed, Fillable;
    hide NewStage, InTurn, Distinct, Apart, OwnStage, Orderly, OwnFits, Ends, Blocked, Grows, Elems;
    hide Ordered, Plays, Advance, Enter, PassPlays, Stuck, Spread, WellServed, OneMore;
    short, prios, res, moves := false, before, res0, [];
    var i := 0;
    ghost var inp := Input(s, dests, rr.items, min, excl, items);
    StageIsOrdered(s, dests, items, min, excl, pass, 0, res, rr.items);
    ghost var x0 := if items == [] then CameShort else Enter(inp, pass, 0, before, res0, rr.cur);
    PlaysNothing(inp, x0);
    EmptyPlays(inp, pass, before, res0, rr.cur, moves, prios, res, rr.cur);
    while i < |items|
      invariant 0 <= i <= |items| && rr.Valid() && Patient(prios)
      invariant Priorities(before, rr.items) ==> Priorities(prios, rr.items)
      invariant excl <= 0 && pass == 0 ==>
                  forall j :: 0 <= j < i ==> items[j] in s && Fillable(s[items[j]], dests, rr.items, min, excl)
      invariant Stage(s, dests, items, min, excl, pass, i, res) && Orderly(items, min, excl, res)
      invariant Apart(s, dests, min) ==> OwnStage(s, dests, min, res) && prios == before && rr.cur == old(rr.cur)
      invariant i < |items| ==> Plays(inp, x0, moves, Enter(inp, pass, i, prios, res, rr.cur))
      invariant i == |items| ==> PassPlays(inp, pass, before, res0, old(rr.cur), moves, false, prios, res, rr.cur)
      invariant AllNew(s, dests, rr.items, min, excl) ==>
          NewStage(s, dests, rr.items, min, excl, c0, items, pass, i, prios, res, rr.cur)
    {
      var it := items[i];
      EnteredFits(s, dests, items, min, excl, pass, i, res, it, prios, rr.items, rr.cur, c0);
      var res1 := res;
      if it !in res1 {
        res1 := res1[it := {}];
      }
      ghost var prios0, cur0 := prios, rr.cur;
      ghost var p := Problem(it, s[it], dests, rr.items, min, excl, pass);
      SearchEnds(s, p, res, prios);
      var res';
      ghost var more;
      EnterIs(inp, pass, i, prios, res, rr.cur);
      short, prios, res', more := Fill(it, s[it], dests, rr, prios, res1, min, excl, pass, inp, i);
      PlaysThen(inp, x0, moves, Enter(inp, pass, i, prios0, res, cur0), more,
                if short then CameShort else Advance(inp, pass, i, Search({}, {}, prios, res', rr.cur)));
      moves := moves + more;
      if short {
        if Distinct(rr.items) {
          PassIsShort(s, items, i, p, res, res');
        }
        res := res';
        PassIsPlayed(inp, pass, before, res0, old(rr.cur), moves, short, prios, res, rr.cur);
        return;
      }
      ItemPasses(s, items, i, p, prios0, res, cur0, prios, res', rr.cur, c0);
      AdvanceIs(inp, pass, i, Search({}, {}, prios, res', rr.cur));
      if i + 1 == |items| {
        PassIsPlayed(inp, pass, before, res0, old(rr.cur), moves, short, prios, res', rr.cur);
      }
      res := res';
      i := i + 1;
    }
    if excl <= 0 && pass == 0 {
      AllAreFillable(s, dests, items, min, excl, pass, res, rr.items);
    }
  }

  lemma StageIsOrdered<I, L>(s: Placement<I, L>, dests: set<L>, items: seq<I>, min: int, excl: int, pass: nat, i: nat,
                             res: Placement<I, L>, rrItems: seq<L>)
    requires Stage(s, dests, items, min, excl, pass, i, res)
    ensures Ordered(Input(s, dests, rrItems, min, excl, items))
  {
    hide Partial;
  }

  lemma EnterIs<I, L>(inp: Input<I, L>, pass: nat, i: nat, prios: map<L, int>, res: Placement<I, L>, cur: nat)
    requires Ordered(inp) && i < |inp.order|
    ensures var it := inp.order[i];
      && it in inp.s
      && Enter(inp, pass, i, prios, res, cur) ==
         Searching(pass, i, Search(inp.s[it], {}, prios, Entered(res, it), cur))
      && ProblemAt(inp, pass, i) == Problem(it, inp.s[it], inp.dests, inp.items, inp.min, inp.excl, pass)
  {
  }

  lemma AdvanceIs<I, L>(inp: Input<I, L>, pass: nat, i: nat, a: Search<I, L>)
    requires Ordered(inp) && i < |inp.order|
    ensures i + 1 < |inp.order| ==> Advance(inp, pass, i, a) == Enter(inp, pass, i + 1, a.prios, a.res, a.cur)
    ensures i + 1 == |inp.order| && pass == 0 ==> Advance(inp, pass, i, a) == Enter(inp, 1, 0, a.prios, a.res, a.cur)
    ensures i + 1 == |inp.order| && pass > 0 ==> Advance(inp, pass, i, a) == Served(a.res)
  {
  }

  /** Some item has fewer than `min` locations, and nothing is left for it. */
  ghost predicate Stuck<I, L>(dests: set<L>, min: int, excl: int, res: Placement<I, L>) {
    exists it :: it in res && |res[it]| < min && Blocked(dests, excl, it, res)
  }

  lemma StageKeys<I, L>(s: Placement<I, L>, dests: set<L>, items: seq<I>, min: int, excl: int, pass: nat, i: nat,
                        res: Placement<I, L>)
    requires Stage(s, dests, items, min, excl, pass, i, res)
    ensures Distinct(items) && |items| == |s| && i <= |items| && Elems(items) == s.Keys
    ensures if pass == 0 then res.Keys == Elems(items[..i]) else res.Keys == Elems(items)
  {
    hide Partial;
  }

  // The search for the next item ends.
  lemma SearchEnds<I, L>(s: Placement<I, L>, p: Problem<I, L>, res: Placement<I, L>, prios: map<L, int>)
    requires p.it in s && p.got == s[p.it]
    requires
      || Priorities(prios, p.items) || AllFillable(s, p.dests, p.items, p.min, p.excl)
      || (Apart(s, p.dests, p.min) && OwnStage(s, p.dests, p.min, res))
    ensures Ends(p, Entered(res, p.it), prios)
    ensures Apart(s, p.dests, p.min) && OwnStage(s, p.dests, p.min, res) ==>
        if p.it in res then |res[p.it]| >= p.min else OwnFits(p, Entered(res, p.it))
  {
    hide OwnFits, Fillable, Priorities;
    if Apart(s, p.dests, p.min) && OwnStage(s, p.dests, p.min, res) && p.it !in res {
      OwnEnters(s, p, res);
    }
  }

  lemma OwnPasses<I, L>(s: Placement<I, L>, p: Problem<I, L>, res: Placement<I, L>, before: map<L, int>, c0: nat,
                        prios: map<L, int>, res': Placement<I, L>, cur: nat)
    requires OwnStage(s, p.dests, p.min, res) && p.it in s && p.got == s[p.it]
    requires if p.it in res then res' == res && prios == before && cur == c0 else OwnFits(p, Entered(res, p.it))
    requires Filled(p, before, Entered(res, p.it), c0, prios, res', cur)
    ensures OwnStage(s, p.dests, p.min, res') && prios == before && cur == c0
  {
    hide OwnStage, OwnFits, Filled;
    if p.it !in res {
      OwnServes(s, p, res, before, c0, prios, res', cur);
    }
  }

  lemma NewItemStarts<I, L>(p: Problem<I, L>, before: map<L, int>, res0: Placement<I, L>, c0: nat)
    requires NewItem(p, before, res0, c0)
    ensures c0 < |p.items|
  {
  }

  // One more item is served.
  lemma ItemPasses<I, L>(s: Placement<I, L>, items: seq<I>, i: nat, p: Problem<I, L>, before: map<L, int>,
                         res: Placement<I, L>, cur0: nat, prios: map<L, int>, res': Placement<I, L>, cur: nat, c0: nat)
    requires i < |items| && p.it == items[i] && p.it in s && p.got == s[p.it]
    requires Stage(s, p.dests, items, p.min, p.excl, p.pass, i, res) && Orderly(items, p.min, p.excl, res)
    requires Filled(p, before, Entered(res, p.it), cur0, prios, res', cur)
    requires p.it in res && |res[p.it]| >= p.min ==> res' == res && prios == before && cur == cur0
    requires Apart(s, p.dests, p.min) ==>
        OwnStage(s, p.dests, p.min, res) && if p.it in res then |res[p.it]| >= p.min else OwnFits(p, Entered(res, p.it))
    requires AllNew(s, p.dests, p.items, p.min, p.excl) ==>
        if p.pass == 0 then
          && NewStage(s, p.dests, p.items, p.min, p.excl, c0, items, 0, i, before, res, cur0) && before == map[]
          && p.it !in res && NewItem(p, map[], Entered(res, p.it), cur0)
        else
          && NewStage(s, p.dests, p.items, p.min, p.excl, c0, items, p.pass, i + 1, before, res, cur0)
          && p.it in res && |res[p.it]| >= p.min
    ensures Stage(s, p.dests, items, p.min, p.excl, p.pass, i + 1, res') && Orderly(items, p.min, p.excl, res')
    ensures Apart(s, p.dests, p.min) ==> OwnStage(s, p.dests, p.min, res') && prios == before && cur == cur0
    ensures AllNew(s, p.dests, p.items, p.min, p.excl) ==>
        NewStage(s, p.dests, p.items, p.min, p.excl, c0, items, p.pass, i + 1, prios, res', cur)
  {
    hide Stage, Orderly, Filled, Apart, OwnStage, OwnFits, AllNew, NewStage, NewItem, Elems;
    StageKeys(s, p.dests, items, p.min, p.excl, p.pass, i, res);
    StaysOrderly(items, i, p, before, res, cur0, prios, res', cur);
    if Apart(s, p.dests, p.min) {
      OwnPasses(s, p, res, before, cur0, prios, res', cur);
    }
    NextItem(s, items, i, res, p, before, cur0, prios, res', cur);
    if p.pass == 0 && AllNew(s, p.dests, p.items, p.min, p.excl) {
      NewItemStarts(p, map[], Entered(res, p.it), cur0);
      FilledNew(p, map[], Entered(res, p.it), cur0, prios, res', cur);
      NextNewItem(s, p.dests, p.items, p.min, p.excl, c0, items, i, res, p.it, cur0);
      assert Entered(res, p.it)[p.it := res'[p.it]] == res[p.it := res'[p.it]];
    }
  }

  lemma PassIsShort<I, L>(s: Placement<I, L>, items: seq<I>, i: nat, p: Problem<I, L>, res: Placement<I, L>,
                          res': Placement<I, L>)
    requires Stage(s, p.dests, items, p.min, p.excl, p.pass, i, res) && i < |items| && p.it == items[i]
    requires Orderly(items, p.min, p.excl, res) && (p.pass > 0 ==> p.it in res)
    requires Grows(p.it, Entered(res, p.it), res') && p.it in res' && |res'[p.it]| < p.min
    requires Blocked(p.dests * Elems(p.items), p.excl, p.it, res')
    requires (p.pass == 0 || p.excl <= 0) && p.dests <= Elems(p.items) ==> |p.dests| < p.min
    ensures Stuck(p.dests * Elems(p.items), p.min, p.excl, res')
    ensures p.dests <= Elems(p.items) && (|items| <= 3 || p.excl <= 1) ==> |p.dests| < p.min + |items| - 1
  {
    hide Blocked, Orderly, Stage, Elems;
    StageKeys(s, p.dests, items, p.min, p.excl, p.pass, i, res);
    if p.pass > 0 && p.dests <= Elems(p.items) && (|items| <= 3 || p.excl <= 1) {
      assert p.dests * Elems(p.items) == p.dests;
      assert |res| == |res.Keys| && |s| == |s.Keys|;
      ShortIsFew(items, p.min, p.excl, p.dests, p.it, res, res');
    }
  }

  // Every item is in the list.
  lemma AllAreFillable<I, L>(s: Placement<I, L>, dests: set<L>, items: seq<I>, min: int, excl: int, pass: nat,
                             res: Placement<I, L>, rrItems: seq<L>)
    requires Stage(s, dests, items, min, excl, pass, |items|, res)
    requires forall j :: 0 <= j < |items| ==> items[j] in s && Fillable(s[items[j]], dests, rrItems, min, excl)
    ensures AllFillable(s, dests, rrItems, min, excl)
  {
    hide Partial, Fillable;
    assert forall it :: it in s ==> it in items;
  }

  lemma EnteredFits<I, L>(s: Placement<I, L>, dests: set<L>, items: seq<I>, min: int, excl: int, pass: nat, i: nat,
                          res: Placement<I, L>, it: I, prios: map<L, int>, rrItems: seq<L>, cur: nat, c0: nat)
    requires Stage(s, dests, items, min, excl, pass, i, res) && i < |items| && items[i] == it
    ensures it in s
    ensures Entered(res, it)[it] <= dests && |Entered(res, it)[it]| <= Max(min, 0)
    ensures pass > 0 || it !in res
    ensures pass > 0 ==> it in res
    ensures pass == 0 ==> Entered(res, it)[it] == {}
    ensures pass > 0 && (excl <= 0 || min <= 0) ==> |res[it]| >= min
    ensures AllStocked(s, dests, min, excl) ==> Stocked(s[it], dests, min, excl) && (pass > 0 ==> |res[it]| >= min)
    ensures AllFillable(s, dests, rrItems, min, excl) ==>
        Fillable(s[it], dests, rrItems, min, excl) && (pass > 0 ==> |res[it]| >= min)
    ensures NewStage(s, dests, rrItems, min, excl, c0, items, pass, i, prios, res, cur) ==> prios == map[]
    ensures pass > 0 && NewStage(s, dests, rrItems, min, excl, c0, items, pass, i, prios, res, cur) ==>
        |res[it]| >= min && NewStage(s, dests, rrItems, min, excl, c0, items, pass, i + 1, prios, res, cur)
    ensures pass == 0 && NewStage(s, dests, rrItems, min, excl, c0, items, pass, i, prios, res, cur) ==>
        NewItem(Problem(it, s[it], dests, rrItems, min, excl, pass), prios, Entered(res, it), cur)
  {
    hide Stage, NewStage, NewItem, Spread, Stocked, Fillable;
    if pass == 0 {
      EntersFresh(s, dests, items, min, excl, i, res, it);
      if NewStage(s, dests, rrItems, min, excl, c0, items, 0, i, prios, res, cur) {
        EntersNew(s, dests, rrItems, min, excl, c0, items, i, prios, res, cur, it);
      }
    } else {
      EntersAgain(s, dests, items, min, excl, pass, i, res, it);
      if AllFillable(s, dests, rrItems, min, excl) {
        FillableAsks(s[it], dests, rrItems, min, excl);
      }
      if NewStage(s, dests, rrItems, min, excl, c0, items, pass, i, prios, res, cur) {
        NewStageIsFull(s, dests, rrItems, min, excl, c0, items, pass, i, prios, res, cur, it);
      }
    }
  }

  lemma FillableAsks<L>(got: set<L>, dests: set<L>, items: seq<L>, min: int, excl: int)
    requires Fillable(got, dests, items, min, excl)
    ensures excl <= 0 || min <= 0
  {
  }

  // In pass 0 an item comes up for the first time.
  lemma EntersFresh<I, L>(s: Placement<I, L>, dests: set<L>, items: seq<I>, min: int, excl: int, i: nat,
                          res: Placement<I, L>, it: I)
    requires Stage(s, dests, items, min, excl, 0, i, res) && i < |items| && items[i] == it
    ensures it in s && it !in res && Entered(res, it)[it] == {}
    ensures AllStocked(s, dests, min, excl) ==> Stocked(s[it], dests, min, excl)
  {
    hide Partial, Stocked;
    assert it in items;
    assert it !in items[..i];
  }

  // In pass 1 it is there, and without exclusivity it has all it needs.
  lemma EntersAgain<I, L>(s: Placement<I, L>, dests: set<L>, items: seq<I>, min: int, excl: int, pass: nat, i: nat,
                          res: Placement<I, L>, it: I)
    requires Stage(s, dests, items, min, excl, pass, i, res) && i < |items| && items[i] == it && pass > 0
    ensures it in s && it in res && res[it] <= dests && |res[it]| <= Max(min, 0)
    ensures excl <= 0 || min <= 0 ==> |res[it]| >= min
    ensures AllStocked(s, dests, min, excl) ==> Stocked(s[it], dests, min, excl) && |res[it]| >= min
  {
    hide Spread;
    assert it in items;
  }

  lemma NewStageIsFull<I, L>(s: Placement<I, L>, dests: set<L>, rrItems: seq<L>, min: int, excl: int, c0: nat,
                             order: seq<I>, pass: nat, i: nat, prios: map<L, int>, res: Placement<I, L>, cur: nat,
                             it: I)
    requires NewStage(s, dests, rrItems, min, excl, c0, order, pass, i, prios, res, cur) && it in res
    requires pass > 0 && i < |order|
    ensures |res[it]| >= min && prios == map[]
    ensures NewStage(s, dests, rrItems, min, excl, c0, order, pass, i + 1, prios, res, cur)
  {
    hide AllNew, InTurn, Listed;
  }

  lemma EntersNew<I, L>(s: Placement<I, L>, dests: set<L>, rrItems: seq<L>, min: int, excl: int, c0: nat,
                        order: seq<I>, i: nat, prios: map<L, int>, res: Placement<I, L>, cur: nat, it: I)
    requires NewStage(s, dests, rrItems, min, excl, c0, order, 0, i, prios, res, cur)
    requires i < |order| && it in s && it !in res
    ensures NewItem(Problem(it, s[it], dests, rrItems, min, excl, 0), prios, Entered(res, it), cur) && prios == map[]
  {
    hide Accepts, Needed, Distinct, Portion, CursorAt;
    var p := Problem(it, s[it], dests, rrItems, min, excl, 0);
    if excl <= 0 {
      AnythingIsAccepted(p, res[it := {}], cur);
    } else {
      FirstAreDistinct(order, i);
      NeededGrows(i + 1, |order|, min);
      NeededOneMore(i, min);
      DestsAreItems(rrItems, dests);
      InTurnIsDealt(order[..i], rrItems, min, c0, res, cur);
      FreshIsAccepted(p, c0, Needed(i, min), res, cur);
    }
  }

  lemma FirstAreDistinct<I>(order: seq<I>, i: nat)
    requires Distinct(order) && i <= |order|
    ensures Distinct(order[..i])
  {
  }

  lemma NeededOneMore(i: nat, min: int)
    ensures Needed(i + 1, min) == Needed(i, min) + Max(min, 0)
  {
  }

  /** Without exclusivity a top-up adds exactly what is missing. */
  ghost predicate Exact<I, L>(s: Placement<I, L>, dests: set<L>, min: int, added: Placement<I, L>) {
    forall it :: it in s && it in added ==> Missing(s[it], dests, min, added[it])
  }

  // As many locations as an item that holds `got` lacks.
  ghost predicate Missing<L>(got: set<L>, dests: set<L>, min: int, locs: set<L>) {
    |locs| == Max(0, min - |got * dests|)
  }

  lemma DoneCorrect<I, L>(s: Placement<I, L>, dests: set<L>, items: seq<I>, min: int, excl: int, full: Placement<I, L>,
                          added: Placement<I, L>)
    requires Stage(s, dests, items, min, excl, 1, |items|, full)
    requires added.Keys == full.Keys && forall it :: it in full && it in s ==> added[it] == full[it] - s[it]
    ensures Correct(s, dests, min, excl, full, added)
  {
    hide Exclusives;
    assert items[..|items|] == items;
    if items == [] {
      assert full.Keys == {};
      assert full == map[];
    }
  }

  // Every item of s has been served.
  ghost predicate AllServed<I, L>(s: Placement<I, L>, dests: set<L>, min: int, excl: int, full: Placement<I, L>) {
    full.Keys == s.Keys && forall it :: it in s ==> WellServed(s[it], dests, min, excl, full[it])
  }

  lemma DoneExact<I, L>(s: Placement<I, L>, dests: set<L>, min: int, excl: int, full: Placement<I, L>,
                        added: Placement<I, L>)
    requires AllServed(s, dests, min, excl, full) && excl <= 0
    requires added.Keys == full.Keys && forall it :: it in full && it in s ==> added[it] == full[it] - s[it]
    ensures Exact(s, dests, min, added)
    ensures s != map[] ==> min <= |dests|
  {
    if s != map[] {
      var it :| it in s;
      SubsetOfSameSize(full[it], dests);
    }
  }

  // The sequence deals every destination that is in use.
  ghost predicate Dealable<I, L>(s: Placement<I, L>, dests: set<L>, items: seq<L>) {
    forall it, l :: it in s && l in s[it] && l in dests ==> l in items
  }

  /** What a call that succeeds promises; `full` is the whole placement, existing copies included. */
  ghost predicate Promised<I, L>(s: Placement<I, L>, dests: set<L>, items: seq<L>, min: int, excl: int, c0: nat,
                                 full: Placement<I, L>, added: Placement<I, L>, cur: nat)
  {
    && Correct(s, dests, min, excl, full, added)
    && (if items == [] then cur == 0 else cur < |items|)
    && (excl <= 0 ==> Exact(s, dests, min, added) && AllFillable(s, dests, items, min, excl))
    && (AllNew(s, dests, items, min, excl) ==> TakesTurns(s, dests, items, min, c0, full, cur))
    && (Apart(s, dests, min) ==> cur == c0 && forall it :: it in s && it in added ==> added[it] == {})
  }

  /** When a call may come up short. */
  ghost predicate MayBeShort<I, L>(s: Placement<I, L>, dests: set<L>, items: seq<L>, min: int, excl: int) {
    && s != map[] && min > 0 && !AllStocked(s, dests, min, excl) && !AllNew(s, dests, items, min, excl)
    && (excl <= 0 && Distinct(items) ==> !AllFillable(s, dests, items, min, excl))
    && !Apart(s, dests, min)
    && (Distinct(items) && dests <= Elems(items) && (|s| <= 3 || excl <= 1) ==> |dests| < min + |s| - 1)
  }

  lemma PromisedIsCorrect<I, L>(s: Placement<I, L>, dests: set<L>, items: seq<L>, min: int, excl: int, c0: nat,
                                full: Placement<I, L>, added: Placement<I, L>, cur: nat)
    requires Promised(s, dests, items, min, excl, c0, full, added, cur)
    ensures Correct(s, dests, min, excl, full, added)
  {
  }

  lemma MayBeShortIsNotNew<I, L>(s: Placement<I, L>, dests: set<L>, items: seq<L>, min: int, excl: int)
    requires MayBeShort(s, dests, items, min, excl)
    ensures !AllNew(s, dests, items, min, excl)
  {
  }

  /** How a call went: the order of its items, what its destinations were used for, and its moves. */
  datatype Story<!I, L> = Story(order: seq<I>, uses: map<L, int>, moves: seq<Move<L>>)

  /** The moves of the story are steps of a call on this input, and lead to this end. */
  ghost predicate Tells<I, L>(story: Story<I, L>, s: Placement<I, L>, dests: set<L>, items: seq<L>, min: int, excl: int,
                              c0: nat, end: CallState<I, L>)
  {
    var inp := Input(s, dests, items, min, excl, story.order);
    Ordered(inp) && Counts(story.uses, s, dests) && Plays(inp, Begin(inp, story.uses, c0), story.moves, end)
  }

  /** stripe.go:23-114. */
  method Stripe<I(==), L(==)>(s: Placement<I, L>, dests: set<L>, rr: RR<L>, min: int, excl: int)
    returns (outcome: Outcome<I, L>, ghost full: Placement<I, L>, ghost story: Story<I, L>)
    requires rr.Valid()
    // the sequence deals every destination in use, or every item can be filled; else the search may never end
    requires
      || Dealable(s, dests, rr.items) || AllFillable(s, dests, rr.items, min, excl) || Apart(s, dests, min)
    modifies rr
    ensures rr.Valid()
    ensures outcome.Placed? ==>
        Promised(s, dests, rr.items, min, excl, old(rr.cur), full, outcome.added, rr.cur)
    ensures outcome.ErrShort? ==> MayBeShort(s, dests, rr.items, min, excl)
    // without exclusivity: complete
    ensures excl <= 0 && Distinct(rr.items) ==>
        (outcome.ErrShort? <==> !AllFillable(s, dests, rr.items, min, excl))
    ensures excl <= 0 && Distinct(rr.items) && dests <= Elems(rr.items) ==>
        (outcome.ErrShort? <==> s != map[] && |dests| < min)
    // with exclusivity: an item is given up only when nothing is left for it
    ensures outcome.ErrShort? && Distinct(rr.items) ==> Stuck(dests * Elems(rr.items), min, excl, full)
    // of two items at most, exactly when there is no destination to tell them apart
    ensures excl >= 1 && min >= 1 && |s| <= 2 && Distinct(rr.items) && dests <= Elems(rr.items) ==>
        (outcome.ErrShort? <==> s != map[] && |dests| < min + |s| - 1)
    // fresh items over all the sequence deals: fair
    ensures AllNew(s, dests, rr.items, min, excl) && dests == Elems(rr.items) ==>
        outcome.Placed? && DealtOut(rr.items, old(rr.cur), Needed(|s|, min), full, rr.cur)
    // and the very steps of the call
    ensures Tells(story, s, dests, rr.items, min, excl, old(rr.cur),
                  if outcome.ErrShort? then CameShort else Served(full))
  {
    hide Exclusives, Dealt, Spin, Stage, DealtOut, Counts, Correct, Exact, AllServed, AllNew, NewStage, AllStocked;
    hide AllFillable, TakesTurns, Priorities, Patient, Dealable, InTurn, Listed, Needed, Elems, Distinct;
    hide Apart, OwnStage, Orderly, Stuck, Promised, MayBeShort, Plays, Ordered, Begin, Enter, Advance, Tells;
    hide PassPlays;
    var items, prios := CountUses(s, dests);
    ghost var c0, isNew := rr.cur, AllNew(s, dests, rr.items, min, excl);
    var res: Placement<I, L> := map[];
    full := map[];
    FirstStage(s, dests, items, min, excl, prios, rr.items, c0);
    ghost var uses, inp := prios, Input(s, dests, rr.items, min, excl, items);
    StageIsOrdered(s, dests, items, min, excl, 0, 0, res, rr.items);
    BeginIs(inp, uses, c0);
    var short;
    ghost var moves, more;
    short, prios, res, moves := Pass(s, items, dests, rr, prios, res, min, excl, 0, c0);
    story := Story(items, uses, if items == [] then [] else moves);
    if short {
      ShortAtOnce(inp, uses, c0, moves, prios, res, rr.cur);
      TellsIs(story, inp, c0, CameShort);
      full, outcome := res, ErrShort;
      ShortMay(s, dests, rr.items, min, excl);
      ShortFollows(s, dests, rr.items, min, excl);
      return;
    }
    NextPass(s, dests, items, min, excl, res);
    if isNew {
      NextNewPass(s, dests, rr.items, min, excl, c0, items, prios, res, rr.cur);
    }
    ghost var prios1, res1, cur1 := prios, res, rr.cur;
    short, prios, res, more := Pass(s, items, dests, rr, prios, res, min, excl, 1, c0);
    if items != [] {
      TwoPasses(inp, uses, c0, moves, prios1, res1, cur1, more, short, prios, res, rr.cur);
      story := Story(items, uses, moves + more);
    }
    if short {
      TellsIs(story, inp, c0, CameShort);
      full, outcome := res, ErrShort;
      ShortMay(s, dests, rr.items, min, excl);
      ShortFollows(s, dests, rr.items, min, excl);
      return;
    }
    if isNew {
      NewStageIsDealt(s, dests, rr.items, min, excl, c0, items, |items|, prios, res, rr.cur);
    }
    full := res;
    if items == [] {
      NothingServed(s, dests, items, min, excl, 1, 0, res);
      PlaysNothing(inp, Served(full));
    }
    TellsIs(story, inp, c0, Served(full));
    FinalKeys(s, dests, items, min, excl, full);
    var added := map it | it in res :: res[it] - s[it];
    outcome := Placed(added);
    DoneCorrect(s, dests, items, min, excl, full, added);
    DonePromised(s, dests, rr.items, min, excl, c0, full, added, rr.cur);
    PromisedFollows(s, dests, rr.items, min, excl, c0, full, added, rr.cur);
  }

  lemma BeginIs<I, L>(inp: Input<I, L>, uses: map<L, int>, c0: nat)
    requires Ordered(inp)
    ensures inp.order == [] ==> Begin(inp, uses, c0) == Served(map[])
    ensures inp.order != [] ==> Begin(inp, uses, c0) == Enter(inp, 0, 0, uses, map[], c0)
  {
  }

  lemma TellsIs<I, L>(story: Story<I, L>, inp: Input<I, L>, c0: nat, end: CallState<I, L>)
    requires Ordered(inp) && inp.order == story.order && Counts(story.uses, inp.s, inp.dests)
    requires Plays(inp, Begin(inp, story.uses, c0), story.moves, end)
    ensures Tells(story, inp.s, inp.dests, inp.items, inp.min, inp.excl, c0, end)
  {
    hide Ordered, Counts, Plays, Begin;
  }

  lemma TwoPasses<I, L>(inp: Input<I, L>, uses: map<L, int>, c0: nat, moves: seq<Move<L>>, prios1: map<L, int>,
                        res1: Placement<I, L>, cur1: nat, more: seq<Move<L>>, short: bool, prios: map<L, int>,
                        res: Placement<I, L>, cur: nat)
    requires Ordered(inp) && inp.order != []
    requires PassPlays(inp, 0, uses, map[], c0, moves, false, prios1, res1, cur1)
    requires PassPlays(inp, 1, prios1, res1, cur1, more, short, prios, res, cur)
    ensures Plays(inp, Begin(inp, uses, c0), moves + more, if short then CameShort else Served(res))
  {
    BeginIs(inp, uses, c0);
    hide Ordered, Plays, Begin, Enter, Advance;
    AdvanceIs(inp, 0, |inp.order| - 1, Search({}, {}, prios1, res1, cur1));
    AdvanceIs(inp, 1, |inp.order| - 1, Search({}, {}, prios, res, cur));
    PlaysThen(inp, Begin(inp, uses, c0), moves, Enter(inp, 1, 0, prios1, res1, cur1), more,
              if short then CameShort else Served(res));
  }

  lemma ShortAtOnce<I, L>(inp: Input<I, L>, uses: map<L, int>, c0: nat, moves: seq<Move<L>>, prios: map<L, int>,
                          res: Placement<I, L>, cur: nat)
    requires Ordered(inp) && inp.order != [] && PassPlays(inp, 0, uses, map[], c0, moves, true, prios, res, cur)
    ensures Plays(inp, Begin(inp, uses, c0), moves, CameShort)
  {
    BeginIs(inp, uses, c0);
    hide Ordered, Plays, Begin, Enter, Advance;
  }

  lemma NothingServed<I, L>(s: Placement<I, L>, dests: set<L>, items: seq<I>, min: int, excl: int, pass: nat, i: nat,
                            res: Placement<I, L>)
    requires Stage(s, dests, items, min, excl, pass, i, res) && items == []
    ensures res == map[]
  {
    hide Partial;
  }

  // What a short pass amounts to.
  lemma ShortMay<I, L>(s: Placement<I, L>, dests: set<L>, items: seq<L>, min: int, excl: int)
    requires s != map[] && min > 0 && !AllStocked(s, dests, min, excl) && !AllNew(s, dests, items, min, excl)
    requires AllFillable(s, dests, items, min, excl) ==> !Distinct(items)
    requires !Apart(s, dests, min)
    requires Distinct(items) && dests <= Elems(items) && (|s| <= 3 || excl <= 1) ==> |dests| < min + |s| - 1
    ensures MayBeShort(s, dests, items, min, excl)
  {
  }

  lemma ShortFollows<I, L>(s: Placement<I, L>, dests: set<L>, items: seq<L>, min: int, excl: int)
    requires MayBeShort(s, dests, items, min, excl)
    ensures s != map[]
    ensures excl <= 0 && Distinct(items) ==> !AllFillable(s, dests, items, min, excl)
    ensures excl <= 0 && Distinct(items) && dests <= Elems(items) ==> |dests| < min
    ensures |s| <= 2 && Distinct(items) && dests <= Elems(items) ==> |dests| < min + |s| - 1
    ensures !AllNew(s, dests, items, min, excl)
  {
    hide AllFillable, AllNew, Apart, Distinct, Elems, AllStocked;
    if dests <= Elems(items) {
      FillableWithin(s, dests, items, min, excl);
    }
  }

  lemma DonePromised<I, L>(s: Placement<I, L>, dests: set<L>, items: seq<L>, min: int, excl: int, c0: nat,
                           full: Placement<I, L>, added: Placement<I, L>, cur: nat)
    requires Correct(s, dests, min, excl, full, added) && AllServed(s, dests, min, excl, full)
    requires added.Keys == full.Keys && forall it :: it in full && it in s ==> added[it] == full[it] - s[it]
    requires if items == [] then cur == 0 else cur < |items|
    requires excl <= 0 ==> AllFillable(s, dests, items, min, excl)
    requires AllNew(s, dests, items, min, excl) ==> TakesTurns(s, dests, items, min, c0, full, cur)
    requires Apart(s, dests, min) ==> OwnStage(s, dests, min, full) && cur == c0
    ensures Promised(s, dests, items, min, excl, c0, full, added, cur)
  {
    hide Correct, AllServed, AllFillable, AllNew, TakesTurns, Apart, Exact, OwnStage;
    if excl <= 0 {
      DoneExact(s, dests, min, excl, full, added);
    }
    if Apart(s, dests, min) {
      OwnAddsNothing(s, dests, min, full, added);
    }
  }

  lemma PromisedFollows<I, L>(s: Placement<I, L>, dests: set<L>, items: seq<L>, min: int, excl: int, c0: nat,
                              full: Placement<I, L>, added: Placement<I, L>, cur: nat)
    requires Promised(s, dests, items, min, excl, c0, full, added, cur)
    ensures excl <= 0 ==> AllFillable(s, dests, items, min, excl)
    ensures excl <= 0 && dests <= Elems(items) && s != map[] ==> |dests| >= min
    ensures excl >= 1 && min >= 1 && |s| <= 2 && s != map[] ==> |dests| >= min + |s| - 1
  {
    hide Correct, AllFillable, AllNew, TakesTurns, Apart, Exact, Elems;
    if dests <= Elems(items) {
      FillableWithin(s, dests, items, min, excl);
    }
    if excl >= 1 && min >= 1 && |s| <= 2 && s != map[] {
      TwoNeedRoom(s, dests, min, excl, full, added);
    }
  }

  lemma OwnAddsNothing<I, L>(s: Placement<I, L>, dests: set<L>, min: int, full: Placement<I, L>,
                             added: Placement<I, L>)
    requires OwnStage(s, dests, min, full)
    requires added.Keys == full.Keys && forall it :: it in full && it in s ==> added[it] == full[it] - s[it]
    ensures forall it :: it in s && it in added ==> added[it] == {}
  {
  }

  // Two items that are told apart need one destination more than one does.
  lemma TwoNeedRoom<I, L>(s: Placement<I, L>, dests: set<L>, min: int, excl: int, full: Placement<I, L>,
                          added: Placement<I, L>)
    requires Correct(s, dests, min, excl, full, added) && excl >= 1 && min >= 1 && |s| <= 2 && s != map[]
    ensures |dests| >= min + |s| - 1
  {
    hide Spread;
    assert |s| == |s.Keys| && |full| == |full.Keys|;
    var a :| a in s;
    SubsetOfSameSize(full[a], dests);
    if |s| == 2 {
      var e, o := ToldApart(full, excl);
      OneMoreDest(full[e], full[o], dests);
    }
  }

  lemma ToldApart<I, L>(full: Placement<I, L>, excl: int) returns (e: I, o: I)
    requires Spread(full, excl) && excl >= 1 && |full| == 2
    ensures e in full && o in full && full[e] != full[o]
  {
    assert |full| == |full.Keys|;
    e :| e in Exclusives(full);
    assert |full.Keys - {e}| == 1;
    o :| o in full.Keys - {e};
  }

  lemma OneMoreDest<L>(a: set<L>, b: set<L>, dests: set<L>)
    requires a <= dests && b <= dests && |a| == |b| && a != b
    ensures |dests| > |a|
  {
    SubsetOfSameSize(a, dests);
    SubsetOfSameSize(b, dests);
  }

  // When the sequence deals every destination, what counts is how many there are.
  lemma FillableWithin<I, L>(s: Placement<I, L>, dests: set<L>, items: seq<L>, min: int, excl: int)
    requires dests <= Elems(items)
    ensures excl <= 0 ==> (AllFillable(s, dests, items, min, excl) <==> s == map[] || |dests| >= min)
  {
    forall it | it in s
      ensures (s[it] + Elems(items)) * dests == dests
    {
    }
    if s != map[] {
      var it :| it in s;
      assert AllFillable(s, dests, items, min, excl) ==> Fillable(s[it], dests, items, min, excl);
    }
  }

  lemma FinalKeys<I, L>(s: Placement<I, L>, dests: set<L>, items: seq<I>, min: int, excl: int, full: Placement<I, L>)
    requires Stage(s, dests, items, min, excl, 1, |items|, full)
    ensures full.Keys == s.Keys && |items| == |s| && AllServed(s, dests, min, excl, full)
  {
    hide WellServed, Spread;
  }

  lemma FirstStage<I, L>(s: Placement<I, L>, dests: set<L>, items: seq<I>, min: int, excl: int, prios: map<L, int>,
                         rrItems: seq<L>, c0: nat)
    requires Listed(items, s) && Counts(prios, s, dests)
    requires rrItems != [] ==> c0 < |rrItems|
    ensures Dealable(s, dests, rrItems) ==> Priorities(prios, rrItems)
    ensures Stage(s, dests, items, min, excl, 0, 0, map[])
    ensures AllNew(s, dests, rrItems, min, excl) ==>
        NewStage(s, dests, rrItems, min, excl, c0, items, 0, 0, prios, map[], c0)
    ensures Patient(prios)
    ensures items != [] <==> s != map[]
    ensures |items| == |s| && Orderly<I, L>(items, min, excl, map[]) && OwnStage(s, dests, min, map[])
  {
    if Dealable(s, dests, rrItems) {
      forall l | l in prios
        ensures l in rrItems
      {
        var it :| it in Holders(s, l);
      }
    }
    if AllNew(s, dests, rrItems, min, excl) {
      forall l | l in dests
        ensures Holders(s, l) == {}
      {
      }
      assert prios == map[];
      assert items[..0] == [];
    }
  }
}
