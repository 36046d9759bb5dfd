/** With exclusivity, the order in which Go's map yields the items can decide whether a call comes up short. */
module StripeOrder {
  import opened Wrappers
  import opened RoundRobin
  import opened Stripe
  import opened StripeCalls

  // ---------------------------------------------------------------- single steps

  ghost predicate At(inp: Input<int, int>, pass: nat, i: nat, a: Search<int, int>) {
    Ordered(inp) && pass < 2 && i < |inp.order| && inp.order[i] in a.res
  }

  // The search draws l from the sequence.
  ghost predicate Draws(inp: Input<int, int>, pass: nat, i: nat, a: Search<int, int>, l: int) {
    && At(inp, pass, i, a) && |a.res[inp.order[i]]| < inp.min
    && a.left == {} && a.cur < |inp.items| && inp.items[a.cur] == l
  }

  ghost predicate Moves(inp: Input<int, int>, a: Search<int, int>, l: int, b: Search<int, int>)
    requires a.cur < |inp.items|
  {
    b.left == {} && b.seen == a.seen + {Some(l)} && b.prios == a.prios - {l} && b.cur == Succ(a.cur, |inp.items|)
  }

  // l is new to the item, and has no priority left.
  ghost predicate Free(inp: Input<int, int>, i: nat, a: Search<int, int>, l: int)
    requires Ordered(inp) && i < |inp.order|
  {
    Some(l) !in a.seen && (l in a.prios ==> a.prios[l] <= 0) && l !in inp.s[inp.order[i]]
  }

  ghost function Grown(inp: Input<int, int>, i: nat, res: Placement<int, int>, l: int): Placement<int, int>
    requires i < |inp.order| && inp.order[i] in res
  {
    res[inp.order[i] := res[inp.order[i]] + {l}]
  }

  lemma Takes(inp: Input<int, int>, pass: nat, i: nat, a: Search<int, int>, l: int, b: Search<int, int>)
    requires Draws(inp, pass, i, a, l) && Free(inp, i, a, l) && Moves(inp, a, l, b)
    requires l in inp.dests && l !in a.res[inp.order[i]] && b.res == Grown(inp, i, a.res, l) && Spread(b.res, inp.excl)
    ensures Steps(inp, Searching(pass, i, a), Searching(pass, i, b))
  {
    hide Spread, Listed;
    assert Drawable(ProblemAt(inp, pass, i), a, Some(l));
  }

  // In the first pass, an item that would leave too few exclusive is left for later.
  lemma GivesUp(inp: Input<int, int>, i: nat, a: Search<int, int>, l: int, b: Search<int, int>, c: CallState<int, int>)
    requires Draws(inp, 0, i, a, l) && Free(inp, i, a, l) && Moves(inp, a, l, b)
    requires l in inp.dests && l !in a.res[inp.order[i]] && b.res == a.res
    requires !Spread(Grown(inp, i, a.res, l), inp.excl) && c == Advance(inp, 0, i, b)
    ensures Steps(inp, Searching(0, i, a), c)
  {
    hide Spread, Listed, Advance;
    assert Drawable(ProblemAt(inp, 0, i), a, Some(l));
  }

  // In the second pass the search goes on, as it does with a location the item has taken before.
  lemma PassesOver(inp: Input<int, int>, i: nat, a: Search<int, int>, l: int, b: Search<int, int>)
    requires Draws(inp, 1, i, a, l) && Free(inp, i, a, l) && Moves(inp, a, l, b) && b.res == a.res
    requires l in a.res[inp.order[i]] || !Spread(Grown(inp, i, a.res, l), inp.excl)
    ensures Steps(inp, Searching(1, i, a), Searching(1, i, b))
  {
    hide Spread, Listed;
    assert Drawable(ProblemAt(inp, 1, i), a, Some(l));
  }

  lemma Waits(inp: Input<int, int>, pass: nat, i: nat, a: Search<int, int>, l: int, b: Search<int, int>)
    requires Draws(inp, pass, i, a, l) && Some(l) !in a.seen && l in a.prios && a.prios[l] > 0
    requires l !in inp.s[inp.order[i]]
    requires b == a.(prios := b.prios, cur := Succ(a.cur, |inp.items|)) && b.prios == a.prios[l := a.prios[l] - 1]
    ensures Steps(inp, Searching(pass, i, a), Searching(pass, i, b))
  {
    hide Spread, Listed;
    assert Drawable(ProblemAt(inp, pass, i), a, Some(l));
  }

  // The copy the item had at the start comes up again.
  lemma HasIt(inp: Input<int, int>, pass: nat, i: nat, a: Search<int, int>, l: int, b: Search<int, int>)
    requires Draws(inp, pass, i, a, l) && Some(l) !in a.seen
    requires l in inp.s[inp.order[i]] && l in a.res[inp.order[i]]
    requires b == a.(seen := b.seen, cur := Succ(a.cur, |inp.items|)) && b.seen == a.seen + {Some(l)}
    ensures Steps(inp, Searching(pass, i, a), Searching(pass, i, b))
  {
    hide Spread, Listed;
    assert Drawable(ProblemAt(inp, pass, i), a, Some(l));
  }

  lemma ComesShort(inp: Input<int, int>, pass: nat, i: nat, a: Search<int, int>, l: int)
    requires Draws(inp, pass, i, a, l) && Some(l) in a.seen && a.prios - {l} == map[]
    ensures Steps(inp, Searching(pass, i, a), CameShort)
  {
    hide Spread, Listed;
    assert Drawable(ProblemAt(inp, pass, i), a, Some(l));
  }

  lemma ReusesIt(inp: Input<int, int>, pass: nat, i: nat, a: Search<int, int>, l: int, b: Search<int, int>)
    requires At(inp, pass, i, a) && |a.res[inp.order[i]]| < inp.min && a.left == {l}
    requires l in inp.dests && l !in a.res[inp.order[i]]
    requires b == a.(left := {}, res := b.res) && b.res == Grown(inp, i, a.res, l) && Spread(b.res, inp.excl)
    ensures Steps(inp, Searching(pass, i, a), Searching(pass, i, b))
  {
    hide Spread, Listed;
    assert Drawable(ProblemAt(inp, pass, i), a, Some(l));
    assert {l} - {l} == {};
  }

  // An item that is full makes way for the next one.
  lemma Goes(inp: Input<int, int>, pass: nat, i: nat, a: Search<int, int>, c: CallState<int, int>)
    requires At(inp, pass, i, a) && |a.res[inp.order[i]]| >= inp.min && c == Advance(inp, pass, i, a)
    ensures Steps(inp, Searching(pass, i, a), c)
  {
  }

  // ---------------------------------------------------------------- who is exclusive

  lemma One(i: int, x: set<int>)
    ensures Spread(map[i := x], 2)
  {
    assert Exclusives(map[i := x]) == {i};
  }

  lemma Two(i: int, j: int, x: set<int>, y: set<int>)
    requires i != j && x != y
    ensures Spread(map[i := x, j := y], 2)
  {
    assert Exclusives(map[i := x, j := y]) == {i, j};
  }

  lemma TwoAlike(i: int, j: int, x: set<int>, y: set<int>)
    requires i != j && x == y
    ensures !Spread(map[i := x, j := y], 2)
  {
    var res := map[i := x, j := y];
    assert res.Keys == {i, j} && |res| == |res.Keys|;
    assert Exclusives(res) == {};
  }

  lemma Three(i: int, j: int, k: int, x: set<int>, y: set<int>, z: set<int>)
    requires i != j && j != k && i != k && x != y && y != z && x != z
    ensures Spread(map[i := x, j := y, k := z], 2)
  {
    assert Exclusives(map[i := x, j := y, k := z]) == {i, j, k};
  }

  lemma ThreeAlike(i: int, j: int, k: int, x: set<int>, y: set<int>, z: set<int>)
    requires i != j && j != k && i != k && x != y && y == z
    ensures !Spread(map[i := x, j := y, k := z], 2)
  {
    var res := map[i := x, j := y, k := z];
    assert res.Keys == {i, j, k} && |res| == |res.Keys|;
    assert Exclusives(res) == {i};
  }

  // ---------------------------------------------------------------- one input

  /** Three items over three stores, two copies each, two items exclusive; the last item has a copy on store 2. */
  ghost function Case(order: seq<int>): Input<int, int> {
    Input(map[0 := {}, 1 := {}, 2 := {2}], {0, 1, 2}, [0, 1, 2], 2, 2, order)
  }

  const USES: map<int, int> := map[2 := 1]

  lemma ListsThree(i: int, j: int, k: int, s: Placement<int, int>)
    requires i != j && j != k && i != k && s.Keys == {i, j, k}
    ensures Listed([i, j, k], s)
  {
    assert |s| == |s.Keys|;
    assert (set it | it in [i, j, k]) == {i, j, k};
  }

  lemma CaseIsListed(order: seq<int>)
    requires order == [0, 1, 2] || order == [2, 0, 1]
    ensures Ordered(Case(order))
  {
    hide Listed;
    var s := Case(order).s;
    assert s.Keys == {order[0], order[1], order[2]};
    ListsThree(order[0], order[1], order[2], s);
  }

  lemma CaseIsCounted(order: seq<int>)
    ensures Counts(USES, Case(order).s, Case(order).dests)
  {
    var s := Case(order).s;
    assert Holders(s, 0) == {} && Holders(s, 1) == {} && Holders(s, 2) == {2};
    assert USES.Keys == {2};
  }

  const FULL: Placement<int, int> := map[2 := {2, 0}, 0 := {1, 0}, 1 := {1, 2}]

  // The states of the call when item 2 comes up first: every item finds its copies.
  ghost function ServedRun(k: nat): CallState<int, int> {
    match k
    case 0 => Searching(0, 0, Search({2}, {}, USES, map[2 := {}], 0))
    case 1 => Searching(0, 0, Search({}, {}, USES, map[2 := {2}], 0))
    case 2 => Searching(0, 0, Search({}, {Some(0)}, USES, map[2 := {2, 0}], 1))
    case 3 => Searching(0, 1, Search({}, {}, USES, map[2 := {2, 0}, 0 := {}], 1))
    case 4 => Searching(0, 1, Search({}, {Some(1)}, USES, map[2 := {2, 0}, 0 := {1}], 2))
    case 5 => Searching(0, 1, Search({}, {Some(1)}, map[2 := 0], map[2 := {2, 0}, 0 := {1}], 0))
    case 6 => Searching(0, 1, Search({}, {Some(1), Some(0)}, map[2 := 0], map[2 := {2, 0}, 0 := {1, 0}], 1))
    case 7 => Searching(0, 2, Search({}, {}, map[2 := 0], map[2 := {2, 0}, 0 := {1, 0}, 1 := {}], 1))
    case 8 => Searching(0, 2, Search({}, {Some(1)}, map[2 := 0], map[2 := {2, 0}, 0 := {1, 0}, 1 := {1}], 2))
    case 9 => Searching(0, 2, Search({}, {Some(1), Some(2)}, map[], FULL, 0))
    case 10 => Searching(1, 0, Search({2}, {}, map[], FULL, 0))
    case 11 => Searching(1, 1, Search({}, {}, map[], FULL, 0))
    case 12 => Searching(1, 2, Search({}, {}, map[], FULL, 0))
    case _ => Served(FULL)
  }

  lemma Served0(inp: Input<int, int>)
    requires Ordered(inp) && inp == Case([2, 0, 1])
    ensures Steps(inp, ServedRun(0), ServedRun(1))
  {
    hide Spread, Steps, Ordered, Advance;
    var a, b := ServedRun(0).a, ServedRun(1).a;
    assert Spread(b.res, 2) by { One(2, {2}); }
    assert b.res == Grown(inp, 0, a.res, 2) by { assert {} + {2} == {2}; }
    ReusesIt(inp, 0, 0, a, 2, b);
  }

  lemma Served1(inp: Input<int, int>)
    requires Ordered(inp) && inp == Case([2, 0, 1])
    ensures Steps(inp, ServedRun(1), ServedRun(2))
  {
    hide Spread, Steps, Ordered, Advance;
    var a, b := ServedRun(1).a, ServedRun(2).a;
    assert Spread(b.res, 2) by { One(2, {2, 0}); }
    assert b.res == Grown(inp, 0, a.res, 0) by { assert {2} + {0} == {2, 0}; }
    assert Moves(inp, a, 0, b) by { assert b.prios == a.prios - {0} && b.seen == a.seen + {Some(0)}; }
    Takes(inp, 0, 0, a, 0, b);
  }

  lemma Served2(inp: Input<int, int>)
    requires Ordered(inp) && inp == Case([2, 0, 1])
    ensures Steps(inp, ServedRun(2), ServedRun(3))
  {
    hide Spread, Steps, Ordered;
    var a := ServedRun(2).a;
    assert ServedRun(3) == Advance(inp, 0, 0, a) && At(inp, 0, 0, a);
    Goes(inp, 0, 0, a, ServedRun(3));
  }

  lemma Served3(inp: Input<int, int>)
    requires Ordered(inp) && inp == Case([2, 0, 1])
    ensures Steps(inp, ServedRun(3), ServedRun(4))
  {
    hide Spread, Steps, Ordered, Advance;
    var a, b := ServedRun(3).a, ServedRun(4).a;
    assert Spread(b.res, 2) by { Two(2, 0, {2, 0}, {1}); }
    assert b.res == Grown(inp, 1, a.res, 1) by { assert {} + {1} == {1}; }
    assert Moves(inp, a, 1, b) by { assert b.prios == a.prios - {1} && b.seen == a.seen + {Some(1)}; }
    Takes(inp, 0, 1, a, 1, b);
  }

  lemma Served4(inp: Input<int, int>)
    requires Ordered(inp) && inp == Case([2, 0, 1])
    ensures Steps(inp, ServedRun(4), ServedRun(5))
  {
    hide Spread, Steps, Ordered, Advance;
    var a, b := ServedRun(4).a, ServedRun(5).a;
    assert b.prios == a.prios[2 := a.prios[2] - 1];
    Waits(inp, 0, 1, a, 2, b);
  }

  lemma Served5(inp: Input<int, int>)
    requires Ordered(inp) && inp == Case([2, 0, 1])
    ensures Steps(inp, ServedRun(5), ServedRun(6))
  {
    hide Spread, Steps, Ordered, Advance;
    var a, b := ServedRun(5).a, ServedRun(6).a;
    assert Spread(b.res, 2) by { Two(2, 0, {2, 0}, {1, 0}); }
    assert b.res == Grown(inp, 1, a.res, 0) by { assert {1} + {0} == {1, 0}; }
    assert Moves(inp, a, 0, b) by { assert b.prios == a.prios - {0} && b.seen == a.seen + {Some(0)}; }
    Takes(inp, 0, 1, a, 0, b);
  }

  lemma Served6(inp: Input<int, int>)
    requires Ordered(inp) && inp == Case([2, 0, 1])
    ensures Steps(inp, ServedRun(6), ServedRun(7))
  {
    hide Spread, Steps, Ordered;
    var a := ServedRun(6).a;
    assert ServedRun(7) == Advance(inp, 0, 1, a) && At(inp, 0, 1, a);
    Goes(inp, 0, 1, a, ServedRun(7));
  }

  lemma Served7(inp: Input<int, int>)
    requires Ordered(inp) && inp == Case([2, 0, 1])
    ensures Steps(inp, ServedRun(7), ServedRun(8))
  {
    hide Spread, Steps, Ordered, Advance;
    var a, b := ServedRun(7).a, ServedRun(8).a;
    assert Spread(b.res, 2) by { Three(2, 0, 1, {2, 0}, {1, 0}, {1}); }
    assert b.res == Grown(inp, 2, a.res, 1) by { assert {} + {1} == {1}; }
    assert Moves(inp, a, 1, b) by { assert b.prios == a.prios - {1} && b.seen == a.seen + {Some(1)}; }
    Takes(inp, 0, 2, a, 1, b);
  }

  lemma Served8(inp: Input<int, int>)
    requires Ordered(inp) && inp == Case([2, 0, 1])
    ensures Steps(inp, ServedRun(8), ServedRun(9))
  {
    hide Spread, Steps, Ordered, Advance;
    var a, b := ServedRun(8).a, ServedRun(9).a;
    assert Spread(b.res, 2) by { Three(2, 0, 1, {2, 0}, {1, 0}, {1, 2}); }
    assert b.res == Grown(inp, 2, a.res, 2) by { assert {1} + {2} == {1, 2}; }
    assert Moves(inp, a, 2, b) by { assert b.prios == a.prios - {2} && b.seen == a.seen + {Some(2)}; }
    Takes(inp, 0, 2, a, 2, b);
  }

  lemma Served9(inp: Input<int, int>)
    requires Ordered(inp) && inp == Case([2, 0, 1])
    ensures Steps(inp, ServedRun(9), ServedRun(10))
  {
    hide Spread, Steps, Ordered;
    var a := ServedRun(9).a;
    assert ServedRun(10) == Advance(inp, 0, 2, a) && At(inp, 0, 2, a);
    Goes(inp, 0, 2, a, ServedRun(10));
  }

  lemma Served10(inp: Input<int, int>)
    requires Ordered(inp) && inp == Case([2, 0, 1])
    ensures Steps(inp, ServedRun(10), ServedRun(11))
  {
    hide Spread, Steps, Ordered;
    var a := ServedRun(10).a;
    assert ServedRun(11) == Advance(inp, 1, 0, a) && At(inp, 1, 0, a);
    Goes(inp, 1, 0, a, ServedRun(11));
  }

  lemma Served11(inp: Input<int, int>)
    requires Ordered(inp) && inp == Case([2, 0, 1])
    ensures Steps(inp, ServedRun(11), ServedRun(12))
  {
    hide Spread, Steps, Ordered;
    var a := ServedRun(11).a;
    assert ServedRun(12) == Advance(inp, 1, 1, a) && At(inp, 1, 1, a);
    Goes(inp, 1, 1, a, ServedRun(12));
  }

  lemma Served12(inp: Input<int, int>)
    requires Ordered(inp) && inp == Case([2, 0, 1])
    ensures Steps(inp, ServedRun(12), ServedRun(13))
  {
    hide Spread, Steps, Ordered;
    var a := ServedRun(12).a;
    assert ServedRun(13) == Advance(inp, 1, 2, a) && At(inp, 1, 2, a);
    Goes(inp, 1, 2, a, ServedRun(13));
  }

  lemma ServedGoesOn(inp: Input<int, int>, k: nat)
    requires Ordered(inp) && inp == Case([2, 0, 1]) && k < 13
    ensures Steps(inp, ServedRun(k), ServedRun(k + 1))
  {
    hide *;
    match k
    case 0 => Served0(inp);
    case 1 => Served1(inp);
    case 2 => Served2(inp);
    case 3 => Served3(inp);
    case 4 => Served4(inp);
    case 5 => Served5(inp);
    case 6 => Served6(inp);
    case 7 => Served7(inp);
    case 8 => Served8(inp);
    case 9 => Served9(inp);
    case 10 => Served10(inp);
    case 11 => Served11(inp);
    case _ => Served12(inp);
  }

  // The states of the call when item 2 comes up last: item 1 finds no copies that leave two items exclusive.
  ghost function ShortRun(k: nat): CallState<int, int> {
    match k
    case 0 => Searching(0, 0, Search({}, {}, USES, map[0 := {}], 0))
    case 1 => Searching(0, 0, Search({}, {Some(0)}, USES, map[0 := {0}], 1))
    case 2 => Searching(0, 0, Search({}, {Some(0), Some(1)}, USES, map[0 := {0, 1}], 2))
    case 3 => Searching(0, 1, Search({}, {}, USES, map[0 := {0, 1}, 1 := {}], 2))
    case 4 => Searching(0, 1, Search({}, {}, map[2 := 0], map[0 := {0, 1}, 1 := {}], 0))
    case 5 => Searching(0, 1, Search({}, {Some(0)}, map[2 := 0], map[0 := {0, 1}, 1 := {0}], 1))
    case 6 => Searching(0, 2, Search({2}, {}, map[2 := 0], map[0 := {0, 1}, 1 := {0}, 2 := {}], 2))
    case 7 => Searching(0, 2, Search({}, {}, map[2 := 0], map[0 := {0, 1}, 1 := {0}, 2 := {2}], 2))
    case 8 => Searching(0, 2, Search({}, {Some(2)}, map[2 := 0], map[0 := {0, 1}, 1 := {0}, 2 := {2}], 0))
    case 9 => Searching(0, 2, Search({}, {Some(2), Some(0)}, map[2 := 0], map[0 := {0, 1}, 1 := {0}, 2 := {2, 0}], 1))
    case 10 => Searching(1, 0, Search({}, {}, map[2 := 0], map[0 := {0, 1}, 1 := {0}, 2 := {2, 0}], 1))
    case 11 => Searching(1, 1, Search({}, {}, map[2 := 0], map[0 := {0, 1}, 1 := {0}, 2 := {2, 0}], 1))
    case 12 => Searching(1, 1, Search({}, {Some(1)}, map[2 := 0], map[0 := {0, 1}, 1 := {0}, 2 := {2, 0}], 2))
    case 13 => Searching(1, 1, Search({}, {Some(1), Some(2)}, map[], map[0 := {0, 1}, 1 := {0}, 2 := {2, 0}], 0))
    case 14 =>
      Searching(1, 1, Search({}, {Some(1), Some(2), Some(0)}, map[], map[0 := {0, 1}, 1 := {0}, 2 := {2, 0}], 1))
    case _ => CameShort
  }

  lemma Short0(inp: Input<int, int>)
    requires Ordered(inp) && inp == Case([0, 1, 2])
    ensures Steps(inp, ShortRun(0), ShortRun(1))
  {
    hide Spread, Steps, Ordered, Advance;
    var a, b := ShortRun(0).a, ShortRun(1).a;
    assert Spread(b.res, 2) by { One(0, {0}); }
    assert b.res == Grown(inp, 0, a.res, 0) by { assert {} + {0} == {0}; }
    assert Moves(inp, a, 0, b) by { assert b.prios == a.prios - {0} && b.seen == a.seen + {Some(0)}; }
    Takes(inp, 0, 0, a, 0, b);
  }

  lemma Short1(inp: Input<int, int>)
    requires Ordered(inp) && inp == Case([0, 1, 2])
    ensures Steps(inp, ShortRun(1), ShortRun(2))
  {
    hide Spread, Steps, Ordered, Advance;
    var a, b := ShortRun(1).a, ShortRun(2).a;
    assert Spread(b.res, 2) by { One(0, {0, 1}); }
    assert b.res == Grown(inp, 0, a.res, 1) by { assert {0} + {1} == {0, 1}; }
    assert Moves(inp, a, 1, b) by { assert b.prios == a.prios - {1} && b.seen == a.seen + {Some(1)}; }
    Takes(inp, 0, 0, a, 1, b);
  }

  lemma Short2(inp: Input<int, int>)
    requires Ordered(inp) && inp == Case([0, 1, 2])
    ensures Steps(inp, ShortRun(2), ShortRun(3))
  {
    hide Spread, Steps, Ordered;
    var a := ShortRun(2).a;
    assert ShortRun(3) == Advance(inp, 0, 0, a) && At(inp, 0, 0, a);
    Goes(inp, 0, 0, a, ShortRun(3));
  }

  lemma Short3(inp: Input<int, int>)
    requires Ordered(inp) && inp == Case([0, 1, 2])
    ensures Steps(inp, ShortRun(3), ShortRun(4))
  {
    hide Spread, Steps, Ordered, Advance;
    var a, b := ShortRun(3).a, ShortRun(4).a;
    assert b.prios == a.prios[2 := a.prios[2] - 1];
    Waits(inp, 0, 1, a, 2, b);
  }

  lemma Short4(inp: Input<int, int>)
    requires Ordered(inp) && inp == Case([0, 1, 2])
    ensures Steps(inp, ShortRun(4), ShortRun(5))
  {
    hide Spread, Steps, Ordered, Advance;
    var a, b := ShortRun(4).a, ShortRun(5).a;
    assert Spread(b.res, 2) by { Two(0, 1, {0, 1}, {0}); }
    assert b.res == Grown(inp, 1, a.res, 0) by { assert {} + {0} == {0}; }
    assert Moves(inp, a, 0, b) by { assert b.prios == a.prios - {0} && b.seen == a.seen + {Some(0)}; }
    Takes(inp, 0, 1, a, 0, b);
  }

  lemma Short5(inp: Input<int, int>)
    requires Ordered(inp) && inp == Case([0, 1, 2])
    ensures Steps(inp, ShortRun(5), ShortRun(6))
  {
    hide Spread, Steps, Ordered;
    var a := ShortRun(5).a;
    var b := Search({}, {Some(0), Some(1)}, map[2 := 0], map[0 := {0, 1}, 1 := {0}], 2);
    assert !Spread(Grown(inp, 1, a.res, 1), 2) by {
      TwoAlike(0, 1, {0, 1}, {0, 1});
      assert Grown(inp, 1, a.res, 1) == map[0 := {0, 1}, 1 := {0, 1}] by { assert {0} + {1} == {0, 1}; }
    }
    assert Moves(inp, a, 1, b) by { assert b.prios == a.prios - {1} && b.seen == a.seen + {Some(1)}; }
    assert ShortRun(6) == Advance(inp, 0, 1, b);
    GivesUp(inp, 1, a, 1, b, ShortRun(6));
  }

  lemma Short6(inp: Input<int, int>)
    requires Ordered(inp) && inp == Case([0, 1, 2])
    ensures Steps(inp, ShortRun(6), ShortRun(7))
  {
    hide Spread, Steps, Ordered, Advance;
    var a, b := ShortRun(6).a, ShortRun(7).a;
    assert Spread(b.res, 2) by { Three(0, 1, 2, {0, 1}, {0}, {2}); }
    assert b.res == Grown(inp, 2, a.res, 2) by { assert {} + {2} == {2}; }
    ReusesIt(inp, 0, 2, a, 2, b);
  }

  lemma Short7(inp: Input<int, int>)
    requires Ordered(inp) && inp == Case([0, 1, 2])
    ensures Steps(inp, ShortRun(7), ShortRun(8))
  {
    hide Spread, Steps, Ordered, Advance;
    var a, b := ShortRun(7).a, ShortRun(8).a;
    assert b.seen == a.seen + {Some(2)};
    HasIt(inp, 0, 2, a, 2, b);
  }

  lemma Short8(inp: Input<int, int>)
    requires Ordered(inp) && inp == Case([0, 1, 2])
    ensures Steps(inp, ShortRun(8), ShortRun(9))
  {
    hide Spread, Steps, Ordered, Advance;
    var a, b := ShortRun(8).a, ShortRun(9).a;
    assert Spread(b.res, 2) by { Three(0, 1, 2, {0, 1}, {0}, {2, 0}); }
    assert b.res == Grown(inp, 2, a.res, 0) by { assert {2} + {0} == {2, 0}; }
    assert Moves(inp, a, 0, b) by { assert b.prios == a.prios - {0} && b.seen == a.seen + {Some(0)}; }
    Takes(inp, 0, 2, a, 0, b);
  }

  lemma Short9(inp: Input<int, int>)
    requires Ordered(inp) && inp == Case([0, 1, 2])
    ensures Steps(inp, ShortRun(9), ShortRun(10))
  {
    hide Spread, Steps, Ordered;
    var a := ShortRun(9).a;
    assert ShortRun(10) == Advance(inp, 0, 2, a) && At(inp, 0, 2, a);
    Goes(inp, 0, 2, a, ShortRun(10));
  }

  lemma Short10(inp: Input<int, int>)
    requires Ordered(inp) && inp == Case([0, 1, 2])
    ensures Steps(inp, ShortRun(10), ShortRun(11))
  {
    hide Spread, Steps, Ordered;
    var a := ShortRun(10).a;
    assert ShortRun(11) == Advance(inp, 1, 0, a) && At(inp, 1, 0, a);
    Goes(inp, 1, 0, a, ShortRun(11));
  }

  lemma Short11(inp: Input<int, int>)
    requires Ordered(inp) && inp == Case([0, 1, 2])
    ensures Steps(inp, ShortRun(11), ShortRun(12))
  {
    hide Spread, Steps, Ordered, Advance;
    var a, b := ShortRun(11).a, ShortRun(12).a;
    assert !Spread(Grown(inp, 1, a.res, 1), 2) by {
      ThreeAlike(2, 0, 1, {2, 0}, {0, 1}, {0, 1});
      assert Grown(inp, 1, a.res, 1) == map[2 := {2, 0}, 0 := {0, 1}, 1 := {0, 1}] by { assert {0} + {1} == {0, 1}; }
    }
    assert Moves(inp, a, 1, b) by { assert b.prios == a.prios - {1} && b.seen == a.seen + {Some(1)}; }
    PassesOver(inp, 1, a, 1, b);
  }

  lemma Short12(inp: Input<int, int>)
    requires Ordered(inp) && inp == Case([0, 1, 2])
    ensures Steps(inp, ShortRun(12), ShortRun(13))
  {
    hide Spread, Steps, Ordered, Advance;
    var a, b := ShortRun(12).a, ShortRun(13).a;
    assert !Spread(Grown(inp, 1, a.res, 2), 2) by {
      ThreeAlike(0, 1, 2, {0, 1}, {0, 2}, {2, 0});
      assert Grown(inp, 1, a.res, 2) == map[0 := {0, 1}, 1 := {0, 2}, 2 := {2, 0}] by { assert {0} + {2} == {0, 2}; }
    }
    assert Moves(inp, a, 2, b) by { assert b.prios == a.prios - {2} && b.seen == a.seen + {Some(2)}; }
    PassesOver(inp, 1, a, 2, b);
  }

  lemma Short13(inp: Input<int, int>)
    requires Ordered(inp) && inp == Case([0, 1, 2])
    ensures Steps(inp, ShortRun(13), ShortRun(14))
  {
    hide Spread, Steps, Ordered, Advance;
    var a, b := ShortRun(13).a, ShortRun(14).a;
    assert Moves(inp, a, 0, b) by { assert b.prios == a.prios - {0} && b.seen == a.seen + {Some(0)}; }
    PassesOver(inp, 1, a, 0, b);
  }

  lemma Short14(inp: Input<int, int>)
    requires Ordered(inp) && inp == Case([0, 1, 2])
    ensures Steps(inp, ShortRun(14), ShortRun(15))
  {
    hide Spread, Steps, Ordered, Advance;
    var a := ShortRun(14).a;
    assert a.prios - {1} == map[];
    ComesShort(inp, 1, 1, a, 1);
  }

  lemma ShortGoesOn(inp: Input<int, int>, k: nat)
    requires Ordered(inp) && inp == Case([0, 1, 2]) && k < 15
    ensures Steps(inp, ShortRun(k), ShortRun(k + 1))
  {
    hide *;
    match k
    case 0 => Short0(inp);
    case 1 => Short1(inp);
    case 2 => Short2(inp);
    case 3 => Short3(inp);
    case 4 => Short4(inp);
    case 5 => Short5(inp);
    case 6 => Short6(inp);
    case 7 => Short7(inp);
    case 8 => Short8(inp);
    case 9 => Short9(inp);
    case 10 => Short10(inp);
    case 11 => Short11(inp);
    case 12 => Short12(inp);
    case 13 => Short13(inp);
    case _ => Short14(inp);
  }

  lemma {:induction false} RunReaches(inp: Input<int, int>, run: nat -> CallState<int, int>, n: nat)
    requires Ordered(inp) && forall k: nat :: k < n ==> Steps(inp, run(k), run(k + 1))
    ensures Reaches(inp, run(0), n, run(n))
  {
    hide Steps, Ordered;
    if n > 0 {
      RunReaches(inp, run, n - 1);
      assert Steps(inp, run(n - 1), run(n - 1 + 1));
    }
  }

  lemma ServedReaches(inp: Input<int, int>)
    requires Ordered(inp) && inp == Case([2, 0, 1])
    ensures Reaches(inp, Begin(inp, USES, 0), 13, Served(FULL))
  {
    hide Ordered, Steps, Reaches;
    forall k: nat | k < 13
      ensures Steps(inp, ServedRun(k), ServedRun(k + 1))
    {
      hide ServedRun;
      ServedGoesOn(inp, k);
    }
    assert ServedRun(0) == Begin(inp, USES, 0);
    RunReaches(inp, ServedRun, 13);
  }

  lemma ShortReaches(inp: Input<int, int>)
    requires Ordered(inp) && inp == Case([0, 1, 2])
    ensures Reaches(inp, Begin(inp, USES, 0), 15, CameShort)
  {
    hide Ordered, Steps, Reaches;
    forall k: nat | k < 15
      ensures Steps(inp, ShortRun(k), ShortRun(k + 1))
    {
      hide ShortRun;
      ShortGoesOn(inp, k);
    }
    assert ShortRun(0) == Begin(inp, USES, 0);
    RunReaches(inp, ShortRun, 15);
  }

  /**
   One input, two orders of its items. If item 2 comes up first the call serves every item, if it comes up last the
   call is short: with exclusivity, ErrShort says that this order found no placement, not that there is none.
   */
  lemma OrderMatters()
    ensures var inp := Case([2, 0, 1]);
      && Ordered(inp) && Counts(USES, inp.s, inp.dests) && Reaches(inp, Begin(inp, USES, 0), 13, Served(FULL))
    ensures var inp := Case([0, 1, 2]);
      && Ordered(inp) && Counts(USES, inp.s, inp.dests) && Reaches(inp, Begin(inp, USES, 0), 15, CameShort)
  {
    hide Ordered, Steps, Reaches, Counts;
    CaseIsListed([2, 0, 1]);
    CaseIsListed([0, 1, 2]);
    CaseIsCounted([2, 0, 1]);
    CaseIsCounted([0, 1, 2]);
    ServedReaches(Case([2, 0, 1]));
    ShortReaches(Case([0, 1, 2]));
  }
}
