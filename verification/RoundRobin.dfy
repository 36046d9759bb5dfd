/** The round-robin cursor of stripe/rr.go and the arithmetic of dealing from it. */
module RoundRobin {
  import opened Wrappers

  class RR<T(==)> {
    const items: seq<T>
    var cur: nat

    ghost predicate Valid()
      reads this
    {
      if items == [] then cur == 0 else cur < |items|
    }

    constructor (items: seq<T>)
      ensures Valid() && this.items == items && cur == 0
    {
      this.items := items;
      cur := 0;
    }

    // None is the nil that an empty sequence yields.
    method Next() returns (item: Option<T>)
      requires Valid()
      modifies this
      ensures Valid()
      ensures items == [] ==> item == None && cur == old(cur)
      ensures items != [] ==> item == Some(items[old(cur)]) && cur == Succ(old(cur), |items|)
    {
      var n := |items|;
      if cur > n - 1 {
        return None;
      }
      item := Some(items[cur]);
      cur := (cur + 1) % n;
    }

    method Reset()
      modifies this
      ensures Valid() && cur == 0
    {
      cur := 0;
    }
  }

  ghost predicate Distinct<T>(s: seq<T>) {
    forall i, j :: 0 <= i < j < |s| ==> s[i] != s[j]
  }

  ghost function Elems<T>(s: seq<T>): set<T> {
    set x | x in s
  }

  // The position dealt after position c.
  function Succ(c: nat, n: nat): nat
    requires c < n
  {
    if c + 1 == n then 0 else c + 1
  }

  // The sequence in the order the cursor will deal it.
  function From<T>(s: seq<T>, c: nat): (r: seq<T>)
    requires c <= |s|
  {
    s[c..] + s[..c]
  }

  /** How far the first element of `hot` is from the front of `s`. */
  ghost function Gap<T>(s: seq<T>, hot: set<T>): nat {
    if s == [] || s[0] in hot then 0 else 1 + Gap(s[1..], hot)
  }

  lemma {:induction false} GapOfPrefix<T>(a: seq<T>, b: seq<T>, hot: set<T>)
    requires exists x :: x in a && x in hot
    ensures Gap(a + b, hot) == Gap(a, hot)
  {
    assert (a + b)[0] == a[0];
    if a[0] !in hot {
      assert (a + b)[1..] == a[1..] + b;
      GapOfPrefix(a[1..], b, hot);
    }
  }

  /** While the cursor passes cold elements, the next hot one gets strictly nearer. */
  lemma ColdStepApproaches<T>(s: seq<T>, c: nat, hot: set<T>)
    requires c < |s| && s[c] !in hot
    requires exists x :: x in s && x in hot
    ensures Gap(From(s, Succ(c, |s|)), hot) < Gap(From(s, c), hot)
  {
    var here := From(s, c);
    var rest := s[c + 1..] + s[..c];
    assert here[1..] == rest && here[0] == s[c];
    assert From(s, Succ(c, |s|)) == rest + [s[c]];
    var x :| x in s && x in hot;
    var i :| 0 <= i < |s| && s[i] == x;
    assert x in rest by {
      assert rest[if i > c then i - c - 1 else |s| - c - 1 + i] == x;
    }
    GapOfPrefix(rest, [s[c]], hot);
  }

  /** The cursor after t draws from c. */
  ghost function Spin(c: nat, t: nat, n: nat): (r: nat)
    requires c < n
    ensures r < n
    decreases t
  {
    if t == 0 then c else Spin(Succ(c, n), t - 1, n)
  }

  /** How often t draws from c deal position p. */
  ghost function Dealt(p: nat, c: nat, t: nat, n: nat): nat
    requires c < n && p < n
    decreases t
  {
    if t == 0 then 0 else (if c == p then 1 else 0) + Dealt(p, Succ(c, n), t - 1, n)
  }

  lemma {:induction false} DealtAdds(p: nat, c: nat, a: nat, b: nat, n: nat)
    requires c < n && p < n
    ensures Dealt(p, c, a + b, n) == Dealt(p, c, a, n) + Dealt(p, Spin(c, a, n), b, n)
    ensures Spin(c, a + b, n) == Spin(Spin(c, a, n), b, n)
    decreases a
  {
    if a > 0 {
      DealtAdds(p, Succ(c, n), a - 1, b, n);
    }
  }

  // How many draws from c come before p.
  function Offset(c: nat, p: nat, n: nat): nat
    requires c < n && p < n
  {
    if p >= c then p - c else p + n - c
  }

  lemma {:induction false} DealtWithinOneTurn(p: nat, c: nat, t: nat, n: nat)
    requires c < n && p < n && t <= n
    ensures Dealt(p, c, t, n) == if Offset(c, p, n) < t then 1 else 0
    decreases t
  {
    if t > 0 {
      DealtWithinOneTurn(p, Succ(c, n), t - 1, n);
    }
  }

  lemma {:induction false} SpinWithinOneTurn(c: nat, t: nat, n: nat)
    requires c < n && t <= n
    ensures Spin(c, t, n) == if c + t < n then c + t else c + t - n
    decreases t
  {
    if t > 0 {
      SpinWithinOneTurn(Succ(c, n), t - 1, n);
    }
  }

  /** Dealing is fair: after any number of draws two positions differ by at most one. */
  lemma {:induction false} DealingIsBalanced(p: nat, q: nat, c: nat, t: nat, n: nat)
    requires c < n && p < n && q < n
    ensures -1 <= Dealt(p, c, t, n) - Dealt(q, c, t, n) <= 1
    decreases t
  {
    if t <= n {
      DealtWithinOneTurn(p, c, t, n);
      DealtWithinOneTurn(q, c, t, n);
    } else {
      DealtAdds(p, c, n, t - n, n);
      DealtAdds(q, c, n, t - n, n);
      DealtWithinOneTurn(p, c, n, n);
      DealtWithinOneTurn(q, c, n, n);
      SpinWithinOneTurn(c, n, n);
      DealingIsBalanced(p, q, c, t - n, n);
    }
  }
}
