/** What sort.Slice by number computes: the one ordered arrangement of values with distinct numbers. */
module Sorting {
  datatype Numbered<+T> = Numbered(num: int, val: T)

  ghost predicate Ascending<T>(s: seq<Numbered<T>>) {
    forall i, j :: 0 <= i < j < |s| ==> s[i].num < s[j].num
  }

  ghost predicate DistinctNums<T>(s: seq<Numbered<T>>) {
    forall i, j :: 0 <= i < j < |s| ==> s[i].num != s[j].num
  }

  function Insert<T>(x: Numbered<T>, s: seq<Numbered<T>>): seq<Numbered<T>> {
    if s == [] || x.num <= s[0].num then [x] + s else [s[0]] + Insert(x, s[1..])
  }

  function SortByNum<T>(s: seq<Numbered<T>>): seq<Numbered<T>> {
    if s == [] then [] else Insert(s[0], SortByNum(s[1..]))
  }

  lemma {:induction false} InsertPermutes<T>(x: Numbered<T>, s: seq<Numbered<T>>)
    ensures multiset(Insert(x, s)) == multiset{x} + multiset(s)
  {
    if s != [] && x.num > s[0].num {
      InsertPermutes(x, s[1..]);
      assert s == [s[0]] + s[1..];
    }
  }

  lemma {:induction false} SortPermutes<T>(s: seq<Numbered<T>>)
    ensures multiset(SortByNum(s)) == multiset(s)
    ensures |SortByNum(s)| == |s|
  {
    if s != [] {
      SortPermutes(s[1..]);
      InsertPermutes(s[0], SortByNum(s[1..]));
      assert s == [s[0]] + s[1..];
    }
    SameSize(SortByNum(s), s);
  }

  lemma SameSize<T>(a: seq<T>, b: seq<T>)
    requires multiset(a) == multiset(b)
    ensures |a| == |b|
  {
    assert |multiset(a)| == |a| && |multiset(b)| == |b|;
  }

  lemma ConsAscends<T>(x: Numbered<T>, s: seq<Numbered<T>>)
    requires Ascending(s) && forall y :: y in s ==> x.num < y.num
    ensures Ascending([x] + s)
  {
    var t := [x] + s;
    forall i, j | 0 <= i < j < |t|
      ensures t[i].num < t[j].num
    {
      assert t[j] == s[j - 1] && (i > 0 ==> t[i] == s[i - 1]);
      assert s[j - 1] in s;
    }
  }

  lemma {:induction false} InsertAscends<T>(x: Numbered<T>, s: seq<Numbered<T>>)
    requires Ascending(s) && forall y :: y in s ==> y.num != x.num
    ensures Ascending(Insert(x, s))
  {
    if s == [] {
    } else if x.num > s[0].num {
      InsertAscends(x, s[1..]);
      InsertPermutes(x, s[1..]);
      forall y | y in Insert(x, s[1..])
        ensures s[0].num < y.num
      {
        assert y in multiset(Insert(x, s[1..]));
      }
      ConsAscends(s[0], Insert(x, s[1..]));
    } else {
      assert s[0] in s;
      ConsAscends(x, s);
    }
  }

  lemma {:induction false} SortAscends<T>(s: seq<Numbered<T>>)
    requires DistinctNums(s)
    ensures Ascending(SortByNum(s))
  {
    if s != [] {
      SortAscends(s[1..]);
      SortPermutes(s[1..]);
      forall y | y in SortByNum(s[1..])
        ensures y.num != s[0].num
      {
        assert y in multiset(s[1..]);
      }
      InsertAscends(s[0], SortByNum(s[1..]));
    }
  }

  lemma SameHead<T>(a: seq<Numbered<T>>, b: seq<Numbered<T>>)
    requires Ascending(a) && Ascending(b) && multiset(a) == multiset(b) && a != [] && b != []
    ensures a[0] == b[0]
  {
    assert a[0] in multiset(b) && b[0] in multiset(a);
    var i :| 0 <= i < |b| && b[i] == a[0];
    var j :| 0 <= j < |a| && a[j] == b[0];
    assert a[0].num <= a[j].num && b[0].num <= b[i].num;
  }

  lemma TailBag<T>(a: seq<Numbered<T>>)
    requires a != []
    ensures multiset(a[1..]) == multiset(a) - multiset{a[0]}
  {
    assert a == [a[0]] + a[1..];
  }

  /** An ascending arrangement of given values is unique. */
  lemma {:induction false} AscendingIsUnique<T>(a: seq<Numbered<T>>, b: seq<Numbered<T>>)
    requires Ascending(a) && Ascending(b) && multiset(a) == multiset(b)
    ensures a == b
  {
    SameSize(a, b);
    if a != [] {
      SameHead(a, b);
      TailBag(a);
      TailBag(b);
      AscendingIsUnique(a[1..], b[1..]);
      assert a == [a[0]] + a[1..] && b == [b[0]] + b[1..];
    }
  }

  /** Sorting forgets the order of arrival. */
  lemma SortIsCanonical<T>(a: seq<Numbered<T>>, b: seq<Numbered<T>>)
    requires DistinctNums(a) && Ascending(b) && multiset(a) == multiset(b)
    ensures SortByNum(a) == b
  {
    SortAscends(a);
    SortPermutes(a);
    AscendingIsUnique(SortByNum(a), b);
  }

  lemma PermutedStaysDistinct<T>(a: seq<Numbered<T>>, b: seq<Numbered<T>>)
    requires DistinctNums(a) && multiset(a) == multiset(b)
    ensures DistinctNums(b)
  {
    forall i, j | 0 <= i < j < |b|
      ensures b[i].num != b[j].num
    {
      if b[i].num == b[j].num {
        assert b[i] in multiset(a) && b[j] in multiset(a);
        var m :| 0 <= m < |a| && a[m] == b[i];
        var n :| 0 <= n < |a| && a[n] == b[j];
        assert m == n;
        assert b == b[..i] + [b[i]] + b[i + 1..j] + [b[j]] + b[j + 1..];
        assert multiset(b)[b[i]] >= 2;
        OnceInDistinct(a, m);
        assert false;
      }
    }
  }

  lemma OnceInDistinct<T>(a: seq<Numbered<T>>, m: nat)
    requires DistinctNums(a) && m < |a|
    ensures multiset(a)[a[m]] == 1
  {
    assert a == a[..m] + [a[m]] + a[m + 1..];
    assert a[m] !in a[..m] && a[m] !in a[m + 1..];
    assert multiset(a) == multiset(a[..m]) + multiset{a[m]} + multiset(a[m + 1..]);
  }
}
