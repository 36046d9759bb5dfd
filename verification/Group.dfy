/** Regrouping of procs/group.go: chunks k*size .. k*size+size-1, in any order, become one aggregate numbered k. */
module Group {
  import opened Wrappers
  import opened Sorting

  datatype Error = TooMany | NonContiguous

  datatype Out<T> =
    | Nothing
    | Grouped(head: int, chunks: seq<Numbered<T>>)
    | Failed(error: Error)

  type Growing<T> = map<int, seq<Numbered<T>>>

  // Go's integer division truncates towards zero.
  function HeadOf(num: int, size: nat): int
    requires size > 0
  {
    if num >= 0 then num / size else -((-num) / size)
  }

  predicate IsContiguous<T(!new)>(chunks: seq<Numbered<T>>) {
    forall i :: 1 <= i < |chunks| ==> chunks[i].num == chunks[i - 1].num + 1
  }

  function Pending<T(!new)>(growing: Growing<T>, head: int): seq<Numbered<T>> {
    if head in growing then growing[head] else []
  }

  /** One arrival, as a function of the chunks still waiting. */
  function Step<T(!new)>(growing: Growing<T>, size: nat, c: Numbered<T>): (Growing<T>, Out<T>)
    requires size > 0
  {
    var head := HeadOf(c.num, size);
    var chunks := Pending(growing, head) + [c];
    if |chunks| < size then (growing[head := chunks], Nothing)
    else if |chunks| != size then (growing - {head}, Failed(TooMany))
    else if !IsContiguous(SortByNum(chunks)) then (growing - {head}, Failed(NonContiguous))
    else (growing - {head}, Grouped(head, SortByNum(chunks)))
  }

  class Group<T(!new)> {
    const size: nat
    var growing: Growing<T>

    // group.go:30-39 panics below 1.
    constructor (size: nat)
      requires size >= 1
      ensures this.size == size && growing == map[]
    {
      this.size := size;
      growing := map[];
    }

    /** group.go:46-92. */
    method Process(c: Numbered<T>) returns (out: Out<T>)
      requires size >= 1
      modifies this
      ensures (growing, out) == Step(old(growing), size, c)
    {
      var head := HeadOf(c.num, size);
      if head !in growing {
        growing := growing[head := []];
      }
      var chunks := growing[head] + [c];
      var have := |chunks|;
      if have < size {
        growing := growing[head := chunks];
        assert growing == old(growing)[head := chunks];
        return Nothing;
      }
      growing := growing - {head};
      assert growing == old(growing) - {head};
      if have != size {
        return Failed(TooMany);
      }
      chunks := SortByNum(chunks);
      var ok := Contiguous(chunks);
      if !ok {
        return Failed(NonContiguous);
      }
      out := Grouped(head, chunks);
    }

    /** group.go:94-101. */
    static method Contiguous(chunks: seq<Numbered<T>>) returns (ok: bool)
      ensures ok <==> IsContiguous(chunks)
    {
      var i := 1;
      while i < |chunks|
        invariant 1 <= i && forall j :: 1 <= j < i && j < |chunks| ==> chunks[j].num == chunks[j - 1].num + 1
      {
        if chunks[i].num != chunks[i - 1].num + 1 {
          return false;
        }
        i := i + 1;
      }
      ok := true;
    }

    /** group.go:103-108: true when the source returns nil. */
    method Finish() returns (ok: bool)
      ensures ok <==> growing == map[]
    {
      ok := !(|growing| > 0);
    }
  }

  // ---------------------------------------------------------------- all arrivals

  /** What is waiting after the given arrivals. */
  function After<T(!new)>(size: nat, arrivals: seq<Numbered<T>>): Growing<T>
    requires size > 0
  {
    if arrivals == [] then map[]
    else Step(After(size, arrivals[..|arrivals| - 1]), size, arrivals[|arrivals| - 1]).0
  }

  // The arrivals that belong under `head`, in order.
  function Of<T(!new)>(size: nat, arrivals: seq<Numbered<T>>, head: int): seq<Numbered<T>>
    requires size > 0
  {
    if arrivals == [] then []
    else
      var last := arrivals[|arrivals| - 1];
      Of(size, arrivals[..|arrivals| - 1], head) + if HeadOf(last.num, size) == head then [last] else []
  }

  // How many aggregates the arrivals produce for `head`.
  function Emitted<T(!new)>(size: nat, arrivals: seq<Numbered<T>>, head: int): nat
    requires size > 0
  {
    if arrivals == [] then 0
    else
      var before, last := arrivals[..|arrivals| - 1], arrivals[|arrivals| - 1];
      var out := Step(After(size, before), size, last).1;
      Emitted(size, before, head) + if out.Grouped? && out.head == head then 1 else 0
  }

  // Chunk numbers in use: distinct and not negative.
  ghost predicate Proper<T(!new)>(arrivals: seq<Numbered<T>>) {
    DistinctNums(arrivals) && forall i :: 0 <= i < |arrivals| ==> arrivals[i].num >= 0
  }

  /** Go's division: towards zero. */
  lemma HeadTruncates(num: int, size: nat)
    requires size > 0
    ensures num >= 0 ==> HeadOf(num, size) * size <= num < HeadOf(num, size) * size + size
    ensures num < 0 ==> HeadOf(num, size) * size - size < num <= HeadOf(num, size) * size
  {
    if num < 0 {
      var q := (-num) / size;
      assert q * size <= -num < q * size + size;
      assert (-q) * size == -(q * size);
    }
  }

  lemma HeadRange(num: nat, size: nat)
    requires size > 0
    ensures HeadOf(num, size) * size <= num < HeadOf(num, size) * size + size
  {
  }

  lemma {:induction false} OfMembers<T(!new)>(size: nat, arrivals: seq<Numbered<T>>, head: int)
    requires size > 0
    ensures forall c :: c in Of(size, arrivals, head) <==> c in arrivals && HeadOf(c.num, size) == head
  {
    hide HeadOf;
    if arrivals != [] {
      var before, last := arrivals[..|arrivals| - 1], arrivals[|arrivals| - 1];
      assert arrivals == before + [last];
      OfMembers(size, before, head);
    }
  }

  lemma {:induction false} OfDistinct<T(!new)>(size: nat, arrivals: seq<Numbered<T>>, head: int)
    requires size > 0 && Proper(arrivals)
    ensures DistinctNums(Of(size, arrivals, head))
  {
    hide HeadOf;
    if arrivals != [] {
      var before, last := arrivals[..|arrivals| - 1], arrivals[|arrivals| - 1];
      assert arrivals == before + [last];
      ProperPrefix(before, last);
      OfDistinct(size, before, head);
      OfMembers(size, before, head);
      forall c | c in Of(size, before, head)
        ensures c.num != last.num
      {
        assert c in before;
        var i :| 0 <= i < |before| && before[i] == c;
        assert arrivals[i] == c;
      }
    }
  }

  ghost predicate Within<T(!new)>(s: seq<Numbered<T>>, lo: int, size: nat) {
    forall i :: 0 <= i < |s| ==> lo <= s[i].num < lo + size
  }

  lemma OfWithin<T(!new)>(size: nat, arrivals: seq<Numbered<T>>, head: int)
    requires size > 0 && Proper(arrivals)
    ensures Within(Of(size, arrivals, head), head * size, size)
  {
    var mine := Of(size, arrivals, head);
    OfMembers(size, arrivals, head);
    forall i | 0 <= i < |mine|
      ensures head * size <= mine[i].num < head * size + size
    {
      assert mine[i] in mine;
      HeadRange(mine[i].num, size);
    }
  }

  lemma {:induction false} AscendingClimbs<T(!new)>(s: seq<Numbered<T>>, lo: int, i: nat)
    requires Ascending(s) && i < |s| && s[0].num >= lo
    ensures s[i].num >= lo + i
  {
    if i > 0 {
      AscendingClimbs(s, lo, i - 1);
    }
  }

  lemma {:induction false} AscendingLeavesRoom<T(!new)>(s: seq<Numbered<T>>, hi: int, i: nat)
    requires Ascending(s) && i < |s| && s[|s| - 1].num < hi
    ensures s[i].num <= hi - (|s| - i)
    decreases |s| - i
  {
    if i + 1 < |s| {
      AscendingLeavesRoom(s, hi, i + 1);
    }
  }

  /** Pigeonhole: distinct numbers in a range of `size` are at most `size`, and when they are that many, all of it. */
  lemma Pigeonhole<T(!new)>(s: seq<Numbered<T>>, lo: int, size: nat)
    requires DistinctNums(s) && Within(s, lo, size)
    ensures |s| <= size
    ensures |s| == size ==> forall j :: 0 <= j < size ==> |SortByNum(s)| == size && SortByNum(s)[j].num == lo + j
  {
    var t := SortByNum(s);
    SortAscends(s);
    SortPermutes(s);
    forall i | 0 <= i < |t|
      ensures lo <= t[i].num < lo + size
    {
      assert t[i] in multiset(s);
    }
    forall j | 0 <= j < |t|
      ensures lo + j <= t[j].num <= lo + size - (|t| - j)
    {
      AscendingClimbs(t, lo, j);
      AscendingLeavesRoom(t, lo + size, j);
    }
    if |t| > 0 {
      assert lo <= t[0].num <= lo + size - |t|;
    }
  }

  // Waiting under `head`: its arrivals, until they are complete.
  ghost predicate Waiting<T(!new)>(size: nat, arrivals: seq<Numbered<T>>, growing: Growing<T>, head: int)
    requires size > 0
  {
    var mine := Of(size, arrivals, head);
    if 0 < |mine| < size then head in growing && growing[head] == mine else head !in growing
  }

  lemma OfFits<T(!new)>(size: nat, arrivals: seq<Numbered<T>>, head: int)
    requires size > 0 && Proper(arrivals)
    ensures var mine := Of(size, arrivals, head);
      && |mine| <= size && |SortByNum(mine)| == |mine| && multiset(SortByNum(mine)) == multiset(mine)
      && (|mine| == size ==> forall j :: 0 <= j < size ==> SortByNum(mine)[j].num == head * size + j)
  {
    hide Of;
    OfDistinct(size, arrivals, head);
    OfWithin(size, arrivals, head);
    Pigeonhole(Of(size, arrivals, head), head * size, size);
    SortPermutes(Of(size, arrivals, head));
  }

  lemma {:induction false} WaitingAfter<T(!new)>(size: nat, arrivals: seq<Numbered<T>>, head: int)
    requires size > 0 && Proper(arrivals)
    ensures Waiting(size, arrivals, After(size, arrivals), head)
  {
    if arrivals != [] {
      var before, last := arrivals[..|arrivals| - 1], arrivals[|arrivals| - 1];
      assert arrivals == before + [last];
      ProperPrefix(before, last);
      WaitingAfter(size, before, head);
      OfFits(size, arrivals, head);
      WaitingStep(size, before, last, After(size, before), head);
    }
  }

  lemma WaitingStep<T(!new)>(size: nat, before: seq<Numbered<T>>, c: Numbered<T>, growing: Growing<T>, head: int)
    requires size > 0 && Waiting(size, before, growing, head) && |Of(size, before + [c], head)| <= size
    ensures Waiting(size, before + [c], Step(growing, size, c).0, head)
  {
    hide HeadOf, SortByNum, IsContiguous;
    var all := before + [c];
    assert all[..|all| - 1] == before;
    assert Of(size, all, head) == Of(size, before, head) + if HeadOf(c.num, size) == head then [c] else [];
  }

  /**
   The aggregate comes out on the arrival that completes its group, holds k*size .. k*size+size-1 in order, and
   neither error can happen.
   */
  lemma {:induction false} ArrivalOutcome<T(!new)>(size: nat, before: seq<Numbered<T>>, c: Numbered<T>)
    requires size > 0 && Proper(before + [c])
    ensures var head := HeadOf(c.num, size);
            var mine := Of(size, before + [c], head);
            var out := Step(After(size, before), size, c).1;
      if |mine| < size then out == Nothing
      else
        && out == Grouped(head, SortByNum(mine)) && |out.chunks| == size
        && multiset(out.chunks) == multiset(mine)
        && forall j :: 0 <= j < size ==> out.chunks[j].num == head * size + j
  {
    hide HeadOf, After;
    var all, head := before + [c], HeadOf(c.num, size);
    assert all[..|all| - 1] == before;
    assert Of(size, all, head) == Of(size, before, head) + [c];
    ProperPrefix(before, c);
    WaitingAfter(size, before, head);
    OfFits(size, all, head);
  }

  lemma ProperPrefix<T(!new)>(before: seq<Numbered<T>>, c: Numbered<T>)
    requires Proper(before + [c])
    ensures Proper(before)
  {
    var all := before + [c];
    assert forall i :: 0 <= i < |before| ==> all[i] == before[i];
  }

  // ---------------------------------------------------------------- any arrivals

  /** What may be waiting: under every number, fewer than `size` chunks that belong there. */
  ghost predicate Sane<T(!new)>(growing: Growing<T>, size: nat)
    requires size > 0
  {
    forall head :: head in growing ==> 0 < |growing[head]| < size && Belong(growing[head], size, head)
  }

  ghost predicate Belong<T(!new)>(chunks: seq<Numbered<T>>, size: nat, head: int)
    requires size > 0
  {
    forall i :: 0 <= i < |chunks| ==> chunks[i].num >= 0 && HeadOf(chunks[i].num, size) == head
  }

  // A whole group: chunks head*size .. head*size+size-1, in order.
  ghost predicate Whole<T(!new)>(chunks: seq<Numbered<T>>, size: nat, head: int) {
    |chunks| == size && forall j :: 0 <= j < size ==> chunks[j].num == head * size + j
  }

  lemma BelongWithin<T(!new)>(chunks: seq<Numbered<T>>, size: nat, head: int)
    requires size > 0 && Belong(chunks, size, head)
    ensures Within(chunks, head * size, size)
  {
    forall i | 0 <= i < |chunks|
      ensures head * size <= chunks[i].num < head * size + size
    {
      HeadRange(chunks[i].num, size);
    }
  }

  lemma ContiguousIsDistinct<T(!new)>(chunks: seq<Numbered<T>>, sorted: seq<Numbered<T>>)
    requires IsContiguous(sorted) && multiset(sorted) == multiset(chunks)
    ensures DistinctNums(chunks)
  {
    ContiguousAscends(sorted);
    forall i, j | 0 <= i < j < |chunks|
      ensures chunks[i].num != chunks[j].num
    {
      if chunks[i].num == chunks[j].num {
        TwiceInside(chunks, i, j);
        OnceInside(sorted, chunks[i], chunks[j]);
      }
    }
  }

  lemma {:induction false} ContiguousAscends<T(!new)>(s: seq<Numbered<T>>)
    requires IsContiguous(s)
    ensures Ascending(s)
  {
    if s != [] {
      var n := |s| - 1;
      ContiguousAscends(s[..n]);
      forall i | 0 <= i < n
        ensures s[i].num < s[n].num
      {
        assert s[n].num == s[n - 1].num + 1;
        assert i < n - 1 ==> s[..n][i].num < s[..n][n - 1].num;
      }
      forall i, j | 0 <= i < j < |s|
        ensures s[i].num < s[j].num
      {
        assert j < n ==> s[..n][i].num < s[..n][j].num;
      }
    }
  }

  // Two chunks in the sequence, equal or not.
  lemma TwiceInside<T(!new)>(s: seq<Numbered<T>>, i: nat, j: nat)
    requires i < j < |s|
    ensures s[i] in multiset(s) && s[j] in multiset(s) && (s[i] == s[j] ==> multiset(s)[s[i]] >= 2)
  {
    assert s == s[..j] + s[j..];
    assert s[i] in s[..j] && s[j] in s[j..];
  }

  lemma OnceInside<T(!new)>(s: seq<Numbered<T>>, a: Numbered<T>, b: Numbered<T>)
    requires Ascending(s) && a in multiset(s) && b in multiset(s) && a.num == b.num
    ensures a == b && multiset(s)[a] == 1
  {
    var i :| 0 <= i < |s| && s[i] == a;
    var j :| 0 <= j < |s| && s[j] == b;
    assert s == s[..i] + [a] + s[i + 1..];
    assert a !in s[..i] && a !in s[i + 1..];
  }

  // A full number of chunks that belong together: in order they are contiguous exactly when they are distinct.
  lemma WholeIff<T(!new)>(all: seq<Numbered<T>>, size: nat, head: int)
    requires size > 0 && Belong(all, size, head) && |all| == size
    ensures IsContiguous(SortByNum(all)) <==> DistinctNums(all)
    ensures DistinctNums(all) ==> Whole(SortByNum(all), size, head)
    ensures multiset(SortByNum(all)) == multiset(all)
  {
    BelongWithin(all, size, head);
    SortPermutes(all);
    hide HeadOf, SortByNum;
    if DistinctNums(all) {
      Pigeonhole(all, head * size, size);
    } else if IsContiguous(SortByNum(all)) {
      ContiguousIsDistinct(all, SortByNum(all));
    }
  }

  lemma StaysSane<T(!new)>(growing: Growing<T>, size: nat, c: Numbered<T>)
    requires size > 0 && Sane(growing, size) && c.num >= 0
    ensures Sane(Step(growing, size, c).0, size)
    ensures var head := HeadOf(c.num, size);
      Belong(Pending(growing, head) + [c], size, head) && |Pending(growing, head)| < size
  {
    hide HeadOf, SortByNum, IsContiguous;
  }

  /**
   Whatever arrives, duplicates included: an aggregate comes out if and only if the chunk completes a whole group, and
   then it is that group in order; a group of `size` with a duplicate is an error; and there are never too many.
   */
  lemma OutcomeIff<T(!new)>(growing: Growing<T>, size: nat, c: Numbered<T>)
    requires size > 0 && Sane(growing, size) && c.num >= 0
    ensures var head := HeadOf(c.num, size);
      var all := Pending(growing, head) + [c];
      var (growing', out) := Step(growing, size, c);
      && Sane(growing', size) && |all| <= size
      && (out == Nothing <==> |all| < size)
      && (out.Grouped? <==> |all| == size && DistinctNums(all))
      && (out.Grouped? ==> out.head == head && Whole(out.chunks, size, head) && multiset(out.chunks) == multiset(all))
      && (out == Failed(NonContiguous) <==> |all| == size && !DistinctNums(all))
  {
    StaysSane(growing, size, c);
    var head := HeadOf(c.num, size);
    var all := Pending(growing, head) + [c];
    if |all| == size {
      WholeIff(all, size, head);
    }
    hide HeadOf, SortByNum, IsContiguous, DistinctNums, Whole, Belong, Sane, Pending;
  }

  /** So it is at every arrival of any run. */
  lemma {:induction false} AfterIsSane<T(!new)>(size: nat, arrivals: seq<Numbered<T>>)
    requires size > 0 && forall i :: 0 <= i < |arrivals| ==> arrivals[i].num >= 0
    ensures Sane(After(size, arrivals), size)
  {
    if arrivals != [] {
      var before, last := arrivals[..|arrivals| - 1], arrivals[|arrivals| - 1];
      AfterIsSane(size, before);
      OutcomeIff(After(size, before), size, last);
    }
  }

  /** Each complete group is emitted exactly once, an incomplete one never. */
  lemma {:induction false} EmittedOnce<T(!new)>(size: nat, arrivals: seq<Numbered<T>>, head: int)
    requires size > 0 && Proper(arrivals)
    ensures Emitted(size, arrivals, head) == if |Of(size, arrivals, head)| == size then 1 else 0
  {
    if arrivals != [] {
      var before, last := arrivals[..|arrivals| - 1], arrivals[|arrivals| - 1];
      assert arrivals == before + [last];
      ProperPrefix(before, last);
      EmittedOnce(size, before, head);
      ArrivalOutcome(size, before, last);
      OfFits(size, arrivals, head);
    }
  }

  /** The i-th arrival is the one a complete group comes out on, and what comes out is all its chunks in order. */
  ghost predicate EmittedAt<T(!new)>(size: nat, arrivals: seq<Numbered<T>>, i: nat, head: int, chunks: seq<Numbered<T>>)
    requires size > 0
  {
    i < |arrivals| && Step(After(size, arrivals[..i]), size, arrivals[i]).1 == Grouped(head, chunks)
  }

  lemma {:induction false} CompleteIsEmitted<T(!new)>(size: nat, arrivals: seq<Numbered<T>>, head: int) returns (i: nat)
    requires size > 0 && Proper(arrivals) && |Of(size, arrivals, head)| == size
    ensures EmittedAt(size, arrivals, i, head, SortByNum(Of(size, arrivals, head)))
  {
    hide HeadOf, SortByNum, After, Step;
    var before, last := arrivals[..|arrivals| - 1], arrivals[|arrivals| - 1];
    assert arrivals == before + [last];
    ProperPrefix(before, last);
    if HeadOf(last.num, size) == head {
      ArrivalOutcome(size, before, last);
      i := |before|;
      assert arrivals[..i] == before;
    } else {
      assert Of(size, arrivals, head) == Of(size, before, head);
      i := CompleteIsEmitted(size, before, head);
      assert arrivals[..i] == before[..i];
    }
  }

  ghost predicate HasNum<T(!new)>(arrivals: seq<Numbered<T>>, n: int) {
    exists i :: 0 <= i < |arrivals| && arrivals[i].num == n
  }

  // All numbers from lo up to hi have arrived.
  ghost predicate HasAll<T(!new)>(arrivals: seq<Numbered<T>>, lo: int, hi: int) {
    forall n :: lo <= n < hi ==> HasNum(arrivals, n)
  }

  // All numbers of the group of `head` have arrived.
  ghost predicate Complete<T(!new)>(size: nat, arrivals: seq<Numbered<T>>, head: int) {
    HasAll(arrivals, head * size, head * size + size)
  }

  lemma FullHasAll<T(!new)>(mine: seq<Numbered<T>>, arrivals: seq<Numbered<T>>, lo: int, size: nat)
    requires DistinctNums(mine) && |mine| == size && Within(mine, lo, size)
    requires forall c :: c in mine ==> c in arrivals
    ensures HasAll(arrivals, lo, lo + size)
  {
    Pigeonhole(mine, lo, size);
    SortPermutes(mine);
    forall n | lo <= n < lo + size
      ensures HasNum(arrivals, n)
    {
      var c := SortByNum(mine)[n - lo];
      assert c in multiset(mine);
      assert c in arrivals;
    }
  }

  lemma HasAllIsFull<T(!new)>(mine: seq<Numbered<T>>, lo: int, size: nat)
    requires HasAll(mine, lo, lo + size)
    ensures |mine| >= size
  {
    var nums := set i | 0 <= i < |mine| :: mine[i].num;
    forall n | lo <= n < lo + size
      ensures n in nums
    {
      assert HasNum(mine, n);
    }
    RangeFits(lo, lo + size, nums);
    ImageSize(mine, |mine|);
  }

  lemma {:induction false} CompleteIffFull<T(!new)>(size: nat, arrivals: seq<Numbered<T>>, head: nat)
    requires size > 0 && Proper(arrivals)
    ensures |Of(size, arrivals, head)| == size <==> Complete(size, arrivals, head)
  {
    hide Of, HeadOf;
    var mine, lo := Of(size, arrivals, head), head * size;
    OfMembers(size, arrivals, head);
    OfDistinct(size, arrivals, head);
    OfWithin(size, arrivals, head);
    Pigeonhole(mine, lo, size);
    if |mine| == size {
      forall c | c in mine
        ensures c in arrivals
      {
        assert c in Of(size, arrivals, head);
      }
      FullHasAll(mine, arrivals, lo, size);
    }
    if HasAll(arrivals, lo, lo + size) {
      forall n | lo <= n < lo + size
        ensures HasNum(mine, n)
      {
        assert HasNum(arrivals, n);
        var i :| 0 <= i < |arrivals| && arrivals[i].num == n;
        HeadUnique(n, head, size);
        assert arrivals[i] in mine;
      }
      HasAllIsFull(mine, lo, size);
    }
  }

  lemma HeadUnique(n: nat, head: nat, size: nat)
    requires size > 0 && head * size <= n < head * size + size
    ensures HeadOf(n, size) == head
  {
    var h := n / size;
    if h < head {
      AtLeastOneMore(h, head, size);
    } else if h > head {
      AtLeastOneMore(head, h, size);
    }
  }

  lemma {:induction false} AtLeastOneMore(a: nat, b: nat, size: nat)
    requires a < b
    ensures b * size >= a * size + size
  {
    if a + 1 < b {
      AtLeastOneMore(a, b - 1, size);
    }
    assert b * size == (b - 1) * size + size;
  }

  lemma {:induction false} RangeFits(lo: int, hi: int, nums: set<int>)
    requires lo <= hi && forall n :: lo <= n < hi ==> n in nums
    ensures |nums| >= hi - lo
    decreases hi - lo
  {
    if lo < hi {
      RangeFits(lo, hi - 1, nums - {hi - 1});
    }
  }

  lemma {:induction false} ImageSize<T(!new)>(s: seq<Numbered<T>>, n: nat)
    requires n <= |s|
    ensures |set i | 0 <= i < n :: s[i].num| <= n
  {
    if n > 0 {
      ImageSize(s, n - 1);
      assert (set i | 0 <= i < n :: s[i].num) == (set i | 0 <= i < n - 1 :: s[i].num) + {s[n - 1].num};
    }
  }

  lemma HeadNotNegative(num: nat, size: nat)
    requires size > 0
    ensures HeadOf(num, size) >= 0
  {
  }

  lemma WaitsUnlessComplete<T(!new)>(size: nat, arrivals: seq<Numbered<T>>, i: nat)
    requires size > 0 && Proper(arrivals) && i < |arrivals|
    ensures var head := HeadOf(arrivals[i].num, size);
            head in After(size, arrivals) <==> !Complete(size, arrivals, head)
  {
    hide HeadOf, Complete, Of, After;
    var head := HeadOf(arrivals[i].num, size);
    HeadNotNegative(arrivals[i].num, size);
    WaitingAfter(size, arrivals, head);
    CompleteIffFull(size, arrivals, head);
    OfMembers(size, arrivals, head);
    OfFits(size, arrivals, head);
    assert arrivals[i] in Of(size, arrivals, head);
  }

  lemma WaitersArrived<T(!new)>(size: nat, arrivals: seq<Numbered<T>>, head: int)
    requires size > 0 && Proper(arrivals) && head in After(size, arrivals)
    ensures exists i :: 0 <= i < |arrivals| && HeadOf(arrivals[i].num, size) == head
  {
    hide HeadOf, Of, After;
    WaitingAfter(size, arrivals, head);
    OfMembers(size, arrivals, head);
    var first := Of(size, arrivals, head)[0];
    assert first in Of(size, arrivals, head);
    assert first in arrivals;
  }

  /** Finish reports success exactly when every number seen lies in a complete group. */
  lemma FinishIffComplete<T(!new)>(size: nat, arrivals: seq<Numbered<T>>)
    requires size > 0 && Proper(arrivals)
    ensures After(size, arrivals) == map[] <==>
            forall i :: 0 <= i < |arrivals| ==> Complete(size, arrivals, HeadOf(arrivals[i].num, size))
  {
    hide Complete;
    forall i | 0 <= i < |arrivals|
      ensures HeadOf(arrivals[i].num, size) in After(size, arrivals) <==>
              !Complete(size, arrivals, HeadOf(arrivals[i].num, size))
    {
      WaitsUnlessComplete(size, arrivals, i);
    }
    forall head: int | head in After(size, arrivals)
      ensures exists i :: 0 <= i < |arrivals| && HeadOf(arrivals[i].num, size) == head
    {
      WaitersArrived(size, arrivals, head);
    }
    assert After(size, arrivals) == map[] <==> forall head: int :: head !in After(size, arrivals);
  }
}
