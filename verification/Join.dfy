/** In-order output: procs/sort.go and the writer behind it, under the slots of procs/backlog.go. */
module Join {
  import opened Wrappers
  import opened SeriesSort

  /** slots/slots.go: a channel filled with tokens; receiving takes one, sending returns one. */
  class Slots {
    const capacity: nat
    var free: nat

    ghost predicate Valid()
      reads this
    {
      free <= capacity
    }

    constructor (n: nat)
      ensures Valid() && capacity == n && free == n
    {
      capacity, free := n, n;
    }

    // Blocks while no token is left.
    method Take()
      requires Valid() && free > 0
      modifies this
      ensures Valid() && free == old(free) - 1
    {
      free := free - 1;
    }

    // Blocks while the channel is full.
    method Release()
      requires Valid() && free < capacity
      modifies this
      ensures Valid() && free == old(free) + 1
    {
      free := free + 1;
    }
  }

  /** sort.go:15-27, on values: what is released, and what stays. */
  function Released<T>(v: View<T>, num: nat, val: T): seq<T>
    requires v.start <= num
  {
    v.Added(num, val).Run()
  }

  function Kept<T>(v: View<T>, num: nat, val: T): View<T>
    requires v.start <= num
  {
    v.Added(num, val).Dropped(|Released(v, num, val)|)
  }

  class Sort<T> {
    var series: Series<T>

    ghost predicate Valid()
      reads this, series, series.buf
    {
      series.Valid()
    }

    constructor ()
      ensures Valid() && fresh(series) && fresh(series.buf) && series.Abs() == View(0, [])
    {
      series := new Series<T>();
    }

    method Process(num: nat, val: T) returns (sorted: seq<T>)
      requires Valid() && series.start <= num
      modifies series, series.buf
      ensures Valid() && (series.buf == old(series.buf) || fresh(series.buf))
      ensures sorted == Released(old(series.Abs()), num, val)
      ensures series.Abs() == Kept(old(series.Abs()), num, val)
    {
      series.Add(num, val);
      sorted := series.Sorted();
      series.Drop(|sorted|);
    }

    /** sort.go:29-37: true when the source returns nil. */
    method Finish() returns (ok: bool)
      requires Valid()
      ensures ok <==> series.Abs().slots == []
    {
      var n := series.Len();
      ok := !(n > 0);
    }
  }

  // ---------------------------------------------------------------- concurrent calls

  type Data = seq<int>

  /** A call: waiting for a slot, holding one, writing what Sort released, or gone. */
  datatype Pc = Waiting | Holding | Writing(rest: seq<Data>) | Gone

  datatype Sys = Sys(free: nat, series: View<Data>, out: seq<int>, pcs: map<nat, Pc>)

  datatype Event = Take | DoSort | Write | Release

  ghost predicate Enabled(chunks: map<nat, Data>, s: Sys, k: nat, ev: Event) {
    k in s.pcs && k in chunks &&
    match ev
    case Take => s.pcs[k] == Waiting && s.free > 0
    case DoSort => s.pcs[k] == Holding && s.series.start <= k
    case Write => s.pcs[k].Writing? && s.pcs[k].rest != []
    case Release => s.pcs[k] == Writing([])
  }

  ghost function Next(chunks: map<nat, Data>, s: Sys, k: nat, ev: Event): Sys
    requires Enabled(chunks, s, k, ev)
  {
    match ev
    case Take => s.(free := s.free - 1, pcs := s.pcs[k := Holding])
    case DoSort => s.(series := Kept(s.series, k, chunks[k]),
                      pcs := s.pcs[k := Writing(Released(s.series, k, chunks[k]))])
    case Write => s.(out := s.out + s.pcs[k].rest[0], pcs := s.pcs[k := Writing(s.pcs[k].rest[1..])])
    case Release => s.(free := s.free + 1, pcs := s.pcs[k := Gone])
  }

  ghost predicate Runs(chunks: map<nat, Data>, s: Sys, run: seq<(nat, Event)>, t: Sys)
    decreases run
  {
    if run == [] then s == t
    else Enabled(chunks, s, run[0].0, run[0].1) && Runs(chunks, Next(chunks, s, run[0].0, run[0].1), run[1..], t)
  }

  ghost function Start(chunks: map<nat, Data>, capacity: nat): Sys {
    Sys(capacity, View(0, []), [], map k | k in chunks :: Waiting)
  }

  // The calls that hold a slot.
  ghost function Active(s: Sys): set<nat> {
    set k | k in s.pcs && (s.pcs[k] == Holding || s.pcs[k].Writing?)
  }

  ghost predicate SlotsInv(s: Sys, capacity: nat) {
    s.free + |Active(s)| == capacity
  }

  lemma SlotsKept(chunks: map<nat, Data>, s: Sys, k: nat, ev: Event, capacity: nat)
    requires SlotsInv(s, capacity) && Enabled(chunks, s, k, ev)
    ensures SlotsInv(Next(chunks, s, k, ev), capacity)
  {
    var t := Next(chunks, s, k, ev);
    match ev
    case Take => assert Active(t) == Active(s) + {k};
    case DoSort => assert Active(t) == Active(s);
    case Write => assert Active(t) == Active(s);
    case Release => assert Active(t) == Active(s) - {k};
  }

  /** Slots in use and free slots always add up. */
  lemma {:induction false} SlotsAddUp(chunks: map<nat, Data>, s: Sys, run: seq<(nat, Event)>, t: Sys, capacity: nat)
    requires SlotsInv(s, capacity) && Runs(chunks, s, run, t)
    ensures SlotsInv(t, capacity)
    decreases run
  {
    hide SlotsInv, Enabled, Next;
    if run != [] {
      SlotsKept(chunks, s, run[0].0, run[0].1, capacity);
      SlotsAddUp(chunks, Next(chunks, s, run[0].0, run[0].1), run[1..], t, capacity);
    }
  }

  /** The chunks m .. n-1, one after the other. */
  ghost function Bytes(chunks: map<nat, Data>, m: nat, n: nat): seq<int>
    requires m <= n
    decreases n - m
  {
    if m == n then [] else (if m in chunks then chunks[m] else []) + Bytes(chunks, m + 1, n)
  }

  lemma {:induction false} BytesSplit(chunks: map<nat, Data>, m: nat, n: nat, q: nat)
    requires m <= n <= q
    ensures Bytes(chunks, m, q) == Bytes(chunks, m, n) + Bytes(chunks, n, q)
    decreases n - m
  {
    if m < n {
      BytesSplit(chunks, m + 1, n, q);
    }
  }

  ghost predicate Sorted(s: Sys, p: int) {
    p >= 0 && p in s.pcs && s.pcs[p] != Waiting && s.pcs[p] != Holding
  }

  // Positions from start on hold exactly the chunks sorted in; the first one is missing.
  ghost predicate SeriesInv(chunks: map<nat, Data>, s: Sys) {
    && s.pcs.Keys == chunks.Keys
    && (forall p: int :: p >= s.series.start ==> s.series.At(p) == if Sorted(s, p) then Some(chunks[p]) else None)
    && (forall p: nat :: p < s.series.start ==> Sorted(s, p))
    && s.series.At(s.series.start) == None
    && (s.series.slots != [] ==> s.series.slots[|s.series.slots| - 1].Some?)
  }

  // At most one call holds the slot; what it still has to write is what is missing from the output.
  ghost predicate OutInv(chunks: map<nat, Data>, s: Sys, w: nat) {
    && w <= s.series.start && s.out == Bytes(chunks, 0, w)
    && (forall k, m :: k in Active(s) && m in Active(s) ==> k == m)
    && (s.free > 0 ==> Active(s) == {})
    && (forall k :: k in s.pcs && s.pcs[k].Writing? ==> Rest(chunks, s.pcs[k].rest, w, s.series.start))
    && ((forall k :: k in s.pcs ==> !s.pcs[k].Writing?) ==> w == s.series.start)
  }

  ghost predicate Rest(chunks: map<nat, Data>, rest: seq<Data>, w: nat, start: nat) {
    |rest| == start - w && forall p :: w <= p < start ==> p in chunks && rest[p - w] == chunks[p]
  }

  // What one arrival releases and keeps, position by position.
  lemma ReleasedAndKept<T(!new)>(v: View<T>, num: nat, val: T)
    requires v.start <= num
    ensures var r, kept := Released(v, num, val), Kept(v, num, val);
      && kept.start == v.start + |r| && kept.At(kept.start) == None
      && (forall p: int :: v.start <= p < kept.start ==>
            Some(r[p - v.start]) == if p == num then Some(val) else v.At(p))
      && (forall p: int :: p >= kept.start ==> kept.At(p) == if p == num then Some(val) else v.At(p))
      && (v.slots == [] || v.slots[|v.slots| - 1].Some? ==>
            kept.slots == [] || kept.slots[|kept.slots| - 1].Some?)
  {
    var v1 := v.Added(num, val);
    RunIsTheGaplessPrefix(v1.slots);
    forall p: int | v.start <= p < v.start + |v1.Run()|
      ensures Some(v1.Run()[p - v.start]) == if p == num then Some(val) else v.At(p)
    {
      assert v1.At(p) == v1.slots[p - v.start];
    }
  }

  // Every position passed by one arrival was sorted in, with its own chunk.
  lemma KeptPasses(chunks: map<nat, Data>, s: Sys, k: nat, p: nat)
    requires SeriesInv(chunks, s) && Enabled(chunks, s, k, DoSort)
    requires p < Next(chunks, s, k, DoSort).series.start
    ensures Sorted(Next(chunks, s, k, DoSort), p)
    ensures p >= s.series.start ==>
        && p in chunks && p - s.series.start < |Released(s.series, k, chunks[k])|
        && Released(s.series, k, chunks[k])[p - s.series.start] == chunks[p]
  {
    ReleasedAndKept(s.series, k, chunks[k]);
    hide Released, Kept;
    if p < s.series.start {
      assert Sorted(s, p);
    } else {
      assert p == k || s.series.At(p).Some?;
      assert p == k || Sorted(s, p);
    }
  }

  lemma KeptSeries(chunks: map<nat, Data>, s: Sys, k: nat)
    requires SeriesInv(chunks, s) && Enabled(chunks, s, k, DoSort)
    ensures SeriesInv(chunks, Next(chunks, s, k, DoSort))
  {
    var t := Next(chunks, s, k, DoSort);
    ReleasedAndKept(s.series, k, chunks[k]);
    forall p: nat | p < t.series.start
      ensures Sorted(t, p)
    {
      KeptPasses(chunks, s, k, p);
    }
    forall p: int | p >= t.series.start
      ensures t.series.At(p) == if Sorted(t, p) then Some(chunks[p]) else None
    {
      KeptAt(chunks, s, k, p);
    }
    hide Released, Kept;
  }

  lemma KeptAt(chunks: map<nat, Data>, s: Sys, k: nat, p: int)
    requires SeriesInv(chunks, s) && Enabled(chunks, s, k, DoSort)
    requires p >= Next(chunks, s, k, DoSort).series.start
    ensures var t := Next(chunks, s, k, DoSort);
      && (Sorted(t, p) ==> p in chunks)
      && t.series.At(p) == if Sorted(t, p) then Some(chunks[p]) else None
  {
    ReleasedAndKept(s.series, k, chunks[k]);
    hide Released, Kept;
    assert p != k ==> Sorted(Next(chunks, s, k, DoSort), p) == Sorted(s, p);
  }

  lemma KeptRest(chunks: map<nat, Data>, s: Sys, k: nat)
    requires SeriesInv(chunks, s) && Enabled(chunks, s, k, DoSort)
    ensures Rest(chunks, Released(s.series, k, chunks[k]), s.series.start, Next(chunks, s, k, DoSort).series.start)
  {
    var t, r := Next(chunks, s, k, DoSort), Released(s.series, k, chunks[k]);
    assert t.series.start == s.series.start + |r| by {
      ReleasedAndKept(s.series, k, chunks[k]);
    }
    forall p | s.series.start <= p < t.series.start
      ensures p in chunks && r[p - s.series.start] == chunks[p]
    {
      KeptPasses(chunks, s, k, p);
    }
  }

  lemma SeriesFrame(chunks: map<nat, Data>, s: Sys, t: Sys)
    requires SeriesInv(chunks, s) && t.series == s.series && t.pcs.Keys == s.pcs.Keys
    requires forall p: int :: Sorted(t, p) <==> Sorted(s, p)
    ensures SeriesInv(chunks, t)
  {
    forall p: nat | p < t.series.start
      ensures Sorted(t, p)
    {
      assert Sorted(s, p);
    }
  }

  lemma NeverBelowStart(chunks: map<nat, Data>, s: Sys, k: nat)
    requires SeriesInv(chunks, s) && k in s.pcs && s.pcs[k] == Holding
    ensures s.series.start <= k
  {
    assert k < s.series.start ==> Sorted(s, k);
  }

  ghost predicate Inv(chunks: map<nat, Data>, s: Sys, w: nat) {
    SeriesInv(chunks, s) && OutInv(chunks, s, w)
  }

  // The number of chunks written after an event.
  ghost function Written(w: nat, ev: Event): nat {
    if ev.Write? then w + 1 else w
  }

  lemma TakeKeeps(chunks: map<nat, Data>, s: Sys, k: nat, w: nat)
    requires Inv(chunks, s, w) && SlotsInv(s, 1) && Enabled(chunks, s, k, Take)
    ensures Inv(chunks, Next(chunks, s, k, Take), w)
  {
    hide Rest;
    var t := Next(chunks, s, k, Take);
    SeriesFrame(chunks, s, t);
    assert Active(t) == Active(s) + {k} && Active(s) == {};
    assert forall m :: m in s.pcs && s.pcs[m].Writing? ==> m in Active(s);
  }

  lemma ReleaseKeeps(chunks: map<nat, Data>, s: Sys, k: nat, w: nat)
    requires Inv(chunks, s, w) && Enabled(chunks, s, k, Release)
    ensures Inv(chunks, Next(chunks, s, k, Release), w)
  {
    hide SeriesInv;
    var t := Next(chunks, s, k, Release);
    SeriesFrame(chunks, s, t);
    assert k in Active(s) && Active(t) == Active(s) - {k};
    assert Active(t) == {};
    assert forall m :: m in t.pcs && t.pcs[m].Writing? ==> m in Active(t);
  }

  lemma EventKeeps(chunks: map<nat, Data>, s: Sys, k: nat, ev: Event, w: nat)
    requires Inv(chunks, s, w) && SlotsInv(s, 1) && Enabled(chunks, s, k, ev)
    ensures Inv(chunks, Next(chunks, s, k, ev), Written(w, ev))
  {
    hide SeriesInv, OutInv;
    match ev
    case Take => TakeKeeps(chunks, s, k, w);
    case DoSort =>
      KeptSeries(chunks, s, k);
      KeptRest(chunks, s, k);
      SortKeepsOut(chunks, s, k, w);
    case Write =>
      SeriesFrame(chunks, s, Next(chunks, s, k, Write));
      WriteKeepsOut(chunks, s, k, w);
    case Release => ReleaseKeeps(chunks, s, k, w);
  }

  lemma SortKeepsOut(chunks: map<nat, Data>, s: Sys, k: nat, w: nat)
    requires OutInv(chunks, s, w) && Enabled(chunks, s, k, DoSort)
    requires Rest(chunks, Released(s.series, k, chunks[k]), s.series.start, Next(chunks, s, k, DoSort).series.start)
    ensures OutInv(chunks, Next(chunks, s, k, DoSort), w)
  {
    hide Rest, Released, Kept;
    var t := Next(chunks, s, k, DoSort);
    assert k in Active(s) && Active(t) == Active(s);
    forall m | m in s.pcs
      ensures !s.pcs[m].Writing?
    {
      assert s.pcs[m].Writing? ==> m in Active(s);
    }
    assert w == s.series.start;
    forall m | m in t.pcs && t.pcs[m].Writing?
      ensures m == k
    {
    }
    assert t.series.start >= w by {
      RestFits(chunks, Released(s.series, k, chunks[k]), w, t.series.start);
    }
    assert t.pcs[k].Writing?;
  }

  lemma RestFits(chunks: map<nat, Data>, rest: seq<Data>, w: nat, start: nat)
    requires Rest(chunks, rest, w, start)
    ensures start >= w
  {
  }

  lemma WriteKeepsOut(chunks: map<nat, Data>, s: Sys, k: nat, w: nat)
    requires OutInv(chunks, s, w) && Enabled(chunks, s, k, Write)
    ensures OutInv(chunks, Next(chunks, s, k, Write), w + 1)
  {
    var t, rest := Next(chunks, s, k, Write), s.pcs[k].rest;
    assert k in Active(s) && Active(t) == Active(s);
    assert rest[w - w] == chunks[w];
    BytesSplit(chunks, 0, w, w + 1);
    assert Bytes(chunks, w, w + 1) == chunks[w];
    forall m | m in t.pcs && t.pcs[m].Writing?
      ensures m == k
    {
      assert m in Active(t);
    }
    forall p | w + 1 <= p < t.series.start
      ensures p in chunks && rest[1..][p - (w + 1)] == chunks[p]
    {
      assert rest[1..][p - (w + 1)] == rest[p - w];
    }
  }

  // ---------------------------------------------------------------- all runs under one slot

  lemma StartInv(chunks: map<nat, Data>)
    ensures Inv(chunks, Start(chunks, 1), 0) && SlotsInv(Start(chunks, 1), 1)
  {
    assert Active(Start(chunks, 1)) == {};
  }

  lemma {:induction false} RunKeeps(chunks: map<nat, Data>, s: Sys, run: seq<(nat, Event)>, t: Sys, w: nat)
    returns (w': nat)
    requires Inv(chunks, s, w) && SlotsInv(s, 1) && Runs(chunks, s, run, t)
    ensures Inv(chunks, t, w')
    decreases run
  {
    hide Inv, SlotsInv, Enabled, Next;
    w' := w;
    if run != [] {
      EventKeeps(chunks, s, run[0].0, run[0].1, w);
      SlotsKept(chunks, s, run[0].0, run[0].1, 1);
      w' := RunKeeps(chunks, Next(chunks, s, run[0].0, run[0].1), run[1..], t, Written(w, run[0].1));
    }
  }

  /** At every moment, for every order of arrival, the bytes written are a prefix of the chunks in number order. */
  lemma OutputIsInOrder(chunks: map<nat, Data>, run: seq<(nat, Event)>, t: Sys, n: nat)
    requires Runs(chunks, Start(chunks, 1), run, t)
    requires forall k: nat :: k in chunks <==> k < n
    ensures t.out <= Bytes(chunks, 0, n)
  {
    StartInv(chunks);
    var w := RunKeeps(chunks, Start(chunks, 1), run, t, 0);
    assert w > n ==> Sorted(t, n);
    BytesSplit(chunks, 0, w, n);
  }

  /** When every chunk's call is over, everything was written, once, and nothing is left behind. */
  lemma AllGoneIsAllWritten(chunks: map<nat, Data>, run: seq<(nat, Event)>, t: Sys, n: nat)
    requires Runs(chunks, Start(chunks, 1), run, t)
    requires forall k: nat :: k in chunks <==> k < n
    requires forall k :: k in t.pcs ==> t.pcs[k] == Gone
    ensures t.out == Bytes(chunks, 0, n) && t.series.slots == []
  {
    StartInv(chunks);
    var w := RunKeeps(chunks, Start(chunks, 1), run, t, 0);
    var start := t.series.start;
    assert w == start;
    assert start > n ==> Sorted(t, n);
    assert start < n ==> Sorted(t, start);
    assert t.series.slots != [] ==> Sorted(t, start + |t.series.slots| - 1) by {
      assert t.series.slots != [] ==> t.series.At(start + |t.series.slots| - 1).Some?;
    }
  }

  // Somebody holds every slot that is not free.
  lemma SomeoneIsActive(s: Sys)
    requires SlotsInv(s, 1) && s.free == 0
    ensures exists k :: k in Active(s)
  {
    assert |Active(s)| == 1;
    var k :| k in Active(s);
  }

  // A call that holds a slot has a next step: what it sorts in is never below what was passed.
  lemma HolderGoesOn(chunks: map<nat, Data>, s: Sys, k: nat)
    requires SeriesInv(chunks, s) && k in s.pcs && k in chunks && k in Active(s)
    ensures exists ev :: Enabled(chunks, s, k, ev)
  {
    if s.pcs[k] == Holding {
      NeverBelowStart(chunks, s, k);
      assert Enabled(chunks, s, k, DoSort);
    } else if s.pcs[k].rest == [] {
      assert Enabled(chunks, s, k, Release);
    } else {
      assert Enabled(chunks, s, k, Write);
    }
  }

  /** No schedule gets stuck: while some call is not over, some call has a next step. */
  lemma NeverStuck(chunks: map<nat, Data>, run: seq<(nat, Event)>, t: Sys, k: nat)
    requires Runs(chunks, Start(chunks, 1), run, t) && k in t.pcs && t.pcs[k] != Gone
    ensures exists m, ev :: Enabled(chunks, t, m, ev)
  {
    hide Runs;
    StartInv(chunks);
    var w := RunKeeps(chunks, Start(chunks, 1), run, t, 0);
    SlotsAddUp(chunks, Start(chunks, 1), run, t, 1);
    if t.pcs[k] == Waiting && t.free > 0 {
      assert Enabled(chunks, t, k, Take);
    } else {
      var m := k;
      if t.pcs[k] == Waiting {
        SomeoneIsActive(t);
        m :| m in Active(t);
      }
      HolderGoesOn(chunks, t, m);
    }
  }
}
