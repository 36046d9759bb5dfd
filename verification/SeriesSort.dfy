/** The rolling series of seriessort/series.go, refined to a partial map from positions to values. */
module SeriesSort {
  import opened Wrappers

  /** What a series means: positions below `start` are gone; `slots` are the tracked ones from there on. */
  datatype View<T> = View(start: nat, slots: seq<Option<T>>) {
    // The value at an absolute position.
    function At(p: int): Option<T> {
      if start <= p < start + |slots| then slots[p - start] else None
    }

    function Added(p: nat, val: T): (v: View<T>)
      requires start <= p
      ensures v.start == start && |v.slots| == Max(|slots|, p - start + 1)
      ensures forall q: int :: v.At(q) == if q == p then Some(val) else At(q)
    {
      View(start, Padded(slots, p - start + 1)[p - start := Some(val)])
    }

    function Dropped(count: int): (v: View<T>)
      ensures v.start == start + Min(Max(count, 0), |slots|) && v.start + |v.slots| == start + |slots|
      ensures forall q: int :: v.At(q) == if q < v.start then None else At(q)
    {
      var n := Min(Max(count, 0), |slots|);
      View(start + n, slots[n..])
    }

    // The values before the first gap.
    function Run(): seq<T> {
      RunOf(slots)
    }
  }

  function Padded<T>(slots: seq<Option<T>>, n: nat): (r: seq<Option<T>>)
    ensures |r| == Max(|slots|, n)
    ensures forall j :: 0 <= j < |r| ==> r[j] == if j < |slots| then slots[j] else None
  {
    if |slots| < n then slots + seq(n - |slots|, _ => None) else slots
  }

  function RunOf<T>(slots: seq<Option<T>>): seq<T> {
    if slots == [] || slots[0] == None then [] else [slots[0].value] + RunOf(slots[1..])
  }

  /** The run is the longest gapless stretch from `start`. */
  lemma {:induction false} RunIsTheGaplessPrefix<T>(slots: seq<Option<T>>)
    ensures |RunOf(slots)| <= |slots|
    ensures forall j :: 0 <= j < |RunOf(slots)| ==> slots[j] == Some(RunOf(slots)[j])
    ensures |RunOf(slots)| < |slots| ==> slots[|RunOf(slots)|] == None
  {
    if slots != [] && slots[0] != None {
      RunIsTheGaplessPrefix(slots[1..]);
    }
  }

  lemma {:induction false} RunFrom<T>(slots: seq<Option<T>>, i: nat)
    requires i <= |slots| && forall j :: 0 <= j < i ==> slots[j].Some?
    requires i == |slots| || slots[i] == None
    ensures |RunOf(slots)| == i && forall j :: 0 <= j < i ==> RunOf(slots)[j] == slots[j].value
  {
    if i > 0 {
      RunFrom(slots[1..], i - 1);
    }
  }

  /**
   `values` of the source is the slice of `buf` that starts at `off`, has length `len` and capacity
   `buf.Length - off`.
   */
  class Series<T> {
    var buf: array<Option<T>>
    var off: nat
    var len: nat
    var start: nat

    // Slots between length and capacity are unset, so that extending the slice never uncovers a stale value.
    ghost predicate Valid()
      reads this, buf
    {
      && off + len <= buf.Length
      && forall j :: off + len <= j < buf.Length ==> buf[j] == None
    }

    ghost function Abs(): View<T>
      requires Valid()
      reads this, buf
    {
      View(start, buf[off..off + len])
    }

    // The tracked slots, read off the array.
    lemma SlotsAre()
      requires Valid()
      ensures Abs().start == start && |Abs().slots| == len
      ensures forall j :: 0 <= j < len ==> Abs().slots[j] == buf[off + j]
    {
    }

    constructor ()
      ensures Valid() && fresh(buf) && Abs() == View(0, [])
    {
      buf := new Option<T>[0];
      off, len, start := 0, 0, 0;
    }

    // A larger backing array with the same values, unset behind them.
    method Resized(size: nat) returns (resized: array<Option<T>>)
      requires Valid() && len <= size
      ensures fresh(resized) && resized.Length == size
      ensures forall j :: 0 <= j < size ==> resized[j] == if j < len then buf[off + j] else None
    {
      resized := new Option<T>[size](_ => None);
      var k := 0;
      while k < len
        invariant 0 <= k <= len
        invariant forall j :: 0 <= j < size ==> resized[j] == if j < k then buf[off + j] else None
        modifies resized
      {
        resized[k] := buf[off + k];
        k := k + 1;
      }
    }

    // series.go:16-23: make room for `minLen` slots.
    method Extend(i: nat)
      requires Valid()
      modifies this
      ensures Valid() && (buf == old(buf) || fresh(buf)) && start == old(start) && len > i
      ensures Abs().slots == Padded(old(Abs()).slots, i + 1)
    {
      hide Abs;
      SlotsAre();
      var minLen := i + 1;
      if len < minLen {
        if buf.Length - off < minLen {
          buf := Resized(i * 2 + 1);
          off := 0;
        }
        len := minLen;
      }
      SlotsAre();
    }

    // The source panics when the position was dropped already.
    method Add(pos: nat, val: T)
      requires Valid() && pos >= start
      modifies this, buf
      ensures Valid() && (buf == old(buf) || fresh(buf))
      ensures Abs() == old(Abs()).Added(pos, val)
    {
      hide Abs, Padded;
      SlotsAre();
      var i := pos - start;
      Extend(i);
      SlotsAre();
      ghost var padded := Abs().slots;
      buf[off + i] := Some(val);
      SlotsAre();
      assert Abs().slots == padded[i := Some(val)];
    }

    method Drop(count: int)
      requires Valid()
      modifies this
      ensures Valid() && buf == old(buf)
      ensures Abs() == old(Abs()).Dropped(count)
    {
      var n := count;
      if n < 0 {
        n := 0;
      }
      if n > len {
        n := len;
      }
      hide Abs;
      SlotsAre();
      off, len, start := off + n, len - n, start + n;
      SlotsAre();
    }

    method Sorted() returns (values: seq<T>)
      requires Valid()
      ensures values == Abs().Run()
    {
      hide Abs;
      SlotsAre();
      ghost var slots := Abs().slots;
      var i := 0;
      while i < len
        invariant 0 <= i <= len && forall j :: 0 <= j < i ==> slots[j].Some?
      {
        if buf[off + i] == None {
          break;
        }
        i := i + 1;
      }
      RunFrom(slots, i);
      values := [];
      var k := 0;
      while k < i
        invariant 0 <= k <= i && values == RunOf(slots)[..k]
      {
        assert slots[k].Some?;
        values := values + [buf[off + k].value];
        k := k + 1;
      }
    }

    method Len() returns (n: nat)
      requires Valid()
      ensures n == |Abs().slots|
    {
      n := len;
    }
  }
}
