/**
 The index of procs/index.go: it writes the final chunks of every input chunk in input order, once all of
 them are known, although chunks are processed concurrently and duplicates are processed only once.
 */
module Index {
  import opened Wrappers
  import opened Chunks
  import opened Sorting
  import opened SeriesSort

  type Entry = Numbered<Line>

  datatype Finals = Finals(num: int, entries: seq<Entry>, complete: bool)

  datatype Error = UnprocessedChunk | ProcessEnded | Dup

  /**
   The state the critical sections work on. `flushing` is the number of positions written by the flush
   that holds the order lock, or None when the lock is free.
   */
  datatype State = State(order: View<Hash>, finals: map<Hash, Finals>, written: seq<Line>, flushing: Option<nat>)

  const EMPTY: State := State(View(0, []), map[], [], None)

  function LinesOf(entries: seq<Entry>): seq<Line> {
    if entries == [] then [] else [entries[0].val] + LinesOf(entries[1..])
  }

  // ---------------------------------------------------------------- critical sections

  function SetOrder(st: State, num: nat, hash: Hash): State
    requires st.order.start <= num
  {
    st.(order := st.order.Added(num, hash))
  }

  function Register(st: State, num: int, hash: Hash): State {
    if hash in st.finals then st else st.(finals := st.finals[hash := Finals(num, [], false)])
  }

  function FinalError(st: State, num: int, hash: Hash): Option<Error> {
    if hash !in st.finals then Some(UnprocessedChunk)
    else if st.finals[hash].complete then Some(ProcessEnded)
    else if st.finals[hash].num != num then Some(Dup)
    else None
  }

  function AddFinal(st: State, num: int, hash: Hash, e: Entry): State {
    if FinalError(st, num, hash).Some? then st
    else
      var f := st.finals[hash];
      st.(finals := st.finals[hash := f.(entries := f.entries + [e])])
  }

  function SetComplete(st: State, num: int, hash: Hash): State {
    if hash !in st.finals || st.finals[hash].num != num then st
    else st.(finals := st.finals[hash := st.finals[hash].(complete := true)])
  }

  /** A final is taken exactly from the chunk that registered its checksum, until that chunk has ended. */
  lemma FinalTakenIff(st: State, num: int, hash: Hash, e: Entry)
    ensures FinalError(st, num, hash) == None <==>
            hash in st.finals && st.finals[hash].num == num && !st.finals[hash].complete
    ensures FinalError(st, num, hash) == Some(UnprocessedChunk) <==> hash !in st.finals
    ensures FinalError(st, num, hash) == Some(ProcessEnded) <==> hash in st.finals && st.finals[hash].complete
    ensures AddFinal(st, num, hash, e) != st <==> FinalError(st, num, hash) == None
  {
    if FinalError(st, num, hash) == None {
      var entries := st.finals[hash].entries;
      assert |entries + [e]| != |entries|;
      assert AddFinal(st, num, hash, e).finals[hash].entries == entries + [e];
    }
  }

  ghost predicate Settled(st: State, hash: Hash) {
    hash in st.finals && st.finals[hash].complete
  }

  function FlushBegin(st: State): State {
    st.(flushing := Some(0))
  }

  ghost predicate CanWrite(st: State) {
    && st.flushing.Some?
    && st.flushing.value < |st.order.Run()|
    && Settled(st, st.order.Run()[st.flushing.value])
  }

  ghost function FlushWrite(st: State): State
    requires CanWrite(st)
  {
    var h := st.order.Run()[st.flushing.value];
    var f := st.finals[h];
    var entries := SortByNum(f.entries);
    st.(finals := st.finals[h := f.(entries := entries)],
        written := st.written + LinesOf(entries),
        flushing := Some(st.flushing.value + 1))
  }

  function FlushEnd(st: State): State
    requires st.flushing.Some?
  {
    st.(order := st.order.Dropped(st.flushing.value), flushing := None)
  }

  // A whole flush, when nothing comes between its steps.
  ghost function FlushAll(st: State): State
    requires st.flushing.Some?
    decreases |st.order.Run()| - st.flushing.value
  {
    if CanWrite(st) then FlushAll(FlushWrite(st)) else FlushEnd(st)
  }

  lemma FlushTurn(st: State)
    requires st.flushing.Some?
    ensures FlushAll(st) == if CanWrite(st) then FlushAll(FlushWrite(st)) else FlushEnd(st)
  {
  }

  // ---------------------------------------------------------------- what has ended

  // The chunk of this checksum has ended, and its finals stay what they were, in some order.
  ghost predicate Frozen(before: State, st: State, hash: Hash) {
    Settled(before, hash) ==>
      && Settled(st, hash) && st.finals[hash].num == before.finals[hash].num
      && multiset(st.finals[hash].entries) == multiset(before.finals[hash].entries)
  }

  /** Whatever is called, in the protocol or against it: the finals of a chunk that has ended never change. */
  lemma EndedIsFrozen(st: State, num: int, hash: Hash, e: Entry, other: Hash)
    ensures Frozen(st, Register(st, num, hash), other)
    ensures Frozen(st, AddFinal(st, num, hash, e), other)
    ensures Frozen(st, SetComplete(st, num, hash), other)
    ensures st.flushing.Some? ==> Frozen(st, FlushEnd(st), other)
    ensures CanWrite(st) ==> Frozen(st, FlushWrite(st), other)
  {
    if CanWrite(st) {
      SortPermutes(st.finals[st.order.Run()[st.flushing.value]].entries);
    }
  }

  lemma {:induction false} FlushFreezes(st: State, hash: Hash)
    requires st.flushing.Some?
    ensures Frozen(st, FlushAll(st), hash)
    decreases |st.order.Run()| - st.flushing.value
  {
    EndedIsFrozen(st, 0, hash, Numbered(0, Line(hash, 0)), hash);
    hide FlushWrite, Frozen;
    FlushTurn(st);
    if CanWrite(st) {
      WriteMovesOn(st);
      FlushFreezes(FlushWrite(st), hash);
      FrozenOn(st, FlushWrite(st), FlushAll(FlushWrite(st)), hash);
    }
  }

  lemma WriteMovesOn(st: State)
    requires CanWrite(st)
    ensures FlushWrite(st).order == st.order && FlushWrite(st).flushing == Some(st.flushing.value + 1)
  {
  }

  lemma FrozenOn(a: State, b: State, c: State, hash: Hash)
    requires Frozen(a, b, hash) && Frozen(b, c, hash)
    ensures Frozen(a, c, hash)
  {
  }

  // ---------------------------------------------------------------- the class

  class IndexProc {
    var order: Series<Hash>
    var finals: map<Hash, Finals>
    var written: seq<Line>

    ghost predicate Valid()
      reads this, order, order.buf
    {
      order.Valid()
    }

    ghost function Abs(): State
      requires Valid()
      reads this, order, order.buf
    {
      State(order.Abs(), finals, written, None)
    }

    constructor ()
      ensures Valid() && fresh(order) && fresh(order.buf) && Abs() == EMPTY
    {
      order := new Series<Hash>();
      finals, written := map[], [];
    }

    /** index.go:55-69: true when the chunk goes on down the chain, false for a duplicate. */
    method Process(num: nat, hash: Hash) returns (passed: bool)
      requires Valid() && order.start <= num
      modifies this, order, order.buf
      ensures Valid() && order == old(order) && (order.buf == old(order.buf) || fresh(order.buf))
      ensures Abs() == Register(SetOrder(old(Abs()), num, hash), num, hash)
      ensures passed <==> hash !in old(finals)
    {
      order.Add(num, hash);
      passed := hash !in finals;
      if passed {
        finals := finals[hash := Finals(num, [], false)];
      }
    }

    /** index.go:71-91. */
    method ProcessFinal(num: int, hash: Hash, final: Entry) returns (err: Option<Error>)
      requires Valid()
      modifies this`finals
      ensures Valid() && Abs() == AddFinal(old(Abs()), num, hash, final)
      ensures err == FinalError(old(Abs()), num, hash)
    {
      if hash !in finals {
        return Some(UnprocessedChunk);
      }
      var f := finals[hash];
      if f.complete {
        return Some(ProcessEnded);
      }
      if f.num != num {
        return Some(Dup);
      }
      finals := finals[hash := f.(entries := f.entries + [final])];
      err := None;
    }

    /** index.go:93-99 and 108-120. */
    method ProcessEnd(num: int, hash: Hash) returns (err: Option<Error>)
      requires Valid()
      modifies this, order
      ensures Valid() && order == old(order) && order.buf == old(order.buf)
      ensures err == if hash in old(finals) then None else Some(UnprocessedChunk)
      ensures err.Some? ==> Abs() == old(Abs())
      ensures err.None? ==> Abs() == FlushAll(FlushBegin(SetComplete(old(Abs()), num, hash)))
    {
      if hash !in finals {
        return Some(UnprocessedChunk);
      }
      if finals[hash].num == num {
        finals := finals[hash := finals[hash].(complete := true)];
      }
      Flush();
      err := None;
    }

    // The state in the middle of a flush, with i positions written.
    ghost function AbsAt(i: nat): State
      requires Valid()
      reads this, order, order.buf
    {
      Abs().(flushing := Some(i))
    }

    /** index.go:132-159: write, in order, everything up to the first position that is not complete. */
    method Flush()
      requires Valid()
      modifies this, order
      ensures Valid() && order == old(order) && order.buf == old(order.buf)
      ensures Abs() == FlushAll(FlushBegin(old(Abs())))
    {
      hide FlushAll, FlushWrite, RunOf;
      var sorted := order.Sorted();
      var i := 0;
      while i < |sorted|
        invariant 0 <= i <= |sorted| && Valid() && order == old(order) && order.buf == old(order.buf)
        invariant order.Abs() == old(order.Abs()) && sorted == order.Abs().Run()
        invariant FlushAll(FlushBegin(old(Abs()))) == FlushAll(AbsAt(i))
      {
        if sorted[i] !in finals || !finals[sorted[i]].complete {
          break;
        }
        FlushTurn(AbsAt(i));
        WriteFinals(sorted[i], i);
        i := i + 1;
      }
      FlushTurn(AbsAt(i));
      order.Drop(i);
    }

    /** index.go:143-154: the finals of one position, sorted. */
    method WriteFinals(hash: Hash, ghost i: nat)
      requires Valid() && CanWrite(AbsAt(i)) && hash == order.Abs().Run()[i]
      modifies this`finals, this`written
      ensures Valid() && AbsAt(i + 1) == FlushWrite(old(AbsAt(i)))
    {
      var f := finals[hash];
      var entries := SortByNum(f.entries);
      finals := finals[hash := f.(entries := entries)];
      WriteEntries(entries);
    }

    /** index.go:178-186. */
    method WriteEntries(entries: seq<Entry>)
      modifies this`written
      ensures written == old(written) + LinesOf(entries)
    {
      var i := 0;
      while i < |entries|
        invariant 0 <= i <= |entries|
        invariant written + LinesOf(entries[i..]) == old(written) + LinesOf(entries)
      {
        written := written + [entries[i].val];
        i := i + 1;
      }
    }

    /** index.go:122-130: true when the source returns nil. */
    method Finish() returns (ok: bool)
      requires Valid()
      ensures ok <==> Abs().order.slots == []
    {
      var n := order.Len();
      ok := !(n > 0);
    }
  }
}
