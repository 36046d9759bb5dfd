/**
 Every interleaving of the index's critical sections, called the way a chain calls them: a job's chunk is
 ordered, then registered; the first job to register a checksum reports its final chunks and ends, duplicates
 just end; each end flushes under the order lock, one step at a time.
 */
module IndexRuns {
  import opened Wrappers
  import opened Chunks
  import opened Sorting
  import opened SeriesSort
  import opened Index

  /** An input chunk's checksum, and the final chunks its processing yields. */
  datatype Job = Job(hash: Hash, finals: seq<Entry>)

  datatype Pc = Idle | Ordered | Open(left: multiset<Entry>) | Duplicate | Ended | Flushing | Done

  /** Jobs are keyed by chunk number. */
  datatype Sys = Sys(st: State, pcs: map<nat, Pc>)

  datatype Event = Order | Reg | Final(e: Entry) | End | Begin | Write | Close

  ghost predicate Enabled(jobs: map<nat, Job>, s: Sys, k: nat, ev: Event) {
    k in s.pcs && k in jobs &&
    match ev
    case Order => s.pcs[k] == Idle && s.st.flushing == None && s.st.order.start <= k
    case Reg => s.pcs[k] == Ordered
    case Final(e) => s.pcs[k].Open? && e in s.pcs[k].left
    case End => s.pcs[k] == Open(multiset{}) || s.pcs[k] == Duplicate
    case Begin => s.pcs[k] == Ended && s.st.flushing == None
    case Write => s.pcs[k] == Flushing && CanWrite(s.st)
    case Close => s.pcs[k] == Flushing && s.st.flushing.Some? && !CanWrite(s.st)
  }

  ghost function Next(jobs: map<nat, Job>, s: Sys, k: nat, ev: Event): Sys
    requires Enabled(jobs, s, k, ev)
  {
    var h := jobs[k].hash;
    match ev
    case Order => Sys(SetOrder(s.st, k, h), s.pcs[k := Ordered])
    case Reg => Sys(Register(s.st, k, h),
                    s.pcs[k := if h in s.st.finals then Duplicate else Open(multiset(jobs[k].finals))])
    case Final(e) => Sys(AddFinal(s.st, k, h, e), s.pcs[k := Open(s.pcs[k].left - multiset{e})])
    case End => Sys(SetComplete(s.st, k, h), s.pcs[k := Ended])
    case Begin => Sys(FlushBegin(s.st), s.pcs[k := Flushing])
    case Write => Sys(FlushWrite(s.st), s.pcs)
    case Close => Sys(FlushEnd(s.st), s.pcs[k := Done])
  }

  ghost function Start(jobs: map<nat, Job>): Sys {
    Sys(EMPTY, map k | k in jobs :: Idle)
  }

  // A run is a sequence of enabled events.
  ghost predicate Runs(jobs: map<nat, Job>, s: Sys, run: seq<(nat, Event)>, t: Sys)
    decreases run
  {
    if run == [] then s == t
    else Enabled(jobs, s, run[0].0, run[0].1) && Runs(jobs, Next(jobs, s, run[0].0, run[0].1), run[1..], t)
  }

  /** The lines a job's finals come to. */
  ghost function JobLines(job: Job): seq<Line> {
    LinesOf(SortByNum(job.finals))
  }

  // Final numbers are distinct within a job.
  ghost predicate WellNumbered(jobs: map<nat, Job>) {
    forall k :: k in jobs ==> DistinctNums(jobs[k].finals)
  }

  /** Equal chunks are processed into equal lines. */
  ghost predicate Consistent(jobs: map<nat, Job>) {
    && WellNumbered(jobs)
    && (forall k, m :: k in jobs && m in jobs && jobs[k].hash == jobs[m].hash ==>
          JobLines(jobs[k]) == JobLines(jobs[m]))
  }

  /** What a sequential run over the first n chunks would write. */
  ghost function Sequential(jobs: map<nat, Job>, n: nat): seq<Line> {
    if n == 0 then [] else Sequential(jobs, n - 1) + (if n - 1 in jobs then JobLines(jobs[n - 1]) else [])
  }

  /** The lines of the job that registered the checksum first. */
  ghost function OwnLines(jobs: map<nat, Job>, st: State, h: Hash): seq<Line> {
    if h in st.finals && st.finals[h].num >= 0 && st.finals[h].num in jobs then JobLines(jobs[st.finals[h].num]) else []
  }

  /** What the first n chunks come to when every duplicate repeats the lines of the first registered one. */
  ghost function Output(jobs: map<nat, Job>, st: State, n: nat): seq<Line> {
    if n == 0 then []
    else Output(jobs, st, n - 1) + (if n - 1 in jobs then OwnLines(jobs, st, jobs[n - 1].hash) else [])
  }

  // ---------------------------------------------------------------- invariant

  // The first position not written yet.
  ghost function Head(st: State): nat {
    st.order.start + st.flushing.GetOr(0)
  }

  ghost predicate Started(s: Sys, k: int) {
    k >= 0 && k in s.pcs && s.pcs[k] != Idle
  }

  ghost predicate OrderInv(jobs: map<nat, Job>, s: Sys) {
    && s.pcs.Keys == jobs.Keys
    && (forall p: int :: p >= s.st.order.start ==>
          s.st.order.At(p) == if Started(s, p) then Some(jobs[p].hash) else None)
    && (forall p: nat :: p < Head(s.st) ==> Started(s, p) && Settled(s.st, jobs[p].hash))
    && (s.st.flushing.Some? ==> s.st.flushing.value <= |s.st.order.Run()|)
    && (s.st.order.slots != [] ==> s.st.order.slots[|s.st.order.slots| - 1].Some?)
  }

  // The finals of a checksum belong to the job that registered it first.
  ghost predicate FinalsInv(jobs: map<nat, Job>, s: Sys) {
    && (forall h :: h in s.st.finals ==> OwnerInv(jobs, s, h))
    && (forall k :: k in s.pcs && k in jobs && s.pcs[k] != Idle && s.pcs[k] != Ordered ==>
          jobs[k].hash in s.st.finals
          && (s.pcs[k].Open? ==> s.st.finals[jobs[k].hash].num == k)
          && (s.pcs[k] == Duplicate ==> s.st.finals[jobs[k].hash].num != k))
  }

  ghost predicate OwnerInv(jobs: map<nat, Job>, s: Sys, h: Hash)
    requires h in s.st.finals
  {
    var f := s.st.finals[h];
    && f.num >= 0 && f.num in s.pcs && f.num in jobs && jobs[f.num].hash == h
    && (match s.pcs[f.num]
        case Idle => false
        case Ordered => false
        case Duplicate => false
        case Open(left) => !f.complete && multiset(f.entries) + left == multiset(jobs[f.num].finals)
        case _ => f.complete && multiset(f.entries) == multiset(jobs[f.num].finals))
  }

  // Someone will still flush a head that could be written.
  ghost predicate ProgressInv(jobs: map<nat, Job>, s: Sys) {
    s.st.order.At(Head(s.st)).Some? && Settled(s.st, s.st.order.At(Head(s.st)).value) ==>
      exists k :: k in s.pcs && s.pcs[k] != Idle && s.pcs[k] != Done
  }

  ghost predicate LockInv(s: Sys) {
    && (s.st.flushing.Some? ==> exists k :: k in s.pcs && s.pcs[k] == Flushing)
    && (forall k, m :: k in s.pcs && m in s.pcs && s.pcs[k] == Flushing && s.pcs[m] == Flushing ==> k == m)
    && (s.st.flushing == None ==> forall k :: k in s.pcs ==> s.pcs[k] != Flushing)
  }

  ghost predicate Inv(jobs: map<nat, Job>, s: Sys) {
    && OrderInv(jobs, s) && FinalsInv(jobs, s) && ProgressInv(jobs, s) && LockInv(s)
    && s.st.written == Output(jobs, s.st, Head(s.st))
  }

  lemma StartInv(jobs: map<nat, Job>)
    ensures Inv(jobs, Start(jobs))
  {
  }

  /** A chunk still to come is never below the positions dropped: the series' panic is out of reach. */
  lemma OrderNeverPanics(jobs: map<nat, Job>, s: Sys, k: nat)
    requires OrderInv(jobs, s) && k in s.pcs && s.pcs[k] == Idle
    ensures s.st.order.start <= k
  {
  }

  /** A flush can write exactly when the head position is known and complete. */
  lemma CanWriteIffHeadReady(st: State)
    requires st.flushing.Some? && st.flushing.value <= |st.order.Run()|
    ensures CanWrite(st) <==> st.order.At(Head(st)).Some? && Settled(st, st.order.At(Head(st)).value)
    ensures CanWrite(st) ==> st.order.At(Head(st)) == Some(st.order.Run()[st.flushing.value])
  {
    RunIsTheGaplessPrefix(st.order.slots);
  }

  // ---------------------------------------------------------------- each event keeps the invariant

  // One job moves on, and nothing that was settled changes.
  ghost predicate Moves(s: Sys, k: nat, pc: Pc, t: Sys) {
    k in s.pcs && t.pcs == s.pcs[k := pc]
  }

  lemma OrderFrame(jobs: map<nat, Job>, s: Sys, k: nat, pc: Pc, t: Sys)
    requires OrderInv(jobs, s) && Moves(s, k, pc, t) && s.pcs[k] != Idle && pc != Idle
    requires t.st.order == s.st.order
    requires t.st.flushing == s.st.flushing || (s.st.flushing == None && t.st.flushing == Some(0))
    requires forall h :: Settled(s.st, h) ==> Settled(t.st, h)
    ensures OrderInv(jobs, t) && Head(t.st) == Head(s.st)
  {
    hide Settled;
    assert forall p: int :: Started(t, p) <==> Started(s, p);
    forall p: nat | p < Head(t.st)
      ensures Started(t, p) && Settled(t.st, jobs[p].hash)
    {
      assert Started(s, p) && Settled(s.st, jobs[p].hash);
    }
  }

  lemma LockFrame(s: Sys, k: nat, pc: Pc, t: Sys)
    requires LockInv(s) && k in s.pcs && s.pcs[k] != Flushing && pc != Flushing
    requires t.pcs == s.pcs[k := pc] && t.st.flushing == s.st.flushing
    ensures LockInv(t)
  {
    if s.st.flushing.Some? {
      var m :| m in s.pcs && s.pcs[m] == Flushing;
      assert t.pcs[m] == Flushing;
    }
  }

  // Same finals, and no job moves into or out of the states the owners are told apart by.
  lemma FinalsFrame(jobs: map<nat, Job>, s: Sys, k: nat, pc: Pc, t: Sys)
    requires FinalsInv(jobs, s) && t.st.finals == s.st.finals && Moves(s, k, pc, t)
    requires || (s.pcs[k] == Idle && pc == Ordered)
             || ((s.pcs[k] == Ended || s.pcs[k] == Flushing) && (pc == Flushing || pc == Done))
    ensures FinalsInv(jobs, t)
  {
    forall h | h in t.st.finals
      ensures OwnerInv(jobs, t, h)
    {
      assert OwnerInv(jobs, s, h);
    }
  }

  // Nor do the finals of other checksums.
  lemma OtherOwner(jobs: map<nat, Job>, s: Sys, k: nat, pc: Pc, t: Sys, h: Hash)
    requires h in s.st.finals && OwnerInv(jobs, s, h) && k in jobs && jobs[k].hash != h
    requires h in t.st.finals && t.st.finals[h] == s.st.finals[h] && Moves(s, k, pc, t)
    ensures OwnerInv(jobs, t, h)
  {
    assert s.st.finals[h].num != k;
  }

  // A job on its way keeps the promise that someone will flush.
  lemma ProgressBy(jobs: map<nat, Job>, t: Sys, k: nat)
    requires k in t.pcs && t.pcs[k] != Idle && t.pcs[k] != Done
    ensures ProgressInv(jobs, t)
  {
    hide Settled;
  }

  // First come, first served: who owns a checksum does not change, so neither do the lines behind.
  lemma {:induction false} OutputFrame(jobs: map<nat, Job>, s: Sys, t: Sys, n: nat)
    requires OrderInv(jobs, s) && n <= Head(s.st) && SameOwners(s.st, t.st)
    ensures Output(jobs, s.st, n) == Output(jobs, t.st, n)
  {
    if n > 0 {
      OutputFrame(jobs, s, t, n - 1);
      assert Started(s, n - 1) && Settled(s.st, jobs[n - 1].hash);
    }
  }

  ghost predicate SameOwners(a: State, b: State) {
    forall h :: h in a.finals ==> h in b.finals && b.finals[h].num == a.finals[h].num
  }

  lemma OrderKeeps(jobs: map<nat, Job>, s: Sys, k: nat)
    requires Inv(jobs, s) && Enabled(jobs, s, k, Order)
    ensures Inv(jobs, Next(jobs, s, k, Order))
  {
    hide OrderInv, FinalsInv, ProgressInv, LockInv, Settled, Output;
    var t := Next(jobs, s, k, Order);
    OrderKeepsOrder(jobs, s, k);
    FinalsFrame(jobs, s, k, Ordered, t);
    LockFrame(s, k, Ordered, t);
    ProgressBy(jobs, t, k);
    OutputFrame(jobs, s, t, Head(s.st));
  }

  lemma OrderKeepsOrder(jobs: map<nat, Job>, s: Sys, k: nat)
    requires OrderInv(jobs, s) && Enabled(jobs, s, k, Order)
    ensures OrderInv(jobs, Next(jobs, s, k, Order))
  {
    hide Settled;
    var t := Next(jobs, s, k, Order);
    assert forall p: int :: Started(t, p) <==> p == k || Started(s, p);
    forall p: nat | p < Head(t.st)
      ensures Started(t, p) && Settled(t.st, jobs[p].hash)
    {
      assert Started(s, p);
      SameSettled(s.st, t.st, jobs[p].hash);
    }
    forall p: int | p >= t.st.order.start
      ensures t.st.order.At(p) == if Started(t, p) then Some(jobs[p].hash) else None
    {
    }
  }

  lemma SameSettled(a: State, b: State, h: Hash)
    requires a.finals == b.finals
    ensures Settled(a, h) == Settled(b, h)
  {
  }

  lemma RegKeeps(jobs: map<nat, Job>, s: Sys, k: nat)
    requires Inv(jobs, s) && Enabled(jobs, s, k, Reg)
    ensures Inv(jobs, Next(jobs, s, k, Reg))
  {
    hide OrderInv, FinalsInv, ProgressInv, LockInv, Output;
    var t := Next(jobs, s, k, Reg);
    OrderFrame(jobs, s, k, t.pcs[k], t);
    LockFrame(s, k, t.pcs[k], t);
    RegKeepsFinals(jobs, s, k);
    ProgressBy(jobs, t, k);
    OutputFrame(jobs, s, t, Head(s.st));
  }

  lemma RegKeepsFinals(jobs: map<nat, Job>, s: Sys, k: nat)
    requires FinalsInv(jobs, s) && Enabled(jobs, s, k, Reg)
    ensures FinalsInv(jobs, Next(jobs, s, k, Reg))
  {
    hide OwnerInv;
    var t := Next(jobs, s, k, Reg);
    RegOwner(jobs, s, k);
    forall h | h in t.st.finals
      ensures OwnerInv(jobs, t, h)
    {
      if h != jobs[k].hash {
        OtherOwner(jobs, s, k, t.pcs[k], t, h);
      }
    }
  }

  lemma RegOwner(jobs: map<nat, Job>, s: Sys, k: nat)
    requires FinalsInv(jobs, s) && Enabled(jobs, s, k, Reg)
    ensures jobs[k].hash in Next(jobs, s, k, Reg).st.finals && OwnerInv(jobs, Next(jobs, s, k, Reg), jobs[k].hash)
    ensures jobs[k].hash in s.st.finals ==> s.st.finals[jobs[k].hash].num != k
  {
    var h, t := jobs[k].hash, Next(jobs, s, k, Reg);
    assert h in s.st.finals ==> OwnerInv(jobs, s, h);
    if h !in s.st.finals {
      assert t.st.finals[h] == Finals(k, [], false) && t.pcs[k] == Open(multiset(jobs[k].finals));
      assert multiset(t.st.finals[h].entries) == multiset{};
    }
  }

  lemma FinalIsOwn(jobs: map<nat, Job>, s: Sys, k: nat, e: Entry)
    requires FinalsInv(jobs, s) && Enabled(jobs, s, k, Final(e))
    ensures jobs[k].hash in s.st.finals && OwnerInv(jobs, s, jobs[k].hash)
    ensures FinalError(s.st, k, jobs[k].hash) == None
  {
    assert jobs[k].hash in s.st.finals;
    assert OwnerInv(jobs, s, jobs[k].hash);
  }

  lemma {:induction false} FinalKeeps(jobs: map<nat, Job>, s: Sys, k: nat, e: Entry)
    requires Inv(jobs, s) && Enabled(jobs, s, k, Final(e))
    ensures Inv(jobs, Next(jobs, s, k, Final(e)))
    ensures FinalError(s.st, k, jobs[k].hash) == None
  {
    hide OrderInv, FinalsInv, OwnerInv, ProgressInv, LockInv, Output;
    var t := Next(jobs, s, k, Final(e));
    FinalIsOwn(jobs, s, k, e);
    OrderFrame(jobs, s, k, t.pcs[k], t);
    LockFrame(s, k, t.pcs[k], t);
    FinalKeepsFinals(jobs, s, k, e);
    ProgressBy(jobs, t, k);
    OutputFrame(jobs, s, t, Head(s.st));
  }

  lemma FinalKeepsFinals(jobs: map<nat, Job>, s: Sys, k: nat, e: Entry)
    requires FinalsInv(jobs, s) && Enabled(jobs, s, k, Final(e))
    ensures FinalsInv(jobs, Next(jobs, s, k, Final(e)))
  {
    hide OwnerInv;
    var t, hk := Next(jobs, s, k, Final(e)), jobs[k].hash;
    FinalIsOwn(jobs, s, k, e);
    forall h | h in t.st.finals
      ensures OwnerInv(jobs, t, h)
    {
      if h != hk {
        OtherOwner(jobs, s, k, t.pcs[k], t, h);
      } else {
        FinalOwner(jobs, s, k, e);
      }
    }
  }

  lemma FinalOwner(jobs: map<nat, Job>, s: Sys, k: nat, e: Entry)
    requires FinalsInv(jobs, s) && Enabled(jobs, s, k, Final(e))
    ensures jobs[k].hash in Next(jobs, s, k, Final(e)).st.finals
    ensures OwnerInv(jobs, Next(jobs, s, k, Final(e)), jobs[k].hash)
  {
    hide FinalsInv;
    FinalIsOwn(jobs, s, k, e);
    OwnsOpen(jobs, s, k);
  }

  lemma OwnsOpen(jobs: map<nat, Job>, s: Sys, k: nat)
    requires FinalsInv(jobs, s) && k in s.pcs && k in jobs && s.pcs[k].Open?
    ensures jobs[k].hash in s.st.finals && s.st.finals[jobs[k].hash].num == k
  {
  }

  lemma EndIsOwn(jobs: map<nat, Job>, s: Sys, k: nat)
    requires FinalsInv(jobs, s) && Enabled(jobs, s, k, End)
    ensures jobs[k].hash in s.st.finals && OwnerInv(jobs, s, jobs[k].hash)
    ensures s.pcs[k].Open? <==> s.st.finals[jobs[k].hash].num == k
  {
  }

  lemma EndKeeps(jobs: map<nat, Job>, s: Sys, k: nat)
    requires Inv(jobs, s) && Enabled(jobs, s, k, End)
    ensures Inv(jobs, Next(jobs, s, k, End))
    ensures jobs[k].hash in s.st.finals
  {
    hide OrderInv, FinalsInv, OwnerInv, ProgressInv, LockInv, Output;
    var t := Next(jobs, s, k, End);
    EndIsOwn(jobs, s, k);
    OrderFrame(jobs, s, k, Ended, t);
    LockFrame(s, k, Ended, t);
    EndKeepsFinals(jobs, s, k);
    ProgressBy(jobs, t, k);
    OutputFrame(jobs, s, t, Head(s.st));
  }

  lemma EndKeepsFinals(jobs: map<nat, Job>, s: Sys, k: nat)
    requires FinalsInv(jobs, s) && Enabled(jobs, s, k, End)
    ensures FinalsInv(jobs, Next(jobs, s, k, End))
  {
    hide OwnerInv;
    var t, hk := Next(jobs, s, k, End), jobs[k].hash;
    EndIsOwn(jobs, s, k);
    forall h | h in t.st.finals
      ensures OwnerInv(jobs, t, h)
    {
      if h != hk {
        OtherOwner(jobs, s, k, Ended, t, h);
      } else {
        EndOwner(jobs, s, k);
      }
    }
  }

  lemma EndOwner(jobs: map<nat, Job>, s: Sys, k: nat)
    requires FinalsInv(jobs, s) && Enabled(jobs, s, k, End)
    ensures jobs[k].hash in Next(jobs, s, k, End).st.finals && OwnerInv(jobs, Next(jobs, s, k, End), jobs[k].hash)
  {
    hide FinalsInv;
    EndIsOwn(jobs, s, k);
  }

  lemma BeginKeeps(jobs: map<nat, Job>, s: Sys, k: nat)
    requires Inv(jobs, s) && Enabled(jobs, s, k, Begin)
    ensures Inv(jobs, Next(jobs, s, k, Begin))
  {
    hide OrderInv, FinalsInv, ProgressInv, Output;
    var t := Next(jobs, s, k, Begin);
    OrderFrame(jobs, s, k, Flushing, t);
    FinalsFrame(jobs, s, k, Flushing, t);
    assert t.pcs[k] == Flushing;
    ProgressBy(jobs, t, k);
    OutputFrame(jobs, s, t, Head(s.st));
  }

  // What is written for a settled checksum is the lines of its owner.
  lemma SettledLines(jobs: map<nat, Job>, s: Sys, h: Hash)
    requires WellNumbered(jobs) && Settled(s.st, h) && OwnerInv(jobs, s, h)
    ensures LinesOf(SortByNum(s.st.finals[h].entries)) == OwnLines(jobs, s.st, h)
  {
    var f := s.st.finals[h];
    var job := jobs[f.num];
    SortPermutes(job.finals);
    SortAscends(job.finals);
    PermutedStaysDistinct(job.finals, f.entries);
    SortIsCanonical(f.entries, SortByNum(job.finals));
  }

  lemma WriteKeeps(jobs: map<nat, Job>, s: Sys, k: nat)
    requires Inv(jobs, s) && WellNumbered(jobs) && Enabled(jobs, s, k, Write)
    ensures Inv(jobs, Next(jobs, s, k, Write))
  {
    hide OrderInv, FinalsInv, ProgressInv, WellNumbered, Output;
    var t := Next(jobs, s, k, Write);
    WriteKeepsOrder(jobs, s, k);
    WriteKeepsFinals(jobs, s, k);
    WriteKeepsProgress(jobs, s, t, k);
    WriteWritesInOrder(jobs, s, k);
  }

  lemma WriteKeepsProgress(jobs: map<nat, Job>, s: Sys, t: Sys, k: nat)
    requires t.pcs == s.pcs && k in s.pcs && s.pcs[k] == Flushing && LockInv(s) && t.st.flushing.Some?
    ensures ProgressInv(jobs, t) && LockInv(t)
  {
    hide Settled;
  }

  lemma WriteWritesInOrder(jobs: map<nat, Job>, s: Sys, k: nat)
    requires Inv(jobs, s) && WellNumbered(jobs) && Enabled(jobs, s, k, Write)
    ensures var t := Next(jobs, s, k, Write); t.st.written == Output(jobs, t.st, Head(t.st))
  {
    hide OrderInv, ProgressInv, LockInv, WellNumbered, OwnLines;
    var t, h := Next(jobs, s, k, Write), s.st.order.Run()[s.st.flushing.value];
    WriteKeepsOrder(jobs, s, k);
    assert OwnerInv(jobs, s, h);
    SettledLines(jobs, s, h);
    OutputFrame(jobs, s, t, Head(s.st));
    SameOwnLines(jobs, s.st, t.st, h);
  }

  lemma SameOwnLines(jobs: map<nat, Job>, a: State, b: State, h: Hash)
    requires SameOwners(a, b) && h in a.finals
    ensures OwnLines(jobs, a, h) == OwnLines(jobs, b, h)
  {
  }

  lemma WriteKeepsOrder(jobs: map<nat, Job>, s: Sys, k: nat)
    requires OrderInv(jobs, s) && Enabled(jobs, s, k, Write)
    ensures OrderInv(jobs, Next(jobs, s, k, Write))
    ensures Started(s, Head(s.st)) && jobs[Head(s.st)].hash == s.st.order.Run()[s.st.flushing.value]
  {
    var t, p := Next(jobs, s, k, Write), Head(s.st);
    CanWriteIffHeadReady(s.st);
    assert Started(s, p);
    forall q: nat | q < Head(t.st)
      ensures Started(t, q) && Settled(t.st, jobs[q].hash)
    {
      assert q < p ==> Started(s, q) && Settled(s.st, jobs[q].hash);
    }
  }

  lemma WriteKeepsFinals(jobs: map<nat, Job>, s: Sys, k: nat)
    requires FinalsInv(jobs, s) && Enabled(jobs, s, k, Write)
    ensures FinalsInv(jobs, Next(jobs, s, k, Write))
  {
    hide OwnerInv;
    var t := Next(jobs, s, k, Write);
    forall h | h in t.st.finals
      ensures OwnerInv(jobs, t, h)
    {
      WriteKeepsOwner(jobs, s, k, h);
    }
  }

  lemma WriteKeepsOwner(jobs: map<nat, Job>, s: Sys, k: nat, h: Hash)
    requires Enabled(jobs, s, k, Write) && h in s.st.finals && OwnerInv(jobs, s, h)
    ensures OwnerInv(jobs, Next(jobs, s, k, Write), h)
  {
    hide SortByNum;
    SortPermutes(s.st.finals[h].entries);
  }

  lemma CloseKeeps(jobs: map<nat, Job>, s: Sys, k: nat)
    requires Inv(jobs, s) && Enabled(jobs, s, k, Close)
    ensures Inv(jobs, Next(jobs, s, k, Close))
  {
    hide OrderInv, FinalsInv, ProgressInv, Settled, Output, CanWrite, Passes, RunOf;
    CloseReady(jobs, s, k);
    FlushEndPasses(s.st);
    PassedOrder(jobs, s, k, Next(jobs, s, k, Close));
    CloseKeepsProgress(jobs, s, k);
    FinalsFrame(jobs, s, k, Done, Next(jobs, s, k, Close));
    OutputFrame(jobs, s, Next(jobs, s, k, Close), Head(s.st));
  }

  // What a flush leaves of the order: the same positions, from the first one not written on.
  ghost predicate Passes(st: State, st': State) {
    && st'.order.start == Head(st) && st'.flushing == None && st'.finals == st.finals
    && (forall p: int :: p >= st'.order.start ==> st'.order.At(p) == st.order.At(p))
    && (st'.order.slots != [] ==> st'.order.slots[|st'.order.slots| - 1].Some?)
  }

  lemma FlushEndPasses(st: State)
    requires st.flushing.Some? && st.flushing.value <= |st.order.Run()|
    requires st.order.slots != [] ==> st.order.slots[|st.order.slots| - 1].Some?
    ensures Passes(st, FlushEnd(st))
  {
    RunIsTheGaplessPrefix(st.order.slots);
    hide RunOf;
  }

  lemma PassedOrder(jobs: map<nat, Job>, s: Sys, k: nat, t: Sys)
    requires OrderInv(jobs, s) && Passes(s.st, t.st) && Moves(s, k, Done, t) && s.pcs[k] == Flushing
    ensures OrderInv(jobs, t) && Head(t.st) == Head(s.st)
  {
    hide Settled, RunOf;
    assert forall p: int :: Started(t, p) <==> Started(s, p);
    forall p: nat | p < Head(t.st)
      ensures Started(t, p) && Settled(t.st, jobs[p].hash)
    {
      assert Started(s, p) && Settled(s.st, jobs[p].hash);
      SameSettled(s.st, t.st, jobs[p].hash);
    }
  }

  lemma CloseReady(jobs: map<nat, Job>, s: Sys, k: nat)
    requires OrderInv(jobs, s) && Enabled(jobs, s, k, Close)
    ensures s.st.flushing.value <= |s.st.order.Run()|
    ensures s.st.order.slots != [] ==> s.st.order.slots[|s.st.order.slots| - 1].Some?
  {
    hide Settled, RunOf, CanWrite;
  }

  lemma CloseKeepsProgress(jobs: map<nat, Job>, s: Sys, k: nat)
    requires OrderInv(jobs, s) && Enabled(jobs, s, k, Close)
    ensures ProgressInv(jobs, Next(jobs, s, k, Close))
  {
    CanWriteIffHeadReady(s.st);
  }

  // ---------------------------------------------------------------- all runs

  lemma {:induction false} EventKeeps(jobs: map<nat, Job>, s: Sys, k: nat, ev: Event)
    requires Inv(jobs, s) && WellNumbered(jobs) && Enabled(jobs, s, k, ev)
    ensures Inv(jobs, Next(jobs, s, k, ev))
  {
    hide Inv, Enabled, Next, WellNumbered;
    match ev
    case Order => OrderKeeps(jobs, s, k);
    case Reg => RegKeeps(jobs, s, k);
    case Final(e) => FinalKeeps(jobs, s, k, e);
    case End => EndKeeps(jobs, s, k);
    case Begin => BeginKeeps(jobs, s, k);
    case Write => WriteKeeps(jobs, s, k);
    case Close => CloseKeeps(jobs, s, k);
  }

  lemma {:induction false} RunKeeps(jobs: map<nat, Job>, s: Sys, run: seq<(nat, Event)>, t: Sys)
    requires Inv(jobs, s) && WellNumbered(jobs) && Runs(jobs, s, run, t)
    ensures Inv(jobs, t)
    decreases run
  {
    hide Inv, Next, Enabled, WellNumbered;
    if run != [] {
      EventKeeps(jobs, s, run[0].0, run[0].1);
      RunKeeps(jobs, Next(jobs, s, run[0].0, run[0].1), run[1..], t);
    }
  }

  /**
   Safety: at every moment of every run, what is written is, chunk by chunk, the number-sorted finals of whoever
   registered the checksum first: duplicates repeat the same lines, and nothing written changes afterwards.
   */
  lemma WrittenIsByOwner(jobs: map<nat, Job>, run: seq<(nat, Event)>, t: Sys)
    requires WellNumbered(jobs) && Runs(jobs, Start(jobs), run, t)
    ensures t.st.written == Output(jobs, t.st, Head(t.st))
    ensures forall p: nat :: p < Head(t.st) ==> p in jobs && jobs[p].hash in t.st.finals
  {
    hide FinalsInv, ProgressInv, LockInv, Output, WellNumbered, Runs;
    StartInv(jobs);
    RunKeeps(jobs, Start(jobs), run, t);
    forall p: nat | p < Head(t.st)
      ensures p in jobs && jobs[p].hash in t.st.finals
    {
      assert Started(t, p);
    }
  }

  // With equal lines for equal checksums it does not matter who came first.
  lemma OwnLinesAreEqual(jobs: map<nat, Job>, t: Sys, p: nat)
    requires Consistent(jobs) && FinalsInv(jobs, t) && p in jobs && jobs[p].hash in t.st.finals
    ensures OwnLines(jobs, t.st, jobs[p].hash) == JobLines(jobs[p])
  {
    hide JobLines, WellNumbered;
    assert OwnerInv(jobs, t, jobs[p].hash);
  }

  lemma {:induction false} OutputIsSequential(jobs: map<nat, Job>, t: Sys, n: nat)
    requires Consistent(jobs) && FinalsInv(jobs, t)
    requires forall p: nat :: p < n ==> p in jobs && jobs[p].hash in t.st.finals
    ensures Output(jobs, t.st, n) == Sequential(jobs, n)
  {
    hide Consistent, FinalsInv, OwnLines, JobLines;
    if n > 0 {
      OutputIsSequential(jobs, t, n - 1);
      OwnLinesAreEqual(jobs, t, n - 1);
    }
  }

  /** So the output is what a sequential run writes for the chunks behind. */
  lemma WrittenIsSequential(jobs: map<nat, Job>, run: seq<(nat, Event)>, t: Sys)
    requires Consistent(jobs) && Runs(jobs, Start(jobs), run, t)
    ensures t.st.written == Sequential(jobs, Head(t.st))
    ensures forall p: nat :: p < Head(t.st) ==> p in jobs
  {
    hide OrderInv, FinalsInv, ProgressInv, LockInv, Output, Sequential, Runs;
    WrittenIsByOwner(jobs, run, t);
    StartInv(jobs);
    RunKeeps(jobs, Start(jobs), run, t);
    OutputIsSequential(jobs, t, Head(t.st));
  }

  ghost predicate AllDone(t: Sys) {
    forall k :: k in t.pcs ==> t.pcs[k] == Done
  }

  // Nothing is processed any more when every owner is done.
  lemma AllSettled(jobs: map<nat, Job>, t: Sys, k: nat)
    requires FinalsInv(jobs, t) && t.pcs.Keys == jobs.Keys && AllDone(t) && k in jobs
    ensures Settled(t.st, jobs[k].hash)
  {
    assert t.pcs[k] == Done;
    assert OwnerInv(jobs, t, jobs[k].hash);
  }

  // Every tracked position holds a started chunk's checksum, the last one included.
  lemma NothingTrackedAtOrAbove(jobs: map<nat, Job>, t: Sys, n: nat)
    requires OrderInv(jobs, t) && t.st.order.start <= n
    requires forall k: int :: Started(t, k) ==> k < n
    ensures |t.st.order.slots| <= n - t.st.order.start
  {
    if t.st.order.slots != [] {
      var last := t.st.order.start + |t.st.order.slots| - 1;
      assert t.st.order.At(last).Some?;
      assert Started(t, last);
    }
  }

  lemma StartedAreJobs(jobs: map<nat, Job>, t: Sys)
    requires OrderInv(jobs, t)
    ensures forall k: int :: Started(t, k) ==> k >= 0 && k in jobs
  {
  }

  lemma AllDoneDrains(jobs: map<nat, Job>, t: Sys, n: nat)
    requires OrderInv(jobs, t) && FinalsInv(jobs, t) && ProgressInv(jobs, t) && LockInv(t)
    requires forall k: nat :: k in jobs <==> k < n
    requires AllDone(t)
    ensures t.st.flushing == None && t.st.order.start == n
  {
    hide OwnerInv, FinalsInv;
    var start := t.st.order.start;
    assert start > n ==> Started(t, n);
    assert start < n ==> Started(t, start);
    if start < n {
      AllSettled(jobs, t, start);
    }
  }

  /** Progress: once every chunk 0..n-1 has ended, the order buffer is empty and the whole index is written. */
  lemma {:induction false} AllDoneIsAllWritten(jobs: map<nat, Job>, run: seq<(nat, Event)>, t: Sys, n: nat)
    requires Consistent(jobs) && Runs(jobs, Start(jobs), run, t)
    requires forall k: nat :: k in jobs <==> k < n
    requires AllDone(t)
    ensures t.st.order.slots == [] && t.st.written == Sequential(jobs, n)
  {
    hide OrderInv, FinalsInv, ProgressInv, LockInv, WellNumbered, Sequential, Output, Runs;
    StartInv(jobs);
    RunKeeps(jobs, Start(jobs), run, t);
    WrittenIsSequential(jobs, run, t);
    AllDoneDrains(jobs, t, n);
    StartedAreJobs(jobs, t);
    NothingTrackedAtOrAbove(jobs, t, n);
  }

  /** Finish: an empty order buffer with no call in progress means that everything ordered so far is written. */
  lemma EmptyBufferIsAllWritten(jobs: map<nat, Job>, run: seq<(nat, Event)>, t: Sys)
    requires Consistent(jobs) && Runs(jobs, Start(jobs), run, t)
    requires t.st.order.slots == [] && t.st.flushing == None
    ensures forall k :: k in t.pcs && t.pcs[k] != Idle ==> k < t.st.order.start
    ensures t.st.written == Sequential(jobs, t.st.order.start)
  {
    hide OrderInv, FinalsInv, ProgressInv, LockInv, WellNumbered, Sequential, Output, Runs;
    StartInv(jobs);
    RunKeeps(jobs, Start(jobs), run, t);
    WrittenIsSequential(jobs, run, t);
    EmptyTracksNothing(jobs, t);
  }

  lemma EmptyTracksNothing(jobs: map<nat, Job>, t: Sys)
    requires OrderInv(jobs, t) && t.st.order.slots == []
    ensures forall k :: k in t.pcs && t.pcs[k] != Idle ==> k < t.st.order.start
  {
    forall k | k in t.pcs && t.pcs[k] != Idle
      ensures k < t.st.order.start
    {
      assert Started(t, k);
    }
  }

  lemma {:induction false} SequentialGrows(jobs: map<nat, Job>, m: nat, n: nat)
    requires m <= n
    ensures Sequential(jobs, m) <= Sequential(jobs, n)
    decreases n
  {
    if m < n {
      SequentialGrows(jobs, m, n - 1);
    }
  }

  /** The schedule does not matter: the outputs of any two runs are prefixes of one another. */
  lemma {:induction false} OutputIgnoresTheSchedule(jobs: map<nat, Job>, run1: seq<(nat, Event)>, t1: Sys,
                                                    run2: seq<(nat, Event)>, t2: Sys)
    requires Consistent(jobs) && Runs(jobs, Start(jobs), run1, t1) && Runs(jobs, Start(jobs), run2, t2)
    ensures t1.st.written <= t2.st.written || t2.st.written <= t1.st.written
    ensures Head(t1.st) == Head(t2.st) ==> t1.st.written == t2.st.written
  {
    WrittenIsSequential(jobs, run1, t1);
    WrittenIsSequential(jobs, run2, t2);
    if Head(t1.st) <= Head(t2.st) {
      SequentialGrows(jobs, Head(t1.st), Head(t2.st));
    } else {
      SequentialGrows(jobs, Head(t2.st), Head(t1.st));
    }
  }

  // Off the order lock, a job can always take its own next step.
  lemma OwnStep(jobs: map<nat, Job>, s: Sys, k: nat)
    requires OrderInv(jobs, s) && k in s.pcs && s.pcs[k] != Done && s.pcs[k] != Flushing && s.st.flushing == None
    ensures exists ev :: Enabled(jobs, s, k, ev)
  {
    match s.pcs[k]
    case Idle =>
      OrderNeverPanics(jobs, s, k);
      assert Enabled(jobs, s, k, Order);
    case Ordered => assert Enabled(jobs, s, k, Reg);
    case Open(left) =>
      if left == multiset{} {
        assert Enabled(jobs, s, k, End);
      } else {
        var e :| e in left;
        assert Enabled(jobs, s, k, Final(e));
      }
    case Duplicate => assert Enabled(jobs, s, k, End);
    case Ended => assert Enabled(jobs, s, k, Begin);
  }

  /** No schedule gets stuck: while some chunk is not done, some event is enabled. */
  lemma NeverStuck(jobs: map<nat, Job>, s: Sys, k: nat)
    requires Inv(jobs, s) && k in s.pcs && s.pcs[k] != Done
    ensures exists m, ev :: Enabled(jobs, s, m, ev)
  {
    hide FinalsInv, ProgressInv, Settled, CanWrite;
    assert s.pcs.Keys == jobs.Keys;
    if s.st.flushing.Some? {
      var m :| m in s.pcs && s.pcs[m] == Flushing;
      assert Enabled(jobs, s, m, if CanWrite(s.st) then Write else Close);
    } else {
      OwnStep(jobs, s, k);
    }
  }
}
