/** Every schedule of the index ends, and all write the same exactly when equal checksums have equal lines. */
module IndexExact {
  import opened Wrappers
  import opened Chunks
  import opened Sorting
  import opened SeriesSort
  import opened Index
  import opened IndexRuns

  // The chunks are numbered 0 to n - 1.
  ghost predicate Numbers(jobs: map<nat, Job>, n: nat) {
    forall k: nat :: k in jobs <==> k < n
  }

  // ---------------------------------------------------------------- every schedule ends

  // The steps a job has before it at most.
  ghost function Rank(job: Job, pc: Pc): nat {
    match pc
    case Idle => |job.finals| + 6
    case Ordered => |job.finals| + 5
    case Open(left) => |left| + 4
    case Duplicate => 4
    case Ended => 3
    case Flushing => 2
    case Done => 0
  }

  ghost function Ranks(jobs: map<nat, Job>, s: Sys, n: nat): nat {
    if n == 0 then 0
    else Ranks(jobs, s, n - 1) + if n - 1 in jobs && n - 1 in s.pcs then Rank(jobs[n - 1], s.pcs[n - 1]) else 0
  }

  lemma {:induction false} RanksOfUpdate(jobs: map<nat, Job>, s: Sys, t: Sys, k: nat, pc: Pc, n: nat)
    requires Moves(s, k, pc, t) && k in jobs
    ensures k < n ==> Ranks(jobs, t, n) + Rank(jobs[k], s.pcs[k]) == Ranks(jobs, s, n) + Rank(jobs[k], pc)
    ensures k >= n ==> Ranks(jobs, t, n) == Ranks(jobs, s, n)
  {
    hide Rank;
    if n > 0 {
      RanksOfUpdate(jobs, s, t, k, pc, n - 1);
    }
  }

  lemma HeadFits(jobs: map<nat, Job>, s: Sys, n: nat)
    requires OrderInv(jobs, s) && Numbers(jobs, n)
    ensures Head(s.st) <= n
  {
    assert Head(s.st) > n ==> Started(s, n);
  }

  /** What is left to do: steps of the jobs, and positions to write. */
  ghost function Work(jobs: map<nat, Job>, s: Sys, n: nat): int {
    Ranks(jobs, s, n) + n - Head(s.st)
  }

  lemma SameRanks(jobs: map<nat, Job>, s: Sys, t: Sys, n: nat)
    requires t.pcs == s.pcs
    ensures Ranks(jobs, t, n) == Ranks(jobs, s, n)
  {
  }

  // Every step but a write moves its job to a state with fewer steps before it.
  lemma StepRanks(jobs: map<nat, Job>, s: Sys, k: nat, ev: Event)
    requires Enabled(jobs, s, k, ev) && !ev.Write?
    ensures var t := Next(jobs, s, k, ev);
      k in t.pcs && Moves(s, k, t.pcs[k], t) && Rank(jobs[k], t.pcs[k]) < Rank(jobs[k], s.pcs[k])
  {
  }

  lemma CloseHead(jobs: map<nat, Job>, s: Sys, k: nat)
    requires OrderInv(jobs, s) && Enabled(jobs, s, k, Close)
    ensures Head(Next(jobs, s, k, Close).st) == Head(s.st)
  {
    CloseReady(jobs, s, k);
    FlushEndPasses(s.st);
    hide OrderInv, RunOf, CanWrite;
  }

  lemma StepHead(jobs: map<nat, Job>, s: Sys, k: nat, ev: Event)
    requires OrderInv(jobs, s) && Enabled(jobs, s, k, ev)
    ensures Head(Next(jobs, s, k, ev).st) == Head(s.st) + if ev.Write? then 1 else 0
  {
    hide OrderInv;
    if ev.Close? {
      CloseHead(jobs, s, k);
    }
  }

  lemma EventWorks(jobs: map<nat, Job>, s: Sys, k: nat, ev: Event, n: nat)
    requires Inv(jobs, s) && Numbers(jobs, n) && Enabled(jobs, s, k, ev)
    ensures Work(jobs, Next(jobs, s, k, ev), n) < Work(jobs, s, n)
  {
    hide OrderInv, FinalsInv, ProgressInv, LockInv, Ranks, Output, Rank, Head;
    StepHead(jobs, s, k, ev);
    if ev.Write? {
      SameRanks(jobs, s, Next(jobs, s, k, ev), n);
    } else {
      StepRanks(jobs, s, k, ev);
      hide Next, Enabled;
      var t := Next(jobs, s, k, ev);
      RanksOfUpdate(jobs, s, t, k, t.pcs[k], n);
    }
  }

  /** No run is longer than the work of its start. */
  lemma {:induction false} EveryScheduleEnds(jobs: map<nat, Job>, s: Sys, run: seq<(nat, Event)>, t: Sys, n: nat)
    requires Inv(jobs, s) && WellNumbered(jobs) && Numbers(jobs, n) && Runs(jobs, s, run, t)
    ensures |run| <= Work(jobs, s, n)
    decreases run
  {
    hide Inv, Enabled, Next, Work, WellNumbered;
    if run == [] {
      WorkIsLeft(jobs, s, n);
    } else {
      var k, ev := run[0].0, run[0].1;
      EventKeeps(jobs, s, k, ev);
      EventWorks(jobs, s, k, ev, n);
      EveryScheduleEnds(jobs, Next(jobs, s, k, ev), run[1..], t, n);
    }
  }

  lemma WorkIsLeft(jobs: map<nat, Job>, s: Sys, n: nat)
    requires Inv(jobs, s) && Numbers(jobs, n)
    ensures Work(jobs, s, n) >= 0
  {
    hide Ranks;
    HeadFits(jobs, s, n);
  }

  lemma RunsOn(jobs: map<nat, Job>, s: Sys, k: nat, ev: Event, run: seq<(nat, Event)>, t: Sys)
    requires Enabled(jobs, s, k, ev) && Runs(jobs, Next(jobs, s, k, ev), run, t)
    ensures Runs(jobs, s, [(k, ev)] + run, t)
  {
    assert ([(k, ev)] + run)[1..] == run;
  }

  lemma {:induction false} RunsTogether(jobs: map<nat, Job>, s: Sys, a: seq<(nat, Event)>, t: Sys,
                                        b: seq<(nat, Event)>, v: Sys)
    requires Runs(jobs, s, a, t) && Runs(jobs, t, b, v)
    ensures Runs(jobs, s, a + b, v)
    decreases a
  {
    hide Enabled, Next;
    if a == [] {
      assert a + b == b;
    } else {
      RunsTogether(jobs, Next(jobs, s, a[0].0, a[0].1), a[1..], t, b, v);
      assert (a + b)[1..] == a[1..] + b;
    }
  }

  // Who registered a checksum first stays so.
  lemma EventKeepsOwners(jobs: map<nat, Job>, s: Sys, k: nat, ev: Event)
    requires Enabled(jobs, s, k, ev)
    ensures SameOwners(s.st, Next(jobs, s, k, ev).st)
  {
  }

  lemma OwnersChain(a: State, b: State, c: State)
    requires SameOwners(a, b) && SameOwners(b, c)
    ensures SameOwners(a, c)
  {
  }

  /** Every run can be finished. */
  lemma {:induction false} RunCanEnd(jobs: map<nat, Job>, s: Sys, n: nat) returns (run: seq<(nat, Event)>, t: Sys)
    requires Inv(jobs, s) && WellNumbered(jobs) && Numbers(jobs, n)
    ensures Runs(jobs, s, run, t) && AllDone(t) && SameOwners(s.st, t.st) && Inv(jobs, t)
    decreases Work(jobs, s, n)
  {
    hide Inv, Enabled, Next, Work, WellNumbered, Numbers, SameOwners;
    if AllDone(s) {
      run, t := [], s;
      NobodyChanged(s.st);
    } else {
      var k :| k in s.pcs && s.pcs[k] != Done;
      NeverStuck(jobs, s, k);
      var m, ev :| Enabled(jobs, s, m, ev);
      EventKeeps(jobs, s, m, ev);
      EventWorks(jobs, s, m, ev, n);
      WorkIsLeft(jobs, s, n);
      EventKeepsOwners(jobs, s, m, ev);
      run, t := RunCanEnd(jobs, Next(jobs, s, m, ev), n);
      RunsOn(jobs, s, m, ev, run, t);
      OwnersChain(s.st, Next(jobs, s, m, ev).st, t.st);
      run := [(m, ev)] + run;
    }
  }

  lemma NobodyChanged(a: State)
    ensures SameOwners(a, a)
  {
  }

  // ---------------------------------------------------------------- two schedules side by side

  // Before any flush.
  ghost predicate Early(jobs: map<nat, Job>, s: Sys) {
    Inv(jobs, s) && s.st.flushing == None && s.st.order.start == 0
  }

  // What registering chunk k makes of the register.
  ghost function Grown(jobs: map<nat, Job>, finals: map<Hash, Finals>, k: nat): map<Hash, Finals> {
    if k in jobs && jobs[k].hash !in finals then finals[jobs[k].hash := Finals(k, [], false)] else finals
  }

  lemma {:induction false} RegisterOne(jobs: map<nat, Job>, s: Sys, k: nat) returns (run: seq<(nat, Event)>, t: Sys)
    requires Early(jobs, s) && WellNumbered(jobs) && k in jobs && k in s.pcs && s.pcs[k] == Idle
    ensures Runs(jobs, s, run, t) && Early(jobs, t)
    ensures t.pcs.Keys == s.pcs.Keys && forall m :: m in s.pcs && m != k ==> t.pcs[m] == s.pcs[m]
    ensures t.st.finals == Grown(jobs, s.st.finals, k)
  {
    hide OrderInv, FinalsInv, ProgressInv, LockInv, Output, WellNumbered;
    assert s.pcs.Keys == jobs.Keys by {
      SameKeys(jobs, s);
    }
    var u := Next(jobs, s, k, Order);
    EventKeeps(jobs, s, k, Order);
    t := Next(jobs, u, k, Reg);
    EventKeeps(jobs, u, k, Reg);
    assert Runs(jobs, t, [], t);
    RunsOn(jobs, u, k, Reg, [], t);
    RunsOn(jobs, s, k, Order, [(k, Reg)] + [], t);
    run := [(k, Order)] + ([(k, Reg)] + []);
  }

  lemma SameKeys(jobs: map<nat, Job>, s: Sys)
    requires OrderInv(jobs, s)
    ensures s.pcs.Keys == jobs.Keys
  {
  }

  /** Two registers that know the same checksums from the same jobs, except that h is a's here and b's there. */
  ghost predicate Twins(f1: map<Hash, Finals>, f2: map<Hash, Finals>, h: Hash, a: nat, b: nat) {
    && h in f1 && f1[h].num == a && h in f2 && f2[h].num == b
    && (forall g :: g in f1 <==> g in f2)
    && (forall g :: g in f1 && g in f2 && g != h ==> f1[g].num == f2[g].num)
  }

  // Only the first job has begun, and of the others those from k on have not.
  ghost predicate Fresh(s: Sys, k: nat, n: nat, a: nat) {
    forall m: nat :: k <= m < n && m != a ==> m in s.pcs && s.pcs[m] == Idle
  }

  ghost predicate Registered(jobs: map<nat, Job>, s: Sys, k: nat) {
    forall m: nat :: m < k && m in jobs ==> jobs[m].hash in s.st.finals
  }

  lemma {:induction false} RegisterNext(jobs: map<nat, Job>, s: Sys, n: nat, k: nat, a: nat)
    returns (run: seq<(nat, Event)>, t: Sys)
    requires Numbers(jobs, n) && WellNumbered(jobs) && k < n
    requires Early(jobs, s) && Fresh(s, k, n, a) && Registered(jobs, s, k)
    requires a < n && a in jobs && jobs[a].hash in s.st.finals
    ensures Runs(jobs, s, run, t) && Early(jobs, t) && Fresh(t, k + 1, n, a) && Registered(jobs, t, k + 1)
    ensures t.st.finals == Grown(jobs, s.st.finals, k)
  {
    hide Early, WellNumbered;
    if k == a {
      run, t := [], s;
    } else {
      run, t := RegisterOne(jobs, s, k);
    }
  }

  // The register after jobs k .. n-1 have come by in order.
  ghost function Filling(jobs: map<nat, Job>, finals: map<Hash, Finals>, k: nat, n: nat): map<Hash, Finals>
    decreases n - k
  {
    if k >= n then finals else Filling(jobs, Grown(jobs, finals, k), k + 1, n)
  }

  lemma {:induction false} TwinsGrow(jobs: map<nat, Job>, f1: map<Hash, Finals>, f2: map<Hash, Finals>, h: Hash, a: nat,
                                     b: nat, k: nat, n: nat)
    requires Twins(f1, f2, h, a, b)
    ensures Twins(Filling(jobs, f1, k, n), Filling(jobs, f2, k, n), h, a, b)
    decreases n - k
  {
    if k < n {
      TwinsGrow(jobs, Grown(jobs, f1, k), Grown(jobs, f2, k), h, a, b, k + 1, n);
    }
  }

  lemma {:induction false} RegisterRest(jobs: map<nat, Job>, s: Sys, n: nat, k: nat, a: nat)
    returns (run: seq<(nat, Event)>, t: Sys)
    requires Numbers(jobs, n) && WellNumbered(jobs) && k <= n
    requires Early(jobs, s) && Fresh(s, k, n, a) && Registered(jobs, s, k)
    requires a < n && a in jobs && jobs[a].hash in s.st.finals
    ensures Runs(jobs, s, run, t) && Early(jobs, t) && Registered(jobs, t, n)
    ensures t.st.finals == Filling(jobs, s.st.finals, k, n)
    decreases n - k
  {
    hide Early, WellNumbered, Fresh, Registered, Enabled, Next;
    if k == n {
      run, t := [], s;
    } else {
      var b, u := RegisterNext(jobs, s, n, k, a);
      var c;
      c, t := RegisterRest(jobs, u, n, k + 1, a);
      RunsTogether(jobs, s, b, u, c, t);
      run := b + c;
    }
  }

  // a registers h before anybody else does anything.
  lemma RegisterFirst(jobs: map<nat, Job>, n: nat, a: nat) returns (run: seq<(nat, Event)>, t: Sys)
    requires Numbers(jobs, n) && WellNumbered(jobs) && a < n
    ensures Runs(jobs, Start(jobs), run, t) && Early(jobs, t) && Fresh(t, 0, n, a)
    ensures t.st.finals == map[jobs[a].hash := Finals(a, [], false)]
  {
    assert Early(jobs, Start(jobs)) by {
      StartInv(jobs);
    }
    hide Early, WellNumbered;
    run, t := RegisterOne(jobs, Start(jobs), a);
  }

  lemma EarlyIsInv(jobs: map<nat, Job>, s: Sys)
    requires Early(jobs, s)
    ensures Inv(jobs, s)
  {
  }

  // Twins stay twins: owners do not change.
  lemma TwinsStay(jobs: map<nat, Job>, s1: Sys, s2: Sys, t1: Sys, t2: Sys, n: nat, h: Hash, a: nat, b: nat)
    requires Twins(s1.st.finals, s2.st.finals, h, a, b) && SameOwners(s1.st, t1.st) && SameOwners(s2.st, t2.st)
    requires Registered(jobs, s1, n)
    ensures Alike(jobs, t1.st, t2.st, n, h, a, b)
  {
  }

  /** The owners of the checksums of the first n jobs, in two states. */
  ghost predicate Alike(jobs: map<nat, Job>, st1: State, st2: State, n: nat, h: Hash, a: nat, b: nat) {
    && h in st1.finals && st1.finals[h].num == a && h in st2.finals && st2.finals[h].num == b
    && forall p: nat :: p < n && p in jobs ==>
         var g := jobs[p].hash;
         g in st1.finals && g in st2.finals && (g != h ==> st1.finals[g].num == st2.finals[g].num)
  }

  lemma LinesAlike(jobs: map<nat, Job>, st1: State, st2: State, n: nat, h: Hash, a: nat, b: nat, p: nat)
    requires Alike(jobs, st1, st2, n, h, a, b) && p < n && p in jobs && a in jobs && b in jobs
    ensures jobs[p].hash == h ==>
        OwnLines(jobs, st1, h) == JobLines(jobs[a]) && OwnLines(jobs, st2, h) == JobLines(jobs[b])
    ensures jobs[p].hash != h ==> OwnLines(jobs, st1, jobs[p].hash) == OwnLines(jobs, st2, jobs[p].hash)
  {
    hide JobLines;
  }

  ghost predicate Occurs(jobs: map<nat, Job>, h: Hash, m: nat) {
    exists p: nat :: p < m && p in jobs && jobs[p].hash == h
  }

  lemma OccursHere(jobs: map<nat, Job>, h: Hash, m: nat)
    requires Occurs(jobs, h, m)
    ensures m > 0 && (Occurs(jobs, h, m - 1) || (m - 1 in jobs && jobs[m - 1].hash == h))
  {
  }

  // Where the lines of a and b have equal length, the outputs differ wherever h stands.
  lemma {:induction false} EqualLengthsDiffer(jobs: map<nat, Job>, st1: State, st2: State, n: nat, h: Hash, a: nat,
                                              b: nat, m: nat)
    requires Alike(jobs, st1, st2, n, h, a, b) && a in jobs && b in jobs && m <= n
    requires |JobLines(jobs[a])| == |JobLines(jobs[b])| && JobLines(jobs[a]) != JobLines(jobs[b])
    ensures |Output(jobs, st1, m)| == |Output(jobs, st2, m)|
    ensures Occurs(jobs, h, m) ==> Output(jobs, st1, m) != Output(jobs, st2, m)
  {
    hide JobLines, OwnLines, Alike, Occurs;
    if Occurs(jobs, h, m) {
      OccursHere(jobs, h, m);
    }
    if m > 0 {
      EqualLengthsDiffer(jobs, st1, st2, n, h, a, b, m - 1);
      if m - 1 in jobs {
        LinesAlike(jobs, st1, st2, n, h, a, b, m - 1);
        var x, y := OwnLines(jobs, st1, jobs[m - 1].hash), OwnLines(jobs, st2, jobs[m - 1].hash);
        PartsDiffer(Output(jobs, st1, m - 1), x, Output(jobs, st2, m - 1), y);
      } else {
        PartsDiffer(Output(jobs, st1, m - 1), [], Output(jobs, st2, m - 1), []);
      }
    }
  }

  lemma PartsDiffer<T>(a: seq<T>, x: seq<T>, b: seq<T>, y: seq<T>)
    requires |a| == |b|
    ensures a + x == b + y ==> a == b && x == y
  {
    if a + x == b + y {
      assert (a + x)[..|a|] == a && (b + y)[..|b|] == b;
      assert (a + x)[|a|..] == x && (b + y)[|b|..] == y;
    }
  }

  // Where they do not, the outputs differ in length.
  lemma {:induction false} LongerIsLonger(jobs: map<nat, Job>, st1: State, st2: State, n: nat, h: Hash, a: nat,
                                          b: nat, m: nat)
    requires Alike(jobs, st1, st2, n, h, a, b) && a in jobs && b in jobs && m <= n
    requires |JobLines(jobs[a])| > |JobLines(jobs[b])|
    ensures |Output(jobs, st1, m)| >= |Output(jobs, st2, m)|
    ensures Occurs(jobs, h, m) ==>
        |Output(jobs, st1, m)| > |Output(jobs, st2, m)|
  {
    hide JobLines, OwnLines, Alike, Occurs;
    if Occurs(jobs, h, m) {
      OccursHere(jobs, h, m);
    }
    if m > 0 {
      LongerIsLonger(jobs, st1, st2, n, h, a, b, m - 1);
      if m - 1 in jobs {
        LinesAlike(jobs, st1, st2, n, h, a, b, m - 1);
      }
    }
  }

  lemma AlikeSwaps(jobs: map<nat, Job>, st1: State, st2: State, n: nat, h: Hash, a: nat, b: nat)
    requires Alike(jobs, st1, st2, n, h, a, b)
    ensures Alike(jobs, st2, st1, n, h, b, a)
  {
  }

  lemma OutputsDiffer(jobs: map<nat, Job>, st1: State, st2: State, n: nat, h: Hash, a: nat, b: nat)
    requires Alike(jobs, st1, st2, n, h, a, b) && a in jobs && b in jobs && a < n && jobs[a].hash == h
    requires JobLines(jobs[a]) != JobLines(jobs[b])
    ensures Output(jobs, st1, n) != Output(jobs, st2, n)
  {
    hide JobLines, OwnLines, Alike, Output;
    assert Occurs(jobs, h, n);
    if |JobLines(jobs[a])| == |JobLines(jobs[b])| {
      EqualLengthsDiffer(jobs, st1, st2, n, h, a, b, n);
    } else if |JobLines(jobs[a])| > |JobLines(jobs[b])| {
      LongerIsLonger(jobs, st1, st2, n, h, a, b, n);
    } else {
      AlikeSwaps(jobs, st1, st2, n, h, a, b);
      LongerIsLonger(jobs, st2, st1, n, h, b, a, n);
    }
  }

  // A finished run has written the output of all chunks.
  lemma DoneIsOutput(jobs: map<nat, Job>, t: Sys, n: nat)
    requires Inv(jobs, t) && AllDone(t) && Numbers(jobs, n)
    ensures t.st.written == Output(jobs, t.st, n)
  {
    hide Output;
    AllDoneDrains(jobs, t, n);
  }

  /** Jobs with one checksum and different lines make two schedules write different indexes. */
  lemma {:induction false} TwoOutputs(jobs: map<nat, Job>, n: nat, a: nat, b: nat)
    returns (run1: seq<(nat, Event)>, t1: Sys, run2: seq<(nat, Event)>, t2: Sys)
    requires Numbers(jobs, n) && WellNumbered(jobs) && a in jobs && b in jobs
    requires jobs[a].hash == jobs[b].hash && JobLines(jobs[a]) != JobLines(jobs[b])
    ensures Runs(jobs, Start(jobs), run1, t1) && AllDone(t1) && Runs(jobs, Start(jobs), run2, t2) && AllDone(t2)
    ensures t1.st.written != t2.st.written
  {
    hide Early, WellNumbered, Fresh, Registered, Inv, JobLines, Output, AllDone, Runs;
    var h := jobs[a].hash;
    var a1, s1 := RegisterFirst(jobs, n, a);
    var a2, s2 := RegisterFirst(jobs, n, b);
    NothingRegistered(jobs, s1);
    NothingRegistered(jobs, s2);
    var b1, u1 := RegisterRest(jobs, s1, n, 0, a);
    var b2, u2 := RegisterRest(jobs, s2, n, 0, b);
    TwinsGrow(jobs, s1.st.finals, s2.st.finals, h, a, b, 0, n);
    EarlyIsInv(jobs, u1);
    EarlyIsInv(jobs, u2);
    var c1, c2;
    c1, t1 := RunCanEnd(jobs, u1, n);
    c2, t2 := RunCanEnd(jobs, u2, n);
    TwinsStay(jobs, u1, u2, t1, t2, n, h, a, b);
    DoneIsOutput(jobs, t1, n);
    DoneIsOutput(jobs, t2, n);
    OutputsDiffer(jobs, t1.st, t2.st, n, h, a, b);
    RunsTogether(jobs, s1, b1, u1, c1, t1);
    RunsTogether(jobs, s2, b2, u2, c2, t2);
    RunsTogether(jobs, Start(jobs), a1, s1, b1 + c1, t1);
    RunsTogether(jobs, Start(jobs), a2, s2, b2 + c2, t2);
    run1, run2 := a1 + (b1 + c1), a2 + (b2 + c2);
  }

  lemma NothingRegistered(jobs: map<nat, Job>, s: Sys)
    ensures Registered(jobs, s, 0)
  {
  }

  /** All finished runs write one index. */
  ghost predicate OneOutput(jobs: map<nat, Job>) {
    forall run1, t1, run2, t2 ::
      Runs(jobs, Start(jobs), run1, t1) && AllDone(t1) && Runs(jobs, Start(jobs), run2, t2) && AllDone(t2) ==>
        t1.st.written == t2.st.written
  }

  /** The schedule does not matter if and only if chunks with equal checksums have equal lines. */
  lemma {:induction false} ScheduleMattersIff(jobs: map<nat, Job>, n: nat)
    requires Numbers(jobs, n) && WellNumbered(jobs)
    ensures OneOutput(jobs) <==> Consistent(jobs)
  {
    hide Runs, AllDone, JobLines, WellNumbered, Numbers;
    if Consistent(jobs) {
      forall run1, t1, run2, t2 | Runs(jobs, Start(jobs), run1, t1) && AllDone(t1) &&
                                  Runs(jobs, Start(jobs), run2, t2) && AllDone(t2)
        ensures t1.st.written == t2.st.written
      {
        hide Consistent;
        NumbersAre(jobs, n);
        AllDoneIsAllWritten(jobs, run1, t1, n);
        AllDoneIsAllWritten(jobs, run2, t2, n);
      }
    } else {
      var a, b :| a in jobs && b in jobs && jobs[a].hash == jobs[b].hash && JobLines(jobs[a]) != JobLines(jobs[b]);
      var run1, t1, run2, t2 := TwoOutputs(jobs, n, a, b);
    }
  }

  lemma NumbersAre(jobs: map<nat, Job>, n: nat)
    requires Numbers(jobs, n)
    ensures forall k: nat :: k in jobs <==> k < n
  {
  }
}
