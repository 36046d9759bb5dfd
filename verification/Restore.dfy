/**
 From backup to restore: the written index, scanned again and regrouped, lines the shards of every original
 chunk up as they were (procs/index.go, index/write.go, index/scanner.go, procs/group.go, procs/parity.go:46-50).
 */
module Restore {
  import opened Wrappers
  import opened Chunks
  import opened Sorting
  import opened Index
  import opened IndexRuns
  import opened IndexText
  import opened Group

  /** Chunk k of 0..total-1 is split into n shards, numbered k*n+i, which reach the index in any order. */
  ghost predicate Sharded(jobs: map<nat, Job>, shards: seq<seq<Line>>, n: nat) {
    && n > 0
    && (forall k: nat :: k in jobs <==> k < |shards|)
    && (forall k :: 0 <= k < |shards| ==>
          && |shards[k]| == n && WellHashed(shards[k])
          && multiset(jobs[k].finals) == multiset(NumberFrom(k * n, shards[k])))
    // equal chunks have equal shards
    && (forall k, m :: 0 <= k < |shards| && 0 <= m < |shards| && jobs[k].hash == jobs[m].hash ==>
          shards[k] == shards[m])
  }

  function Flat(shards: seq<seq<Line>>): seq<Line> {
    if shards == [] then [] else Flat(shards[..|shards| - 1]) + shards[|shards| - 1]
  }

  lemma {:induction false} NumberFromAt(num: int, lines: seq<Line>)
    ensures |NumberFrom(num, lines)| == |lines|
    ensures forall i :: 0 <= i < |lines| ==> NumberFrom(num, lines)[i] == Numbered(num + i, lines[i])
    decreases lines
  {
    if lines != [] {
      NumberFromAt(num + 1, lines[1..]);
    }
  }

  lemma {:induction false} LinesOfAt(entries: seq<Entry>)
    ensures |LinesOf(entries)| == |entries|
    ensures forall i :: 0 <= i < |entries| ==> LinesOf(entries)[i] == entries[i].val
  {
    if entries != [] {
      LinesOfAt(entries[1..]);
    }
  }

  lemma ShardedFacts(jobs: map<nat, Job>, shards: seq<seq<Line>>, n: nat)
    requires Sharded(jobs, shards, n)
    ensures forall j :: 0 <= j < |shards| ==> |shards[j]| == n && WellHashed(shards[j])
    ensures forall k: nat :: k in jobs <==> k < |shards|
  {
  }

  // Whatever order a chunk's shards arrived in, its lines are its shards in order.
  lemma JobLinesAreShards(jobs: map<nat, Job>, shards: seq<seq<Line>>, n: nat, k: nat)
    requires Sharded(jobs, shards, n) && k < |shards|
    ensures JobLines(jobs[k]) == shards[k] && DistinctNums(jobs[k].finals)
  {
    var inOrder := NumberFrom(k * n, shards[k]);
    NumberFromAt(k * n, shards[k]);
    assert Ascending(inOrder);
    PermutedStaysDistinct(inOrder, jobs[k].finals);
    SortIsCanonical(jobs[k].finals, inOrder);
    LinesOfAt(inOrder);
    assert LinesOf(inOrder) == shards[k];
  }

  lemma ShardedIsConsistent(jobs: map<nat, Job>, shards: seq<seq<Line>>, n: nat)
    requires Sharded(jobs, shards, n)
    ensures Consistent(jobs)
  {
    forall k | k in jobs
      ensures DistinctNums(jobs[k].finals) && JobLines(jobs[k]) == shards[k]
    {
      JobLinesAreShards(jobs, shards, n, k);
    }
  }

  lemma {:induction false} SequentialIsFlat(jobs: map<nat, Job>, shards: seq<seq<Line>>, n: nat, m: nat)
    requires Sharded(jobs, shards, n) && m <= |shards|
    ensures Sequential(jobs, m) == Flat(shards[..m])
  {
    hide Sharded, JobLines;
    if m > 0 {
      SequentialIsFlat(jobs, shards, n, m - 1);
      ShardedFacts(jobs, shards, n);
      JobLinesAreShards(jobs, shards, n, m - 1);
      assert shards[..m][..m - 1] == shards[..m - 1];
    }
  }

  lemma {:induction false} FlatAt(shards: seq<seq<Line>>, n: nat, k: nat, i: nat)
    requires forall j :: 0 <= j < |shards| ==> |shards[j]| == n
    requires k < |shards| && i < n
    ensures |Flat(shards)| == |shards| * n
    ensures k * n + i < |Flat(shards)| && Flat(shards)[k * n + i] == shards[k][i]
  {
    FlatLength(shards, n);
    var before := shards[..|shards| - 1];
    FlatLength(before, n);
    assert |shards| * n == |before| * n + n;
    if k < |before| {
      FlatAt(before, n, k, i);
    }
  }

  lemma {:induction false} FlatLength(shards: seq<seq<Line>>, n: nat)
    requires forall j :: 0 <= j < |shards| ==> |shards[j]| == n
    ensures |Flat(shards)| == |shards| * n
  {
    if shards != [] {
      FlatLength(shards[..|shards| - 1], n);
      assert |shards| * n == (|shards| - 1) * n + n;
    }
  }

  lemma {:induction false} FlatWellHashed(shards: seq<seq<Line>>)
    requires forall j :: 0 <= j < |shards| ==> WellHashed(shards[j])
    ensures WellHashed(Flat(shards))
  {
    if shards != [] {
      FlatWellHashed(shards[..|shards| - 1]);
    }
  }

  /** Line k*n+i is shard i of chunk k. */
  ghost predicate Aligned(lines: seq<Line>, shards: seq<seq<Line>>, n: nat) {
    && |lines| == |shards| * n
    && forall k: nat, i: nat :: k < |shards| && i < n ==> LineAt(lines, k * n + i) == ShardAt(shards, k, i)
  }

  function LineAt(lines: seq<Line>, q: nat): Option<Line> {
    if q < |lines| then Some(lines[q]) else None
  }

  function ShardAt(shards: seq<seq<Line>>, k: nat, i: nat): Option<Line> {
    if k < |shards| && i < |shards[k]| then Some(shards[k][i]) else None
  }

  lemma FlatIsAligned(shards: seq<seq<Line>>, n: nat)
    requires forall j :: 0 <= j < |shards| ==> |shards[j]| == n
    ensures Aligned(Flat(shards), shards, n)
  {
    FlatLength(shards, n);
    forall k: nat, i: nat | k < |shards| && i < n
      ensures LineAt(Flat(shards), k * n + i) == ShardAt(shards, k, i)
    {
      FlatAt(shards, n, k, i);
    }
  }

  /** Backup: after every chunk ended, on any schedule, the index has shard i of chunk k as line k*n+i. */
  lemma {:induction false} WrittenIndexIsAligned(jobs: map<nat, Job>, shards: seq<seq<Line>>, n: nat,
                                                 run: seq<(nat, Event)>, t: Sys)
    requires Sharded(jobs, shards, n)
    requires Runs(jobs, Start(jobs), run, t) && AllDone(t)
    ensures t.st.written == Flat(shards) && Aligned(t.st.written, shards, n)
  {
    hide Runs, Sharded, Consistent, Sequential, Flat, WellHashed, Aligned;
    ShardedFacts(jobs, shards, n);
    ShardedIsConsistent(jobs, shards, n);
    AllDoneIsAllWritten(jobs, run, t, |shards|);
    SequentialIsFlat(jobs, shards, n, |shards|);
    assert shards[..|shards|] == shards;
    FlatIsAligned(shards, n);
  }

  /** Scanning its text gives those lines back, numbered in order, duplicates included. */
  lemma {:induction false} ScannedIndexIsAligned(jobs: map<nat, Job>, shards: seq<seq<Line>>, n: nat,
                                                 run: seq<(nat, Event)>, t: Sys)
    requires Sharded(jobs, shards, n)
    requires Runs(jobs, Start(jobs), run, t) && AllDone(t)
    ensures ScanAll(0, Text(t.st.written)) == (NumberFrom(0, t.st.written), true) && Aligned(t.st.written, shards, n)
  {
    hide Runs, Sharded, Flat, Text, NumberFrom, WellHashed, Aligned;
    ShardedFacts(jobs, shards, n);
    WrittenIndexIsAligned(jobs, shards, n, run, t);
    FlatWellHashed(shards);
    ScanInvertsWrite(0, Flat(shards));
  }

  // ---------------------------------------------------------------- restore

  lemma ArrivalIsLine(lines: seq<Line>, arrivals: seq<Numbered<Line>>, c: Numbered<Line>)
    requires multiset(arrivals) == multiset(NumberFrom(0, lines)) && c in arrivals
    ensures 0 <= c.num < |lines| && c.val == lines[c.num]
  {
    var scanned := NumberFrom(0, lines);
    NumberFromAt(0, lines);
    assert c in multiset(arrivals);
    assert c in multiset(scanned);
    var i :| 0 <= i < |scanned| && scanned[i] == c;
  }

  lemma LineArrives(lines: seq<Line>, arrivals: seq<Numbered<Line>>, q: nat)
    requires multiset(arrivals) == multiset(NumberFrom(0, lines)) && q < |lines|
    ensures HasNum(arrivals, q)
  {
    var scanned := NumberFrom(0, lines);
    NumberFromAt(0, lines);
    assert scanned[q] in multiset(scanned);
    assert scanned[q] in multiset(arrivals);
    var i :| 0 <= i < |arrivals| && arrivals[i] == scanned[q];
  }

  // The scanned chunks reach the group in any order.
  lemma ArrivalsAreProper(lines: seq<Line>, arrivals: seq<Numbered<Line>>)
    requires multiset(arrivals) == multiset(NumberFrom(0, lines))
    ensures Proper(arrivals)
  {
    var scanned := NumberFrom(0, lines);
    NumberFromAt(0, lines);
    assert DistinctNums(scanned);
    hide NumberFrom;
    PermutedStaysDistinct(scanned, arrivals);
    forall i | 0 <= i < |arrivals|
      ensures arrivals[i].num >= 0
    {
      assert arrivals[i] in arrivals;
      ArrivalIsLine(lines, arrivals, arrivals[i]);
    }
  }

  /** Every group is complete, whatever the order of arrival. */
  lemma GroupIsComplete(lines: seq<Line>, shards: seq<seq<Line>>, n: nat, arrivals: seq<Numbered<Line>>, k: nat)
    requires n > 0 && Aligned(lines, shards, n) && k < |shards|
    requires multiset(arrivals) == multiset(NumberFrom(0, lines))
    ensures Proper(arrivals) && |Of(n, arrivals, k)| == n
  {
    hide Of, NumberFrom, Proper;
    ArrivalsAreProper(lines, arrivals);
    BlockFits(k, |shards|, n);
    forall q | k * n <= q < k * n + n
      ensures HasNum(arrivals, q)
    {
      LineArrives(lines, arrivals, q);
    }
    assert Complete(n, arrivals, k);
    CompleteIffFull(n, arrivals, k);
  }

  lemma {:induction false} BlockFits(k: nat, m: nat, n: nat)
    requires k < m
    ensures 0 <= k * n && k * n + n <= m * n
    decreases m
  {
    if k < m - 1 {
      BlockFits(k, m - 1, n);
    }
    assert (m - 1) * n + n == m * n;
  }

  // Sorted, the chunks of a group are its shards in order.
  lemma GroupIsShards(lines: seq<Line>, shards: seq<seq<Line>>, n: nat, arrivals: seq<Numbered<Line>>, k: nat)
    requires n > 0 && Aligned(lines, shards, n) && k < |shards| && |shards[k]| == n
    requires multiset(arrivals) == multiset(NumberFrom(0, lines))
    ensures Proper(arrivals) && |Of(n, arrivals, k)| == n
    ensures SortByNum(Of(n, arrivals, k)) == NumberFrom(k * n, shards[k])
  {
    hide Of, NumberFrom, Proper, Aligned, SortByNum;
    var mine := Of(n, arrivals, k);
    GroupIsComplete(lines, shards, n, arrivals, k);
    OfFits(n, arrivals, k);
    NumberFromAt(k * n, shards[k]);
    var sorted := SortByNum(mine);
    forall i | 0 <= i < n
      ensures sorted[i] == Numbered(k * n + i, shards[k][i])
    {
      assert sorted[i] in multiset(mine);
      MemberIsShard(lines, shards, n, arrivals, k, sorted[i], i);
    }
  }

  /**
   Restore: in any order of arrival, one aggregate comes out for every original chunk, and it is made of exactly its
   shards in order.
   */
  lemma {:induction false} GroupsAreRebuilt(lines: seq<Line>, shards: seq<seq<Line>>, n: nat,
                                            arrivals: seq<Numbered<Line>>, k: nat)
    requires n > 0 && Aligned(lines, shards, n) && k < |shards| && |shards[k]| == n
    requires multiset(arrivals) == multiset(NumberFrom(0, lines))
    ensures Emitted(n, arrivals, k) == 1
    ensures exists i :: EmittedAt(n, arrivals, i, k, NumberFrom(k * n, shards[k]))
  {
    hide Of, NumberFrom, Proper, Emitted, EmittedAt, Aligned, SortByNum;
    GroupIsShards(lines, shards, n, arrivals, k);
    EmittedOnce(n, arrivals, k);
    var i := CompleteIsEmitted(n, arrivals, k);
  }

  lemma MemberIsShard(lines: seq<Line>, shards: seq<seq<Line>>, n: nat, arrivals: seq<Numbered<Line>>, k: nat,
                      c: Numbered<Line>, i: nat)
    requires n > 0 && Aligned(lines, shards, n) && k < |shards| && |shards[k]| == n && i < n
    requires multiset(arrivals) == multiset(NumberFrom(0, lines))
    requires c in Of(n, arrivals, k) && c.num == k * n + i
    ensures c.val == shards[k][i]
  {
    hide NumberFrom, Of;
    OfMembers(n, arrivals, k);
    ArrivalIsLine(lines, arrivals, c);
    assert LineAt(lines, k * n + i) == ShardAt(shards, k, i);
  }

  /**
   End to end: index the chunks on any schedule, scan the text of the index, and group its lines in any order of
   arrival. Every original chunk, duplicates included, gets one aggregate, of exactly its shards in order.
   */
  lemma {:induction false} RestoredGroupsAreOriginal(jobs: map<nat, Job>, shards: seq<seq<Line>>, n: nat,
                                                     run: seq<(nat, Event)>, t: Sys, arrivals: seq<Numbered<Line>>,
                                                     k: nat)
    requires Sharded(jobs, shards, n) && k < |shards|
    requires Runs(jobs, Start(jobs), run, t) && AllDone(t)
    requires multiset(arrivals) == multiset(ScanAll(0, Text(t.st.written)).0)
    ensures Emitted(n, arrivals, k) == 1
    ensures exists i :: EmittedAt(n, arrivals, i, k, NumberFrom(k * n, shards[k]))
  {
    hide Runs, AllDone, ScanAll, Text, NumberFrom, Aligned, Emitted, EmittedAt;
    assert n > 0;
    ShardedFacts(jobs, shards, n);
    hide Sharded;
    ScannedIndexIsAligned(jobs, shards, n, run, t);
    GroupsAreRebuilt(t.st.written, shards, n, arrivals, k);
  }
}
