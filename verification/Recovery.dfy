/**
 The promise of parity, group and stripe together (README.md:136-140): data whose shards were striped comes back after
 stores are lost, in whatever order what is left of it is read.
 */
module Recovery {
  import opened Wrappers
  import opened Sorting
  import opened Stripe
  import opened StripeLaws
  import opened CommitRuns
  import Group
  import Parity

  /**
   Shard i of the data, stored under the checksum hashes[i], is read back if that checksum still has an owner, and is
   marked as missing if it has none.
   */
  ghost predicate ReadBack<H>(code: Parity.Code, num: nat, data: Parity.Bytes, hashes: seq<H>, owned: set<H>,
                              read: seq<Numbered<Parity.Shard>>)
  {
    && code.encode(data).Some? && |code.encode(data).value| == |hashes| == |read| == code.Shards()
    && forall i :: 0 <= i < |read| ==>
         && read[i].num == num * code.Shards() + i && read[i].val.size == |data|
         && if hashes[i] in owned then
              read[i].val == Parity.Shard(code.encode(data).value[i], |data|, Parity.NoErr)
            else read[i].val.err == Parity.MissingData
  }

  // The numbers of the shards without an owner.
  ghost function LostNums<H>(hashes: seq<H>, owned: set<H>, start: nat): set<int> {
    if hashes == [] then {}
    else
      var n := |hashes| - 1;
      LostNums(hashes[..n], owned, start) + if hashes[n] in owned then {} else {start + n}
  }

  lemma {:induction false} LostNumsAre<H>(hashes: seq<H>, owned: set<H>, start: nat)
    ensures |LostNums(hashes, owned, start)| + Count(hashes, owned) == |hashes|
    ensures forall x :: x in LostNums(hashes, owned, start) <==>
              start <= x < start + |hashes| && hashes[x - start] !in owned
  {
    if hashes != [] {
      LostNumsAre(hashes[..|hashes| - 1], owned, start);
    }
  }

  lemma ReadIsShard<H>(code: Parity.Code, num: nat, data: Parity.Bytes, hashes: seq<H>, owned: set<H>,
                       read: seq<Numbered<Parity.Shard>>, i: nat)
    requires ReadBack(code, num, data, hashes, owned, read) && i < |read|
    ensures Parity.IsShard(code, num, data, read[i]) && read[i].num == num * code.Shards() + i
    ensures read[i].val.err != Parity.NoErr <==> hashes[i] !in owned
  {
    var n, k := code.Shards(), num * code.Shards();
    assert k <= read[i].num < k + n;
  }

  // The same chunks in another order.
  lemma ArrivalIsRead(read: seq<Numbered<Parity.Shard>>, arrivals: seq<Numbered<Parity.Shard>>,
                      c: Numbered<Parity.Shard>)
    returns (i: nat)
    requires multiset(arrivals) == multiset(read) && c in arrivals
    ensures i < |read| && read[i] == c
  {
    assert c in multiset(arrivals);
    assert c in multiset(read);
    i :| 0 <= i < |read| && read[i] == c;
  }

  lemma ArrivalsAreShards<H>(code: Parity.Code, num: nat, data: Parity.Bytes, hashes: seq<H>, owned: set<H>,
                             read: seq<Numbered<Parity.Shard>>, arrivals: seq<Numbered<Parity.Shard>>)
    requires ReadBack(code, num, data, hashes, owned, read) && multiset(arrivals) == multiset(read)
    ensures forall c :: c in arrivals ==> Parity.IsShard(code, num, data, c)
    ensures Group.Proper(arrivals)
  {
    hide Parity.IsShard;
    forall c | c in arrivals
      ensures Parity.IsShard(code, num, data, c) && c.num >= 0
    {
      var i := ArrivalIsRead(read, arrivals, c);
      ReadIsShard(code, num, data, hashes, owned, read, i);
    }
    assert DistinctNums(read);
    PermutedStaysDistinct(read, arrivals);
    forall i | 0 <= i < |arrivals|
      ensures arrivals[i].num >= 0
    {
      assert arrivals[i] in arrivals;
    }
  }

  lemma DamagedAreLost<H>(code: Parity.Code, num: nat, data: Parity.Bytes, hashes: seq<H>, owned: set<H>,
                          read: seq<Numbered<Parity.Shard>>, arrivals: seq<Numbered<Parity.Shard>>)
    requires ReadBack(code, num, data, hashes, owned, read) && multiset(arrivals) == multiset(read)
    ensures |Parity.DamagedNums(arrivals)| + Count(hashes, owned) <= |hashes|
  {
    hide Count, LostNums;
    var start := num * code.Shards();
    LostNumsAre(hashes, owned, start);
    forall x | x in Parity.DamagedNums(arrivals)
      ensures x in LostNums(hashes, owned, start)
    {
      var c :| c in arrivals && c.val.err != Parity.NoErr && c.num == x;
      var i := ArrivalIsRead(read, arrivals, c);
      ReadIsShard(code, num, data, hashes, owned, read, i);
    }
    SubsetOfSameSize(Parity.DamagedNums(arrivals), LostNums(hashes, owned, start));
  }

  /**
   Once the shards of some data have been committed as a group, on any schedule, losing any `min` stores loses no data:
   what is left of the shards, read back in any order, is grouped and joined to the original bytes.
   */
  lemma {:induction false} LostStoresAreRecovered<H(!new), L>(
      cfg: Config<H>, s: Sys<H, L>, run: seq<(nat, Event<H, L>)>, t: Sys<H, L>, j: nat, lost: set<L>,
      code: Parity.Code, num: nat, data: Parity.Bytes, read: seq<Numbered<Parity.Shard>>,
      before: seq<Numbered<Parity.Shard>>, last: Numbered<Parity.Shard>)
    requires Start(cfg, s) && Runs(cfg, s, run, t) && Finished(t, j) && j < |cfg.groups|
    requires cfg.min >= 1 && cfg.excl >= code.ndata && |lost| <= cfg.min
    requires Parity.Laws(code) && data != [] && Spares(Hashes(cfg.groups[j]), code.nparity)
    requires ReadBack(code, num, data, Hashes(cfg.groups[j]), Owned(t.st.owners, lost), read)
    requires multiset(before + [last]) == multiset(read)
    ensures var out := Group.Step(Group.After(code.Shards(), before), code.Shards(), last).1;
      out.Grouped? && out.head == num &&
      Parity.JoinOf(code, Some(out.chunks), out.chunks[0].val.size) == Parity.Data(data)
  {
    hide Runs, Start, Finished, Hashes, Owned, Count, Spares, Parity.Laws, Parity.JoinOf;
    var hashes, owned := Hashes(cfg.groups[j]), Owned(t.st.owners, lost);
    FinishedToleratesLosses(cfg, s, run, t, j, code.ndata, code.nparity, lost);
    ArrivalsAreShards(code, num, data, hashes, owned, read, before + [last]);
    DamagedAreLost(code, num, data, hashes, owned, read, before + [last]);
    SameSize(before + [last], read);
    hide ReadBack;
    Parity.ParityRoundTrip(code, num, data, before, last);
  }
}
