/**
 Splitting into data and parity shards and joining them again (procs/parity.go), over any erasure code in
 which enough shards determine all.
 */
module Parity {
  import opened Wrappers
  import opened Sorting
  import opened Group

  type Bytes = seq<bv8>

  /** The calls made on the erasure code; None is an error. */
  datatype Code = Code(
    ndata: nat,
    nparity: nat,
    encode: Bytes -> Option<seq<Bytes>>,                      // Split, then Encode
    reconstruct: seq<Option<Bytes>> -> Option<seq<Bytes>>,
    verify: seq<Bytes> -> Option<bool>,
    join: (seq<Bytes>, nat) -> Option<Bytes>)
  {
    function Shards(): nat {
      ndata + nparity
    }
  }

  // `holes` is `full` with some shards erased.
  ghost predicate Erased(holes: seq<Option<Bytes>>, full: seq<Bytes>) {
    |holes| == |full| && forall i :: 0 <= i < |full| ==> holes[i] == None || holes[i] == Some(full[i])
  }

  ghost function Missing(holes: seq<Option<Bytes>>): set<nat> {
    set i: nat | i < |holes| && holes[i] == None
  }

  /** What is assumed of the code, for data that is not empty. */
  ghost predicate Laws(code: Code) {
    && code.ndata > 0
    && (forall data :: data != [] ==> Encodes(code, data))
    && (forall data, holes :: data != [] && Encodes(code, data) && Erased(holes, code.encode(data).value)
                              && |Missing(holes)| <= code.nparity ==>
          code.reconstruct(holes) == code.encode(data))
  }

  ghost predicate Encodes(code: Code, data: Bytes) {
    && code.encode(data).Some?
    && var full := code.encode(data).value;
    && |full| == code.Shards() && code.verify(full) == Some(true) && code.join(full, |data|) == Some(data)
  }

  // ---------------------------------------------------------------- the proc

  datatype GroupErr = NoErr | MissingData | IntegrityCheckFailed | Other

  // A shard chunk: its data, target size, and the error the group recorded for it.
  datatype Shard = Shard(data: Bytes, size: nat, err: GroupErr)

  /** parity.go:147-158. */
  predicate Recoverable(e: GroupErr) {
    e == MissingData || e == IntegrityCheckFailed
  }

  /** parity.go:32-56: the shards of a chunk numbered `num`, or None when it cannot be split. */
  method Process(code: Code, num: nat, data: Bytes) returns (out: Option<seq<Numbered<Shard>>>)
    ensures out.Some? <==> code.encode(data).Some?
    ensures out.Some? ==> var shards := code.encode(data).value;
      && |out.value| == |shards|
      && forall i :: 0 <= i < |shards| ==>
           out.value[i] == Numbered(num * code.Shards() + i, Shard(shards[i], |data|, NoErr))
  {
    var encoded := code.encode(data);
    if encoded == None {
      return None;
    }
    var shards := encoded.value;
    var chunks := [];
    var i := 0;
    while i < |shards|
      invariant 0 <= i <= |shards| && |chunks| == i
      invariant forall j :: 0 <= j < i ==>
                  chunks[j] == Numbered(num * code.Shards() + j, Shard(shards[j], |data|, NoErr))
    {
      chunks := chunks + [Numbered(num * code.Shards() + i, Shard(shards[i], |data|, NoErr))];
      i := i + 1;
    }
    out := Some(chunks);
  }

  datatype Joined =
    | Data(data: Bytes)
    | MissingGroup
    | InvalidGroupSize
    | ChunkError
    | CannotReconstruct
    | CannotVerify
    | VerificationFailed
    | CannotJoin

  // The shards slice of parity.go:86-103: an unrecoverable error ends the join.
  function Collect(chunks: seq<Numbered<Shard>>): Option<seq<Option<Bytes>>> {
    if chunks == [] then Some([])
    else
      var before, shard := Collect(chunks[..|chunks| - 1]), chunks[|chunks| - 1].val;
      if before == None || (shard.err != NoErr && !Recoverable(shard.err)) then None
      else Some(before.value + [if shard.err == NoErr then Some(shard.data) else None])
  }

  // All shards, when none is missing.
  function Values(holes: seq<Option<Bytes>>): Option<seq<Bytes>> {
    if holes == [] then Some([])
    else
      var before, last := Values(holes[..|holes| - 1]), holes[|holes| - 1];
      if before == None || last == None then None else Some(before.value + [last.value])
  }

  // Reconstruct is called only when a shard is missing.
  function Restored(code: Code, holes: seq<Option<Bytes>>): Option<seq<Bytes>> {
    if Values(holes) == None then code.reconstruct(holes) else Values(holes)
  }

  // `group` is None for a chunk that carries no group.
  function JoinOf(code: Code, group: Option<seq<Numbered<Shard>>>, targetSize: nat): Joined {
    if group == None then MissingGroup
    else if |group.value| != code.Shards() then InvalidGroupSize
    else
      match Collect(group.value)
      case None => ChunkError
      case Some(holes) =>
        match Restored(code, holes)
        case None => CannotReconstruct
        case Some(shards) => Trimmed(code, shards, targetSize)
  }

  // parity.go:113-126: verify, then join the data shards and trim the padding.
  function Trimmed(code: Code, shards: seq<Bytes>, targetSize: nat): Joined {
    match code.verify(shards)
    case None => CannotVerify
    case Some(ok) =>
      if !ok then VerificationFailed
      else
        match code.join(shards, targetSize)
        case None => CannotJoin
        case Some(data) => Data(data)
  }

  // ---------------------------------------------------------------- what a join vouches for

  // No chunk has an error but those that reconstruction is for.
  ghost predicate Usable(chunks: seq<Numbered<Shard>>) {
    forall i :: 0 <= i < |chunks| ==> chunks[i].val.err in {NoErr, MissingData, IntegrityCheckFailed}
  }

  ghost predicate Undamaged(chunks: seq<Numbered<Shard>>) {
    forall i :: 0 <= i < |chunks| ==> chunks[i].val.err == NoErr
  }

  ghost function DataOf(chunks: seq<Numbered<Shard>>): seq<Bytes> {
    seq(|chunks|, i requires 0 <= i < |chunks| => chunks[i].val.data)
  }

  // The data of the chunks, nothing for the damaged ones.
  ghost function Held(chunks: seq<Numbered<Shard>>): seq<Option<Bytes>> {
    seq(|chunks|, i requires 0 <= i < |chunks| =>
      if chunks[i].val.err == NoErr then Some(chunks[i].val.data) else None)
  }

  /** The shards that are verified: the chunks' own when none is damaged, otherwise what is reconstructed from them. */
  ghost predicate Settled(code: Code, chunks: seq<Numbered<Shard>>, full: seq<Bytes>) {
    if Undamaged(chunks) then full == DataOf(chunks) else code.reconstruct(Held(chunks)) == Some(full)
  }

  // A group of the right size, as long as no chunk in it fails.
  ghost predicate Sound(code: Code, group: Option<seq<Numbered<Shard>>>) {
    group.Some? && |group.value| == code.Shards() && Usable(group.value)
  }

  /** Data come out only when the shards of a sound group passed verification, and are what these shards join to. */
  ghost predicate Vouched(code: Code, group: Option<seq<Numbered<Shard>>>, size: nat, data: Bytes) {
    Sound(code, group) && exists full ::
      && Settled(code, group.value, full) && code.verify(full) == Some(true) && code.join(full, size) == Some(data)
  }

  lemma {:induction false} CollectIsHeld(chunks: seq<Numbered<Shard>>)
    ensures Collect(chunks) == if Usable(chunks) then Some(Held(chunks)) else None
  {
    if chunks != [] {
      var n := |chunks| - 1;
      CollectIsHeld(chunks[..n]);
      assert forall i :: 0 <= i < n ==> chunks[..n][i] == chunks[i];
      if Usable(chunks) {
        assert Usable(chunks[..n]);
        assert Held(chunks) == Held(chunks[..n]) + [Held(chunks)[n]];
      } else if Usable(chunks[..n]) {
        assert chunks[n].val.err == Other;
      }
    } else {
      assert Held(chunks) == [];
    }
  }

  lemma {:induction false} ValuesOfHeld(chunks: seq<Numbered<Shard>>)
    ensures Values(Held(chunks)) == if Undamaged(chunks) then Some(DataOf(chunks)) else None
  {
    if chunks != [] {
      var n := |chunks| - 1;
      ValuesOfHeld(chunks[..n]);
      assert forall i :: 0 <= i < n ==> chunks[..n][i] == chunks[i];
      assert Held(chunks)[..n] == Held(chunks[..n]);
      if Undamaged(chunks) {
        assert Undamaged(chunks[..n]);
        assert DataOf(chunks) == DataOf(chunks[..n]) + [chunks[n].val.data];
      } else if Undamaged(chunks[..n]) {
        assert chunks[n].val.err != NoErr;
      }
    } else {
      assert Held(chunks) == [] && DataOf(chunks) == [];
    }
  }

  // With the shards settled, verification decides.
  lemma JoinOfSound(code: Code, group: Option<seq<Numbered<Shard>>>, size: nat)
    requires Sound(code, group)
    ensures (exists full :: Settled(code, group.value, full)) <==> JoinOf(code, group, size) != CannotReconstruct
    ensures forall full :: Settled(code, group.value, full) ==>
        JoinOf(code, group, size) == Trimmed(code, full, size)
  {
    CollectIsHeld(group.value);
    ValuesOfHeld(group.value);
    hide Collect, Values, Usable, Undamaged, Held, DataOf;
    if Undamaged(group.value) {
      assert Settled(code, group.value, DataOf(group.value));
    } else if code.reconstruct(Held(group.value)).Some? {
      assert Settled(code, group.value, code.reconstruct(Held(group.value)).value);
    }
  }

  /** What each outcome of a join says about the group and the code. */
  lemma JoinVouches(code: Code, group: Option<seq<Numbered<Shard>>>, size: nat)
    ensures var joined := JoinOf(code, group, size);
      && (joined == MissingGroup <==> group == None)
      && (joined == InvalidGroupSize <==> group.Some? && |group.value| != code.Shards())
      && (joined == ChunkError <==> group.Some? && |group.value| == code.Shards() && !Usable(group.value))
      && (joined == CannotReconstruct <==>
            Sound(code, group) && !Undamaged(group.value) && code.reconstruct(Held(group.value)) == None)
      && (forall data :: joined == Data(data) <==> Vouched(code, group, size, data))
      && (joined == VerificationFailed <==>
            Sound(code, group) && exists full :: Settled(code, group.value, full) && code.verify(full) == Some(false))
  {
    if group.Some? && |group.value| == code.Shards() {
      CollectIsHeld(group.value);
      if Usable(group.value) {
        JoinOfSound(code, group, size);
        ValuesOfHeld(group.value);
        hide Collect, Values, Usable, Undamaged, Held, DataOf;
        if Undamaged(group.value) {
          assert Settled(code, group.value, DataOf(group.value));
        } else if code.reconstruct(Held(group.value)).Some? {
          assert Settled(code, group.value, code.reconstruct(Held(group.value)).value);
        }
      }
    }
  }

  /** parity.go:78-126. */
  method Join(code: Code, group: Option<seq<Numbered<Shard>>>, targetSize: nat) returns (joined: Joined)
    ensures joined == JoinOf(code, group, targetSize)
    // nothing comes out that was not verified
    ensures forall data :: joined == Data(data) <==> Vouched(code, group, targetSize, data)
    ensures Sound(code, group) && Undamaged(group.value) && code.verify(DataOf(group.value)) == Some(false) ==>
        joined == VerificationFailed
    ensures joined == ChunkError <==> group.Some? && |group.value| == code.Shards() && !Usable(group.value)
  {
    JoinVouches(code, group, targetSize);
    hide Usable, Undamaged, Vouched, Held, DataOf;
    if group == None {
      return MissingGroup;
    }
    var chunks := group.value;
    if |chunks| != code.Shards() {
      return InvalidGroupSize;
    }
    hide Collect, Values;
    var failed, mustReconstruct, holes, full := Gather(chunks);
    if failed {
      return ChunkError;
    }
    var shards := full;
    if mustReconstruct {
      var reconstructed := code.reconstruct(holes);
      if reconstructed == None {
        return CannotReconstruct;
      }
      shards := reconstructed.value;
    }
    var verified := code.verify(shards);
    if verified == None {
      return CannotVerify;
    }
    if !verified.value {
      return VerificationFailed;
    }
    var data := code.join(shards, targetSize);
    joined := if data == None then CannotJoin else Data(data.value);
  }

  /** parity.go:86-103: the shards, and whether one is missing; `failed` when an error cannot be recovered from. */
  method Gather(chunks: seq<Numbered<Shard>>)
    returns (failed: bool, mustReconstruct: bool, holes: seq<Option<Bytes>>, full: seq<Bytes>)
    ensures failed <==> Collect(chunks) == None
    ensures !failed ==> Collect(chunks) == Some(holes) && (mustReconstruct <==> Values(holes) == None)
    ensures !failed && !mustReconstruct ==> Values(holes) == Some(full)
  {
    failed, mustReconstruct, holes, full := false, false, [], [];
    var i := 0;
    while i < |chunks|
      invariant 0 <= i <= |chunks| && !failed && Collect(chunks[..i]) == Some(holes)
      invariant mustReconstruct <==> Values(holes) == None
      invariant !mustReconstruct ==> Values(holes) == Some(full)
    {
      var c := chunks[i].val;
      assert chunks[..i + 1] == chunks[..i] + [chunks[i]];
      CollectOneMore(chunks[..i], chunks[i]);
      if Recoverable(c.err) {
        mustReconstruct := true;
        ValuesOneMore(holes, None);
        holes := holes + [None];
      } else if c.err != NoErr {
        CollectFails(chunks, i);
        failed := true;
        return;
      } else {
        ValuesOneMore(holes, Some(c.data));
        holes := holes + [Some(c.data)];
        full := full + [c.data];
      }
      i := i + 1;
    }
    assert chunks[..|chunks|] == chunks;
  }

  lemma CollectOneMore(chunks: seq<Numbered<Shard>>, c: Numbered<Shard>)
    requires Collect(chunks).Some?
    ensures c.val.err == NoErr ==> Collect(chunks + [c]) == Some(Collect(chunks).value + [Some(c.val.data)])
    ensures Recoverable(c.val.err) ==> Collect(chunks + [c]) == Some(Collect(chunks).value + [None])
  {
    assert (chunks + [c])[..|chunks|] == chunks;
  }

  lemma {:induction false} CollectFails(chunks: seq<Numbered<Shard>>, i: nat)
    requires i < |chunks| && chunks[i].val.err != NoErr && !Recoverable(chunks[i].val.err)
    ensures Collect(chunks) == None
  {
    if i < |chunks| - 1 {
      CollectFails(chunks[..|chunks| - 1], i);
    }
  }

  lemma ValuesOneMore(holes: seq<Option<Bytes>>, h: Option<Bytes>)
    ensures Values(holes + [h]) ==
            if Values(holes) == None || h == None then None else Some(Values(holes).value + [h.value])
  {
    assert (holes + [h])[..|holes|] == holes;
  }

  // ---------------------------------------------------------------- a strict code

  /** A code that verifies nothing but encodings, and reconstructs without changing a shard it was given. */
  ghost predicate Strict(code: Code) {
    && (forall full, size, data ::
          code.verify(full) == Some(true) && code.join(full, size) == Some(data) && data != [] ==>
            Encoding(code, full, data))
    && (forall holes, full :: code.reconstruct(holes) == Some(full) ==> Keeps(holes, full))
  }

  // The encoding of something that begins with `data`; what follows is cut off by the size asked for.
  ghost predicate Encoding(code: Code, full: seq<Bytes>, data: Bytes) {
    exists whole :: data <= whole && code.encode(whole) == Some(full)
  }

  ghost predicate Keeps(holes: seq<Option<Bytes>>, full: seq<Bytes>) {
    |full| == |holes| && forall i :: 0 <= i < |holes| && holes[i].Some? ==> full[i] == holes[i].value
  }

  // Every chunk without an error is the shard of `whole` in its place.
  ghost predicate Agrees(code: Code, chunks: seq<Numbered<Shard>>, whole: Bytes) {
    && code.encode(whole).Some? && |code.encode(whole).value| == |chunks|
    && forall i :: 0 <= i < |chunks| && chunks[i].val.err == NoErr ==>
         code.encode(whole).value[i] == chunks[i].val.data
  }

  /** With such a code, what comes out agrees with every undamaged shard that went in. */
  lemma JoinedAgrees(code: Code, group: Option<seq<Numbered<Shard>>>, size: nat, data: Bytes)
    requires Strict(code) && JoinOf(code, group, size) == Data(data) && data != []
    ensures group.Some? && exists whole :: data <= whole && Agrees(code, group.value, whole)
  {
    JoinVouches(code, group, size);
    hide JoinOf, Usable;
    var chunks := group.value;
    var full :| Settled(code, chunks, full) && code.verify(full) == Some(true) && code.join(full, size) == Some(data);
    SettledKeeps(code, chunks, full);
    assert Encoding(code, full, data);
    var whole :| data <= whole && code.encode(whole) == Some(full);
    assert Agrees(code, chunks, whole);
  }

  lemma SettledKeeps(code: Code, chunks: seq<Numbered<Shard>>, full: seq<Bytes>)
    requires Strict(code) && Settled(code, chunks, full)
    ensures |full| == |chunks|
    ensures forall i :: 0 <= i < |chunks| && chunks[i].val.err == NoErr ==> full[i] == chunks[i].val.data
  {
    if !Undamaged(chunks) {
      assert Keeps(Held(chunks), full);
    }
  }

  // ---------------------------------------------------------------- round trip

  lemma {:induction false} CollectErases(chunks: seq<Numbered<Shard>>, full: seq<Bytes>)
    requires |chunks| == |full|
    requires forall i :: 0 <= i < |full| ==>
        Recoverable(chunks[i].val.err) || (chunks[i].val.err == NoErr && chunks[i].val.data == full[i])
    ensures Collect(chunks).Some? && Erased(Collect(chunks).value, full)
    ensures forall i :: 0 <= i < |full| ==> (Collect(chunks).value[i] == None <==> chunks[i].val.err != NoErr)
  {
    if chunks != [] {
      CollectErases(chunks[..|chunks| - 1], full[..|full| - 1]);
    }
  }

  lemma {:induction false} ValuesOfErased(holes: seq<Option<Bytes>>, full: seq<Bytes>)
    requires Erased(holes, full)
    ensures Values(holes) == None || Values(holes) == Some(full)
  {
    if holes != [] {
      ValuesOfErased(holes[..|holes| - 1], full[..|full| - 1]);
      assert full == full[..|full| - 1] + [full[|full| - 1]];
    }
  }

  // The positions whose shard is marked missing or failing its integrity check.
  ghost function Damaged(chunks: seq<Numbered<Shard>>): set<nat> {
    set i: nat | i < |chunks| && chunks[i].val.err != NoErr
  }

  /** Joining the shards of data in order, at most nparity of them damaged, gives the data back. */
  lemma JoinInvertsEncode(code: Code, data: Bytes, chunks: seq<Numbered<Shard>>)
    requires Laws(code) && data != [] && code.encode(data).Some? && |chunks| == |code.encode(data).value|
    requires forall i :: 0 <= i < |chunks| ==>
        || Recoverable(chunks[i].val.err)
        || (chunks[i].val.err == NoErr && chunks[i].val.data == code.encode(data).value[i])
    requires |Damaged(chunks)| <= code.nparity
    ensures JoinOf(code, Some(chunks), |data|) == Data(data)
  {
    assert Encodes(code, data);
    var full := code.encode(data).value;
    CollectErases(chunks, full);
    var holes := Collect(chunks).value;
    ValuesOfErased(holes, full);
    assert Missing(holes) == Damaged(chunks);
  }

  /**
   End to end: the shards of non-empty data, numbered by Process, in any order of arrival and with at most
   nparity of them damaged, are grouped into one aggregate, and joining it returns the data.
   */
  lemma {:induction false} ParityRoundTrip(code: Code, num: nat, data: Bytes, before: seq<Numbered<Shard>>,
                                           last: Numbered<Shard>)
    requires Laws(code) && data != []
    requires Proper(before + [last]) && |before| + 1 == code.Shards()
    requires forall c :: c in before + [last] ==> IsShard(code, num, data, c)
    requires |DamagedNums(before + [last])| <= code.nparity
    ensures var out := Step(After(code.Shards(), before), code.Shards(), last).1;
      && out.Grouped? && out.head == num && out.chunks[0].val.size == |data|
      && JoinOf(code, Some(out.chunks), out.chunks[0].val.size) == Data(data)
  {
    GroupOfShards(code, num, data, before, last);
    var chunks := Step(After(code.Shards(), before), code.Shards(), last).1.chunks;
    DamagedFits(chunks, before + [last], num * code.Shards());
    hide Laws, Step, After, IsShard;
    assert IsShard(code, num, data, chunks[0]);
    forall i | 0 <= i < |chunks|
      ensures |code.encode(data).value| == |chunks| && chunks[i].val.size == |data|
      ensures || Recoverable(chunks[i].val.err)
              || (chunks[i].val.err == NoErr && chunks[i].val.data == code.encode(data).value[i])
    {
      ShardAt(code, num, data, chunks[i], i);
    }
    assert code.encode(data).Some? by {
      ShardAt(code, num, data, chunks[0], 0);
    }
    JoinInvertsEncode(code, data, chunks);
  }

  lemma ShardAt(code: Code, num: nat, data: Bytes, c: Numbered<Shard>, i: nat)
    requires IsShard(code, num, data, c) && c.num == num * code.Shards() + i && i < code.Shards()
    ensures code.encode(data).Some? && |code.encode(data).value| == code.Shards() && c.val.size == |data|
    ensures Recoverable(c.val.err) || (c.val.err == NoErr && c.val.data == code.encode(data).value[i])
  {
  }

  // The group that the last shard completes.
  lemma GroupOfShards(code: Code, num: nat, data: Bytes, before: seq<Numbered<Shard>>, last: Numbered<Shard>)
    requires Laws(code)
    requires Proper(before + [last]) && |before| + 1 == code.Shards()
    requires forall c :: c in before + [last] ==> IsShard(code, num, data, c)
    ensures var n := code.Shards();
            var out := Step(After(n, before), n, last).1;
      && out.Grouped? && out.head == num && |out.chunks| == n
      && forall i :: 0 <= i < n ==>
           && out.chunks[i] in before + [last] && out.chunks[i].num == num * n + i
           && IsShard(code, num, data, out.chunks[i])
  {
    var n, all := code.Shards(), before + [last];
    hide Laws, IsShard, Of, After, SortByNum;
    forall c | c in all
      ensures HeadOf(c.num, n) == num
    {
      ShardHead(code, num, data, c);
    }
    OfAll(n, all, num);
    assert last in all;
    ArrivalOutcome(n, before, last);
    var chunks := Step(After(n, before), n, last).1.chunks;
    forall i | 0 <= i < n
      ensures chunks[i] in all && chunks[i].num == num * n + i
    {
      assert chunks[i] in multiset(all);
    }
  }

  lemma ShardHead(code: Code, num: nat, data: Bytes, c: Numbered<Shard>)
    requires IsShard(code, num, data, c) && code.Shards() > 0
    ensures HeadOf(c.num, code.Shards()) == num
  {
    HeadUnique(c.num, num, code.Shards());
  }

  // A chunk that carries shard c.num - num*n of the data, or an error that the join recovers from.
  ghost predicate IsShard(code: Code, num: nat, data: Bytes, c: Numbered<Shard>) {
    && code.encode(data).Some? && |code.encode(data).value| == code.Shards()
    && num * code.Shards() <= c.num < num * code.Shards() + code.Shards()
    && c.val.size == |data|
    && (|| Recoverable(c.val.err)
        || (c.val.err == NoErr && c.val.data == code.encode(data).value[c.num - num * code.Shards()]))
  }

  ghost function DamagedNums(chunks: seq<Numbered<Shard>>): set<int> {
    set c | c in chunks && c.val.err != NoErr :: c.num
  }

  lemma {:induction false} OfAll(n: nat, all: seq<Numbered<Shard>>, head: int)
    requires n > 0 && forall c :: c in all ==> HeadOf(c.num, n) == head
    ensures Of(n, all, head) == all
  {
    hide HeadOf;
    if all != [] {
      OfAll(n, all[..|all| - 1], head);
      assert all[|all| - 1] in all;
    }
  }

  lemma DamagedFits(chunks: seq<Numbered<Shard>>, all: seq<Numbered<Shard>>, lo: int)
    requires forall i :: 0 <= i < |chunks| ==> chunks[i] in all && chunks[i].num == lo + i
    ensures |Damaged(chunks)| <= |DamagedNums(all)|
  {
    ShiftFits(Damaged(chunks), DamagedNums(all), lo);
  }

  lemma {:induction false} ShiftFits(a: set<nat>, b: set<int>, lo: int)
    requires forall i :: i in a ==> lo + i in b
    ensures |a| <= |b|
    decreases |a|
  {
    if a != {} {
      var i :| i in a;
      ShiftFits(a - {i}, b - {lo + i}, lo);
    }
  }
}
