/** A concrete erasure code, two data shards and their exclusive or: what Parity assumes can be met. */
module XorCode {
  import opened Wrappers
  import opened Parity

  function Xor(a: Bytes, b: Bytes): (r: Bytes)
    requires |a| == |b|
    ensures |r| == |a| && forall i :: 0 <= i < |r| ==> r[i] == a[i] ^ b[i]
  {
    seq(|a|, i requires 0 <= i < |a| && i < |b| => a[i] ^ b[i])
  }

  lemma XorCancels(a: Bytes, b: Bytes)
    requires |a| == |b|
    ensures Xor(Xor(a, b), b) == a && Xor(a, Xor(a, b)) == b
  {
  }

  // The second half is padded to the length of the first.
  function Encode(data: Bytes): Option<seq<Bytes>> {
    if data == [] then None
    else
      var half := (|data| + 1) / 2;
      var a, b := data[..half], data[half..] + if |data| % 2 == 1 then [0] else [];
      Some([a, b, Xor(a, b)])
  }

  function Reconstruct(holes: seq<Option<Bytes>>): Option<seq<Bytes>> {
    if |holes| != 3 then None
    else
      match (holes[0], holes[1], holes[2])
      case (Some(a), Some(b), Some(p)) => Some([a, b, p])
      case (None, Some(b), Some(p)) => if |b| == |p| then Some([Xor(p, b), b, p]) else None
      case (Some(a), None, Some(p)) => if |a| == |p| then Some([a, Xor(a, p), p]) else None
      case (Some(a), Some(b), None) => if |a| == |b| then Some([a, b, Xor(a, b)]) else None
      case _ => None
  }

  function Verify(shards: seq<Bytes>): Option<bool> {
    if |shards| != 3 || |shards[0]| != |shards[1]| then None else Some(shards[2] == Xor(shards[0], shards[1]))
  }

  function JoinShards(shards: seq<Bytes>, size: nat): Option<Bytes> {
    if |shards| < 2 || size > |shards[0] + shards[1]| then None else Some((shards[0] + shards[1])[..size])
  }

  const CODE: Code := Code(2, 1, Encode, Reconstruct, Verify, JoinShards)

  lemma {:induction false} PairInside<T>(a: T, b: T, s: set<T>)
    requires a != b && a in s && b in s
    ensures |s| >= 2
  {
    assert |s - {a}| == |s| - 1 && b in s - {a};
  }

  lemma TwoMissing(holes: seq<Option<Bytes>>, i: nat, j: nat)
    requires i < j < |holes| && holes[i] == None && holes[j] == None
    ensures |Missing(holes)| >= 2
  {
    PairInside(i, j, Missing(holes));
  }

  lemma ReconstructsErased(data: Bytes, holes: seq<Option<Bytes>>)
    requires data != [] && Erased(holes, Encode(data).value) && |Missing(holes)| <= 1
    ensures Reconstruct(holes) == Encode(data)
  {
    var full := Encode(data).value;
    XorCancels(full[0], full[1]);
    forall i, j | 0 <= i < j < 3 && holes[i] == None && holes[j] == None
      ensures |Missing(holes)| >= 2
    {
      TwoMissing(holes, i, j);
    }
  }

  lemma EncodesAll(data: Bytes)
    requires data != []
    ensures Encodes(CODE, data)
  {
    var full := Encode(data).value;
    assert (full[0] + full[1])[..|data|] == data;
  }

  // What the laws ask of the functions, by name.
  lemma CodeIs(data: Bytes, holes: seq<Option<Bytes>>)
    ensures CODE.encode(data) == Encode(data) && CODE.reconstruct(holes) == Reconstruct(holes)
    ensures CODE.ndata == 2 && CODE.nparity == 1
  {
  }

  lemma ReconstructsAll(data: Bytes, holes: seq<Option<Bytes>>)
    requires data != [] && Encodes(CODE, data) && Erased(holes, CODE.encode(data).value)
    requires |Missing(holes)| <= CODE.nparity
    ensures CODE.reconstruct(holes) == CODE.encode(data)
  {
    hide Encode, Reconstruct, Erased, Missing;
    CodeIs(data, holes);
    ReconstructsErased(data, holes);
  }

  /** The exclusive or is a code in the sense of Parity. */
  lemma XorIsACode()
    ensures Laws(CODE)
  {
    hide Encode, Reconstruct, Verify, JoinShards, Encodes, Erased, Missing;
    forall data: Bytes | data != []
      ensures Encodes(CODE, data)
    {
      EncodesAll(data);
    }
    forall data: Bytes, holes | data != [] && Encodes(CODE, data) && CODE.encode(data).Some?
                                && Erased(holes, CODE.encode(data).value) && |Missing(holes)| <= CODE.nparity
      ensures CODE.reconstruct(holes) == CODE.encode(data)
    {
      ReconstructsAll(data, holes);
    }
    EncodedIsSome();
  }

  lemma EncodedIsSome()
    ensures forall data :: Encodes(CODE, data) ==> CODE.encode(data).Some?
    ensures CODE.ndata > 0
  {
  }

  lemma VerifiedIsEncoded(full: seq<Bytes>, size: nat, data: Bytes)
    requires Verify(full) == Some(true) && JoinShards(full, size) == Some(data) && data != []
    ensures data <= full[0] + full[1] && Encode(full[0] + full[1]) == Some(full)
  {
    var whole := full[0] + full[1];
    assert (|whole| + 1) / 2 == |full[0]|;
    assert whole[..|full[0]|] == full[0] && whole[|full[0]|..] + [] == full[1];
    assert [full[0], full[1], full[2]] == full;
  }

  lemma ReconstructKeeps(holes: seq<Option<Bytes>>, full: seq<Bytes>)
    requires Reconstruct(holes) == Some(full)
    ensures Keeps(holes, full)
  {
  }

  /** And a strict one: what a join returns agrees with every undamaged shard. */
  lemma XorIsStrict()
    ensures Strict(CODE)
  {
    hide Encode, Reconstruct, Verify, JoinShards, Keeps, Encoding;
    forall full, size, data |
      CODE.verify(full) == Some(true) && CODE.join(full, size) == Some(data) && data != []
      ensures Encoding(CODE, full, data)
    {
      XorEncoding(full, size, data);
    }
    forall holes, full | CODE.reconstruct(holes) == Some(full)
      ensures Keeps(holes, full)
    {
      CodeIs([], holes);
      ReconstructKeeps(holes, full);
    }
  }

  lemma XorEncoding(full: seq<Bytes>, size: nat, data: Bytes)
    requires CODE.verify(full) == Some(true) && CODE.join(full, size) == Some(data) && data != []
    ensures Encoding(CODE, full, data)
  {
    assert CODE.verify(full) == Verify(full) && CODE.join(full, size) == JoinShards(full, size);
    hide Encode, Reconstruct;
    VerifiedIsEncoded(full, size, data);
    CodeIs(full[0] + full[1], []);
  }
}
