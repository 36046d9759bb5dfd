/** The index as text: index/write.go prints a line, index/scanner.go reads it back. */
module IndexText {
  import opened Wrappers
  import opened Chunks
  import opened Digits
  import opened Sorting

  function Hex(bytes: seq<byte>): string {
    if bytes == [] then ""
    else [HEX_DIGITS[bytes[0] as int / 16], HEX_DIGITS[bytes[0] as int % 16]] + Hex(bytes[1..])
  }

  /** write.go:10-12: "%x %d\n". */
  function Write(line: Line): string {
    Hex(line.hash.bytes) + " " + Signed(line.size) + "\n"
  }

  function Text(lines: seq<Line>): string {
    if lines == [] then "" else Write(lines[0]) + Text(lines[1..])
  }

  // ---------------------------------------------------------------- reading

  // Pairs of hexadecimal digits, as many as there are; None on a lone digit.
  function ReadHex(text: string): Option<(seq<byte>, string)> {
    if text == "" || HexVal(text[0]) == None then Some(([], text))
    else if |text| < 2 || HexVal(text[1]) == None then None
    else
      var b := (HexVal(text[0]).value * 16 + HexVal(text[1]).value) as byte;
      match ReadHex(text[2..])
      case None => None
      case Some((bytes, rest)) => Some(([b] + bytes, rest))
  }

  /** One formatted read of "%x %d\n". */
  datatype Scan = Eof | Bad | Parsed(bytes: seq<byte>, size: int, rest: string)

  function ScanLine(text: string): Scan {
    if text == "" then Eof
    else
      match ReadHex(text)
      case None => Bad
      case Some((bytes, rest)) =>
        if bytes == [] || rest == "" || rest[0] != ' ' then Bad
        else
          match ReadInt(rest[1..])
          case None => Bad
          case Some((size, tail)) =>
            if tail == "" || tail[0] != '\n' then Bad else Parsed(bytes, size, tail[1..])
  }

  /** A chunk read from the index: its position, checksum and target size. */
  type Chunk = Numbered<Line>

  datatype Step = End | Failed | Got(chunk: Chunk, rest: string)

  // scanner.go:39-59.
  function Read(num: int, text: string): Step {
    match ScanLine(text)
    case Eof => End
    case Bad => Failed
    case Parsed(bytes, size, rest) =>
      if |bytes| != HASH_SIZE then Failed else Got(Numbered(num, Line(Hash(bytes), size)), rest)
  }

  class Scanner {
    var text: string
    var num: int
    var chunk: Option<Chunk>
    var err: bool

    constructor (num: int, text: string)
      ensures this.num == num && this.text == text && chunk == None && !err
    {
      this.num, this.text, chunk, err := num, text, None, false;
    }

    /** scanner.go:27-37: false at the end of the text, and on an error, which it remembers. */
    method Next() returns (more: bool)
      modifies this
      ensures match Read(old(num), old(text))
        case End => !more && !err && chunk == old(chunk) && num == old(num)
        case Failed => !more && err && chunk == old(chunk) && num == old(num)
        case Got(c, rest) => more && err == old(err) && chunk == Some(c) && num == old(num) + 1 && text == rest
    {
      match ScanLine(text)
      case Eof =>
        err := false;
        more := false;
      case Bad =>
        err := true;
        more := false;
      case Parsed(bytes, size, rest) =>
        text := rest;
        if |bytes| != HASH_SIZE {
          err := true;
          return false;
        }
        chunk := Some(Numbered(num, Line(Hash(bytes), size)));
        num := num + 1;
        more := true;
    }
  }

  lemma {:induction false} ReadShortens(text: string)
    ensures match ReadHex(text)
      case None => true
      case Some((bytes, rest)) => |rest| == |text| - 2 * |bytes|
  {
    if |text| >= 2 {
      ReadShortens(text[2..]);
    }
  }

  lemma ScanShortens(text: string)
    ensures ScanLine(text).Parsed? ==> |ScanLine(text).rest| < |text|
  {
    ReadShortens(text);
    if ScanLine(text).Parsed? {
      var rest := ReadHex(text).value.1;
      var digits := if rest[1] == '-' then rest[2..] else rest[1..];
      ReadNatShortens(digits, 0);
    }
  }

  /** The chunks of a text, numbered from `num`, up to its end or to a line that cannot be read. */
  ghost function ScanAll(num: int, text: string): (seq<Chunk>, bool)
    decreases |text|
  {
    match Read(num, text)
    case End => ([], true)
    case Failed => ([], false)
    case Got(c, rest) =>
      ScanShortens(text);
      var (more, ok) := ScanAll(num + 1, rest);
      ([c] + more, ok)
  }

  /** indexUnprocess as ChunkIterFunc drives it (procfunc.go:60-73): all chunks, then an error if there was one. */
  method Unprocess(num: int, text: string) returns (chunks: seq<Chunk>, ok: bool)
    ensures (chunks, ok) == ScanAll(num, text)
  {
    var s := new Scanner(num, text);
    chunks := [];
    var more := true;
    PrefixedStep([], num, text);
    while more
      invariant !s.err || !more
      invariant more ==> ScanAll(num, text) == Prefixed(chunks, ScanAll(s.num, s.text))
      invariant !more ==> ScanAll(num, text) == (chunks, !s.err)
      decreases more, |s.text|
    {
      ghost var t, k := s.text, s.num;
      more := s.Next();
      ScanShortens(t);
      PrefixedStep(chunks, k, t);
      if more {
        chunks := chunks + [s.chunk.value];
      }
    }
    ok := !s.err;
  }

  ghost function Prefixed(chunks: seq<Chunk>, more: (seq<Chunk>, bool)): (seq<Chunk>, bool) {
    (chunks + more.0, more.1)
  }

  lemma PrefixedStep(chunks: seq<Chunk>, num: int, text: string)
    ensures chunks == [] ==> Prefixed(chunks, ScanAll(num, text)) == ScanAll(num, text)
    ensures match Read(num, text)
      case End => Prefixed(chunks, ScanAll(num, text)) == (chunks, true)
      case Failed => Prefixed(chunks, ScanAll(num, text)) == (chunks, false)
      case Got(c, rest) => Prefixed(chunks, ScanAll(num, text)) == Prefixed(chunks + [c], ScanAll(num + 1, rest))
  {
    assert [] + ScanAll(num, text).0 == ScanAll(num, text).0;
    match Read(num, text)
    case End => assert chunks + [] == chunks;
    case Failed => assert chunks + [] == chunks;
    case Got(c, rest) =>
      var more := ScanAll(num + 1, rest).0;
      assert chunks + ([c] + more) == (chunks + [c]) + more;
  }

  // ---------------------------------------------------------------- round trip

  lemma PairInverts(b: byte, tail: string)
    ensures var text := [HEX_DIGITS[b as int / 16], HEX_DIGITS[b as int % 16]] + tail;
      ReadHex(text) == match ReadHex(tail)
                       case None => None
                       case Some((bytes, rest)) => Some(([b] + bytes, rest))
  {
    hide HexVal;
    var hi, lo := b as int / 16, b as int % 16;
    DigitsInvert(hi);
    DigitsInvert(lo);
    var text := [HEX_DIGITS[hi], HEX_DIGITS[lo]] + tail;
    assert text[2..] == tail;
  }

  lemma HexEnds(rest: string)
    requires rest != "" && HexVal(rest[0]) == None
    ensures ReadHex(rest) == Some(([], rest))
  {
  }

  lemma {:induction false} HexInverts(bytes: seq<byte>, rest: string)
    requires rest != "" && HexVal(rest[0]) == None
    ensures ReadHex(Hex(bytes) + rest) == Some((bytes, rest))
  {
    hide HexVal, ReadHex;
    if bytes == [] {
      assert Hex(bytes) + rest == rest;
      HexEnds(rest);
    } else {
      var pair := [HEX_DIGITS[bytes[0] as int / 16], HEX_DIGITS[bytes[0] as int % 16]];
      var tail := Hex(bytes[1..]) + rest;
      assert Hex(bytes) + rest == pair + tail;
      hide Hex;
      HexInverts(bytes[1..], rest);
      PairInverts(bytes[0], tail);
      assert bytes == [bytes[0]] + bytes[1..];
    }
  }

  lemma LineInverts(line: Line, rest: string)
    requires line.hash.bytes != []
    ensures ScanLine(Write(line) + rest) == Parsed(line.hash.bytes, line.size, rest)
  {
    var tail := "\n" + rest;
    var mid := " " + (Signed(line.size) + tail);
    assert Write(line) + rest == Hex(line.hash.bytes) + mid;
    HexInverts(line.hash.bytes, mid);
    assert mid[1..] == Signed(line.size) + tail;
    SignedInverts(line.size, tail);
    assert tail[1..] == rest;
  }

  ghost predicate WellHashed(lines: seq<Line>) {
    forall i :: 0 <= i < |lines| ==> |lines[i].hash.bytes| == HASH_SIZE
  }

  // The chunks a scan of these lines yields.
  function NumberFrom(num: int, lines: seq<Line>): seq<Chunk>
    decreases lines
  {
    if lines == [] then [] else [Numbered(num, lines[0])] + NumberFrom(num + 1, lines[1..])
  }

  /** Scanning what was written gives every line back, numbered in order. */
  lemma {:induction false} ScanInvertsWrite(num: int, lines: seq<Line>)
    requires WellHashed(lines)
    ensures ScanAll(num, Text(lines)) == (NumberFrom(num, lines), true)
    decreases lines
  {
    if lines != [] {
      LineInverts(lines[0], Text(lines[1..]));
      ScanInvertsWrite(num + 1, lines[1..]);
    }
  }
}
