/** What the index scanner accepts, said without the scanner: texts made of well-formed lines, and nothing else. */
module IndexLines {
  import opened Wrappers
  import opened Chunks
  import opened Digits
  import opened Sorting
  import opened IndexText

  // ---------------------------------------------------------------- lines

  predicate IsHex(c: char) {
    '0' <= c <= '9' || 'a' <= c <= 'f' || 'A' <= c <= 'F'
  }

  predicate AllHex(text: string) {
    forall i :: 0 <= i < |text| ==> IsHex(text[i])
  }

  predicate IsDecimal(text: string) {
    text != "" && if text[0] == '-' then text[1..] != "" && AllDigits(text[1..]) else AllDigits(text)
  }

  /** A checksum in hexadecimal, a space, a decimal number, a newline. */
  predicate IndexLine(text: string) {
    && |text| > 2 * HASH_SIZE + 2
    && AllHex(text[..2 * HASH_SIZE]) && text[2 * HASH_SIZE] == ' '
    && IsDecimal(text[2 * HASH_SIZE + 1..|text| - 1]) && text[|text| - 1] == '\n'
  }

  function Concat(lines: seq<string>): string {
    if lines == [] then "" else lines[0] + Concat(lines[1..])
  }

  // ---------------------------------------------------------------- what a line means

  function BytesOf(hex: string): (bytes: seq<byte>)
    requires AllHex(hex) && |hex| % 2 == 0
    ensures |bytes| == |hex| / 2
  {
    seq(|hex| / 2, i requires 0 <= i < |hex| / 2 && AllHex(hex) =>
      (16 * HexVal(hex[2 * i]).GetOr(0) + HexVal(hex[2 * i + 1]).GetOr(0)) as byte)
  }

  function ValueOf(text: string): int
    requires IsDecimal(text)
  {
    var n: int := Num(if text[0] == '-' then text[1..] else text);
    if text[0] == '-' then -n else n
  }

  function Meaning(text: string): Line
    requires IndexLine(text)
  {
    Line(Hash(BytesOf(text[..2 * HASH_SIZE])), ValueOf(text[2 * HASH_SIZE + 1..|text| - 1]))
  }

  // ---------------------------------------------------------------- hexadecimal

  lemma HexIsHex(c: char)
    ensures HexVal(c).Some? <==> IsHex(c)
  {
  }

  lemma BytesOneMore(hex: string)
    requires AllHex(hex) && |hex| % 2 == 0 && hex != ""
    ensures HexVal(hex[0]).Some? && HexVal(hex[1]).Some?
    ensures BytesOf(hex) == [(HexVal(hex[0]).value * 16 + HexVal(hex[1]).value) as byte] + BytesOf(hex[2..])
  {
    HexIsHex(hex[0]);
    HexIsHex(hex[1]);
    hide HexVal;
    var rest := hex[2..];
    forall i | 0 <= i < |hex| / 2 - 1
      ensures rest[2 * i] == hex[2 * (i + 1)] && rest[2 * i + 1] == hex[2 * (i + 1) + 1]
    {
    }
  }

  lemma {:induction false} HexReads(hex: string, rest: string)
    requires AllHex(hex) && |hex| % 2 == 0 && (rest == "" || !IsHex(rest[0]))
    ensures ReadHex(hex + rest) == Some((BytesOf(hex), rest))
    decreases |hex|
  {
    if hex == "" {
      assert hex + rest == rest;
      if rest != "" {
        HexIsHex(rest[0]);
      }
    } else {
      assert (hex + rest)[2..] == hex[2..] + rest;
      HexReads(hex[2..], rest);
      BytesOneMore(hex);
      hide HexVal, BytesOf;
    }
  }

  lemma {:induction false} ReadIsHex(text: string)
    requires ReadHex(text).Some?
    ensures var (bytes, rest) := ReadHex(text).value;
      && 2 * |bytes| <= |text| && rest == text[2 * |bytes|..] && AllHex(text[..2 * |bytes|])
    decreases |text|
  {
    if text != "" && HexVal(text[0]).Some? {
      HexIsHex(text[0]);
      HexIsHex(text[1]);
      hide HexVal;
      ReadIsHex(text[2..]);
      var n := 2 * |ReadHex(text[2..]).value.0|;
      assert text[2..][n..] == text[2 + n..];
      assert text[..2 + n] == [text[0], text[1]] + text[2..][..n];
    }
  }

  // ---------------------------------------------------------------- decimals

  lemma DecimalReads(text: string, rest: string)
    requires IsDecimal(text) && (rest == "" || !IsDigit(rest[0]))
    ensures ReadInt(text + rest) == Some((ValueOf(text), rest))
  {
    var digits := if text[0] == '-' then text[1..] else text;
    DigitsRead(digits, rest);
    NatEnds(rest, Num(digits));
    hide ReadNat, Num;
    assert text[0] == '-' ==> (text + rest)[1..] == digits + rest;
    assert (digits + rest)[0] == digits[0];
  }

  lemma IntRead(text: string)
    requires ReadInt(text).Some?
    ensures var rest := ReadInt(text).value.1;
      |rest| < |text| && rest == text[|text| - |rest|..] && IsDecimal(text[..|text| - |rest|])
  {
    var neg := text[0] == '-';
    var digits := if neg then text[1..] else text;
    NatRead(digits, 0);
    var rest := ReadInt(text).value.1;
    var k := |digits| - |rest|;
    assert neg ==> text[..k + 1][1..] == digits[..k];
  }

  // ---------------------------------------------------------------- one line

  /** A well-formed line is read as what it means, whatever follows. */
  lemma LineReads(num: int, line: string, rest: string)
    requires IndexLine(line)
    ensures Read(num, line + rest) == Got(Numbered(num, Meaning(line)), rest)
  {
    var k := 2 * HASH_SIZE;
    var hex, size := line[..k], line[k + 1..|line| - 1];
    var tail := "\n" + rest;
    var mid := " " + (size + tail);
    assert line + rest == hex + mid;
    HexReads(hex, mid);
    assert mid[1..] == size + tail;
    DecimalReads(size, tail);
    assert tail[1..] == rest;
    hide ReadHex, ReadInt, BytesOf, ValueOf, AllHex, IsDecimal;
  }

  /** And what is read as a line is a well-formed one. */
  lemma ReadIsLine(num: int, text: string)
    requires Read(num, text).Got?
    ensures var rest := Read(num, text).rest;
      |rest| < |text| && rest == text[|text| - |rest|..] && IndexLine(text[..|text| - |rest|])
  {
    var (bytes, mid) := ReadHex(text).value;
    ReadIsHex(text);
    var tail := ReadInt(mid[1..]).value.1;
    IntRead(mid[1..]);
    hide ReadHex, ReadInt;
    var k, rest := 2 * HASH_SIZE, Read(num, text).rest;
    assert mid == text[k..] && mid[1..] == text[k + 1..];
    var line := text[..|text| - |rest|];
    assert line[..k] == text[..k] && line[k] == ' ';
    var n := |mid[1..]| - |tail|;
    assert mid[1..][..n] == text[k + 1..k + 1 + n] == line[k + 1..|line| - 1];
    assert tail == text[k + 1 + n..];
  }

  // ---------------------------------------------------------------- the whole text

  // The chunks these lines stand for.
  function ChunksOf(num: int, lines: seq<string>): seq<Chunk>
    requires forall l :: l in lines ==> IndexLine(l)
    decreases lines
  {
    if lines == [] then [] else [Numbered(num, Meaning(lines[0]))] + ChunksOf(num + 1, lines[1..])
  }

  lemma {:induction false} LinesScan(num: int, lines: seq<string>)
    requires forall l :: l in lines ==> IndexLine(l)
    ensures ScanAll(num, Concat(lines)) == (ChunksOf(num, lines), true)
    decreases lines
  {
    if lines != [] {
      LineReads(num, lines[0], Concat(lines[1..]));
      LinesScan(num + 1, lines[1..]);
    }
  }

  lemma {:induction false} ScannedIsLines(num: int, text: string) returns (lines: seq<string>)
    requires ScanAll(num, text).1
    ensures text == Concat(lines) && forall l :: l in lines ==> IndexLine(l)
    decreases |text|
  {
    hide IndexLine;
    match Read(num, text)
    case End => lines := [];
    case Got(c, rest) =>
      ReadIsLine(num, text);
      var line := text[..|text| - |rest|];
      var more := ScannedIsLines(num + 1, rest);
      lines := [line] + more;
      assert text == line + rest;
  }

  /**
   The scanner comes to the end of a text without an error if and only if the text is made of well-formed lines, and
   then its chunks are what the lines mean.
   */
  lemma ScansIff(num: int, text: string)
    ensures ScanAll(num, text).1 <==>
            exists lines :: text == Concat(lines) && forall l :: l in lines ==> IndexLine(l)
    ensures forall lines :: text == Concat(lines) && (forall l :: l in lines ==> IndexLine(l)) ==>
        ScanAll(num, text).0 == ChunksOf(num, lines)
  {
    hide IndexLine, Concat, ChunksOf;
    if ScanAll(num, text).1 {
      var lines := ScannedIsLines(num, text);
    }
    forall lines | text == Concat(lines) && forall l :: l in lines ==> IndexLine(l)
      ensures ScanAll(num, text) == (ChunksOf(num, lines), true)
    {
      LinesScan(num, lines);
    }
  }

  // ---------------------------------------------------------------- what is written

  predicate IsLowerHex(c: char) {
    '0' <= c <= '9' || 'a' <= c <= 'f'
  }

  // Digits, without a zero in front.
  predicate IsCanonical(text: string) {
    text != "" && AllDigits(text) && (text[0] == '0' ==> |text| == 1)
  }

  lemma LowerDigits(n: nat)
    requires n < 16
    ensures IsLowerHex(HEX_DIGITS[n]) && (n < 10 ==> '0' <= HEX_DIGITS[n] <= '9')
    ensures n < 10 ==> (HEX_DIGITS[n] == '0' <==> n == 0)
  {
  }

  lemma {:induction false} HexIsLower(bytes: seq<byte>)
    ensures |Hex(bytes)| == 2 * |bytes| && forall i :: 0 <= i < |Hex(bytes)| ==> IsLowerHex(Hex(bytes)[i])
  {
    if bytes != [] {
      LowerDigits(bytes[0] as int / 16);
      LowerDigits(bytes[0] as int % 16);
      hide IsLowerHex;
      HexIsLower(bytes[1..]);
    }
  }

  lemma {:induction false} DecimalIsCanonical(n: nat)
    ensures IsCanonical(Decimal(n)) && (Decimal(n)[0] == '0' ==> n == 0)
    decreases n
  {
    LowerDigits(n % 10);
    if n >= 10 {
      DecimalIsCanonical(n / 10);
    }
  }

  /** The number part of a written line: no zero in front, a minus before a negative number only. */
  predicate IsPlainNumber(text: string) {
    text != "" && if text[0] == '-' then IsCanonical(text[1..]) && text[1] != '0' else IsCanonical(text)
  }

  lemma SignedIsPlain(n: int)
    ensures IsPlainNumber(Signed(n)) && IsDecimal(Signed(n))
  {
    DecimalIsCanonical(if n < 0 then -n else n);
    hide Decimal;
  }

  // The parts of a written line.
  lemma WriteParts(line: Line)
    requires |Hex(line.hash.bytes)| == 2 * HASH_SIZE
    ensures var k, text := 2 * HASH_SIZE, Write(line);
      && |text| == k + 2 + |Signed(line.size)| && text[..k] == Hex(line.hash.bytes) && text[k] == ' '
      && text[k + 1..|text| - 1] == Signed(line.size) && text[|text| - 1] == '\n'
  {
    hide Hex, Signed;
  }

  lemma WriteIsAccepted(line: Line)
    requires |line.hash.bytes| == HASH_SIZE
    ensures IndexLine(Write(line))
  {
    HexIsLower(line.hash.bytes);
    LowerIsHex(Hex(line.hash.bytes));
    SignedIsPlain(line.size);
    WriteParts(line);
    hide Hex, Signed, Write, AllHex, IsDecimal;
  }

  lemma WriteMeans(line: Line)
    requires |line.hash.bytes| == HASH_SIZE && IndexLine(Write(line))
    ensures Meaning(Write(line)) == line
  {
    LineReads(0, Write(line), "");
    LineInverts(line, "");
    assert Write(line) + "" == Write(line);
    hide Write, Meaning, IndexLine, ScanLine;
  }

  /** A written line is well-formed, means the line, and is in lower case without superfluous zeros. */
  lemma WriteIsLine(line: Line)
    requires |line.hash.bytes| == HASH_SIZE
    ensures IndexLine(Write(line)) && Meaning(Write(line)) == line
    ensures forall i :: 0 <= i < 2 * HASH_SIZE ==> IsLowerHex(Write(line)[..2 * HASH_SIZE][i])
    ensures IsPlainNumber(Write(line)[2 * HASH_SIZE + 1..|Write(line)| - 1])
  {
    WriteIsAccepted(line);
    WriteMeans(line);
    HexIsLower(line.hash.bytes);
    SignedIsPlain(line.size);
    WriteParts(line);
    hide Hex, Signed, Write, Meaning, IndexLine, IsPlainNumber;
  }

  lemma LowerIsHex(text: string)
    requires forall i :: 0 <= i < |text| ==> IsLowerHex(text[i])
    ensures AllHex(text)
  {
  }
}
