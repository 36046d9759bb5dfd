/** Numbers as text, for the index and for the process strings. */
module Digits {
  import opened Wrappers

  const HEX_DIGITS: string := "0123456789abcdef"

  // Both cases are read, lower case is written.
  function HexVal(c: char): (v: Option<nat>)
    ensures v.Some? ==> v.value < 16
  {
    if '0' <= c <= '9' then Some(c as int - '0' as int)
    else if 'a' <= c <= 'f' then Some(c as int - 'a' as int + 10)
    else if 'A' <= c <= 'F' then Some(c as int - 'A' as int + 10)
    else None
  }

  predicate IsDigit(c: char) {
    '0' <= c <= '9'
  }

  function Decimal(n: nat): string {
    (if n < 10 then "" else Decimal(n / 10)) + [HEX_DIGITS[n % 10]]
  }

  function Signed(n: int): string {
    if n < 0 then "-" + Decimal(-n) else Decimal(n)
  }

  function ReadNat(text: string, acc: nat): (nat, string) {
    if text == "" || !IsDigit(text[0]) then (acc, text)
    else ReadNat(text[1..], acc * 10 + (text[0] as int - '0' as int))
  }

  function ReadInt(text: string): Option<(int, string)> {
    var neg := text != "" && text[0] == '-';
    var digits := if neg then text[1..] else text;
    if digits == "" || !IsDigit(digits[0]) then None
    else
      var (n, rest) := ReadNat(digits, 0);
      var size: int := n;
      Some((if neg then -size else size, rest))
  }

  lemma {:induction false} ReadNatShortens(text: string, acc: nat)
    ensures |ReadNat(text, acc).1| <= |text|
    decreases |text|
  {
    if text != "" && IsDigit(text[0]) {
      ReadNatShortens(text[1..], acc * 10 + (text[0] as int - '0' as int));
    }
  }

  lemma DigitsInvert(n: nat)
    requires n < 16
    ensures HexVal(HEX_DIGITS[n]) == Some(n)
    ensures n < 10 ==> IsDigit(HEX_DIGITS[n]) && HEX_DIGITS[n] as int - '0' as int == n
  {
  }

  lemma ReadDigit(d: nat, rest: string, acc: nat)
    requires d < 10
    ensures ReadNat([HEX_DIGITS[d]] + rest, acc) == ReadNat(rest, acc * 10 + d)
  {
    DigitsInvert(d);
    hide HexVal;
    assert ([HEX_DIGITS[d]] + rest)[1..] == rest;
  }

  lemma {:induction false} DecimalInverts(n: nat, rest: string)
    ensures ReadNat(Decimal(n) + rest, 0) == ReadNat(rest, n)
    decreases n
  {
    hide ReadNat;
    var last := [HEX_DIGITS[n % 10]];
    if n < 10 {
      assert Decimal(n) + rest == last + rest;
      ReadDigit(n, rest, 0);
    } else {
      assert Decimal(n) + rest == Decimal(n / 10) + (last + rest);
      hide Decimal;
      DecimalInverts(n / 10, last + rest);
      ReadDigit(n % 10, rest, n / 10);
    }
  }

  lemma {:induction false} DecimalStartsWithDigit(n: nat)
    ensures |Decimal(n)| > 0 && IsDigit(Decimal(n)[0])
    decreases n
  {
    DigitsInvert(n % 10);
    if n >= 10 {
      DecimalStartsWithDigit(n / 10);
    }
  }

  lemma NatEnds(rest: string, acc: nat)
    requires rest == "" || !IsDigit(rest[0])
    ensures ReadNat(rest, acc) == (acc, rest)
  {
  }

  lemma SignedInverts(n: int, rest: string)
    requires rest == "" || !IsDigit(rest[0])
    ensures ReadInt(Signed(n) + rest) == Some((n, rest))
  {
    hide ReadNat, Decimal;
    var m: nat := if n < 0 then -n else n;
    DecimalStartsWithDigit(m);
    DecimalInverts(m, rest);
    NatEnds(rest, m);
    var digits := Decimal(m) + rest;
    assert digits[0] == Decimal(m)[0];
    assert n < 0 ==> Signed(n) + rest == "-" + digits && ("-" + digits)[1..] == digits;
  }

  // ---------------------------------------------------------------- what is read as a number

  predicate AllDigits(text: string) {
    forall i :: 0 <= i < |text| ==> '0' <= text[i] <= '9'
  }

  function Num(digits: string): nat
    requires AllDigits(digits)
  {
    if digits == "" then 0
    else 10 * Num(digits[..|digits| - 1]) + (digits[|digits| - 1] as int - '0' as int)
  }

  lemma {:induction false} DigitsRead(digits: string, rest: string)
    requires AllDigits(digits)
    ensures ReadNat(digits + rest, 0) == ReadNat(rest, Num(digits))
    decreases |digits|
  {
    if digits == "" {
      assert digits + rest == rest;
    } else {
      var n := |digits| - 1;
      var tail := [digits[n]] + rest;
      assert digits + rest == digits[..n] + tail;
      DigitsRead(digits[..n], tail);
      assert tail[1..] == rest;
    }
  }

  // The digits a number is read from.
  lemma {:induction false} NatRead(text: string, acc: nat)
    ensures var (n, rest) := ReadNat(text, acc);
      && |rest| <= |text| && rest == text[|text| - |rest|..] && AllDigits(text[..|text| - |rest|])
      && (text != "" && IsDigit(text[0]) ==> |rest| < |text|)
    decreases |text|
  {
    if text != "" && IsDigit(text[0]) {
      var acc' := acc * 10 + (text[0] as int - '0' as int);
      NatRead(text[1..], acc');
      var k := |text[1..]| - |ReadNat(text[1..], acc').1|;
      assert text[..k + 1] == [text[0]] + text[1..][..k];
    }
  }
}
