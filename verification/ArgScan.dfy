/** The scans of the process-string parser: spaces, words, matching brackets, top-level pipes. ASCII only. */
module ArgScan {
  import opened Wrappers

  datatype Brackets = Brackets(open: char, close: char)

  const PARENS: Brackets := Brackets('(', ')')

  const BRACES: Brackets := Brackets('{', '}')

  const PIPE: char := '|'

  predicate IsSpace(c: char) {
    c == ' ' || '\t' <= c <= '\r'
  }

  // \w
  predicate IsWord(c: char) {
    '0' <= c <= '9' || 'A' <= c <= 'Z' || 'a' <= c <= 'z' || c == '_'
  }

  /** argparse.go:22-30. */
  function LeftSpaces(str: string): (n: nat)
    ensures n <= |str| && (n < |str| ==> !IsSpace(str[n]))
    ensures forall i :: 0 <= i < n ==> IsSpace(str[i])
  {
    if str == "" || !IsSpace(str[0]) then 0 else 1 + LeftSpaces(str[1..])
  }

  /** argparse.go:32-37. */
  function SpaceEnd(str: string): (n: nat)
    ensures n <= |str| && (n < |str| ==> IsSpace(str[n]))
    ensures forall i :: 0 <= i < n ==> !IsSpace(str[i])
  {
    if str == "" || IsSpace(str[0]) then 0 else 1 + SpaceEnd(str[1..])
  }

  function WordEnd(str: string): (n: nat)
    ensures n <= |str| && (n < |str| ==> !IsWord(str[n]))
    ensures forall i :: 0 <= i < n ==> IsWord(str[i])
  {
    if str == "" || !IsWord(str[0]) then 0 else 1 + WordEnd(str[1..])
  }

  function Shift(i: Option<nat>, k: nat): Option<nat> {
    if i.Some? then Some(i.value + k) else None
  }

  function LastOf(c: char, str: string): (i: Option<nat>)
    ensures i.Some? ==> i.value < |str| && str[i.value] == c && forall k :: i.value < k < |str| ==> str[k] != c
    ensures i == None ==> c !in str
  {
    if str == "" then None
    else if str[|str| - 1] == c then Some(|str| - 1)
    else LastOf(c, str[..|str| - 1])
  }

  // Two different brackets.
  predicate Proper(b: Brackets) {
    b.open != b.close
  }

  /** lambda.go:43-53: where the nesting, `nest` at the start, comes down to 0. */
  function Close(str: string, b: Brackets, nest: nat): (i: Option<nat>)
    requires nest > 0
    ensures i.Some? ==> i.value < |str|
  {
    if str == "" then None
    else if str[0] == b.open then Shift(Close(str[1..], b, nest + 1), 1)
    else if str[0] != b.close then Shift(Close(str[1..], b, nest), 1)
    else if nest == 1 then Some(0)
    else Shift(Close(str[1..], b, nest - 1), 1)
  }

  method FindClose(str: string, b: Brackets) returns (i: Option<nat>)
    ensures i == Close(str, b, 1)
  {
    var nest, k := 1, 0;
    while k < |str|
      invariant 0 <= k <= |str| && nest > 0
      invariant Close(str, b, 1) == Shift(Close(str[k..], b, nest), k)
    {
      assert str[k..][1..] == str[k + 1..];
      if str[k] == b.open {
        nest := nest + 1;
      } else if str[k] == b.close {
        nest := nest - 1;
        if nest == 0 {
          return Some(k);
        }
      }
      k := k + 1;
    }
    i := None;
  }

  /** piped.go:29-50: the first pipe outside the brackets; the nesting may go below 0. */
  function PipeAt(str: string, b: Option<Brackets>, nest: int): (i: Option<nat>)
    ensures i.Some? ==> i.value < |str| && str[i.value] == PIPE
  {
    if str == "" then None
    else if b.Some? && str[0] == b.value.open then Shift(PipeAt(str[1..], b, nest + 1), 1)
    else if b.Some? && str[0] == b.value.close then Shift(PipeAt(str[1..], b, nest - 1), 1)
    else if str[0] == PIPE && (b == None || nest == 0) then Some(0)
    else Shift(PipeAt(str[1..], b, nest), 1)
  }

  // What one character does to the nesting.
  function Deeper(c: char, b: Option<Brackets>, nest: int): int {
    if b.Some? && c == b.value.open then nest + 1
    else if b.Some? && c == b.value.close then nest - 1
    else nest
  }

  lemma PipeStep(str: string, b: Option<Brackets>, nest: int, k: nat)
    requires k <= |str|
    ensures k == |str| ==> PipeAt(str[k..], b, nest) == None
    ensures k < |str| ==>
        PipeAt(str[k..], b, nest) ==
        if Deeper(str[k], b, nest) == nest && str[k] == PIPE && (b == None || nest == 0) then Some(0)
        else Shift(PipeAt(str[k + 1..], b, Deeper(str[k], b, nest)), 1)
  {
    if k < |str| {
      assert str[k..][1..] == str[k + 1..];
    }
  }

  method FindPipe(str: string, b: Option<Brackets>) returns (i: Option<nat>)
    ensures i == PipeAt(str, b, 0)
  {
    hide PipeAt;
    var nest, k := 0, 0;
    assert str[k..] == str;
    while k < |str|
      invariant 0 <= k <= |str|
      invariant PipeAt(str, b, 0) == Shift(PipeAt(str[k..], b, nest), k)
    {
      PipeStep(str, b, nest, k);
      if b.Some? && str[k] == b.value.open {
        nest := nest + 1;
      } else if b.Some? && str[k] == b.value.close {
        nest := nest - 1;
      } else if str[k] == PIPE && (b == None || nest == 0) {
        return Some(k);
      }
      k := k + 1;
    }
    PipeStep(str, b, nest, k);
    i := None;
  }

  method CountLeftSpaces(str: string) returns (n: nat)
    ensures n == LeftSpaces(str)
  {
    n := 0;
    while n < |str| && IsSpace(str[n])
      invariant n <= |str| && LeftSpaces(str) == n + LeftSpaces(str[n..])
    {
      assert str[n..][1..] == str[n + 1..];
      n := n + 1;
    }
  }

  // ---------------------------------------------------------------- balanced text

  /** The nesting after `text`, from `nest`; None when it would go below 0, or at a pipe outside when `bar`. */
  function Nest(text: string, b: Brackets, bar: bool, nest: nat): Option<nat> {
    if text == "" then Some(nest)
    else if text[0] == b.open then Nest(text[1..], b, bar, nest + 1)
    else if text[0] == b.close then if nest == 0 then None else Nest(text[1..], b, bar, nest - 1)
    else if bar && text[0] == PIPE && nest == 0 then None
    else Nest(text[1..], b, bar, nest)
  }

  lemma EmptyNests(b: Brackets, bar: bool, n: nat)
    ensures Nest("", b, bar, n) == Some(n)
  {
  }

  lemma {:induction false} NestAdds(a: string, c: string, b: Brackets, bar: bool, nest: nat)
    requires Nest(a, b, bar, nest).Some?
    ensures Nest(a + c, b, bar, nest) == Nest(c, b, bar, Nest(a, b, bar, nest).value)
  {
    if a == "" {
      assert a + c == c;
    } else {
      assert (a + c)[1..] == a[1..] + c;
      var next := if a[0] == b.open then nest + 1 else if a[0] == b.close then nest - 1 else nest;
      NestAdds(a[1..], c, b, bar, next);
    }
  }

  /** A closing bracket is looked for behind balanced text. */
  lemma {:induction false} CloseSkips(a: string, c: string, b: Brackets, bar: bool, nest: nat)
    requires Proper(b) && Nest(a, b, bar, nest).Some?
    ensures Close(a + c, b, nest + 1) == Shift(Close(c, b, Nest(a, b, bar, nest).value + 1), |a|)
  {
    if a == "" {
      assert a + c == c;
    } else {
      assert (a + c)[1..] == a[1..] + c;
      var next := if a[0] == b.open then nest + 1 else if a[0] == b.close then nest - 1 else nest;
      CloseSkips(a[1..], c, b, bar, next);
    }
  }

  /** So is a pipe. */
  lemma {:induction false} PipeSkips(a: string, c: string, b: Brackets, nest: nat)
    requires Proper(b) && b.open != PIPE && b.close != PIPE && Nest(a, b, true, nest).Some?
    ensures PipeAt(a + c, Some(b), nest) == Shift(PipeAt(c, Some(b), Nest(a, b, true, nest).value), |a|)
  {
    hide PipeAt, Nest;
    if a == "" {
      assert a + c == c;
      EmptyNests(b, true, nest);
    } else {
      var str := a + c;
      assert str[1..] == a[1..] + c && str[0] == a[0] && str[0..] == str;
      NestStep(a, b, true, nest);
      PipeStep(str, Some(b), nest, 0);
      PipeSkips(a[1..], c, b, Deeper(a[0], Some(b), nest));
    }
  }

  // Text that can be passed over, after its first character.
  lemma NestStep(a: string, b: Brackets, bar: bool, nest: nat)
    requires Proper(b) && a != "" && Nest(a, b, bar, nest).Some?
    ensures var next := Deeper(a[0], Some(b), nest);
      next >= 0 && Nest(a, b, bar, nest) == Nest(a[1..], b, bar, next)
    ensures bar && a[0] == PIPE && b.open != PIPE && b.close != PIPE ==> nest > 0
  {
  }
}
