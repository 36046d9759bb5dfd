/** What the process-string parser refuses: what it accepts as a chain or a bracketed call is closed where it ends. */
module ArgSound {
  import opened Wrappers
  import opened ArgScan
  import opened ArgParse

  /** How often c occurs. */
  function Occurs(c: char, text: string): nat {
    if text == "" then 0 else Occurs(c, text[..|text| - 1]) + if text[|text| - 1] == c then 1 else 0
  }

  // How many brackets are open behind `text`.
  function Depth(b: Brackets, text: string): int {
    Occurs(b.open, text) - Occurs(b.close, text)
  }

  // What opens at the start of str is still open at k.
  predicate OpenAt(b: Brackets, str: string, k: nat)
    requires k <= |str|
  {
    Depth(b, str[..k]) > 0
  }

  /** str[..pos] is one bracketed text: what opens at its start is closed at its end and not before. */
  ghost predicate Closed(b: Brackets, str: string, pos: nat) {
    && 2 <= pos <= |str| && str[0] == b.open && str[pos - 1] == b.close
    && Depth(b, str[..pos]) == 0 && forall k :: 0 < k < pos ==> OpenAt(b, str, k)
  }

  /** str opens a bracket that is closed nowhere. */
  ghost predicate Unclosed(b: Brackets, str: string) {
    |str| >= 2 && str[0] == b.open && forall k :: 0 < k <= |str| ==> OpenAt(b, str, k)
  }

  lemma DepthOneMore(b: Brackets, str: string, k: nat)
    requires k < |str| && Proper(b)
    ensures Depth(b, str[..k + 1]) ==
            Depth(b, str[..k]) + if str[k] == b.open then 1 else if str[k] == b.close then -1 else 0
  {
    assert str[..k + 1][..k] == str[..k];
  }

  // What the scan from k on, with `nest` brackets open, says about the text.
  ghost predicate Scanned(b: Brackets, str: string, k: nat, i: Option<nat>)
    requires k <= |str|
  {
    match i
    case None => forall j :: k <= j <= |str| ==> OpenAt(b, str, j)
    case Some(i) =>
      && k + i < |str| && str[k + i] == b.close && Depth(b, str[..k + i + 1]) == 0
      && forall j :: k <= j <= k + i ==> OpenAt(b, str, j)
  }

  lemma ScannedOneMore(b: Brackets, str: string, k: nat, i: Option<nat>)
    requires k < |str| && OpenAt(b, str, k) && Scanned(b, str, k + 1, i)
    ensures Scanned(b, str, k, Shift(i, 1))
  {
    hide Depth;
  }

  // One step of the scan.
  lemma CloseStep(b: Brackets, str: string, k: nat, nest: nat)
    requires k < |str| && nest > 0
    ensures var next := if str[k] == b.open then nest + 1 else if str[k] == b.close then nest - 1 else nest;
      Close(str[k..], b, nest) == if next == 0 then Some(0) else Shift(Close(str[k + 1..], b, next), 1)
  {
    assert str[k..][1..] == str[k + 1..];
  }

  /** The scan comes to the first place where no bracket is open. */
  lemma {:induction false} CloseIs(b: Brackets, str: string, k: nat, nest: nat)
    requires Proper(b) && k <= |str| && nest > 0 && Depth(b, str[..k]) == nest
    ensures Scanned(b, str, k, Close(str[k..], b, nest))
    decreases |str| - k
  {
    if k < |str| {
      CloseStep(b, str, k, nest);
      DepthOneMore(b, str, k);
      hide Depth, Close;
      var next := if str[k] == b.open then nest + 1 else if str[k] == b.close then nest - 1 else nest;
      if next > 0 {
        CloseIs(b, str, k + 1, next);
        ScannedOneMore(b, str, k, Close(str[k + 1..], b, next));
      }
    }
  }

  /** A pipe counts where as many brackets are closed as opened before it, and the first such pipe is found. */
  ghost predicate IsBar(b: Brackets, str: string, i: nat) {
    i < |str| && str[i] == PIPE && Depth(b, str[..i]) == 0
  }

  lemma {:induction false} PipeIs(b: Brackets, str: string, k: nat)
    requires Proper(b) && b.open != PIPE && b.close != PIPE && k <= |str|
    requires forall j :: 0 <= j < k ==> !IsBar(b, str, j)
    ensures match PipeAt(str[k..], Some(b), Depth(b, str[..k]))
      case None => forall j: nat :: !IsBar(b, str, j)
      case Some(i) => IsBar(b, str, k + i) && forall j :: 0 <= j < k + i ==> !IsBar(b, str, j)
    decreases |str| - k
  {
    PipeStep(str, Some(b), Depth(b, str[..k]), k);
    if k < |str| {
      DepthOneMore(b, str, k);
      hide Depth, PipeAt;
      if !IsBar(b, str, k) {
        PipeIs(b, str, k + 1);
      }
    }
  }

  lemma FirstPipe(b: Brackets, str: string)
    requires Proper(b) && b.open != PIPE && b.close != PIPE
    ensures match PipeAt(str, Some(b), 0)
      case None => forall j: nat :: !IsBar(b, str, j)
      case Some(i) => IsBar(b, str, i) && forall j :: 0 <= j < i ==> !IsBar(b, str, j)
  {
    assert str[0..] == str && str[..0] == "";
    PipeIs(b, str, 0);
  }

  // Where the bracket that str begins with is closed.
  lemma FirstClose(b: Brackets, str: string)
    requires Proper(b) && |str| >= 2 && str[0] == b.open
    ensures match Close(str[1..], b, 1)
      case None => Unclosed(b, str)
      case Some(i) => Closed(b, str, i + 2)
  {
    DepthOneMore(b, str, 0);
    assert str[..0] == "";
    hide Close;
    CloseIs(b, str, 1, 1);
  }

  lemma NotBoth(b: Brackets, str: string, pos: nat)
    requires Closed(b, str, pos)
    ensures !Unclosed(b, str)
  {
    assert !OpenAt(b, str, pos);
  }

  // ---------------------------------------------------------------- a lambda

  /** What a lambda accepts is closed at its end, and a bracket that is never closed is refused as such. */
  lemma LambdaIsClosed(g: Fns, l: Lambda, str: string)
    requires Proper(l.brackets)
    ensures ParseLambda(g, l, str).Ok? ==> Closed(l.brackets, str, ParseLambda(g, l, str).pos)
    ensures Unclosed(l.brackets, str) ==> ParseLambda(g, l, str) == Fail(UnclosedBracket, 0)
  {
    if |str| >= 2 && str[0] == l.brackets.open {
      FirstClose(l.brackets, str);
      hide Parse, Close, Closed, Unclosed;
      if Close(str[1..], l.brackets, 1).Some? {
        NotBoth(l.brackets, str, Close(str[1..], l.brackets, 1).value + 2);
      }
    }
  }

  // ---------------------------------------------------------------- a call

  lemma PrefixIsClosed(b: Brackets, args: string, rest: string, pos: nat)
    requires Closed(b, args, pos) && args <= rest
    ensures Closed(b, rest, pos)
  {
    assert args[..pos] == rest[..pos];
    forall k | 0 < k < pos
      ensures OpenAt(b, rest, k)
    {
      assert OpenAt(b, args, k) && args[..k] == rest[..k];
    }
  }

  lemma PrefixIsUnclosed(b: Brackets, args: string, rest: string)
    requires Unclosed(b, rest) && args <= rest && |args| >= 2
    ensures Unclosed(b, args)
  {
    forall k | 0 < k <= |args|
      ensures OpenAt(b, args, k)
    {
      assert OpenAt(b, rest, k) && args[..k] == rest[..k];
    }
  }

  lemma {:induction false} NoneOccurs(c: char, text: string)
    requires c !in text
    ensures Occurs(c, text) == 0
  {
    if text != "" {
      NoneOccurs(c, text[..|text| - 1]);
    }
  }

  // A bracket that nothing closes is not closed by the one that the call is given either.
  lemma WrappedIsUnclosed(rest: string)
    requires rest != "" && rest[0] == PARENS.open && PARENS.close !in rest
    ensures Unclosed(PARENS, Wrap(rest))
  {
    var str := Wrap(rest);
    forall k | 0 < k <= |str|
      ensures OpenAt(PARENS, str, k)
    {
      if k < |str| {
        NoneOccurs(PARENS.close, str[..k]);
        OneOccurs(PARENS.open, str[..k]);
      } else {
        var before := str[..k - 1];
        NoneOccurs(PARENS.close, before);
        TwoOccur(PARENS.open, before);
        DepthOneMore(PARENS, str, k - 1);
        assert str[..k] == str;
      }
    }
  }

  lemma {:induction false} OneOccurs(c: char, text: string)
    requires text != "" && text[0] == c
    ensures Occurs(c, text) >= 1
  {
    if |text| > 1 {
      OneOccurs(c, text[..|text| - 1]);
    }
  }

  lemma {:induction false} TwoOccur(c: char, text: string)
    requires |text| >= 2 && text[0] == text[1] == c
    ensures Occurs(c, text) >= 2
  {
    if |text| > 2 {
      TwoOccur(c, text[..|text| - 1]);
    } else {
      OneOccurs(c, text[..1]);
    }
  }

  // str is a name with a bracket right behind it.
  predicate Bracketed(g: Fns, str: string) {
    var n := WordEnd(str);
    0 < n < |str| && str[n] == PARENS.open && str[..n] in g && g[str[..n]].brackets == PARENS
  }

  // What the lambda of such a call is given.
  lemma BracketedTarget(g: Fns, str: string)
    requires Bracketed(g, str)
    ensures var n := WordEnd(str); var rest, t := str[n..], TargetOf(str, n);
      && t.at == n
      && (PARENS.close in rest ==> t.added == 0 && t.args <= rest && |t.args| >= 2)
      && (PARENS.close !in rest ==> t.args == Wrap(rest) && rest != "" && rest[0] == PARENS.open)
  {
    assert LeftSpaces(str[WordEnd(str)..]) == 0;
  }

  // What becomes of text that begins with a bracket, or of that text in the brackets it is given.
  lemma GivenIsClosed(g: Fns, l: Lambda, rest: string, args: string)
    requires l.brackets == PARENS && rest != "" && rest[0] == PARENS.open
    requires if PARENS.close in rest then args <= rest && |args| >= 2 else args == Wrap(rest)
    ensures ParseLambda(g, l, args).Ok? ==> PARENS.close in rest && Closed(PARENS, rest, ParseLambda(g, l, args).pos)
    ensures Unclosed(PARENS, rest) ==> ParseLambda(g, l, args) == Fail(UnclosedBracket, 0)
  {
    LambdaIsClosed(g, l, args);
    hide ParseLambda, Closed, Unclosed;
    if PARENS.close in rest {
      if ParseLambda(g, l, args).Ok? {
        PrefixIsClosed(PARENS, args, rest, ParseLambda(g, l, args).pos);
      }
      if Unclosed(PARENS, rest) {
        PrefixIsUnclosed(PARENS, args, rest);
      }
    } else {
      WrappedIsUnclosed(rest);
      UnclosedIsOpen(PARENS, args);
    }
  }

  /** A call with brackets that is accepted is closed at its end; one whose bracket is never closed is refused. */
  lemma CallIsClosed(g: Fns, str: string)
    requires Bracketed(g, str)
    ensures var o, n := ParseFn(g, g, str), WordEnd(str);
      && (o.Ok? ==> o.pos >= n && Closed(PARENS, str[n..], o.pos - n))
      && (Unclosed(PARENS, str[n..]) ==> o.Fail? && OriginalErr(o.err) == UnclosedBracket)
  {
    var n := WordEnd(str);
    FnTurn(g, g, str, n);
    BracketedTarget(g, str);
    GivenIsClosed(g, g[str[..n]], str[n..], TargetOf(str, n).args);
    hide ParseLambda, ParseFn, Closed, Unclosed, TargetOf, WordEnd;
  }

  lemma UnclosedIsOpen(b: Brackets, str: string)
    requires Unclosed(b, str)
    ensures forall pos :: !Closed(b, str, pos)
  {
    forall pos | Closed(b, str, pos)
      ensures false
    {
      NotBoth(b, str, pos);
    }
  }

  // ---------------------------------------------------------------- a process

  // Text that begins with a word is not tried as a chain.
  lemma WordIsCall(g: Fns, str: string)
    requires WordEnd(str) > 0
    ensures str[0] != BRACES.open && Parse(g, ArgProc, str) == ParseFn(g, g, str)
  {
    assert IsWord(str[0]) && !IsWord(BRACES.open);
    assert ParseLambda(g, CHAIN, str) == Fail(InvalidSyntax, 0);
    hide ParseFn;
  }

  // And the other way round.
  lemma BraceIsChain(g: Fns, str: string)
    requires str != "" && str[0] == BRACES.open && Parse(g, ArgProc, str).Ok?
    ensures Parse(g, ArgProc, str) == ParseLambda(g, CHAIN, str)
  {
    assert !IsWord(BRACES.open) && WordEnd(str) == 0;
    hide ParseLambda;
    assert ParseFn(g, g, str) == Fail(InvalidSyntax, 0);
  }

  lemma OkIsNamed(g: Fns, str: string)
    requires ParseFn(g, g, str).Ok?
    ensures WordEnd(str) > 0 && str[..WordEnd(str)] in g
  {
    hide ParseLambda, TargetOf;
  }

  /** An accepted process is a closed chain, or a call; and a call with brackets is closed. */
  lemma ProcIsClosed(g: Fns, str: string)
    requires Parse(g, ArgProc, str).Ok?
    ensures str != ""
    ensures str[0] == BRACES.open ==> Closed(BRACES, str, Parse(g, ArgProc, str).pos)
    ensures str[0] != BRACES.open ==> WordEnd(str) > 0 && str[..WordEnd(str)] in g
    ensures Bracketed(g, str) ==>
        var n := WordEnd(str);
        Parse(g, ArgProc, str).pos >= n && Closed(PARENS, str[n..], Parse(g, ArgProc, str).pos - n)
  {
    hide ParseLambda, Closed, Unclosed;
    if ParseLambda(g, CHAIN, str).Fail? {
      OkIsNamed(g, str);
    }
    LambdaStarts(g, CHAIN, str);
    hide Parse, ParseFn, WordEnd;
    if str[0] == BRACES.open {
      BraceIsChain(g, str);
      LambdaIsClosed(g, CHAIN, str);
    }
    if Bracketed(g, str) {
      WordIsCall(g, str);
      CallIsClosed(g, str);
    }
  }

  lemma LambdaStarts(g: Fns, l: Lambda, str: string)
    ensures ParseLambda(g, l, str).Ok? ==> str != "" && str[0] == l.brackets.open
  {
    hide Parse, Close;
  }

  /** A process whose bracket is never closed is refused, as such. */
  lemma UnclosedIsRefused(g: Fns, str: string)
    ensures Unclosed(BRACES, str) ==> Parse(g, ArgProc, str) == Fail(UnclosedBracket, 0)
    ensures Bracketed(g, str) && Unclosed(PARENS, str[WordEnd(str)..]) ==>
        Parse(g, ArgProc, str).Fail? && OriginalErr(Parse(g, ArgProc, str).err) == UnclosedBracket
  {
    LambdaIsClosed(g, CHAIN, str);
    hide ParseLambda, Closed, Unclosed, ParseFn;
    if Bracketed(g, str) {
      WordIsCall(g, str);
      CallIsClosed(g, str);
    }
  }

  // A lone bracket is neither a chain nor a call.
  lemma LoneIsRefused(g: Fns, str: string)
    requires |str| == 1 && str[0] == BRACES.open
    ensures Parse(g, ArgProc, str).Fail?
  {
    assert !IsWord(str[0]);
    assert ParseLambda(g, CHAIN, str) == Fail(InvalidSyntax, 0);
  }

  /** So is a process string that begins with such a chain, pipes in it or not. */
  lemma TopIsRefused(g: Fns, str: string)
    requires Unclosed(BRACES, str)
    ensures Parse(g, TOP, str).Fail?
  {
    PipedTurn(g, TOP, str, 0, [], 0);
    assert str[0..] == str && LeftSpaces(str) == 0;
    var text := SegmentOf(str, Some(BRACES)).text;
    assert text != "" && text[0] == str[0];
    hide ParsePiped, SegmentOf, Unclosed;
    if |text| >= 2 {
      PrefixIsUnclosed(BRACES, text, str);
      UnclosedIsRefused(g, text);
    } else {
      LoneIsRefused(g, text);
    }
  }
}
