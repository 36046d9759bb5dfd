/** A canonical printer of process trees, which the parser undoes. */
module ArgPrint {
  import opened Wrappers
  import opened Digits
  import opened ArgScan
  import opened ArgParse

  function Print(v: Value): string
    decreases v
  {
    match v
    case Nil => ""
    case Str(text) => text
    case Int(n) => Signed(n)
    case List(vals) => Join(vals, ' ')
    case Chain(procs) => [BRACES.open] + Join(procs, PIPE) + [BRACES.close]
    case Call(name, args) => name + Wrap(Join(args, ' '))
  }

  function Join(vals: seq<Value>, sep: char): string
    decreases vals
  {
    if vals == [] then ""
    else if |vals| == 1 then Print(vals[0])
    else Print(vals[0]) + [sep] + Join(vals[1..], sep)
  }

  predicate Plain(c: char) {
    !IsSpace(c) && c != PARENS.open && c != PARENS.close && c != BRACES.open && c != BRACES.close && c != PIPE
  }

  // A string argument no delimiter occurs in.
  predicate IsAtom(text: string) {
    text != "" && text[0] != '"' && forall i :: 0 <= i < |text| ==> Plain(text[i])
  }

  predicate IsName(text: string) {
    text != "" && forall i :: 0 <= i < |text| ==> IsWord(text[i])
  }

  /** The values a grammar has text for: v where a parser k is expected, behind which more follows unless `last`. */
  predicate Printable(g: Fns, k: Parser, v: Value, last: bool)
    decreases v
  {
    match k
    case ArgStr => v.Str? && IsAtom(v.text)
    case ArgInt => v.Int? && -0x8000_0000_0000_0000 <= v.n <= 0x7fff_ffff_ffff_ffff
    case ArgVariadic(x) =>
      last && !x.ArgVariadic? && v.List? && forall i :: 0 <= i < |v.vals| ==> Printable(g, x, v.vals[i], false)
    case ArgProc =>
      || (v.Chain? && forall i :: 0 <= i < |v.procs| ==> Printable(g, ArgProc, v.procs[i], false))
      || (v.Call? && IsName(v.name) && v.name in g && Takes(g[v.name], v.name, |v.args|)
          && forall i :: 0 <= i < |v.args| ==>
               Printable(g, g[v.name].args.args[i], v.args[i], i == |v.args| - 1))
    case _ => false
  }

  // A function of n arguments, in the ordinary brackets.
  predicate Takes(l: Lambda, name: string, n: nat) {
    l.args.Args? && |l.args.args| == n && l.run == RunCall(name) && l.brackets == PARENS
  }

  // ---------------------------------------------------------------- printed text is balanced

  /** Passing over `text` leaves every nesting as it was, and meets no pipe outside braces. */
  ghost predicate Neutral(text: string) {
    forall n: nat :: Nest(text, PARENS, false, n) == Some(n) && Nest(text, BRACES, true, n) == Some(n)
  }

  lemma {:induction false} PlainNests(text: string, b: Brackets, bar: bool, n: nat)
    requires b == PARENS || b == BRACES
    requires forall i :: 0 <= i < |text| ==> Plain(text[i])
    ensures Nest(text, b, bar, n) == Some(n)
  {
    if text != "" {
      PlainNests(text[1..], b, bar, n);
    }
  }

  lemma PlainIsNeutral(text: string)
    requires forall i :: 0 <= i < |text| ==> Plain(text[i])
    ensures Neutral(text)
  {
    forall n: nat
      ensures Nest(text, PARENS, false, n) == Some(n) && Nest(text, BRACES, true, n) == Some(n)
    {
      PlainNests(text, PARENS, false, n);
      PlainNests(text, BRACES, true, n);
    }
  }

  lemma {:induction false} DecimalIsPlain(n: nat)
    ensures forall i :: 0 <= i < |Decimal(n)| ==> IsDigit(Decimal(n)[i])
    decreases n
  {
    DigitsInvert(n % 10);
    if n >= 10 {
      DecimalIsPlain(n / 10);
    }
  }

  lemma SignedIsPlain(n: int)
    ensures Signed(n) != "" && forall i :: 0 <= i < |Signed(n)| ==> Plain(Signed(n)[i])
  {
    DecimalIsPlain(if n < 0 then -n else n);
    DecimalStartsWithDigit(if n < 0 then -n else n);
  }

  lemma {:induction false} Unbarred(text: string, b: Brackets, n: nat)
    requires Nest(text, b, true, n).Some?
    ensures Nest(text, b, false, n) == Nest(text, b, true, n)
  {
    if text != "" {
      Unbarred(text[1..], b, if text[0] == b.open then n + 1 else if text[0] == b.close then n - 1 else n);
    }
  }

  lemma SepNests(sep: char, text: string, b: Brackets, bar: bool, n: nat)
    requires b == PARENS || b == BRACES
    requires sep == ' ' || (sep == PIPE && (!bar || n > 0))
    ensures Nest([sep] + text, b, bar, n) == Nest(text, b, bar, n)
  {
    assert ([sep] + text)[1..] == text;
  }

  // Balanced pieces joined by a character that is no bracket, and no pipe unless inside.
  lemma {:induction false} JoinNests(vals: seq<Value>, sep: char, b: Brackets, bar: bool, n: nat)
    requires (b == PARENS && !bar) || b == BRACES
    requires forall i :: 0 <= i < |vals| ==> Neutral(Print(vals[i]))
    requires sep == ' ' || (sep == PIPE && (!bar || n > 0))
    ensures Nest(Join(vals, sep), b, bar, n) == Some(n)
    decreases vals
  {
    hide Print, Nest;
    if vals == [] {
      assert Nest("", b, bar, n) == Some(n) by {
        EmptyNests(b, bar, n);
      }
    } else {
      var head := Print(vals[0]);
      assert Neutral(head);
      if b == BRACES && !bar {
        Unbarred(head, b, n);
      }
      if |vals| > 1 {
        JoinNests(vals[1..], sep, b, bar, n);
        var tail := [sep] + Join(vals[1..], sep);
        assert head + [sep] + Join(vals[1..], sep) == head + tail;
        NestAdds(head, tail, b, bar, n);
        SepNests(sep, Join(vals[1..], sep), b, bar, n);
      }
    }
  }

  // Text in a pair of brackets.
  lemma EnclosedNests(text: string, c: Brackets, b: Brackets, bar: bool, n: nat)
    requires (c == PARENS || c == BRACES) && (b == PARENS || b == BRACES)
    requires Nest(text, b, bar, if c == b then n + 1 else n) == Some(if c == b then n + 1 else n)
    ensures Nest([c.open] + text + [c.close], b, bar, n) == Some(n)
  {
    var m := if c == b then n + 1 else n;
    var tail := text + [c.close];
    assert ([c.open] + text + [c.close])[1..] == tail;
    NestAdds(text, [c.close], b, bar, m);
    assert [c.close][1..] == "";
  }

  lemma JoinedIsNeutral(vals: seq<Value>)
    requires forall i :: 0 <= i < |vals| ==> Neutral(Print(vals[i]))
    ensures Neutral(Join(vals, ' '))
  {
    forall n: nat
      ensures Nest(Join(vals, ' '), PARENS, false, n) == Some(n) && Nest(Join(vals, ' '), BRACES, true, n) == Some(n)
    {
      JoinNests(vals, ' ', PARENS, false, n);
      JoinNests(vals, ' ', BRACES, true, n);
    }
  }

  lemma ChainIsNeutral(procs: seq<Value>)
    requires forall i :: 0 <= i < |procs| ==> Neutral(Print(procs[i]))
    ensures Neutral(Print(Chain(procs)))
  {
    forall n: nat
      ensures Nest(Print(Chain(procs)), PARENS, false, n) == Some(n)
      ensures Nest(Print(Chain(procs)), BRACES, true, n) == Some(n)
    {
      JoinNests(procs, PIPE, PARENS, false, n);
      JoinNests(procs, PIPE, BRACES, true, n + 1);
      EnclosedNests(Join(procs, PIPE), BRACES, PARENS, false, n);
      EnclosedNests(Join(procs, PIPE), BRACES, BRACES, true, n);
    }
  }

  lemma CallIsNeutral(name: string, args: seq<Value>)
    requires IsName(name) && forall i :: 0 <= i < |args| ==> Neutral(Print(args[i]))
    ensures Neutral(Print(Call(name, args)))
  {
    var text := Join(args, ' ');
    JoinedIsNeutral(args);
    forall n: nat
      ensures Nest(name + Wrap(text), PARENS, false, n) == Some(n)
      ensures Nest(name + Wrap(text), BRACES, true, n) == Some(n)
    {
      PlainNests(name, PARENS, false, n);
      PlainNests(name, BRACES, true, n);
      EnclosedNests(text, PARENS, PARENS, false, n);
      EnclosedNests(text, PARENS, BRACES, true, n);
      NestAdds(name, Wrap(text), PARENS, false, n);
      NestAdds(name, Wrap(text), BRACES, true, n);
    }
  }

  lemma {:induction false} PrintedIsNeutral(g: Fns, k: Parser, v: Value, last: bool)
    requires Printable(g, k, v, last)
    ensures Neutral(Print(v))
    decreases v
  {
    match v
    case Nil =>
    case Str(text) => PlainIsNeutral(text);
    case Int(n) =>
      SignedIsPlain(n);
      PlainIsNeutral(Signed(n));
    case List(vals) =>
      forall i | 0 <= i < |vals|
        ensures Neutral(Print(vals[i]))
      {
        PrintedIsNeutral(g, k.arg, vals[i], false);
      }
      JoinedIsNeutral(vals);
    case Chain(procs) =>
      forall i | 0 <= i < |procs|
        ensures Neutral(Print(procs[i]))
      {
        PrintedIsNeutral(g, ArgProc, procs[i], false);
      }
      ChainIsNeutral(procs);
    case Call(name, args) =>
      forall i | 0 <= i < |args|
        ensures Neutral(Print(args[i]))
      {
        PrintedIsNeutral(g, g[name].args.args[i], args[i], i == |args| - 1);
      }
      CallIsNeutral(name, args);
  }

  // Only an empty list prints as nothing, and nothing prints with a space in front.
  lemma PrintedStarts(g: Fns, k: Parser, v: Value, last: bool)
    requires Printable(g, k, v, last)
    ensures Print(v) == "" <==> v == List([])
    ensures Print(v) != "" ==> !IsSpace(Print(v)[0])
  {
    if v.Int? {
      SignedIsPlain(v.n);
    } else if v.List? && v.vals != [] {
      PrintedStarts(g, k.arg, v.vals[0], false);
    }
  }

  // ---------------------------------------------------------------- round trip

  // What may follow a printed value where k is expected.
  predicate Follows(k: Parser, suffix: string) {
    suffix == "" || k == ArgProc || (!k.ArgVariadic? && IsSpace(suffix[0]))
  }

  lemma {:induction false} SpaceEndSkips(text: string, suffix: string)
    requires forall i :: 0 <= i < |text| ==> !IsSpace(text[i])
    requires suffix == "" || IsSpace(suffix[0])
    ensures SpaceEnd(text + suffix) == |text| && (text + suffix)[..|text|] == text
  {
    if text == "" {
      assert text + suffix == suffix;
    } else {
      assert (text + suffix)[1..] == text[1..] + suffix;
      SpaceEndSkips(text[1..], suffix);
    }
  }

  lemma {:induction false} WordEndSkips(name: string, rest: string)
    requires forall i :: 0 <= i < |name| ==> IsWord(name[i])
    requires rest != "" && !IsWord(rest[0])
    ensures WordEnd(name + rest) == |name|
  {
    if name == "" {
      assert name + rest == rest;
    } else {
      assert (name + rest)[1..] == name[1..] + rest;
      WordEndSkips(name[1..], rest);
    }
  }

  lemma StrInverts(text: string, suffix: string)
    requires IsAtom(text) && (suffix == "" || IsSpace(suffix[0]))
    ensures ParseStr(text + suffix) == Ok(Str(text), |text|)
  {
    SpaceEndSkips(text, suffix);
  }

  lemma IntInverts(n: int, suffix: string)
    requires -0x8000_0000_0000_0000 <= n <= 0x7fff_ffff_ffff_ffff && (suffix == "" || IsSpace(suffix[0]))
    ensures ParseInt(Signed(n) + suffix) == Ok(Int(n), |Signed(n)|)
  {
    SignedIsPlain(n);
    SpaceEndSkips(Signed(n), suffix);
    var m: nat := if n < 0 then -n else n;
    DecimalStartsWithDigit(m);
    DecimalInverts(m, "");
    assert Decimal(m) + "" == Decimal(m);
    assert n < 0 ==> Signed(n)[1..] == Decimal(m);
  }

  lemma ClosesAtOnce(b: Brackets, suffix: string)
    requires Proper(b)
    ensures Close([b.close] + suffix, b, 1) == Some(0)
  {
  }

  /** A lambda over balanced text in its brackets parses that text, whatever follows. */
  lemma LambdaTakes(g: Fns, l: Lambda, text: string, suffix: string)
    requires l.brackets == PARENS || l.brackets == BRACES
    requires Nest(text, l.brackets, false, 0) == Some(0)
    ensures ParseLambda(g, l, [l.brackets.open] + text + [l.brackets.close] + suffix) ==
            match Parse(g, l.args, text)
            case Fail(err, _) => Fail(err, 0)
            case Ok(val, _) => if val.List? then Ok(Apply(l.run, val.vals), |text| + 2) else Fail(WrongReturnType, 0)
  {
    hide Parse, Close, Nest;
    var b := l.brackets;
    var str := [b.open] + text + [b.close] + suffix;
    var tail := [b.close] + suffix;
    assert str[1..] == text + tail;
    CloseSkips(text, tail, b, false, 0);
    ClosesAtOnce(b, suffix);
    assert str[1..][..|text|] == text;
  }

  lemma BracketedIs(text: string, suffix: string) returns (cut: string)
    ensures BracketedArgs(Wrap(text) + suffix) == Wrap(text) + cut && (suffix == "" ==> cut == "")
  {
    var rest := Wrap(text) + suffix;
    var last := LastOf(PARENS.close, rest);
    assert rest[|text| + 1] == PARENS.close;
    cut := rest[|text| + 2..last.value + 1];
    assert rest[..last.value + 1] == rest[..|text| + 2] + cut;
    assert rest[..|text| + 2] == Wrap(text);
  }

  // What the lambda gets when the name is followed by brackets.
  lemma BracketedTarget(name: string, text: string, suffix: string) returns (cut: string)
    requires IsName(name)
    ensures var str := name + Wrap(text) + suffix;
      && WordEnd(str) == |name| && str[..|name|] == name
      && TargetOf(str, |name|) == Target(Wrap(text) + cut, |name|, 0)
    ensures suffix == "" ==> cut == ""
  {
    hide BracketedArgs, WordEnd;
    var rest := Wrap(text) + suffix;
    assert name + Wrap(text) + suffix == name + rest;
    WordEndSkips(name, rest);
    assert (name + rest)[|name|..] == rest;
    cut := BracketedIs(text, suffix);
  }

  // And when it is not.
  lemma BareTarget(name: string, text: string)
    requires IsName(name) && (text == "" || !IsSpace(text[0]))
    ensures var str := name + " " + text;
      && WordEnd(str) == |name| && str[..|name|] == name
      && TargetOf(str, |name|) == Target(Wrap(text), |name| + 1, 2)
  {
    hide WordEnd, Wrap;
    var rest := " " + text;
    var str := name + " " + text;
    assert str == name + rest;
    WordEndSkips(name, rest);
    assert str[|name|..] == rest;
    assert BracketedArgs(rest) == "";
    assert rest[1..] == text && LeftSpaces(rest) == 1;
    assert str[|name| + 1..] == text;
  }

  /** A call in brackets is its lambda on the text between them. */
  lemma FnTakes(g: Fns, fns: Fns, name: string, text: string, suffix: string)
    requires IsName(name) && name in fns && fns[name].brackets == PARENS && Nest(text, PARENS, false, 0) == Some(0)
    ensures var o := ParseFn(g, fns, name + Wrap(text) + suffix);
      match Parse(g, fns[name].args, text)
      case Fail(err, _) => o.Fail? && OriginalErr(o.err) == OriginalErr(err)
      case Ok(val, _) => val.List? ==> o == Ok(Apply(fns[name].run, val.vals), |name| + |text| + 2)
  {
    hide Parse, ParseLambda, ParseFn, TargetOf, Nest;
    var cut := BracketedTarget(name, text, suffix);
    FnTurn(g, fns, name + Wrap(text) + suffix, |name|);
    assert Wrap(text) + cut == [PARENS.open] + text + [PARENS.close] + cut;
    LambdaTakes(g, fns[name], text, cut);
  }

  // Nothing that starts like a name is a chain.
  lemma ProcIsFn(g: Fns, str: string)
    requires str != "" && IsWord(str[0])
    ensures Parse(g, ArgProc, str) == ParseFn(g, g, str)
  {
  }

  /** What is printed parses back, up to where it ends. */
  lemma {:induction false} ParseInverts(g: Fns, k: Parser, v: Value, last: bool, suffix: string)
    requires Printable(g, k, v, last) && Follows(k, suffix)
    ensures Parse(g, k, Print(v) + suffix) == Ok(v, |Print(v)|)
    decreases v, 1, 0
  {
    match v
    case Nil =>
    case Str(text) => StrInverts(text, suffix);
    case Int(n) => IntInverts(n, suffix);
    case List(vals) =>
      assert Print(v) + suffix == Print(v);
      VariadicInverts(g, k, v, 0, 0);
    case Chain(procs) =>
      ChainInverts(g, v, suffix);
    case Call(name, args) =>
      CallInverts(g, v, suffix);
  }

  lemma ChainInverts(g: Fns, v: Value, suffix: string)
    requires v.Chain? && Printable(g, ArgProc, v, false)
    ensures Parse(g, ArgProc, Print(v) + suffix) == Ok(v, |Print(v)|)
    decreases v, 0, 1 + |v.procs|
  {
    var text := Join(v.procs, PIPE);
    forall i | 0 <= i < |v.procs|
      ensures Neutral(Print(v.procs[i]))
    {
      PrintedIsNeutral(g, ArgProc, v.procs[i], false);
    }
    JoinNests(v.procs, PIPE, BRACES, false, 0);
    assert v.procs[0..] == v.procs && text[0..] == text && v.procs[..0] == [];
    PipedInverts(g, v, 0, 0);
    LambdaTakes(g, CHAIN, text, suffix);
    hide Join, Nest, ParsePiped, ParseLambda, Printable;
    ChainIsPiped(g, text);
    ProcIsChain(g, Print(v) + suffix);
  }

  lemma ChainIsPiped(g: Fns, text: string)
    ensures Parse(g, CHAIN.args, text) == ParsePiped(g, TOP, text, 0, [])
  {
  }

  // A chain that parses is the process.
  lemma ProcIsChain(g: Fns, str: string)
    ensures ParseLambda(g, CHAIN, str).Ok? ==> Parse(g, ArgProc, str) == ParseLambda(g, CHAIN, str)
  {
    hide ParseLambda;
  }

  lemma CallInverts(g: Fns, v: Value, suffix: string)
    requires v.Call? && Printable(g, ArgProc, v, false)
    ensures Parse(g, ArgProc, Print(v) + suffix) == Ok(v, |Print(v)|)
    decreases v, 0, 1 + |v.args|
  {
    var text := Join(v.args, ' ');
    forall i | 0 <= i < |v.args|
      ensures Neutral(Print(v.args[i]))
    {
      PrintedIsNeutral(g, g[v.name].args.args[i], v.args[i], i == |v.args| - 1);
    }
    JoinNests(v.args, ' ', PARENS, false, 0);
    assert v.args[0..] == v.args && text[0..] == text && v.args[..0] == [];
    ArgsInvert(g, v, 0, 0);
    FnTakes(g, g, v.name, text, suffix);
    ProcIsFn(g, Print(v) + suffix);
  }

  // One segment, up to a pipe or the end, of which the parser takes what it wants.
  lemma PipedTakes(g: Fns, p: Parser, str: string, pos: nat, vals: seq<Value>, segment: string, more: string)
    requires p.ArgPiped? && p.nest == Some(BRACES) && pos <= |str|
    requires str[pos..] == segment + more && (more == "" || more[0] == PIPE)
    requires segment != "" && !IsSpace(segment[0]) && Nest(segment, BRACES, true, 0) == Some(0)
    ensures ParsePiped(g, p, str, pos, vals) ==
            var next := if more == "" then |str| else pos + |segment| + 1;
            match Parse(g, p.piped, segment)
            case Fail(err, n) => Fail(Details(err, str, pos + n), pos)
            case Ok(val, _) => ParsePiped(g, p, str, next, vals + [val])
  {
    hide Parse, ParsePiped, SegmentOf;
    SegmentIs(segment, more);
    assert LeftSpaces(str[pos..]) == 0;
    PipedTurn(g, p, str, pos, vals, pos);
  }

  lemma SegmentIs(segment: string, more: string)
    requires more == "" || more[0] == PIPE
    requires Nest(segment, BRACES, true, 0) == Some(0)
    ensures SegmentOf(segment + more, Some(BRACES)) == Segment(segment, |segment| + if more == "" then 0 else 1)
  {
    hide Nest;
    PipeSkips(segment, more, BRACES, 0);
    assert (segment + more)[..|segment|] == segment && (more == "" ==> segment + more == segment);
  }

  lemma ProcIsPrintable(g: Fns, v: Value, i: nat)
    requires v.Chain? && Printable(g, ArgProc, v, false) && i < |v.procs|
    ensures Printable(g, ArgProc, v.procs[i], false)
  {
  }

  lemma {:induction false} PipedInverts(g: Fns, v: Value, i: nat, pos: nat)
    requires v.Chain? && Printable(g, ArgProc, v, false) && i <= |v.procs|
    requires pos <= |Join(v.procs, PIPE)| && Join(v.procs, PIPE)[pos..] == Join(v.procs[i..], PIPE)
    ensures ParsePiped(g, TOP, Join(v.procs, PIPE), pos, v.procs[..i]) == Ok(List(v.procs), |Join(v.procs, PIPE)|)
    decreases v, 0, |v.procs| - i
  {
    hide Parse, Nest, ParsePiped, Printable, Print, LeftSpaces;
    var str := Join(v.procs, PIPE);
    if i == |v.procs| {
      JoinedNothing();
      assert v.procs[..i] == v.procs;
      assert LeftSpaces(str[pos..]) == 0;
      PipedTurn(g, TOP, str, pos, v.procs[..i], pos);
    } else {
      var head, more := Print(v.procs[i]), v.procs[i + 1..];
      assert v.procs[i..][1..] == more;
      ProcIsPrintable(g, v, i);
      NotAList(g, ArgProc, v.procs[i]);
      PrintedStarts(g, ArgProc, v.procs[i], false);
      PrintedIsNeutral(g, ArgProc, v.procs[i], false);
      ParseInverts(g, ArgProc, v.procs[i], false, "");
      assert head + "" == head;
      assert v.procs[..i] + [v.procs[i]] == v.procs[..i + 1];
      var tail := if more == [] then "" else [PIPE] + Join(more, PIPE);
      PipedTakes(g, TOP, str, pos, v.procs[..i], head, tail);
      var next := if tail == "" then |str| else pos + |head| + 1;
      assert str[next..] == Join(more, PIPE);
      PipedInverts(g, v, i + 1, next);
    }
  }

  // The space between two arguments.
  function Gap(i: nat, n: nat): string {
    if 0 < i < n then " " else ""
  }

  lemma GapIsSkipped(i: nat, n: nat, text: string)
    requires text == "" || !IsSpace(text[0])
    ensures LeftSpaces(Gap(i, n) + text) == |Gap(i, n)|
    ensures (Gap(i, n) + text)[|Gap(i, n)|..] == text
  {
    if 0 < i < n {
      assert (" " + text)[1..] == text;
    } else {
      assert Gap(i, n) + text == text;
    }
  }

  lemma JoinedSplits(vals: seq<Value>, i: nat)
    requires i < |vals|
    ensures Join(vals[i..], ' ') == Print(vals[i]) + (Gap(i + 1, |vals|) + Join(vals[i + 1..], ' '))
    ensures i + 1 == |vals| ==> Gap(i + 1, |vals|) + Join(vals[i + 1..], ' ') == ""
    ensures i + 1 < |vals| ==> Gap(i + 1, |vals|) == " "
  {
    assert vals[i..][1..] == vals[i + 1..];
    if i + 1 == |vals| {
      assert Gap(i + 1, |vals|) + Join(vals[i + 1..], ' ') == "";
    } else {
      assert Gap(i + 1, |vals|) == [' '];
    }
  }

  lemma ListIsPrintable(g: Fns, k: Parser, v: Value, i: nat)
    requires k.ArgVariadic? && Printable(g, k, v, true) && v.List? && i < |v.vals|
    ensures Printable(g, k.arg, v.vals[i], false) && !k.arg.ArgVariadic?
  {
  }

  // One argument, behind its gap, of which the parser takes all.
  lemma VariadicTakes(g: Fns, k: Parser, str: string, pos: nat, vals: seq<Value>, gap: string, head: string,
                      tail: string, val: Value)
    requires k.ArgVariadic? && pos <= |str| && str[pos..] == gap + (head + tail) && head != ""
    requires LeftSpaces(str[pos..]) == |gap| && Parse(g, k.arg, head + tail) == Ok(val, |head|)
    ensures pos + |gap| + |head| <= |str| && str[pos + |gap| + |head|..] == tail
    ensures ParseVariadic(g, k, str, pos, vals) == ParseVariadic(g, k, str, pos + |gap| + |head|, vals + [val])
  {
    hide Parse, ParseVariadic, LeftSpaces;
    SkipTo(str, pos, gap, head, tail);
    VariadicTurn(g, k, str, pos, vals, pos + |gap|);
  }

  lemma {:induction false} VariadicInverts(g: Fns, k: Parser, v: Value, i: nat, pos: nat)
    requires k.ArgVariadic? && Printable(g, k, v, true) && v.List? && i <= |v.vals| && pos <= |Print(v)|
    requires Print(v)[pos..] == Gap(i, |v.vals|) + Join(v.vals[i..], ' ')
    ensures ParseVariadic(g, k, Print(v), pos, v.vals[..i]) == Ok(v, |Print(v)|)
    decreases v, 0, |v.vals| - i
  {
    hide Parse, ParseVariadic, Join, Print, Printable, LeftSpaces, Follows;
    var str, n := Print(v), |v.vals|;
    if i == n {
      assert v.vals[..i] == v.vals && v.vals[i..] == [];
      JoinedNothing();
      VariadicTurn(g, k, str, pos, v.vals[..i], pos);
    } else {
      var head, gap, tail := Print(v.vals[i]), Gap(i, n), Gap(i + 1, n) + Join(v.vals[i + 1..], ' ');
      JoinedSplits(v.vals, i);
      ItemInverts(g, k, v, i);
      GapIsSkipped(i, n, head + tail);
      VariadicTakes(g, k, str, pos, v.vals[..i], gap, head, tail, v.vals[i]);
      assert v.vals[..i] + [v.vals[i]] == v.vals[..i + 1];
      VariadicInverts(g, k, v, i + 1, pos + |gap| + |head|);
    }
  }

  lemma ItemInverts(g: Fns, k: Parser, v: Value, i: nat)
    requires k.ArgVariadic? && Printable(g, k, v, true) && v.List? && i < |v.vals|
    ensures var head, tail := Print(v.vals[i]), Gap(i + 1, |v.vals|) + Join(v.vals[i + 1..], ' ');
      head != "" && !IsSpace(head[0]) && Parse(g, k.arg, head + tail) == Ok(v.vals[i], |head|)
    decreases v, 0, 0
  {
    hide Parse, Join, Print, Printable;
    JoinedSplits(v.vals, i);
    ListIsPrintable(g, k, v, i);
    NotAList(g, k.arg, v.vals[i]);
    PrintedStarts(g, k.arg, v.vals[i], false);
    ParseInverts(g, k.arg, v.vals[i], false, Gap(i + 1, |v.vals|) + Join(v.vals[i + 1..], ' '));
  }

  // Only a last argument may be a list.
  lemma NotAList(g: Fns, k: Parser, v: Value)
    requires Printable(g, k, v, false)
    ensures !v.List? && !k.ArgVariadic?
  {
  }

  lemma SkipTo(str: string, pos: nat, gap: string, head: string, tail: string)
    requires pos <= |str| && str[pos..] == gap + (head + tail)
    ensures pos + |gap| + |head| <= |str|
    ensures str[pos + |gap|..] == head + tail && str[pos + |gap| + |head|..] == tail
  {
    var rest := str[pos..];
    assert rest[|gap|..] == head + tail && rest[|gap| + |head|..] == tail;
    assert str[pos + |gap|..] == rest[|gap|..];
    assert str[pos + |gap| + |head|..] == rest[|gap| + |head|..];
  }

  lemma JoinedNothing()
    ensures Join([], ' ') == "" && LeftSpaces("") == 0
  {
  }

  lemma ArgIsPrintable(g: Fns, v: Value, i: nat)
    requires v.Call? && Printable(g, ArgProc, v, false) && i < |v.args|
    ensures v.name in g && Takes(g[v.name], v.name, |v.args|)
    ensures Printable(g, g[v.name].args.args[i], v.args[i], i == |v.args| - 1)
    ensures v.args[i].List? <==> g[v.name].args.args[i].ArgVariadic?
  {
  }

  lemma {:induction false} ArgsInvert(g: Fns, v: Value, i: nat, pos: nat)
    requires v.Call? && Printable(g, ArgProc, v, false) && i <= |v.args| && pos <= |Join(v.args, ' ')|
    requires v.name in g && Takes(g[v.name], v.name, |v.args|)
    requires Join(v.args, ' ')[pos..] == Gap(i, |v.args|) + Join(v.args[i..], ' ')
    ensures ParseArgs(g, g[v.name].args, Join(v.args, ' '), i, pos, v.args[..i]) ==
            Ok(List(v.args), |Join(v.args, ' ')|)
    decreases v, 0, |v.args| - i
  {
    hide Parse, ParseArgs, Join, Print, Printable, LeftSpaces;
    var str, n, p := Join(v.args, ' '), |v.args|, g[v.name].args;
    if i == n {
      assert v.args[..i] == v.args && v.args[i..] == [];
      JoinedNothing();
      ArgsTurn(g, p, str, i, pos, v.args[..i], pos);
    } else {
      var head, tail := Print(v.args[i]), Gap(i + 1, n) + Join(v.args[i + 1..], ' ');
      var at := pos + |Gap(i, n)|;
      JoinedSplits(v.args, i);
      ArgIsPrintable(g, v, i);
      PrintedStarts(g, p.args[i], v.args[i], i == n - 1);
      SkipTo(str, pos, Gap(i, n), head, tail);
      ArgsInvertOne(g, v, i, pos, at, head, tail);
      ArgsInvert(g, v, i + 1, at + |head|);
    }
  }

  lemma {:induction false} ArgsInvertOne(g: Fns, v: Value, i: nat, pos: nat, at: nat, head: string, tail: string)
    requires v.Call? && Printable(g, ArgProc, v, false) && i < |v.args|
    requires v.name in g && Takes(g[v.name], v.name, |v.args|)
    requires head == Print(v.args[i]) && tail == Gap(i + 1, |v.args|) + Join(v.args[i + 1..], ' ')
    requires var str := Join(v.args, ' ');
      && at == pos + |Gap(i, |v.args|)| && at + |head| <= |str|
      && str[pos..] == Gap(i, |v.args|) + (head + tail) && str[at..] == head + tail && str[at + |head|..] == tail
    ensures var p, str := g[v.name].args, Join(v.args, ' ');
      ParseArgs(g, p, str, i, pos, v.args[..i]) == ParseArgs(g, p, str, i + 1, at + |head|, v.args[..i + 1])
    decreases v, 0, 0
  {
    hide Parse, ParseArgs, Join, Print, Printable, LeftSpaces;
    var str, n, p := Join(v.args, ' '), |v.args|, g[v.name].args;
    ArgIsPrintable(g, v, i);
    PrintedStarts(g, p.args[i], v.args[i], i == n - 1);
    JoinedSplits(v.args, i);
    assert v.args[..i] + [v.args[i]] == v.args[..i + 1];
    if head == "" {
      NotLastIsNoList(g, p.args[i], v.args[i], i == n - 1);
      GapIsSkipped(i, n, "");
    } else {
      GapIsSkipped(i, n, head + tail);
      NotLastIsNoList(g, p.args[i], v.args[i], i == n - 1);
      ParseInverts(g, p.args[i], v.args[i], i == n - 1, tail);
    }
    ArgsTurn(g, p, str, i, pos, v.args[..i], at);
  }

  lemma NotLastIsNoList(g: Fns, k: Parser, v: Value, last: bool)
    requires Printable(g, k, v, last)
    ensures v.List? ==> last
    ensures k.ArgVariadic? ==> v.List?
  {
  }

  /** The parser of argproc.New undoes the printer, on every process string of printable processes. */
  lemma TopInverts(g: Fns, procs: seq<Value>)
    requires forall i :: 0 <= i < |procs| ==> Printable(g, ArgProc, procs[i], false)
    ensures Parse(g, TOP, Join(procs, PIPE)) == Ok(List(procs), |Join(procs, PIPE)|)
  {
    var str := Join(procs, PIPE);
    assert str[0..] == str && procs[0..] == procs && procs[..0] == [];
    assert Printable(g, ArgProc, Chain(procs), false);
    PipedInverts(g, Chain(procs), 0, 0);
  }

  /** Different trees have different texts. */
  lemma PrintIsInjective(g: Fns, a: Value, b: Value)
    requires Printable(g, ArgProc, a, false) && Printable(g, ArgProc, b, false) && Print(a) == Print(b)
    ensures a == b
  {
    ParseInverts(g, ArgProc, a, false, "");
    ParseInverts(g, ArgProc, b, false, "");
  }

  /** Leaving the brackets out up to the end of the text changes nothing but the positions of errors. */
  lemma {:induction false} BracketsAreOptional(g: Fns, fns: Fns, name: string, text: string)
    requires IsName(name) && name in fns && fns[name].brackets == PARENS && Nest(text, PARENS, false, 0) == Some(0)
    requires text == "" || !IsSpace(text[0])
    ensures var a, b := ParseFn(g, fns, name + " " + text), ParseFn(g, fns, name + Wrap(text));
      && (a.Ok? <==> b.Ok?)
      && (a.Ok? ==> a.val == b.val && a.pos == |name + " " + text| && b.pos == |name + Wrap(text)|)
      && (a.Fail? ==> OriginalErr(a.err) == OriginalErr(b.err))
  {
    hide Parse, ParseFn, ParseLambda, TargetOf, Nest;
    BareTarget(name, text);
    FnTurn(g, fns, name + " " + text, |name|);
    var cut := BracketedTarget(name, text, "");
    assert name + Wrap(text) + "" == name + Wrap(text);
    FnTurn(g, fns, name + Wrap(text), |name|);
    assert Wrap(text) + cut == [PARENS.open] + text + [PARENS.close] + "" == Wrap(text);
    LambdaTakes(g, fns[name], text, "");
  }
}
