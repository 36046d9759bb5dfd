/** Exactly what the argument parsers accept: integers, strings, and lists of arguments with nothing left over. */
module ArgAccepts {
  import opened Wrappers
  import opened Digits
  import opened ArgScan
  import opened ArgParse

  // ---------------------------------------------------------------- integers

  /** A decimal number with an optional sign, and what it is worth. */
  predicate IsNumber(text: string) {
    text != "" && var digits := if text[0] in {'-', '+'} then text[1..] else text; digits != "" && AllDigits(digits)
  }

  function Worth(text: string): int
    requires IsNumber(text)
  {
    var n: int := Num(if text[0] in {'-', '+'} then text[1..] else text);
    if text[0] == '-' then -n else n
  }

  predicate IsInt64(n: int) {
    -0x8000_0000_0000_0000 <= n < 0x8000_0000_0000_0000
  }

  // Reading the digits comes to the end exactly when they are all digits.
  lemma ReadsAll(digits: string)
    ensures var (n, rest) := ReadNat(digits, 0);
      (rest == "" <==> AllDigits(digits)) && (AllDigits(digits) ==> n == Num(digits))
    ensures AllDigits(digits) && digits != "" ==> IsDigit(digits[0])
  {
    NatRead(digits, 0);
    if AllDigits(digits) {
      DigitsRead(digits, "");
      assert digits + "" == digits;
      NatEnds("", Num(digits));
    } else {
      assert digits[..|digits|] == digits;
    }
    hide ReadNat, Num;
  }

  lemma AtoiIff(text: string)
    ensures Atoi(text) == if IsNumber(text) && IsInt64(Worth(text)) then Some(Worth(text)) else None
  {
    hide ReadNat, Num, AllDigits;
    if text != "" {
      ReadsAll(if text[0] in {'-', '+'} then text[1..] else text);
    }
  }

  /** An integer argument is accepted exactly when the text up to the first space is a 64-bit decimal. */
  lemma IntIff(str: string)
    ensures var text := str[..SpaceEnd(str)];
      ParseInt(str) ==
      if IsNumber(text) && IsInt64(Worth(text)) then Ok(Int(Worth(text)), |text|) else Fail(BadInt, |text|)
  {
    AtoiIff(str[..SpaceEnd(str)]);
    hide Atoi;
  }

  // ---------------------------------------------------------------- strings

  // str begins with a quoted string whose closing quote is at q, with a space or nothing behind it.
  predicate QuotedTo(str: string, q: nat) {
    && 1 <= q < |str| && str[0] == '"' && str[q] == '"' && (forall k :: 1 <= k < q ==> str[k] != '"')
    && (q + 1 == |str| || IsSpace(str[q + 1]))
  }

  // The first space of str, or its end.
  predicate WordTo(str: string, n: nat) {
    n <= |str| && (forall k :: 0 <= k < n ==> !IsSpace(str[k])) && (n == |str| || IsSpace(str[n]))
  }

  lemma {:induction false} FirstQuote(str: string, k: nat)
    requires k <= |str|
    ensures forall j :: k <= j < QuoteEnd(str, k) ==> str[j] != '"'
    decreases |str| - k
  {
    if k < |str| && str[k] != '"' {
      FirstQuote(str, k + 1);
    }
  }

  /** A string argument is what is between the quotes, if they are closed before a space; otherwise up to the space. */
  lemma StrIff(str: string)
    ensures forall q: nat :: QuotedTo(str, q) ==> ParseStr(str) == Ok(Str(str[1..q]), q + 1)
    ensures (forall q: nat :: !QuotedTo(str, q)) ==>
        forall n: nat :: WordTo(str, n) ==> ParseStr(str) == Ok(Str(str[..n]), n)
  {
    if str != "" {
      FirstQuote(str, 1);
    }
    var q: nat := if str == "" then 0 else QuoteEnd(str, 1);
    forall r: nat | QuotedTo(str, r)
      ensures r == q
    {
    }
    forall n: nat | WordTo(str, n)
      ensures n == SpaceEnd(str)
    {
    }
    if str != "" && str[0] == '"' && q < |str| && (q + 1 == |str| || IsSpace(str[q + 1])) {
      assert QuotedTo(str, q);
    }
  }

  // ---------------------------------------------------------------- lists of arguments

  predicate Blank(str: string, from: nat, to: nat) {
    from <= to <= |str| && forall k :: from <= k < to ==> IsSpace(str[k])
  }

  // What p reads from a to b of str; only a variadic argument may read nothing, at the end.
  ghost predicate Reads(g: Fns, p: Parser, str: string, a: nat, b: nat, val: Value)
    requires a <= |str|
  {
    if a == |str| then b == a && p.ArgVariadic? && val == List([])
    else !IsSpace(str[a]) && a <= b <= |str| && Parse(g, p, str[a..]) == Ok(val, b - a)
  }

  // Where argument i may begin.
  function Behind(ends: seq<nat>, i: nat): nat
    requires i <= |ends|
  {
    if i == 0 then 0 else ends[i - 1]
  }

  /** The first n arguments: argument i reads vals[i] from starts[i] to ends[i], and there are spaces in between. */
  ghost predicate Cut(g: Fns, args: seq<Parser>, str: string, vals: seq<Value>, starts: seq<nat>, ends: seq<nat>) {
    && |vals| == |starts| == |ends| <= |args|
    && forall i :: 0 <= i < |vals| ==> Piece(g, args[i], str, vals[i], Behind(ends, i), starts[i], ends[i])
  }

  ghost predicate Piece(g: Fns, p: Parser, str: string, val: Value, pos: nat, start: nat, end: nat) {
    Blank(str, pos, start) && Reads(g, p, str, start, end, val)
  }

  lemma {:induction false} SkipsTo(str: string, pos: nat, at: nat)
    requires Blank(str, pos, at) && (at == |str| || !IsSpace(str[at]))
    ensures LeftSpaces(str[pos..]) == at - pos
    decreases at - pos
  {
    if pos < at {
      SkipsTo(str, pos + 1, at);
      assert str[pos..][1..] == str[pos + 1..];
    }
  }

  lemma SkipsFrom(str: string, pos: nat) returns (at: nat)
    requires pos <= |str|
    ensures at == pos + LeftSpaces(str[pos..]) && Blank(str, pos, at) && (at == |str| || !IsSpace(str[at]))
  {
    at := pos + LeftSpaces(str[pos..]);
    forall k | pos <= k < at
      ensures IsSpace(str[k])
    {
      assert str[k] == str[pos..][k - pos];
    }
    assert at < |str| ==> str[at] == str[pos..][at - pos];
  }

  // One more argument is read.
  lemma CutGrows(g: Fns, args: seq<Parser>, str: string, vals: seq<Value>, starts: seq<nat>, ends: seq<nat>,
                 val: Value, start: nat, end: nat)
    requires Cut(g, args, str, vals, starts, ends) && |vals| < |args|
    requires Piece(g, args[|vals|], str, val, Behind(ends, |vals|), start, end)
    ensures Cut(g, args, str, vals + [val], starts + [start], ends + [end])
    ensures Behind(ends + [end], |vals| + 1) == end
  {
    hide Piece;
    var ends' := ends + [end];
    forall i | 0 <= i <= |vals|
      ensures Piece(g, args[i], str, (vals + [val])[i], Behind(ends', i), (starts + [start])[i], ends'[i])
    {
      assert Behind(ends', i) == Behind(ends, i);
    }
  }

  // One argument, from pos on.
  ghost predicate Taken(g: Fns, p: Parser, str: string, pos: nat, at: nat, end: nat, val: Value) {
    && pos <= at <= end <= |str| && LeftSpaces(str[pos..]) == at - pos
    && if at == |str| then end == at && p.ArgVariadic? && val == List([])
       else Parse(g, p, str[at..]) == Ok(val, end - at)
  }

  lemma ArgsStep(g: Fns, p: Parser, str: string, i: nat, pos: nat, vals: seq<Value>, at: nat, end: nat, val: Value)
    requires p.Args? && i < |p.args| && Taken(g, p.args[i], str, pos, at, end, val)
    ensures ParseArgs(g, p, str, i, pos, vals) == ParseArgs(g, p, str, i + 1, end, vals + [val])
  {
    hide Parse, LeftSpaces, ParseArgs, OriginalErr;
    ArgsTurn(g, p, str, i, pos, vals, at);
  }

  lemma ArgsEnd(g: Fns, p: Parser, str: string, pos: nat, vals: seq<Value>, at: nat)
    requires p.Args? && pos <= at <= |str| && LeftSpaces(str[pos..]) == at - pos
    ensures ParseArgs(g, p, str, |p.args|, pos, vals) ==
            if at == |str| then Ok(List(vals), at) else Fail(TooManyArgs, at)
  {
    hide Parse, LeftSpaces, ParseArgs, OriginalErr;
    ArgsTurn(g, p, str, |p.args|, pos, vals, at);
  }

  lemma ArgsTake(g: Fns, p: Parser, str: string, i: nat, pos: nat, vals: seq<Value>, at: nat)
    returns (end: nat, val: Value)
    requires p.Args? && i < |p.args| && pos <= at <= |str| && LeftSpaces(str[pos..]) == at - pos
    requires ParseArgs(g, p, str, i, pos, vals).Ok?
    ensures Taken(g, p.args[i], str, pos, at, end, val)
  {
    ArgsTurn(g, p, str, i, pos, vals, at);
    hide LeftSpaces, ParseArgs;
    if at == |str| {
      end, val := at, List([]);
    } else {
      var o := Parse(g, p.args[i], str[at..]);
      end, val := at + o.pos, o.val;
    }
    hide Parse;
  }

  lemma TakenEnds(g: Fns, p: Parser, str: string, pos: nat, at: nat, end: nat, val: Value)
    requires Taken(g, p, str, pos, at, end, val)
    ensures end <= |str|
  {
  }

  lemma TakenIsPiece(g: Fns, p: Parser, str: string, pos: nat, at: nat, end: nat, val: Value)
    requires Taken(g, p, str, pos, at, end, val) && Blank(str, pos, at) && (at == |str| || !IsSpace(str[at]))
    ensures Piece(g, p, str, val, pos, at, end)
  {
    hide Parse, LeftSpaces;
  }

  /** What is accepted as arguments is cut into them, with nothing but spaces between and behind them. */
  lemma {:induction false} ArgsAreCut(g: Fns, p: Parser, str: string, vals: seq<Value>, starts: seq<nat>,
                                      ends: seq<nat>)
    returns (vals': seq<Value>, starts': seq<nat>, ends': seq<nat>)
    requires p.Args? && Cut(g, p.args, str, vals, starts, ends) && Behind(ends, |vals|) <= |str|
    requires ParseArgs(g, p, str, |vals|, Behind(ends, |vals|), vals).Ok?
    ensures Cut(g, p.args, str, vals', starts', ends') && |vals'| == |p.args|
    ensures Blank(str, Behind(ends', |vals'|), |str|)
    ensures ParseArgs(g, p, str, |vals|, Behind(ends, |vals|), vals) == Ok(List(vals'), |str|)
    decreases |p.args| - |vals|
  {
    hide *;
    CutFits(g, p.args, str, vals, starts, ends);
    var i, pos := |vals|, Behind(ends, |vals|);
    var at := SkipsFrom(str, pos);
    AtInside(str, pos, at);
    if i == |p.args| {
      ArgsEnd(g, p, str, pos, vals, at);
      vals', starts', ends' := vals, starts, ends;
    } else {
      var end, val := ArgsTake(g, p, str, i, pos, vals, at);
      TakenIsPiece(g, p.args[i], str, pos, at, end, val);
      ArgsStep(g, p, str, i, pos, vals, at, end, val);
      TakenEnds(g, p.args[i], str, pos, at, end, val);
      CutGrows(g, p.args, str, vals, starts, ends, val, at, end);
      vals', starts', ends' := ArgsAreCut(g, p, str, vals + [val], starts + [at], ends + [end]);
    }
  }

  lemma AtInside(str: string, pos: nat, at: nat)
    requires Blank(str, pos, at)
    ensures pos <= at <= |str|
  {
  }

  lemma CutFits(g: Fns, args: seq<Parser>, str: string, vals: seq<Value>, starts: seq<nat>, ends: seq<nat>)
    requires Cut(g, args, str, vals, starts, ends)
    ensures |vals| == |starts| == |ends| <= |args|
  {
  }

  // The i-th piece is the next argument.
  lemma PieceStep(g: Fns, p: Parser, str: string, i: nat, pos: nat, vals: seq<Value>, next: seq<Value>, at: nat,
                  end: nat, val: Value)
    requires p.Args? && i < |p.args| && Taken(g, p.args[i], str, pos, at, end, val) && next == vals + [val]
    ensures ParseArgs(g, p, str, i, pos, vals) == ParseArgs(g, p, str, i + 1, end, next)
  {
    ArgsStep(g, p, str, i, pos, vals, at, end, val);
  }

  lemma CutStep(g: Fns, p: Parser, str: string, vals: seq<Value>, starts: seq<nat>, ends: seq<nat>, i: nat)
    requires p.Args? && Cut(g, p.args, str, vals, starts, ends) && i < |vals| <= |p.args| && |vals| <= |ends|
    requires Behind(ends, i) <= |str| && ends[i] <= |str|
    ensures ParseArgs(g, p, str, i, Behind(ends, i), vals[..i]) == ParseArgs(g, p, str, i + 1, ends[i], vals[..i + 1])
  {
    hide *;
    PieceReads(g, p.args, str, vals, starts, ends, i);
    PieceStep(g, p, str, i, Behind(ends, i), vals[..i], vals[..i + 1], starts[i], ends[i], vals[i]);
  }

  /** And text that is cut so is accepted, with those values. */
  lemma {:induction false} CutIsAccepted(g: Fns, p: Parser, str: string, vals: seq<Value>, starts: seq<nat>,
                                         ends: seq<nat>, i: nat)
    requires p.Args? && Cut(g, p.args, str, vals, starts, ends) && |vals| == |p.args| && i <= |vals| <= |ends|
    requires Blank(str, Behind(ends, |vals|), |str|) && Behind(ends, i) <= |str|
    ensures ParseArgs(g, p, str, i, Behind(ends, i), vals[..i]) == Ok(List(vals), |str|)
    decreases |vals| - i
  {
    hide *;
    if i == |vals| {
      SkipsTo(str, Behind(ends, i), |str|);
      ArgsEnd(g, p, str, Behind(ends, i), vals[..i], |str|);
      assert vals[..i] == vals;
    } else {
      PieceReads(g, p.args, str, vals, starts, ends, i);
      CutStep(g, p, str, vals, starts, ends, i);
      CutIsAccepted(g, p, str, vals, starts, ends, i + 1);
    }
  }

  lemma PieceReads(g: Fns, args: seq<Parser>, str: string, vals: seq<Value>, starts: seq<nat>, ends: seq<nat>, i: nat)
    requires Cut(g, args, str, vals, starts, ends) && i < |vals|
    ensures i < |starts| && i < |ends| && i < |args| && Behind(ends, i + 1) == ends[i]
    ensures Behind(ends, i) <= starts[i] <= ends[i] <= |str|
    ensures Taken(g, args[i], str, Behind(ends, i), starts[i], ends[i], vals[i])
  {
    hide Parse, LeftSpaces;
    assert Piece(g, args[i], str, vals[i], Behind(ends, i), starts[i], ends[i]);
    SkipsTo(str, Behind(ends, i), starts[i]);
  }

  /**
   A list of arguments is accepted if and only if the text can be cut into one piece for each argument, spaces in
   between, and nothing but spaces left over.
   */
  lemma ArgsIff(g: Fns, p: Parser, str: string, vals: seq<Value>)
    requires p.Args?
    ensures Parse(g, p, str) == Ok(List(vals), |str|) <==>
            exists starts, ends ::
              && Cut(g, p.args, str, vals, starts, ends) && |vals| == |p.args|
              && Blank(str, Behind(ends, |vals|), |str|)
    ensures Parse(g, p, str).Ok? ==> exists all :: Parse(g, p, str) == Ok(List(all), |str|)
  {
    assert Parse(g, p, str) == ParseArgs(g, p, str, 0, 0, []);
    hide Parse, ParseArgs, Blank, Piece;
    assert Cut(g, p.args, str, [], [], []);
    if Parse(g, p, str).Ok? {
      var all, starts, ends := ArgsAreCut(g, p, str, [], [], []);
      CutFits(g, p.args, str, all, starts, ends);
    }
    forall starts, ends |
      && Cut(g, p.args, str, vals, starts, ends) && |vals| == |p.args|
      && Blank(str, Behind(ends, |vals|), |str|)
      ensures Parse(g, p, str) == Ok(List(vals), |str|)
    {
      CutFits(g, p.args, str, vals, starts, ends);
      CutIsAccepted(g, p, str, vals, starts, ends, 0);
      assert vals[..0] == [];
    }
  }

  // ---------------------------------------------------------------- any number of arguments

  // As many times the same parser as there are values.
  function Same(p: Parser, n: nat): (ps: seq<Parser>)
    ensures |ps| == n && forall i :: 0 <= i < n ==> ps[i] == p
  {
    seq(n, i => p)
  }

  lemma SameOneMore(g: Fns, p: Parser, str: string, vals: seq<Value>, starts: seq<nat>, ends: seq<nat>)
    requires Cut(g, Same(p, |vals|), str, vals, starts, ends)
    ensures Cut(g, Same(p, |vals| + 1), str, vals, starts, ends)
  {
    hide Piece;
  }

  // Every argument begins before the end of the text.
  ghost predicate Started(str: string, starts: seq<nat>) {
    forall i :: 0 <= i < |starts| ==> starts[i] < |str|
  }

  lemma VariadicStep(g: Fns, p: Parser, str: string, pos: nat, vals: seq<Value>, at: nat, end: nat, val: Value)
    requires p.ArgVariadic? && Taken(g, p.arg, str, pos, at, end, val) && at < |str|
    ensures ParseVariadic(g, p, str, pos, vals) == ParseVariadic(g, p, str, end, vals + [val])
  {
    hide Parse, LeftSpaces, ParseVariadic, OriginalErr;
    VariadicTurn(g, p, str, pos, vals, at);
  }

  lemma VariadicEnd(g: Fns, p: Parser, str: string, pos: nat, vals: seq<Value>)
    requires p.ArgVariadic? && pos <= |str| && LeftSpaces(str[pos..]) == |str| - pos
    ensures ParseVariadic(g, p, str, pos, vals) == Ok(List(vals), |str|)
  {
    hide Parse, LeftSpaces, ParseVariadic, OriginalErr;
    VariadicTurn(g, p, str, pos, vals, |str|);
  }

  lemma VariadicTake(g: Fns, p: Parser, str: string, pos: nat, vals: seq<Value>, at: nat)
    returns (end: nat, val: Value)
    requires p.ArgVariadic? && pos <= at < |str| && LeftSpaces(str[pos..]) == at - pos && !IsSpace(str[at])
    requires ParseVariadic(g, p, str, pos, vals).Ok?
    ensures Taken(g, p.arg, str, pos, at, end, val) && end > at
  {
    VariadicTurn(g, p, str, pos, vals, at);
    hide LeftSpaces, ParseVariadic;
    var o := Parse(g, p.arg, str[at..]);
    assert str[at..][0] == str[at];
    end, val := at + o.pos, o.val;
    hide Parse;
  }

  lemma StartedOneMore(str: string, starts: seq<nat>, at: nat)
    requires Started(str, starts) && at < |str|
    ensures Started(str, starts + [at])
  {
  }

  lemma {:induction false} VariadicIsCut(g: Fns, p: Parser, str: string, vals: seq<Value>, starts: seq<nat>,
                                         ends: seq<nat>, pos: nat)
    returns (vals': seq<Value>, starts': seq<nat>, ends': seq<nat>)
    requires p.ArgVariadic? && Cut(g, Same(p.arg, |vals|), str, vals, starts, ends) && Started(str, starts)
    requires |vals| <= |ends| && pos == Behind(ends, |vals|) <= |str|
    requires ParseVariadic(g, p, str, pos, vals).Ok?
    ensures Cut(g, Same(p.arg, |vals'|), str, vals', starts', ends') && Started(str, starts') && |vals'| <= |ends'|
    ensures Blank(str, Behind(ends', |vals'|), |str|)
    ensures ParseVariadic(g, p, str, pos, vals) == Ok(List(vals'), |str|)
    decreases |str| - pos
  {
    hide *;
    CutFits(g, Same(p.arg, |vals|), str, vals, starts, ends);
    var at := SkipsFrom(str, pos);
    AtInside(str, pos, at);
    if at == |str| {
      VariadicEnd(g, p, str, pos, vals);
      vals', starts', ends' := vals, starts, ends;
    } else {
      var end, val := VariadicTake(g, p, str, pos, vals, at);
      TakenIsPiece(g, p.arg, str, pos, at, end, val);
      VariadicStep(g, p, str, pos, vals, at, end, val);
      TakenEnds(g, p.arg, str, pos, at, end, val);
      SameOneMore(g, p.arg, str, vals, starts, ends);
      CutGrows(g, Same(p.arg, |vals| + 1), str, vals, starts, ends, val, at, end);
      StartedOneMore(str, starts, at);
      vals', starts', ends' := VariadicIsCut(g, p, str, vals + [val], starts + [at], ends + [end], end);
    }
  }

  lemma VariadicCutStep(g: Fns, p: Parser, str: string, vals: seq<Value>, starts: seq<nat>, ends: seq<nat>, i: nat)
    requires p.ArgVariadic? && Cut(g, Same(p.arg, |vals|), str, vals, starts, ends) && Started(str, starts)
    requires i < |vals| <= |ends| && Behind(ends, i) <= |str| && ends[i] <= |str|
    ensures ParseVariadic(g, p, str, Behind(ends, i), vals[..i]) == ParseVariadic(g, p, str, ends[i], vals[..i + 1])
  {
    hide *;
    PieceReads(g, Same(p.arg, |vals|), str, vals, starts, ends, i);
    StartedAt(str, starts, i);
    assert vals[..i + 1] == vals[..i] + [vals[i]];
    VariadicStep(g, p, str, Behind(ends, i), vals[..i], starts[i], ends[i], vals[i]);
  }

  lemma StartedAt(str: string, starts: seq<nat>, i: nat)
    requires Started(str, starts) && i < |starts|
    ensures starts[i] < |str|
  {
  }

  lemma {:induction false} VariadicCutIsAccepted(g: Fns, p: Parser, str: string, vals: seq<Value>, starts: seq<nat>,
                                                 ends: seq<nat>, i: nat)
    requires p.ArgVariadic? && Cut(g, Same(p.arg, |vals|), str, vals, starts, ends) && Started(str, starts)
    requires i <= |vals| <= |ends| && Blank(str, Behind(ends, |vals|), |str|) && Behind(ends, i) <= |str|
    ensures ParseVariadic(g, p, str, Behind(ends, i), vals[..i]) == Ok(List(vals), |str|)
    decreases |vals| - i
  {
    hide *;
    if i == |vals| {
      SkipsTo(str, Behind(ends, i), |str|);
      VariadicEnd(g, p, str, Behind(ends, i), vals[..i]);
      assert vals[..i] == vals;
    } else {
      PieceReads(g, Same(p.arg, |vals|), str, vals, starts, ends, i);
      VariadicCutStep(g, p, str, vals, starts, ends, i);
      VariadicCutIsAccepted(g, p, str, vals, starts, ends, i + 1);
    }
  }

  /** The same for any number of arguments of one kind. */
  lemma VariadicIff(g: Fns, p: Parser, str: string, vals: seq<Value>)
    requires p.ArgVariadic?
    ensures Parse(g, p, str) == Ok(List(vals), |str|) <==>
            exists starts, ends ::
              && Cut(g, Same(p.arg, |vals|), str, vals, starts, ends) && Started(str, starts) && |vals| <= |ends|
              && Blank(str, Behind(ends, |vals|), |str|)
    ensures Parse(g, p, str).Ok? ==> exists all :: Parse(g, p, str) == Ok(List(all), |str|)
  {
    assert Parse(g, p, str) == ParseVariadic(g, p, str, 0, []);
    hide Parse, ParseVariadic, Blank, Piece;
    assert Cut(g, Same(p.arg, 0), str, [], [], []) && Started(str, []);
    if Parse(g, p, str).Ok? {
      var all, starts, ends := VariadicIsCut(g, p, str, [], [], [], 0);
    }
    forall starts, ends |
      && Cut(g, Same(p.arg, |vals|), str, vals, starts, ends) && Started(str, starts) && |vals| <= |ends|
      && Blank(str, Behind(ends, |vals|), |str|)
      ensures Parse(g, p, str) == Ok(List(vals), |str|)
    {
      VariadicCutIsAccepted(g, p, str, vals, starts, ends, 0);
      assert vals[..0] == [];
    }
  }

  // ---------------------------------------------------------------- alternatives

  // The alternatives of an ArgOr.
  function Alternatives(p: Parser): seq<Parser>
    requires p.ArgOr?
  {
    [p.first] + p.others
  }

  // The outcome is that of alternative k; all before it complain about the syntax, and k does only if it is the last.
  ghost predicate Chosen(g: Fns, p: Parser, str: string, o: Outcome, k: nat)
    requires p.ArgOr?
  {
    && k < |Alternatives(p)| && o == Parse(g, Alternatives(p)[k], str)
    && (forall j :: 0 <= j < k ==> Retry(Parse(g, Alternatives(p)[j], str)))
    && (Retry(o) ==> k + 1 == |Alternatives(p)|)
  }

  /** The outcome is that of the first alternative that does not complain about the syntax, or else of the last. */
  lemma OrIsFirst(g: Fns, p: Parser, str: string)
    requires p.ArgOr?
    ensures exists k :: Chosen(g, p, str, Parse(g, p, str), k)
  {
    var o := Parse(g, p.first, str);
    assert Parse(g, p, str) == if Retry(o) then ParseOr(g, p, 0, str, o) else o;
    assert Alternatives(p)[0] == p.first;
    hide Parse, ParseOr, Retry;
    if Retry(o) {
      var k := OrFrom(g, p, 0, str, o);
    } else {
      assert Chosen(g, p, str, o, 0);
    }
  }

  lemma {:induction false} OrFrom(g: Fns, p: Parser, i: nat, str: string, last: Outcome) returns (k: nat)
    requires p.ArgOr? && i <= |p.others| && Fits(last, str) && Retry(last)
    requires Parse(g, Alternatives(p)[i], str) == last
    requires forall j :: 0 <= j < i ==> Retry(Parse(g, Alternatives(p)[j], str))
    ensures Chosen(g, p, str, ParseOr(g, p, i, str, last), k)
    decreases |p.others| - i
  {
    hide Parse, ParseOr, Retry;
    OrTurn(g, p, i, str, last);
    k := i;
    if i < |p.others| {
      var o := Parse(g, p.others[i], str);
      assert Alternatives(p)[i + 1] == p.others[i];
      k := i + 1;
      if Retry(o) {
        k := OrFrom(g, p, i + 1, str, o);
      }
    }
  }
}
