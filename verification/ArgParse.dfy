/**
 The process-string parsers of argparse/, over the recursive grammar of argproc/argproc.go: a process is a chain in
 braces or a function call, and the arguments of a function may be processes again.
 */
module ArgParse {
  import opened Wrappers
  import opened Digits
  import opened ArgScan

  datatype Value =
    | Nil
    | Str(text: string)
    | Int(n: int)
    | List(vals: seq<Value>)
    | Chain(procs: seq<Value>)
    | Call(name: string, args: seq<Value>)

  /** What a lambda makes of its arguments. */
  datatype Run = RunChain | RunCall(name: string) | NopRun

  datatype Lambda = Lambda(args: Parser, run: Run, brackets: Brackets)

  /** The parser values of the source; ArgProc is the variable the grammar ties its knot with. */
  datatype Parser =
    | ArgStr
    | ArgInt
    | Args(args: seq<Parser>)
    | ArgVariadic(arg: Parser)
    | ArgPiped(piped: Parser, nest: Option<Brackets>)
    | ArgLambda(lambda: Lambda)
    | ArgFn(fns: Fns)
    | ArgOr(first: Parser, others: seq<Parser>)
    | ArgProc

  type Fns = map<string, Lambda>

  datatype Err =
    | InvalidSyntax
    | UnclosedBracket
    | TooManyArgs
    | TooFewArgs
    | NoSuchFunction
    | BadInt
    | WrongReturnType
    | Details(err: Err, str: string, at: nat)

  datatype Outcome = Ok(val: Value, pos: nat) | Fail(err: Err, pos: nat)

  /** argproc.go:52-58. */
  const CHAIN: Lambda := Lambda(ArgPiped(ArgProc, Some(BRACES)), RunChain, BRACES)

  /** argproc.go:25. */
  const TOP: Parser := ArgPiped(ArgProc, Some(BRACES))

  /** argparse.go:75-84. */
  function OriginalErr(err: Err): Err {
    if err.Details? then OriginalErr(err.err) else err
  }

  function Apply(run: Run, args: seq<Value>): Value {
    match run
    case RunChain => Chain(args)
    case RunCall(name) => Call(name, args)
    case NopRun => Nil
  }

  /** strconv.Atoi: a 64-bit int in decimal. */
  function Atoi(text: string): Option<int> {
    var digits := if text != "" && (text[0] == '-' || text[0] == '+') then text[1..] else text;
    if digits == "" || !IsDigit(digits[0]) then None
    else
      var (m, rest) := ReadNat(digits, 0);
      var n: int := m;
      var v := if text[0] == '-' then -n else n;
      if rest != "" || v < -0x8000_0000_0000_0000 || v > 0x7fff_ffff_ffff_ffff then None else Some(v)
  }

  function ParseInt(str: string): (o: Outcome)
    ensures o.pos <= |str| && (str != "" && !IsSpace(str[0]) ==> o.pos > 0)
  {
    var i := SpaceEnd(str);
    match Atoi(str[..i])
    case Some(n) => Ok(Int(n), i)
    case None => Fail(BadInt, i)
  }

  // Where the quoted string that `str` begins with ends: before its closing quote.
  function QuoteEnd(str: string, k: nat): (i: nat)
    requires k <= |str|
    ensures k <= i <= |str| && (i < |str| ==> str[i] == '"')
    decreases |str| - k
  {
    if k == |str| || str[k] == '"' then k else QuoteEnd(str, k + 1)
  }

  /** str.go:12-50: quotes count only if a space or the end follows the closing one. */
  function ParseStr(str: string): (o: Outcome)
    ensures o.pos <= |str| && (str != "" && !IsSpace(str[0]) ==> o.pos > 0)
  {
    var i, q := SpaceEnd(str), if str == "" then 0 else QuoteEnd(str, 1);
    if str == "" || str[0] != '"' || q == |str| || (q + 1 < |str| && !IsSpace(str[q + 1])) then Ok(Str(str[..i]), i)
    else Ok(Str(str[1..q]), q + 1)
  }

  /** fn.go:24-49: the bracketed arguments after the name, up to the last closing bracket. */
  function BracketedArgs(rest: string): (args: string)
    ensures args != "" ==> args <= rest && |args| >= 2
  {
    if rest == "" || rest[0] != PARENS.open || LastOf(PARENS.close, rest) == None then ""
    else rest[..LastOf(PARENS.close, rest).value + 1]
  }

  // What the lambda of a function is given, where that starts, and how many characters were added to it.
  datatype Target = Target(args: string, at: nat, added: nat)

  // The brackets a call without any is given.
  function Wrap(text: string): string {
    [PARENS.open] + text + [PARENS.close]
  }

  function TargetOf(str: string, n: nat): (t: Target)
    requires n <= |str|
    ensures n <= t.at <= |str| && t.added <= 2 && 2 <= |t.args| && t.at + |t.args| - t.added <= |str|
  {
    var args := BracketedArgs(str[n..]);
    if args != "" then Target(args, n, 0)
    else
      var at := n + LeftSpaces(str[n..]);
      Target(Wrap(str[at..]), at, 2)
  }

  // The text up to a top-level pipe, and how far behind it the next segment starts.
  datatype Segment = Segment(text: string, len: nat)

  function SegmentOf(rest: string, nest: Option<Brackets>): (s: Segment)
    ensures s.text <= rest && s.len <= |rest| && (rest != "" ==> s.len > 0)
  {
    match PipeAt(rest, nest, 0)
    case None => Segment(rest, |rest|)
    case Some(i) => Segment(rest[..i], i + 1)
  }

  // How far a successful parse may get: never past the input, and somewhere if it began with something.
  predicate Fits(o: Outcome, str: string) {
    o.Ok? ==> o.pos <= |str| && (str != "" && !IsSpace(str[0]) ==> o.pos > 0)
  }

  // The code a parse error of an alternative is passed over for.
  predicate Retry(o: Outcome) {
    o.Fail? && OriginalErr(o.err) == InvalidSyntax
  }

  // ---------------------------------------------------------------- parsers

  function Parse(g: Fns, p: Parser, str: string): (o: Outcome)
    ensures Fits(o, str)
    ensures o.Ok? && (p.Args? || p.ArgVariadic? || p.ArgPiped?) ==> o.pos == |str| && o.val.List?
    decreases 2 * |str| + 2, p, 1, 0
  {
    match p
    case ArgStr => ParseStr(str)
    case ArgInt => ParseInt(str)
    case Args(args) => ParseArgs(g, p, str, 0, 0, [])
    case ArgVariadic(arg) => ParseVariadic(g, p, str, 0, [])
    case ArgPiped(arg, nest) => ParsePiped(g, p, str, 0, [])
    case ArgLambda(lambda) => ParseLambda(g, lambda, str)
    case ArgFn(fns) => ParseFn(g, fns, str)
    case ArgOr(first, others) =>
      var o := Parse(g, first, str);
      if Retry(o) then ParseOr(g, p, 0, str, o) else o
    case ArgProc =>
      var o := ParseLambda(g, CHAIN, str);
      if Retry(o) then ParseFn(g, g, str) else o
  }

  /** args.go:14-46, from argument i on. */
  function ParseArgs(g: Fns, p: Parser, str: string, i: nat, pos: nat, vals: seq<Value>): (o: Outcome)
    requires p.Args? && i <= |p.args| && pos <= |str|
    ensures o.Ok? ==> o.pos == |str| && o.val.List?
    decreases 2 * |str| + 2, p, 0, |p.args| - i
  {
    var at := pos + LeftSpaces(str[pos..]);
    if i == |p.args| then
      if at != |str| then Fail(TooManyArgs, at) else Ok(List(vals), at)
    else if at >= |str| then
      // only a variadic parser takes nothing
      if p.args[i].ArgVariadic? then ParseArgs(g, p, str, i + 1, at, vals + [List([])]) else Fail(TooFewArgs, at)
    else
      match Parse(g, p.args[i], str[at..])
      case Fail(err, n) => Fail(Details(err, str, at + n), at + n)
      case Ok(val, n) => ParseArgs(g, p, str, i + 1, at + n, vals + [val])
  }

  /** variadic.go:11-28. */
  function ParseVariadic(g: Fns, p: Parser, str: string, pos: nat, vals: seq<Value>): (o: Outcome)
    requires p.ArgVariadic? && pos <= |str|
    ensures o.Ok? ==> o.pos == |str| && o.val.List?
    decreases 2 * |str| + 2, p, 0, |str| - pos
  {
    var at := pos + LeftSpaces(str[pos..]);
    if at >= |str| then Ok(List(vals), at)
    else
      match Parse(g, p.arg, str[at..])
      case Fail(err, n) => Fail(Details(err, str, at + n), at + n)
      case Ok(val, n) => ParseVariadic(g, p, str, at + n, vals + [val])
  }

  /** piped.go:18-60: what a segment's parser leaves of it is passed over. */
  function ParsePiped(g: Fns, p: Parser, str: string, pos: nat, vals: seq<Value>): (o: Outcome)
    requires p.ArgPiped? && pos <= |str|
    ensures o.Ok? ==> o.pos == |str| && o.val.List?
    decreases 2 * |str| + 2, p, 0, |str| - pos
  {
    var at := pos + LeftSpaces(str[pos..]);
    if at >= |str| then Ok(List(vals), at)
    else
      var segment := SegmentOf(str[at..], p.nest);
      match Parse(g, p.piped, segment.text)
      case Fail(err, n) => Fail(Details(err, str, at + n), at)
      case Ok(val, _) => ParsePiped(g, p, str, at + segment.len, vals + [val])
  }

  /** lambda.go:31-71. */
  function ParseLambda(g: Fns, l: Lambda, str: string): (o: Outcome)
    ensures o.Ok? ==> 2 <= o.pos <= |str|
    decreases if |str| < 2 then 0 else 2 * |str| - 2, ArgLambda(l), 0, 0
  {
    if |str| < 2 || str[0] != l.brackets.open then Fail(InvalidSyntax, 0)
    else
      match Close(str[1..], l.brackets, 1)
      case None => Fail(UnclosedBracket, 0)
      case Some(i) =>
        match Parse(g, l.args, str[1..][..i])
        case Fail(err, _) => Fail(err, 0)
        case Ok(val, _) => if val.List? then Ok(Apply(l.run, val.vals), i + 2) else Fail(WrongReturnType, 0)
  }

  /** fn.go:20-49. */
  function ParseFn(g: Fns, fns: Fns, str: string): (o: Outcome)
    ensures Fits(o, str)
    decreases 2 * |str| + 1, ArgProc, 0, 0
  {
    var name := str[..WordEnd(str)];
    if name == "" then Fail(InvalidSyntax, 0)
    else if name !in fns then Fail(NoSuchFunction, 0)
    else
      var t := TargetOf(str, |name|);
      match ParseLambda(g, fns[name], t.args)
      case Fail(err, n) => Fail(Details(err, str, t.at + n), t.at + n)
      case Ok(val, n) => Ok(val, t.at + n - t.added)
  }

  /** or.go:5-14: the first alternative that does not complain about the syntax, or the last. */
  function ParseOr(g: Fns, p: Parser, i: nat, str: string, last: Outcome): (o: Outcome)
    requires p.ArgOr? && i <= |p.others| && Fits(last, str)
    ensures Fits(o, str)
    decreases 2 * |str| + 2, p, 0, |p.others| - i
  {
    if i == |p.others| then last
    else
      var o := Parse(g, p.others[i], str);
      if Retry(o) then ParseOr(g, p, i + 1, str, o) else o
  }

  // ---------------------------------------------------------------- one turn of each loop

  lemma ArgsTurn(g: Fns, p: Parser, str: string, i: nat, pos: nat, vals: seq<Value>, at: nat)
    requires p.Args? && i <= |p.args| && pos <= at <= |str| && LeftSpaces(str[pos..]) == at - pos
    ensures ParseArgs(g, p, str, i, pos, vals) ==
            if i == |p.args| then
              if at != |str| then Fail(TooManyArgs, at) else Ok(List(vals), at)
            else if at == |str| then
              if p.args[i].ArgVariadic? then ParseArgs(g, p, str, i + 1, at, vals + [List([])])
              else Fail(TooFewArgs, at)
            else
              match Parse(g, p.args[i], str[at..])
              case Fail(err, n) => Fail(Details(err, str, at + n), at + n)
              case Ok(val, n) => ParseArgs(g, p, str, i + 1, at + n, vals + [val])
  {
    hide Parse, LeftSpaces, PipeAt;
  }

  lemma VariadicTurn(g: Fns, p: Parser, str: string, pos: nat, vals: seq<Value>, at: nat)
    requires p.ArgVariadic? && pos <= at <= |str| && LeftSpaces(str[pos..]) == at - pos
    ensures ParseVariadic(g, p, str, pos, vals) ==
            if at == |str| then Ok(List(vals), at)
            else
              match Parse(g, p.arg, str[at..])
              case Fail(err, n) => Fail(Details(err, str, at + n), at + n)
              case Ok(val, n) => ParseVariadic(g, p, str, at + n, vals + [val])
  {
    hide Parse, LeftSpaces, PipeAt;
  }

  lemma PipedTurn(g: Fns, p: Parser, str: string, pos: nat, vals: seq<Value>, at: nat)
    requires p.ArgPiped? && pos <= at <= |str| && LeftSpaces(str[pos..]) == at - pos
    ensures ParsePiped(g, p, str, pos, vals) ==
            if at == |str| then Ok(List(vals), at)
            else
              var segment := SegmentOf(str[at..], p.nest);
              match Parse(g, p.piped, segment.text)
              case Fail(err, n) => Fail(Details(err, str, at + n), at)
              case Ok(val, _) => ParsePiped(g, p, str, at + segment.len, vals + [val])
  {
    hide Parse, LeftSpaces, SegmentOf;
  }

  lemma OrTurn(g: Fns, p: Parser, i: nat, str: string, last: Outcome)
    requires p.ArgOr? && i <= |p.others| && Fits(last, str)
    ensures ParseOr(g, p, i, str, last) ==
            if i == |p.others| then last
            else
              var o := Parse(g, p.others[i], str);
              if Retry(o) then ParseOr(g, p, i + 1, str, o) else o
  {
    hide Parse, LeftSpaces, PipeAt;
  }

  lemma FnTurn(g: Fns, fns: Fns, str: string, n: nat)
    requires n == WordEnd(str) && n > 0 && str[..n] in fns
    ensures ParseFn(g, fns, str) ==
            var t := TargetOf(str, n);
            match ParseLambda(g, fns[str[..n]], t.args)
            case Fail(err, m) => Fail(Details(err, str, t.at + m), t.at + m)
            case Ok(val, m) => Ok(val, t.at + m - t.added)
  {
    hide ParseLambda, TargetOf, WordEnd;
  }
}
