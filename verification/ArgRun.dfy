/** The parsers as the source runs them: loops over a position, proved against the functions of ArgParse. */
module ArgRun {
  import opened Wrappers
  import opened ArgScan
  import opened ArgParse

  method Run(g: Fns, p: Parser, str: string) returns (o: Outcome)
    ensures o == Parse(g, p, str)
    decreases 2 * |str| + 2, p, 1
  {
    match p
    case ArgStr => o := ParseStr(str);
    case ArgInt => o := ParseInt(str);
    case Args(_) => o := RunArgs(g, p, str);
    case ArgVariadic(_) => o := RunVariadic(g, p, str);
    case ArgPiped(_, _) => o := RunPiped(g, p, str);
    case ArgLambda(lambda) => o := RunLambda(g, lambda, str);
    case ArgFn(fns) => o := RunFn(g, fns, str);
    case ArgOr(_, _) => o := RunOr(g, p, str);
    case ArgProc =>
      o := RunLambda(g, CHAIN, str);
      if Retry(o) {
        o := RunFn(g, g, str);
      }
  }

  /** args.go:14-46. */
  method RunArgs(g: Fns, p: Parser, str: string) returns (o: Outcome)
    requires p.Args?
    ensures o == ParseArgs(g, p, str, 0, 0, [])
    decreases 2 * |str| + 2, p, 0
  {
    hide Parse, ParseArgs, LeftSpaces;
    var vals, pos, i := [], 0, 0;
    while i < |p.args|
      invariant 0 <= i <= |p.args| && 0 <= pos <= |str|
      invariant ParseArgs(g, p, str, 0, 0, []) == ParseArgs(g, p, str, i, pos, vals)
    {
      var left := CountLeftSpaces(str[pos..]);
      ArgsTurn(g, p, str, i, pos, vals, pos + left);
      pos := pos + left;
      if pos >= |str| {
        if !p.args[i].ArgVariadic? {
          return Fail(TooFewArgs, pos);
        }
        vals := vals + [List([])];
      } else {
        var r := Run(g, p.args[i], str[pos..]);
        match r {
          case Fail(err, n) => return Fail(Details(err, str, pos + n), pos + n);
          case Ok(val, n) =>
            pos := pos + n;
            vals := vals + [val];
        }
      }
      i := i + 1;
    }
    var left := CountLeftSpaces(str[pos..]);
    ArgsTurn(g, p, str, i, pos, vals, pos + left);
    pos := pos + left;
    o := if pos != |str| then Fail(TooManyArgs, pos) else Ok(List(vals), pos);
  }

  /** variadic.go:11-28. */
  method RunVariadic(g: Fns, p: Parser, str: string) returns (o: Outcome)
    requires p.ArgVariadic?
    ensures o == ParseVariadic(g, p, str, 0, [])
    decreases 2 * |str| + 2, p, 0
  {
    hide Parse, ParseVariadic, LeftSpaces;
    var vals, pos := [], 0;
    while true
      invariant 0 <= pos <= |str|
      invariant ParseVariadic(g, p, str, 0, []) == ParseVariadic(g, p, str, pos, vals)
      decreases |str| - pos
    {
      var left := CountLeftSpaces(str[pos..]);
      VariadicTurn(g, p, str, pos, vals, pos + left);
      if pos + left >= |str| {
        return Ok(List(vals), pos + left);
      }
      var r := Run(g, p.arg, str[pos + left..]);
      match r {
        case Fail(err, n) => return Fail(Details(err, str, pos + left + n), pos + left + n);
        case Ok(val, n) =>
          pos := pos + left + n;
          vals := vals + [val];
      }
    }
  }

  /** piped.go:18-60. */
  method RunPiped(g: Fns, p: Parser, str: string) returns (o: Outcome)
    requires p.ArgPiped?
    ensures o == ParsePiped(g, p, str, 0, [])
    decreases 2 * |str| + 2, p, 0
  {
    hide Parse, ParsePiped, LeftSpaces, PipeAt, SegmentOf;
    var vals, pos := [], 0;
    while true
      invariant 0 <= pos <= |str|
      invariant ParsePiped(g, p, str, 0, []) == ParsePiped(g, p, str, pos, vals)
      decreases |str| - pos
    {
      var left := CountLeftSpaces(str[pos..]);
      var at := pos + left;
      PipedTurn(g, p, str, pos, vals, at);
      if at >= |str| {
        return Ok(List(vals), at);
      }
      var segment, adjust := FindSegment(str[at..], p.nest);
      var r := Run(g, p.piped, segment);
      match r {
        case Fail(err, n) => return Fail(Details(err, str, at + n), at);
        case Ok(val, _) =>
          pos := at + |segment| + adjust;
          vals := vals + [val];
      }
    }
  }

  // piped.go:25-50: the text up to the next pipe, and whether there is one.
  method FindSegment(rest: string, nest: Option<Brackets>) returns (segment: string, adjust: nat)
    ensures SegmentOf(rest, nest) == Segment(segment, |segment| + adjust)
  {
    segment, adjust := rest, 0;
    var bar := FindPipe(segment, nest);
    if bar.Some? {
      segment := segment[..bar.value];
      adjust := 1;
    }
  }

  /** lambda.go:31-71. */
  method RunLambda(g: Fns, l: Lambda, str: string) returns (o: Outcome)
    ensures o == ParseLambda(g, l, str)
    decreases if |str| < 2 then 0 else 2 * |str| - 2, ArgLambda(l), 0
  {
    if |str| < 2 || str[0] != l.brackets.open {
      return Fail(InvalidSyntax, 0);
    }
    var i := FindClose(str[1..], l.brackets);
    if i == None {
      return Fail(UnclosedBracket, 0);
    }
    var r := Run(g, l.args, str[1..][..i.value]);
    match r {
      case Fail(err, _) => o := Fail(err, 0);
      case Ok(val, _) => o := if val.List? then Ok(Apply(l.run, val.vals), i.value + 2) else Fail(WrongReturnType, 0);
    }
  }

  /** fn.go:20-49. */
  method RunFn(g: Fns, fns: Fns, str: string) returns (o: Outcome)
    ensures o == ParseFn(g, fns, str)
    decreases 2 * |str| + 1, ArgProc, 0
  {
    hide TargetOf, ParseLambda;
    var name := str[..WordEnd(str)];
    if name == "" {
      return Fail(InvalidSyntax, 0);
    }
    if name !in fns {
      return Fail(NoSuchFunction, 0);
    }
    var pos, args, added := FindTarget(str, |name|);
    var r := RunLambda(g, fns[name], args);
    match r {
      case Fail(err, n) => o := Fail(Details(err, str, pos + n), pos + n);
      case Ok(val, n) => o := Ok(val, pos + n - added);
    }
  }

  /** fn.go:31-39. */
  method FindTarget(str: string, n: nat) returns (pos: nat, args: string, added: nat)
    requires n <= |str|
    ensures Target(args, pos, added) == TargetOf(str, n)
  {
    pos, args, added := n, BracketedArgs(str[n..]), 0;
    if |args| == 0 {
      var left := CountLeftSpaces(str[pos..]);
      pos := pos + left;
      args := Wrap(str[pos..]);
      added := 2;
    }
  }

  /** or.go:5-14. */
  method RunOr(g: Fns, p: Parser, str: string) returns (o: Outcome)
    requires p.ArgOr?
    ensures o == Parse(g, p, str)
    decreases 2 * |str| + 2, p, 0
  {
    o := Run(g, p.first, str);
    var i := 0;
    while i < |p.others|
      invariant 0 <= i <= |p.others| && Fits(o, str)
      invariant Parse(g, p, str) == if Retry(o) then ParseOr(g, p, i, str, o) else o
    {
      if !Retry(o) {
        return;
      }
      OrTurn(g, p, i, str, o);
      o := Run(g, p.others[i], str);
      i := i + 1;
    }
    OrTurn(g, p, i, str, o);
  }
}
