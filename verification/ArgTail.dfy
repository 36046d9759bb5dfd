/** What becomes of text behind a process in its segment of a chain: nothing complains about it, and it is dropped. */
module ArgTail {
  import opened Wrappers
  import opened ArgScan
  import opened ArgParse
  import opened ArgPrint

  predicate Blank(text: string) {
    LeftSpaces(text) == |text|
  }

  /** No segment from `pos` on has anything but spaces behind its process. */
  ghost predicate Whole(g: Fns, p: Parser, str: string, pos: nat)
    requires p.ArgPiped? && pos <= |str|
    decreases |str| - pos
  {
    var at := pos + LeftSpaces(str[pos..]);
    at >= |str| ||
    (var segment := SegmentOf(str[at..], p.nest);
     var o := Parse(g, p.piped, segment.text);
     o.Ok? && Blank(segment.text[o.pos..]) && Whole(g, p, str, at + segment.len))
  }

  lemma WholeTurn(g: Fns, p: Parser, str: string, pos: nat, at: nat)
    requires p.ArgPiped? && pos <= at <= |str| && LeftSpaces(str[pos..]) == at - pos
    ensures Whole(g, p, str, pos) <==>
            at == |str| ||
            (var segment := SegmentOf(str[at..], p.nest);
             var o := Parse(g, p.piped, segment.text);
             o.Ok? && Blank(segment.text[o.pos..]) && Whole(g, p, str, at + segment.len))
  {
    hide Parse, LeftSpaces, SegmentOf, Blank;
  }

  // Two ways of going on from the same text.
  ghost predicate Continues(o: Outcome, vals: seq<Value>, end: nat, rest: Outcome) {
    match rest
    case Ok(val, _) => val.List? && o == Ok(List(vals + val.vals), end)
    case Fail(err, _) => o.Fail? && OriginalErr(o.err) == OriginalErr(err)
  }

  /** A chain goes on behind a segment as if it began there. */
  lemma {:induction false} PipedGoesOn(g: Fns, p: Parser, str: string, pos: nat, vals: seq<Value>)
    requires p.ArgPiped? && pos <= |str|
    ensures Continues(ParsePiped(g, p, str, pos, vals), vals, |str|, ParsePiped(g, p, str[pos..], 0, []))
    ensures Whole(g, p, str, pos) <==> Whole(g, p, str[pos..], 0)
    decreases |str| - pos
  {
    hide Parse, ParsePiped, LeftSpaces, SegmentOf, Blank, Whole;
    var rest := str[pos..];
    var left := LeftSpaces(rest);
    assert rest[0..] == rest;
    PipedTurn(g, p, str, pos, vals, pos + left);
    PipedTurn(g, p, rest, 0, [], left);
    WholeTurn(g, p, str, pos, pos + left);
    WholeTurn(g, p, rest, 0, left);
    if left < |rest| {
      assert str[pos + left..] == rest[left..];
      var segment := SegmentOf(rest[left..], p.nest);
      var o := Parse(g, p.piped, segment.text);
      if o.Ok? {
        var next := left + segment.len;
        PipedGoesOn(g, p, str, pos + next, vals + [o.val]);
        PipedGoesOn(g, p, rest, next, [] + [o.val]);
        assert str[pos + next..] == rest[next..];
        SameContinuation(ParsePiped(g, p, str, pos + next, vals + [o.val]), ParsePiped(g, p, rest, next, [] + [o.val]),
                         vals, o.val, |str|, |rest|, ParsePiped(g, p, rest[next..], 0, []));
      }
    } else {
      assert vals + [] == vals;
    }
  }

  lemma SameContinuation(a: Outcome, b: Outcome, vals: seq<Value>, v: Value, m: nat, n: nat, rest: Outcome)
    requires Continues(a, vals + [v], m, rest) && Continues(b, [] + [v], n, rest)
    ensures Continues(a, vals, m, b)
  {
    if rest.Ok? {
      assert (vals + [v]) + rest.val.vals == vals + ([v] + rest.val.vals);
      assert [] + [v] == [v];
    }
  }

  /**
   The text behind a process, up to the next pipe outside braces, is dropped: what comes out is the process, followed
   by what the rest behind the pipe would give on its own.
   */
  lemma {:induction false} TrailingTextIsDropped(g: Fns, v: Value, tail: string)
    requires Printable(g, ArgProc, v, false)
    ensures match PipeAt(tail, Some(BRACES), 0)
      case None => Parse(g, TOP, Print(v) + tail) == Ok(List([v]), |Print(v) + tail|)
      case Some(i) =>
        Continues(Parse(g, TOP, Print(v) + tail), [v], |Print(v) + tail|, Parse(g, TOP, tail[i + 1..]))
  {
    hide Nest, PipeAt, Parse, ParsePiped, Printable, Print, SegmentOf, LeftSpaces;
    FirstSegment(g, v, tail);
    var str := Print(v) + tail;
    var segment := SegmentOf(str, Some(BRACES));
    TopIsPiped(g, str);
    PipedTurn(g, TOP, str, 0, [], 0);
    assert [] + [v] == [v];
    match PipeAt(tail, Some(BRACES), 0)
    case None =>
      NothingMore(str);
      PipedTurn(g, TOP, str, |str|, [v], |str|);
    case Some(i) =>
      TopIsPiped(g, tail[i + 1..]);
      PipedGoesOn(g, TOP, str, segment.len, [v]);
  }

  lemma TopIsPiped(g: Fns, str: string)
    ensures Parse(g, TOP, str) == ParsePiped(g, TOP, str, 0, [])
  {
  }

  lemma NothingMore(str: string)
    ensures str[|str|..] == "" && LeftSpaces(str[|str|..]) == 0
  {
  }

  // What the first segment is, and what its process takes of it.
  lemma FirstSegment(g: Fns, v: Value, tail: string)
    requires Printable(g, ArgProc, v, false)
    ensures var str := Print(v) + tail;
            var segment := SegmentOf(str, Some(BRACES));
      && str[0..] == str && str != "" && LeftSpaces(str) == 0
      && Parse(g, ArgProc, segment.text) == Ok(v, |Print(v)|) && |Print(v)| <= |segment.text|
      && match PipeAt(tail, Some(BRACES), 0)
         case None => segment.text[|Print(v)|..] == tail && segment.len == |str|
         case Some(i) =>
           segment.text[|Print(v)|..] == tail[..i] && segment.len <= |str| && str[segment.len..] == tail[i + 1..]
  {
    hide Nest, PipeAt, Printable, Print, Parse;
    var head, str := Print(v), Print(v) + tail;
    NotAList(g, ArgProc, v);
    PrintedStarts(g, ArgProc, v, false);
    PrintedIsNeutral(g, ArgProc, v, false);
    PipeSkips(head, tail, BRACES, 0);
    match PipeAt(tail, Some(BRACES), 0)
    case None => ParseInverts(g, ArgProc, v, false, tail);
    case Some(i) =>
      ParseInverts(g, ArgProc, v, false, tail[..i]);
      assert str[..|head| + i] == head + tail[..i];
  }

  /** Nothing is lost exactly when only spaces follow the process, and nothing is lost behind the pipe. */
  lemma {:induction false} NothingIsLostIff(g: Fns, v: Value, tail: string)
    requires Printable(g, ArgProc, v, false)
    ensures Whole(g, TOP, Print(v) + tail, 0) <==>
            match PipeAt(tail, Some(BRACES), 0)
            case None => Blank(tail)
            case Some(i) => Blank(tail[..i]) && Whole(g, TOP, tail[i + 1..], 0)
  {
    hide Nest, PipeAt, Whole, Printable, Print, SegmentOf, LeftSpaces, Blank, Parse, ParsePiped;
    FirstSegment(g, v, tail);
    var str := Print(v) + tail;
    var segment := SegmentOf(str, Some(BRACES));
    WholeTurn(g, TOP, str, 0, 0);
    match PipeAt(tail, Some(BRACES), 0)
    case None =>
      NothingMore(str);
      WholeTurn(g, TOP, str, |str|, |str|);
    case Some(i) =>
      PipedGoesOn(g, TOP, str, segment.len, [v]);
  }
}
