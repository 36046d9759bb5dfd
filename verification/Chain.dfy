/**
 The staged pipeline of procs/chain.go. Every stage runs on its own, and every result it yields is forwarded
 by its own goroutine, so results overtake one another; errors pass stages by until one accepts them.
 */
module Chain {
  import opened Wrappers

  /** A result: a chunk, an error, or an error with the chunk it concerns. */
  datatype Res<+C, +E> = Res(chunk: Option<C>, err: Option<E>)

  /** A stateless proc; `recover` is there when it accepts errors. */
  datatype Proc<!C, !E> = Proc(process: C -> seq<Res<C, E>>, recover: Option<(C, E) -> seq<Res<C, E>>>)

  /** What a stage does with one result: chain.go:52-62. A result without an error always has a chunk. */
  function Handle<C, E>(p: Proc<C, E>, r: Res<C, E>): seq<Res<C, E>> {
    if r.err.Some? then
      if p.recover.Some? && r.chunk.Some? then p.recover.value(r.chunk.value, r.err.value) else [r]
    else if r.chunk.Some? then p.process(r.chunk.value)
    else []
  }

  /** A forwarder: results still to be handed to stage `stage`; past the last stage, to the caller. */
  datatype Forwarder<C, E> = Forwarder(stage: nat, outs: seq<Res<C, E>>)

  /**
   `log` records what entered which stage, in time order; entries past the last stage are the output.
   `closed` counts the stages whose output channel is closed, from the left.
   */
  datatype State<C, E> = State(items: seq<Forwarder<C, E>>, closed: nat, log: seq<(nat, Res<C, E>)>)

  datatype Event = Move(j: nat) | Close

  ghost predicate Enabled<C, E>(procs: seq<Proc<C, E>>, s: State<C, E>, ev: Event) {
    match ev
    case Move(j) => j < |s.items| && s.items[j].outs != []
    // all results of the stage before are in, and all its own results are handed on
    case Close => s.closed < |procs| && forall f :: f in s.items && f.stage <= s.closed + 1 ==> f.outs == []
  }

  /** `endErr` is what the end-of-stream calls of the last stage report (chain.go:73-78). */
  ghost function Next<C, E>(procs: seq<Proc<C, E>>, endErr: Option<E>, s: State<C, E>, ev: Event): State<C, E>
    requires Enabled(procs, s, ev)
  {
    match ev
    case Move(j) =>
      var f := s.items[j];
      var rest := s.items[j := Forwarder(f.stage, f.outs[1..])];
      s.(log := s.log + [(f.stage, f.outs[0])],
         items := if f.stage < |procs| then rest + [Forwarder(f.stage + 1, Handle(procs[f.stage], f.outs[0]))]
                  else rest)
    case Close =>
      s.(closed := s.closed + 1,
         log := s.log + if s.closed + 1 == |procs| && endErr.Some? then [(|procs|, Res(None, endErr))] else [])
  }

  ghost predicate Runs<C, E>(procs: seq<Proc<C, E>>, endErr: Option<E>, s: State<C, E>, run: seq<Event>, t: State<C, E>)
    decreases run
  {
    if run == [] then s == t
    else Enabled(procs, s, run[0]) && Runs(procs, endErr, Next(procs, endErr, s, run[0]), run[1..], t)
  }

  ghost function Start<C, E>(c: C): State<C, E> {
    State([Forwarder(0, [Res(Some(c), None)])], 0, [])
  }

  // ---------------------------------------------------------------- the sequential meaning

  function Left(m: nat, i: nat): nat {
    if i <= m then m - i + 1 else 0
  }

  /** The results that reach stage m when r enters stage i and every proc is applied to all results in turn. */
  ghost function Bind<C, E>(procs: seq<Proc<C, E>>, m: nat, i: nat, r: Res<C, E>): multiset<Res<C, E>>
    decreases Left(m, i), 0
  {
    if i > m then multiset{}
    else if i == m then multiset{r}
    else if i >= |procs| then multiset{}
    else BindAll(procs, m, i + 1, Handle(procs[i], r))
  }

  ghost function BindAll<C, E>(procs: seq<Proc<C, E>>, m: nat, i: nat, outs: seq<Res<C, E>>): multiset<Res<C, E>>
    decreases Left(m, i), |outs|
  {
    if outs == [] then multiset{} else Bind(procs, m, i, outs[0]) + BindAll(procs, m, i, outs[1..])
  }

  // What the forwarders still bring to stage m.
  ghost function Coming<C, E>(procs: seq<Proc<C, E>>, m: nat, items: seq<Forwarder<C, E>>): multiset<Res<C, E>> {
    if items == [] then multiset{}
    else BindAll(procs, m, items[0].stage, items[0].outs) + Coming(procs, m, items[1..])
  }

  // A result at stage i, as far as it is at stage m.
  ghost function Here<C, E>(m: nat, i: nat, r: Res<C, E>): multiset<Res<C, E>> {
    if i == m then multiset{r} else multiset{}
  }

  // What the next stage makes of a result, as stage m will see it.
  ghost function Passed<C, E>(procs: seq<Proc<C, E>>, m: nat, i: nat, r: Res<C, E>): multiset<Res<C, E>> {
    if i < |procs| then BindAll(procs, m, i + 1, Handle(procs[i], r)) else multiset{}
  }

  // What entered stage m.
  ghost function Entered<C, E>(log: seq<(nat, Res<C, E>)>, m: nat): multiset<Res<C, E>> {
    if log == [] then multiset{}
    else
      var last := log[|log| - 1];
      Entered(log[..|log| - 1], m) + Here(m, last.0, last.1)
  }

  // The number of moves a result takes to be used up.
  ghost function Work<C, E>(procs: seq<Proc<C, E>>, i: nat, r: Res<C, E>): nat
    decreases Left(|procs|, i), 0
  {
    if i >= |procs| then 1 else 1 + WorkAll(procs, i + 1, Handle(procs[i], r))
  }

  ghost function WorkAll<C, E>(procs: seq<Proc<C, E>>, i: nat, outs: seq<Res<C, E>>): nat
    decreases Left(|procs|, i), |outs|
  {
    if outs == [] then 0 else Work(procs, i, outs[0]) + WorkAll(procs, i, outs[1..])
  }

  ghost function WorkLeft<C, E>(procs: seq<Proc<C, E>>, items: seq<Forwarder<C, E>>): nat {
    if items == [] then 0 else WorkAll(procs, items[0].stage, items[0].outs) + WorkLeft(procs, items[1..])
  }

  // ---------------------------------------------------------------- sums over the forwarders

  lemma Regroup<T>(a: multiset<T>, b: multiset<T>, x: multiset<T>, c: multiset<T>, y: multiset<T>)
    requires b + x == c + y
    ensures (a + b) + x == (a + c) + y
  {
    assert (a + b) + x == a + (b + x);
    assert (a + c) + y == a + (c + y);
  }

  lemma Cancel<T>(b: multiset<T>, x: multiset<T>, r: multiset<T>, c: multiset<T>)
    requires b + (x + r) == c + r
    ensures b + x == c
  {
    forall e
      ensures (b + x)[e] == c[e]
    {
      assert (b + (x + r))[e] == (c + r)[e];
    }
  }

  lemma {:induction false} ComingOfUpdate<C, E>(procs: seq<Proc<C, E>>, m: nat, items: seq<Forwarder<C, E>>, j: nat,
                                                f: Forwarder<C, E>)
    requires j < |items|
    ensures Coming(procs, m, items[j := f]) + BindAll(procs, m, items[j].stage, items[j].outs) ==
            Coming(procs, m, items) + BindAll(procs, m, f.stage, f.outs)
  {
    hide BindAll;
    if j == 0 {
      assert items[j := f][1..] == items[1..];
    } else {
      assert items[j := f][1..] == items[1..][j - 1 := f];
      ComingOfUpdate(procs, m, items[1..], j - 1, f);
      Regroup(BindAll(procs, m, items[0].stage, items[0].outs), Coming(procs, m, items[1..][j - 1 := f]),
              BindAll(procs, m, items[j].stage, items[j].outs), Coming(procs, m, items[1..]),
              BindAll(procs, m, f.stage, f.outs));
    }
  }

  lemma {:induction false} ComingOfAppend<C, E>(procs: seq<Proc<C, E>>, m: nat, items: seq<Forwarder<C, E>>,
                                                f: Forwarder<C, E>)
    ensures Coming(procs, m, items + [f]) == Coming(procs, m, items) + BindAll(procs, m, f.stage, f.outs)
  {
    hide BindAll;
    if items == [] {
      assert ([f])[1..] == [];
    } else {
      assert (items + [f])[1..] == items[1..] + [f];
      ComingOfAppend(procs, m, items[1..], f);
    }
  }

  lemma {:induction false} WorkOfUpdate<C, E>(procs: seq<Proc<C, E>>, items: seq<Forwarder<C, E>>, j: nat,
                                              f: Forwarder<C, E>)
    requires j < |items|
    ensures WorkLeft(procs, items[j := f]) + WorkAll(procs, items[j].stage, items[j].outs) ==
            WorkLeft(procs, items) + WorkAll(procs, f.stage, f.outs)
  {
    hide WorkAll;
    if j == 0 {
      assert items[j := f][1..] == items[1..];
    } else {
      assert items[j := f][1..] == items[1..][j - 1 := f];
      WorkOfUpdate(procs, items[1..], j - 1, f);
    }
  }

  lemma {:induction false} WorkOfAppend<C, E>(procs: seq<Proc<C, E>>, items: seq<Forwarder<C, E>>, f: Forwarder<C, E>)
    ensures WorkLeft(procs, items + [f]) == WorkLeft(procs, items) + WorkAll(procs, f.stage, f.outs)
  {
    hide WorkAll;
    if items == [] {
      assert ([f])[1..] == [];
    } else {
      assert (items + [f])[1..] == items[1..] + [f];
      WorkOfAppend(procs, items[1..], f);
    }
  }

  lemma EnteredOneMore<C, E>(log: seq<(nat, Res<C, E>)>, m: nat, x: (nat, Res<C, E>))
    ensures Entered(log + [x], m) == Entered(log, m) + Here(m, x.0, x.1)
  {
    assert (log + [x])[..|log|] == log;
  }

  // ---------------------------------------------------------------- every event keeps

  // A result either is at stage m, or will come to it through the next stage, or never will.
  lemma BindOneStage<C, E>(procs: seq<Proc<C, E>>, m: nat, i: nat, r: Res<C, E>)
    requires m <= |procs|
    ensures Bind(procs, m, i, r) == Here(m, i, r) + Passed(procs, m, i, r)
  {
    hide Handle;
    if i < |procs| {
      BindPast(procs, m, i + 1, Handle(procs[i], r));
    }
  }

  // Handing on its first result takes that result out of what a forwarder brings.
  lemma FirstLeaves<C, E>(procs: seq<Proc<C, E>>, m: nat, items: seq<Forwarder<C, E>>, j: nat)
    requires j < |items| && items[j].outs != []
    ensures var f := items[j];
      Coming(procs, m, items[j := Forwarder(f.stage, f.outs[1..])]) + Bind(procs, m, f.stage, f.outs[0]) ==
      Coming(procs, m, items)
  {
    hide Coming, Bind, BindAll;
    var f := items[j];
    var f' := Forwarder(f.stage, f.outs[1..]);
    ComingOfUpdate(procs, m, items, j, f');
    BindFirst(procs, m, f.stage, f.outs);
    Cancel(Coming(procs, m, items[j := f']), Bind(procs, m, f.stage, f.outs[0]), BindAll(procs, m, f.stage, f'.outs),
           Coming(procs, m, items));
  }

  lemma BindFirst<C, E>(procs: seq<Proc<C, E>>, m: nat, i: nat, outs: seq<Res<C, E>>)
    requires outs != []
    ensures BindAll(procs, m, i, outs) == Bind(procs, m, i, outs[0]) + BindAll(procs, m, i, outs[1..])
  {
    hide Bind;
  }

  // A move swaps what a result comes to for what the next stage makes of it.
  lemma MoveComes<C, E>(procs: seq<Proc<C, E>>, endErr: Option<E>, s: State<C, E>, j: nat, m: nat)
    requires Enabled(procs, s, Move(j))
    ensures var f := s.items[j];
      Coming(procs, m, Next(procs, endErr, s, Move(j)).items) + Bind(procs, m, f.stage, f.outs[0]) ==
      Coming(procs, m, s.items) + Passed(procs, m, f.stage, f.outs[0])
  {
    hide Coming, Bind, BindAll, Handle;
    var f := s.items[j];
    var r, rest := f.outs[0], s.items[j := Forwarder(f.stage, f.outs[1..])];
    FirstLeaves(procs, m, s.items, j);
    if f.stage < |procs| {
      ComingOfAppend(procs, m, rest, Forwarder(f.stage + 1, Handle(procs[f.stage], r)));
      Swap(Coming(procs, m, rest), Passed(procs, m, f.stage, r), Bind(procs, m, f.stage, r));
    }
  }

  /** A move neither loses nor invents what stage m is going to see. */
  lemma {:induction false} MoveConserves<C, E>(procs: seq<Proc<C, E>>, endErr: Option<E>, s: State<C, E>, j: nat,
                                               m: nat)
    requires Enabled(procs, s, Move(j)) && m <= |procs|
    ensures var t := Next(procs, endErr, s, Move(j));
      Entered(t.log, m) + Coming(procs, m, t.items) == Entered(s.log, m) + Coming(procs, m, s.items)
  {
    hide Handle, Bind, BindAll, Coming, Entered, Passed, Here;
    var t, f := Next(procs, endErr, s, Move(j)), s.items[j];
    var r := f.outs[0];
    EnteredOneMore(s.log, m, (f.stage, r));
    MoveComes(procs, endErr, s, j, m);
    BindOneStage(procs, m, f.stage, r);
    Cancel(Coming(procs, m, t.items), Here(m, f.stage, r), Passed(procs, m, f.stage, r), Coming(procs, m, s.items));
    Assoc(Entered(s.log, m), Here(m, f.stage, r), Coming(procs, m, t.items));
  }

  lemma Assoc<T>(e: multiset<T>, l: multiset<T>, c: multiset<T>)
    ensures (e + l) + c == e + (c + l)
  {
  }

  lemma {:induction false} BindPast<C, E>(procs: seq<Proc<C, E>>, m: nat, i: nat, outs: seq<Res<C, E>>)
    ensures i > m ==> BindAll(procs, m, i, outs) == multiset{}
  {
    if i > m && outs != [] {
      BindPast(procs, m, i, outs[1..]);
    }
  }

  /** A move uses up exactly one unit of work. */
  lemma MoveWorks<C, E>(procs: seq<Proc<C, E>>, endErr: Option<E>, s: State<C, E>, j: nat)
    requires Enabled(procs, s, Move(j))
    ensures WorkLeft(procs, Next(procs, endErr, s, Move(j)).items) + 1 == WorkLeft(procs, s.items)
  {
    hide Handle;
    var f := s.items[j];
    var f' := Forwarder(f.stage, f.outs[1..]);
    WorkOfUpdate(procs, s.items, j, f');
    if f.stage < |procs| {
      WorkOfAppend(procs, s.items[j := f'], Forwarder(f.stage + 1, Handle(procs[f.stage], f.outs[0])));
    }
  }

  // What the end-of-stream calls add to the output once the last stage is closed.
  ghost function Extra<C, E>(procs: seq<Proc<C, E>>, endErr: Option<E>, m: nat, closed: nat): multiset<Res<C, E>> {
    if m == |procs| && 0 < closed == |procs| && endErr.Some? then multiset{Res(None, endErr)} else multiset{}
  }

  /** Nothing is lost on the way: what reached a stage and what is coming to it is what the sequential bind yields. */
  ghost predicate Conserved<C, E>(procs: seq<Proc<C, E>>, endErr: Option<E>, c: C, s: State<C, E>, m: nat) {
    Entered(s.log, m) + Coming(procs, m, s.items) ==
    Bind(procs, m, 0, Res(Some(c), None)) + Extra(procs, endErr, m, s.closed)
  }

  // Nothing is ever handed to a channel that is closed.
  ghost predicate Quiet<C, E>(procs: seq<Proc<C, E>>, s: State<C, E>) {
    && s.closed <= |procs|
    && (forall j :: 0 <= j < |s.items| ==> s.items[j].stage <= |procs|)
    && (s.closed > 0 ==> forall j :: 0 <= j < |s.items| && s.items[j].stage <= s.closed ==> s.items[j].outs == [])
  }

  lemma StartInv<C, E>(procs: seq<Proc<C, E>>, endErr: Option<E>, c: C, m: nat)
    requires m <= |procs|
    ensures Quiet(procs, Start<C, E>(c)) && Conserved(procs, endErr, c, Start(c), m)
    ensures WorkLeft(procs, Start<C, E>(c).items) == Work(procs, 0, Res(Some(c), None))
  {
    hide Bind, Work;
    var s, r := Start<C, E>(c), Res(Some(c), None);
    assert s.items[1..] == [];
    BindSingle(procs, m, 0, r);
    assert Coming(procs, m, s.items) == BindAll(procs, m, 0, [r]) + Coming(procs, m, []);
    assert WorkLeft(procs, s.items) == WorkAll(procs, 0, [r]) + WorkLeft(procs, []);
  }

  lemma BindSingle<C, E>(procs: seq<Proc<C, E>>, m: nat, i: nat, r: Res<C, E>)
    ensures BindAll(procs, m, i, [r]) == Bind(procs, m, i, r)
    ensures WorkAll(procs, i, [r]) == Work(procs, i, r)
  {
    hide Bind, Work;
    assert [r][1..] == [];
    assert BindAll(procs, m, i, [r]) == Bind(procs, m, i, r) + BindAll(procs, m, i, []);
    assert WorkAll(procs, i, [r]) == Work(procs, i, r) + WorkAll(procs, i, []);
  }

  lemma MoveIsQuiet<C, E>(procs: seq<Proc<C, E>>, endErr: Option<E>, s: State<C, E>, j: nat)
    requires Quiet(procs, s) && Enabled(procs, s, Move(j))
    ensures Quiet(procs, Next(procs, endErr, s, Move(j)))
  {
    hide Handle;
    var t := Next(procs, endErr, s, Move(j));
    forall i | 0 <= i < |t.items|
      ensures t.items[i].stage <= |procs|
      ensures t.closed > 0 && t.items[i].stage <= t.closed ==> t.items[i].outs == []
    {
      assert i < |s.items| && i != j ==> t.items[i] == s.items[i];
    }
  }

  lemma CloseIsQuiet<C, E>(procs: seq<Proc<C, E>>, endErr: Option<E>, s: State<C, E>)
    requires Quiet(procs, s) && Enabled(procs, s, Close)
    ensures Quiet(procs, Next(procs, endErr, s, Close))
  {
    var t := Next(procs, endErr, s, Close);
    forall j | 0 <= j < |s.items| && s.items[j].stage <= t.closed
      ensures s.items[j].outs == []
    {
      assert s.items[j] in s.items;
    }
  }

  lemma CloseConserves<C, E>(procs: seq<Proc<C, E>>, endErr: Option<E>, c: C, s: State<C, E>, m: nat)
    requires Conserved(procs, endErr, c, s, m) && m <= |procs| && Enabled(procs, s, Close)
    ensures Conserved(procs, endErr, c, Next(procs, endErr, s, Close), m)
  {
    hide Bind, Coming, Entered;
    var t := Next(procs, endErr, s, Close);
    if t.closed == |procs| && endErr.Some? {
      EnteredOneMore(s.log, m, (|procs|, Res(None, endErr)));
      Swap(Entered(s.log, m), Extra(procs, endErr, m, t.closed), Coming(procs, m, s.items));
    } else {
      assert t.log == s.log;
    }
  }

  lemma EventKeeps<C, E>(procs: seq<Proc<C, E>>, endErr: Option<E>, c: C, s: State<C, E>, ev: Event, m: nat)
    requires Quiet(procs, s) && Conserved(procs, endErr, c, s, m) && m <= |procs| && Enabled(procs, s, ev)
    ensures Quiet(procs, Next(procs, endErr, s, ev)) && Conserved(procs, endErr, c, Next(procs, endErr, s, ev), m)
  {
    hide Bind, Handle, Coming, Entered, Quiet;
    match ev
    case Move(j) =>
      MoveConserves(procs, endErr, s, j, m);
      MoveIsQuiet(procs, endErr, s, j);
      assert Next(procs, endErr, s, ev).closed == s.closed;
    case Close =>
      CloseIsQuiet(procs, endErr, s);
      CloseConserves(procs, endErr, c, s, m);
  }

  lemma Swap<T>(e: multiset<T>, l: multiset<T>, c: multiset<T>)
    ensures (e + l) + c == (e + c) + l
  {
  }

  lemma {:induction false} RunKeeps<C, E>(procs: seq<Proc<C, E>>, endErr: Option<E>, c: C, s: State<C, E>,
                                          run: seq<Event>, t: State<C, E>, m: nat)
    requires Quiet(procs, s) && Conserved(procs, endErr, c, s, m) && m <= |procs|
    requires Runs(procs, endErr, s, run, t)
    ensures Quiet(procs, t) && Conserved(procs, endErr, c, t, m)
    decreases run
  {
    hide Quiet, Conserved, Enabled, Next;
    if run != [] {
      EventKeeps(procs, endErr, c, s, run[0], m);
      RunKeeps(procs, endErr, c, Next(procs, endErr, s, run[0]), run[1..], t, m);
    }
  }

  // ---------------------------------------------------------------- every schedule ends

  function Moves(run: seq<Event>): nat {
    if run == [] then 0 else (if run[0].Move? then 1 else 0) + Moves(run[1..])
  }

  lemma {:induction false} RunWorks<C, E>(procs: seq<Proc<C, E>>, endErr: Option<E>, s: State<C, E>, run: seq<Event>,
                                          t: State<C, E>)
    requires Runs(procs, endErr, s, run, t)
    ensures Moves(run) + WorkLeft(procs, t.items) == WorkLeft(procs, s.items)
    ensures |run| - Moves(run) == t.closed - s.closed
    decreases run
  {
    hide Coming, WorkAll, Handle;
    if run != [] {
      if run[0].Move? {
        MoveWorks(procs, endErr, s, run[0].j);
      }
      RunWorks(procs, endErr, Next(procs, endErr, s, run[0]), run[1..], t);
    }
  }

  /** Termination: no run is longer than the work of the input and one close per stage. */
  lemma EveryScheduleEnds<C, E>(procs: seq<Proc<C, E>>, endErr: Option<E>, c: C, run: seq<Event>, t: State<C, E>)
    requires Runs(procs, endErr, Start(c), run, t)
    ensures |run| <= Work(procs, 0, Res(Some(c), None)) + |procs|
  {
    StartInv(procs, endErr, c, 0);
    RunKeeps(procs, endErr, c, Start(c), run, t, 0);
    RunWorks(procs, endErr, Start(c), run, t);
  }

  // A run is over when no event is enabled.
  ghost predicate Over<C, E>(procs: seq<Proc<C, E>>, s: State<C, E>) {
    forall ev :: !Enabled(procs, s, ev)
  }

  lemma OverIsEmpty<C, E>(procs: seq<Proc<C, E>>, s: State<C, E>)
    requires Quiet(procs, s)
    ensures Over(procs, s) <==> s.closed == |procs| && forall j :: 0 <= j < |s.items| ==> s.items[j].outs == []
  {
    if Over(procs, s) {
      forall j | 0 <= j < |s.items|
        ensures s.items[j].outs == []
      {
        assert !Enabled(procs, s, Move(j));
      }
      assert !Enabled(procs, s, Close);
    }
  }

  lemma {:induction false} NothingComing<C, E>(procs: seq<Proc<C, E>>, m: nat, items: seq<Forwarder<C, E>>)
    requires forall j :: 0 <= j < |items| ==> items[j].outs == []
    ensures Coming(procs, m, items) == multiset{}
  {
    if items != [] {
      NothingComing(procs, m, items[1..]);
    }
  }

  /** Confluence: every schedule that runs to its end yields the results of the sequential bind. */
  lemma ScheduleDoesNotMatter<C, E>(procs: seq<Proc<C, E>>, endErr: Option<E>, c: C, run: seq<Event>, t: State<C, E>)
    requires Runs(procs, endErr, Start(c), run, t) && Over(procs, t)
    ensures Entered(t.log, |procs|) ==
            Bind(procs, |procs|, 0, Res(Some(c), None)) + Extra(procs, endErr, |procs|, |procs|)
  {
    hide Bind;
    StartInv(procs, endErr, c, |procs|);
    RunKeeps(procs, endErr, c, Start(c), run, t, |procs|);
    OverIsEmpty(procs, t);
    NothingComing(procs, |procs|, t.items);
  }

  /** When the last stage is closed and its end-of-stream calls are made, every stage has seen all it will ever see. */
  lemma EndComesLast<C, E>(procs: seq<Proc<C, E>>, endErr: Option<E>, c: C, run: seq<Event>, t: State<C, E>, m: nat)
    requires Runs(procs, endErr, Start(c), run, t) && 0 < t.closed == |procs| && m < |procs|
    ensures Entered(t.log, m) == Bind(procs, m, 0, Res(Some(c), None))
    ensures Over(procs, t)
  {
    hide Bind;
    StartInv(procs, endErr, c, m);
    RunKeeps(procs, endErr, c, Start(c), run, t, m);
    OverIsEmpty(procs, t);
    NothingComing(procs, m, t.items);
    assert Entered(t.log, m) + multiset{} == Entered(t.log, m);
  }

  /** An error goes past every stage that does not accept it, and comes out unchanged. */
  lemma {:induction false} ErrorsBypass<C, E>(procs: seq<Proc<C, E>>, i: nat, r: Res<C, E>)
    requires i <= |procs| && r.err.Some?
    requires r.chunk == None || forall j :: i <= j < |procs| ==> procs[j].recover == None
    ensures Bind(procs, |procs|, i, r) == multiset{r}
    decreases |procs| - i
  {
    if i < |procs| {
      ErrorsBypass(procs, i + 1, r);
      BindSingle(procs, |procs|, i + 1, r);
    }
  }

  // No stage from i up to j accepts errors.
  ghost predicate Passive<C, E>(procs: seq<Proc<C, E>>, i: nat, j: nat)
    requires i <= j <= |procs|
  {
    forall k :: i <= k < j ==> procs[k].recover == None
  }

  /** A result without an error is processed by the very next stage. */
  lemma ResultsAreProcessed<C, E>(procs: seq<Proc<C, E>>, i: nat, c: C)
    requires i < |procs|
    ensures Bind(procs, |procs|, i, Res(Some(c), None)) == BindAll(procs, |procs|, i + 1, procs[i].process(c))
  {
  }

  /** An error with a chunk goes to the first stage that accepts errors; what that makes of it goes on from there. */
  lemma {:induction false} ErrorsAreRecovered<C, E>(procs: seq<Proc<C, E>>, i: nat, j: nat, c: C, e: E)
    requires i <= j < |procs| && Passive(procs, i, j) && procs[j].recover.Some?
    ensures Bind(procs, |procs|, i, Res(Some(c), Some(e))) ==
            BindAll(procs, |procs|, j + 1, procs[j].recover.value(c, e))
    decreases j - i
  {
    if i < j {
      assert procs[i].recover == None;
      ErrorsAreRecovered(procs, i + 1, j, c, e);
      BindSingle(procs, |procs|, i + 1, Res(Some(c), Some(e)));
    }
  }

  /**
   On every schedule: when the first stage yields an error for its chunk, no stage accepts errors before stage j, and j
   recovers without a new error, what comes out is what the stages behind j make of that.
   */
  lemma {:induction false} RunRecovers<C, E>(procs: seq<Proc<C, E>>, c: C, run: seq<Event>, t: State<C, E>,
                                             j: nat, d: C, e: E, d': C)
    requires Runs(procs, None, Start(c), run, t) && Over(procs, t)
    requires 0 < j < |procs| && Passive(procs, 1, j) && procs[j].recover.Some?
    requires procs[0].process(c) == [Res(Some(d), Some(e))] && procs[j].recover.value(d, e) == [Res(Some(d'), None)]
    ensures Entered(t.log, |procs|) ==
            if j + 1 == |procs| then multiset{Res(Some(d'), None)}
            else BindAll(procs, |procs|, j + 2, procs[j + 1].process(d'))
  {
    hide Runs, Over;
    ScheduleDoesNotMatter(procs, None, c, run, t);
    hide Entered;
    ResultsAreProcessed(procs, 0, c);
    BindSingle(procs, |procs|, 1, Res(Some(d), Some(e)));
    ErrorsAreRecovered(procs, 1, j, d, e);
    BindSingle(procs, |procs|, j + 1, Res(Some(d'), None));
    if j + 1 < |procs| {
      ResultsAreProcessed(procs, j + 1, d');
    }
  }
}
