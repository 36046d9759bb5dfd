/**
 Locks are taken one at a time and in map order, so two calls can wait for each other: exactly when their groups share
 two checksums, and then for ever.
 */
module Deadlock {
  import opened Wrappers
  import opened Stripe
  import opened Copies
  import opened Coordinator
  import opened CommitRuns

  /** Call i holds a and still needs b, call j holds b and still needs a. */
  ghost predicate WaitFor<H, L>(cfg: Config<H>, s: Sys<H, L>, i: nat, j: nat, a: H, b: H) {
    && i != j && i < |s.jobs| == |cfg.groups| && j < |s.jobs|
    && s.jobs[i].phase == Taking && s.jobs[j].phase == Taking
    && a in s.jobs[i].held && b in Infos(cfg.groups[i]) && b !in s.jobs[i].cur
    && b in s.jobs[j].held && a in Infos(cfg.groups[j]) && a !in s.jobs[j].cur
  }

  ghost predicate Crossed<H(!new), L>(cfg: Config<H>, s: Sys<H, L>, i: nat, j: nat) {
    exists a, b :: WaitFor(cfg, s, i, j, a, b)
  }

  lemma WaitsOn<H, L>(cfg: Config<H>, s: Sys<H, L>, k: nat, ev: Event<H, L>, i: nat, j: nat, a: H, b: H)
    requires Enabled(cfg, s, k, ev) && LockInv(s) && WaitFor(cfg, s, i, j, a, b)
    ensures WaitFor(cfg, Next(cfg, s, k, ev), i, j, a, b)
  {
    hide Promised, MayBeShort, Infos, Refusal, TotalUse, Turning;
    assert a in s.st.held && b in s.st.held;
  }

  /** Neither call ever goes on, whatever the others do. */
  lemma {:induction false} WaitForEver<H(!new), L>(cfg: Config<H>, s: Sys<H, L>, run: seq<(nat, Event<H, L>)>,
                                                   t: Sys<H, L>, i: nat, j: nat, a: H, b: H)
    requires Runs(cfg, s, run, t) && Inv(cfg, s) && WaitFor(cfg, s, i, j, a, b)
    ensures WaitFor(cfg, t, i, j, a, b) && t.jobs[i].phase == Taking && t.jobs[j].phase == Taking
    decreases run
  {
    hide Enabled, Next, JobInv, LockInv;
    if run != [] {
      EventKeeps(cfg, s, run[0].0, run[0].1);
      WaitsOn(cfg, s, run[0].0, run[0].1, i, j, a, b);
      WaitForEver(cfg, Next(cfg, s, run[0].0, run[0].1), run[1..], t, i, j, a, b);
    }
  }

  ghost predicate Share<H>(x: seq<Chunk<H>>, y: seq<Chunk<H>>, a: H, b: H) {
    a != b && a in Infos(x) && a in Infos(y) && b in Infos(x) && b in Infos(y)
  }

  lemma CrossedShares<H(!new), L>(cfg: Config<H>, s: Sys<H, L>, i: nat, j: nat) returns (a: H, b: H)
    requires Inv(cfg, s) && Crossed(cfg, s, i, j)
    ensures i < |cfg.groups| && j < |cfg.groups| && Share(cfg.groups[i], cfg.groups[j], a, b)
  {
    hide Infos;
    a, b :| WaitFor(cfg, s, i, j, a, b);
    assert JobInv(cfg, s, i) && JobInv(cfg, s, j);
    hide JobInv;
    assert s.jobs[i].held !! s.jobs[j].held;
  }

  lemma CanLock<H, L>(cfg: Config<H>, s: Sys<H, L>, k: nat, h: H)
    requires k < |cfg.groups| == |s.jobs| && Refusal(cfg.groups[k]) == None && h in Infos(cfg.groups[k])
    requires s.jobs[k] == Job(map[], {}, Taking, true) && h !in s.st.held
    ensures Enabled(cfg, s, k, Lock(h))
    ensures var t := Next(cfg, s, k, Lock(h));
      && |t.jobs| == |s.jobs| && t.st.held == s.st.held + {h}
      && t.jobs[k].phase == Taking && t.jobs[k].held == {h} && t.jobs[k].cur.Keys == {h}
      && forall x :: 0 <= x < |s.jobs| && x != k ==> t.jobs[x] == s.jobs[x]
  {
    hide Infos, Refusal;
  }

  // Each call takes the checksum the other one needs.
  lemma CanCross<H(!new), L>(cfg: Config<H>, s: Sys<H, L>, i: nat, j: nat, a: H, b: H)
    returns (run: seq<(nat, Event<H, L>)>, t: Sys<H, L>)
    requires Start(cfg, s) && i < |cfg.groups| && j < |cfg.groups| && i != j
    requires Refusal(cfg.groups[i]) == None && Refusal(cfg.groups[j]) == None
    requires Share(cfg.groups[i], cfg.groups[j], a, b)
    ensures Runs(cfg, s, run, t) && WaitFor(cfg, t, i, j, a, b)
  {
    CanLock(cfg, s, i, a);
    var u := Next(cfg, s, i, Lock(a));
    hide Start, Infos, Refusal, Enabled, Next;
    CanLock(cfg, u, j, b);
    t := Next(cfg, u, j, Lock(b));
    run := [(i, Lock(a)), (j, Lock(b))];
    assert run[1..] == [(j, Lock(b))] && run[1..][1..] == [];
    assert Runs(cfg, u, run[1..], t);
  }

  /** Two calls can come to wait for each other if and only if their groups share two checksums. */
  lemma CrossedIff<H(!new), L(!new)>(cfg: Config<H>, s: Sys<H, L>, i: nat, j: nat)
    requires Start(cfg, s) && i < |cfg.groups| && j < |cfg.groups| && i != j
    requires Refusal(cfg.groups[i]) == None && Refusal(cfg.groups[j]) == None
    ensures (exists run, t :: Runs(cfg, s, run, t) && Crossed(cfg, t, i, j)) <==>
            exists a, b :: Share(cfg.groups[i], cfg.groups[j], a, b)
  {
    hide Runs, Share, WaitFor, Inv, Refusal;
    forall run, t | Runs(cfg, s, run, t) && Crossed(cfg, t, i, j)
      ensures exists a, b :: Share(cfg.groups[i], cfg.groups[j], a, b)
    {
      StartInv(cfg, s);
      RunKeeps(cfg, s, run, t);
      var a, b := CrossedShares(cfg, t, i, j);
    }
    if a, b :| Share(cfg.groups[i], cfg.groups[j], a, b) {
      var run, t := CanCross(cfg, s, i, j, a, b);
      assert Crossed(cfg, t, i, j);
    }
  }
}
