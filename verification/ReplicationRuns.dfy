/** Runs given by their steps, and building them from what single workers do. */
module ReplicationRuns {
  import opened Wrappers
  import opened Rows
  import opened Replication

  // ---- runs of the system ----

  /** Where the steps lead from `s`, if each is possible in turn. */
  function Follow(s: State, steps: seq<Step>): Option<State> {
    if steps == [] then Some(s)
    else
      var front := Follow(s, steps[..|steps| - 1]);
      var a := steps[|steps| - 1];
      if front.Some? && Can(front.value, a) then Some(Apply(front.value, a)) else None
  }

  /** Following steps is running them. */
  lemma {:induction false} FollowIsRun(s: State, steps: seq<Step>) returns (states: seq<State>)
    requires Follow(s, steps).Some?
    ensures Run(states, steps) && states[0] == s && states[|steps|] == Follow(s, steps).value
  {
    if steps == [] {
      states := [s];
    } else {
      var front, a := steps[..|steps| - 1], steps[|steps| - 1];
      var some := FollowIsRun(s, front);
      states := some + [Follow(s, steps).value];
      forall i | 0 <= i < |steps| ensures Can(states[i], steps[i]) && states[i + 1] == Apply(states[i], steps[i]) {
        if i < |front| { assert front[i] == steps[i] && some[i + 1] == states[i + 1]; }
      }
    }
  }

  lemma {:induction false} RunIsFollow(states: seq<State>, steps: seq<Step>, n: nat)
    requires Run(states, steps) && n <= |steps|
    ensures Follow(states[0], steps[..n]) == Some(states[n])
  {
    if n > 0 {
      RunIsFollow(states, steps, n - 1);
      assert steps[..n][..n - 1] == steps[..n - 1];
    }
  }

  /** The step is a hydration that raises, before or while it writes. */
  predicate FailsLoad(s: State, a: Step) {
    a.Act? && a.w in s.workers && s.workers[a.w].phase.Loading? && (a.l.Fail? || a.l.LoadTorn?)
  }

  /** No hydration raises anywhere along the steps. */
  predicate LoadsWell(s: State, steps: seq<Step>) {
    steps != [] ==>
      var front := Follow(s, steps[..|steps| - 1]);
      LoadsWell(s, steps[..|steps| - 1]) && (front.Some? ==> !FailsLoad(front.value, steps[|steps| - 1]))
  }

  /** One run after another. */
  lemma {:induction false} FollowOn(s: State, a: seq<Step>, t: State, b: seq<Step>, u: State)
    requires Follow(s, a) == Some(t) && Follow(t, b) == Some(u)
    ensures Follow(s, a + b) == Some(u)
    ensures LoadsWell(s, a + b) <==> LoadsWell(s, a) && LoadsWell(t, b)
    decreases |b|
  {
    if b == [] {
      assert a + b == a;
    } else {
      var front := b[..|b| - 1];
      FollowOn(s, a, t, front, Follow(t, front).value);
      assert (a + b)[..|a + b| - 1] == a + front;
    }
  }

  // ---- what one worker does ----

  function View(s: State, w: Wid): Local
    requires w in s.workers
  {
    Local(s.sh, s.workers[w])
  }

  function Then(v: Option<Local>, l: Label): Option<Local> {
    if v.Some? && Enabled(v.value, l) then Some(Next(v.value, l)) else None
  }

  /** Where the labels `ls` take a worker, if each is possible in turn. */
  function Takes(v: Local, ls: seq<Label>): Option<Local> {
    if ls == [] then Some(v) else Then(Takes(v, ls[..|ls| - 1]), ls[|ls| - 1])
  }

  /** How many ids the labels mint. */
  function Mints(ls: seq<Label>): nat {
    if ls == [] then 0 else Mints(ls[..|ls| - 1]) + if Minted(ls[|ls| - 1]) == {} then 0 else 1
  }

  predicate FailsLoadHere(v: Option<Local>, l: Label) {
    v.Some? && v.value.w.phase.Loading? && (l.Fail? || l.LoadTorn?)
  }

  /** None of the labels is a hydration that raises. */
  predicate LoadsWellHere(v: Local, ls: seq<Label>) {
    ls != [] ==>
      LoadsWellHere(v, ls[..|ls| - 1]) && !FailsLoadHere(Takes(v, ls[..|ls| - 1]), ls[|ls| - 1])
  }

  lemma TakesMore(v: Local, ls: seq<Label>, l: Label)
    ensures Takes(v, ls + [l]) == Then(Takes(v, ls), l)
    ensures Mints(ls + [l]) == Mints(ls) + if Minted(l) == {} then 0 else 1
    ensures LoadsWellHere(v, ls + [l]) <==> LoadsWellHere(v, ls) && !FailsLoadHere(Takes(v, ls), l)
  {
    assert (ls + [l])[..|ls|] == ls;
  }

  lemma {:induction false} TakesOn(v: Local, a: seq<Label>, b: seq<Label>)
    requires Takes(v, a).Some?
    ensures Takes(v, a + b) == Takes(Takes(v, a).value, b)
    ensures LoadsWellHere(v, a + b) <==> LoadsWellHere(v, a) && LoadsWellHere(Takes(v, a).value, b)
    ensures Mints(a + b) == Mints(a) + Mints(b)
    decreases |b|
  {
    if b == [] {
      assert a + b == a;
    } else {
      TakesOn(v, a, b[..|b| - 1]);
      assert (a + b)[..|a + b| - 1] == a + b[..|b| - 1];
    }
  }

  lemma TakesOne(v: Local, a: Label)
    ensures Takes(v, [a]) == Then(Some(v), a)
    ensures LoadsWellHere(v, [a]) <==> !FailsLoadHere(Some(v), a)
    ensures Mints([a]) == if Minted(a) == {} then 0 else 1
  {
    TakesMore(v, [], a);
    assert [] + [a] == [a];
  }

  lemma TakesTwo(v: Local, a: Label, b: Label)
    ensures Takes(v, [a] + [b]) == Then(Then(Some(v), a), b)
    ensures LoadsWellHere(v, [a] + [b]) <==> !FailsLoadHere(Some(v), a) && !FailsLoadHere(Then(Some(v), a), b)
    ensures Mints([a] + [b]) == Mints([a]) + Mints([b])
  {
    TakesOne(v, a);
    TakesOne(v, b);
    TakesMore(v, [a], b);
  }

  lemma TakesThree(v: Local, a: Label, b: Label, c: Label)
    ensures Takes(v, [a, b, c]) == Then(Then(Then(Some(v), a), b), c)
  {
    TakesMore(v, [], a);
    TakesMore(v, [] + [a], b);
    TakesMore(v, [] + [a] + [b], c);
    assert [a, b, c] == [] + [a] + [b] + [c];
  }

  lemma {:induction false} NothingFails(v: Local, ls: seq<Label>)
    requires forall l <- ls :: !l.Fail? && !l.LoadTorn?
    ensures LoadsWellHere(v, ls)
  {
    if ls != [] { NothingFails(v, ls[..|ls| - 1]); }
  }

  lemma {:induction false} NothingMinted(ls: seq<Label>)
    requires forall l <- ls :: Minted(l) == {}
    ensures Mints(ls) == 0
  {
    if ls != [] { NothingMinted(ls[..|ls| - 1]); }
  }

  function Acts(w: Wid, ls: seq<Label>): seq<Step> {
    seq(|ls|, i requires 0 <= i < |ls| => Act(w, ls[i]))
  }

  /** While a worker has the lock to itself, what its labels do is a run of the system. */
  lemma {:induction false} LiftAll(s: State, w: Wid, ls: seq<Label>, m: Sid) returns (t: State)
    requires w in s.workers && LockFree(s, w) && Takes(View(s, w), ls).Some?
    requires forall l <- ls :: !l.Crash? && Minted(l) <= {m}
    requires Mints(ls) == 0 || (m !in s.minted && Mints(ls) == 1)
    ensures Follow(s, Acts(w, ls)) == Some(t) && LoadsWell(s, Acts(w, ls)) == LoadsWellHere(View(s, w), ls)
    ensures w in t.workers && LockFree(t, w) && Some(View(t, w)) == Takes(View(s, w), ls)
    ensures t.workers.Keys == s.workers.Keys && forall v <- s.workers :: v != w ==> t.workers[v] == s.workers[v]
    ensures t.minted <= s.minted + if Mints(ls) == 0 then {} else {m}
    ensures (forall l <- ls :: !l.Archive?) ==> t.log == s.log
  {
    if ls == [] {
      t := s;
    } else {
      var front, l := ls[..|ls| - 1], ls[|ls| - 1];
      var u := LiftAll(s, w, front, m);
      assert Minted(l) <= {m};
      t := Apply(u, Act(w, l));
      assert Acts(w, ls)[..|ls| - 1] == Acts(w, front);
    }
  }
}
