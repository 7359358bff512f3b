/** What a sweep does: which sessions it closes, and that it closes them. */
module Sweeps {
  import opened Wrappers
  import opened Rows
  import opened Stores
  import opened SessionManagers

  /** The thread's cached session is in a turn, or was left as if it were. */
  predicate Busy(s: State, k: Key) {
    k in s.books.cache && s.books.cache[k] < |s.sessions| && s.sessions[s.books.cache[k]].busy
  }

  // ---- its steps ----

  /** At its next key a sweep moves on if the cached session is busy, and otherwise, cached or not, waits for
      the thread's lock; with no key left it is over. Nothing else changes. */
  lemma LookIsExact(s: State, ls: seq<Label>, idle: Time, t: Task)
    requires Init(s) && Can(s, ls, idle) && Enabled(Run(s, ls, idle), Look(t), idle)
    ensures var e := Run(s, ls, idle); var f := Step(e, Look(t), idle); var todo := e.tasks[t].todo;
      && f.books == e.books && f.sessions == e.sessions && f.locks == e.locks
      && (if todo == [] then t !in f.tasks
          else if Busy(e, todo[0]) then f.tasks == e.tasks[t := Selecting(todo[1..], e.tasks[t].now)]
          else f.tasks == e.tasks[t := Awaiting(todo[0], todo[1..], e.tasks[t].now)])
  {
    RunKeeps(s, ls, idle);
  }

  /** When the lock comes free the sweep drops the thread if and only if its stamp, looked at again, is more
      than the idle window before the sweep began; and then it starts to close the session there was, which is
      not in a turn. */
  lemma SeizeIsExact(s: State, ls: seq<Label>, idle: Time, t: Task)
    requires Init(s) && Can(s, ls, idle) && Enabled(Run(s, ls, idle), Seize(t), idle)
    ensures var e := Run(s, ls, idle); var f := Step(e, Seize(t), idle); var k := e.tasks[t].key;
      if k in e.books.touch && e.tasks[t].now - e.books.touch[k] > idle then
        && f.books.cache == e.books.cache - {k} && f.books.touch == e.books.touch - {k}
        && k in e.books.cache && e.books.cache[k] < |f.sessions| && f.sessions[e.books.cache[k]].life == Closing
        && t in f.tasks && f.tasks[t].Shutting? && f.tasks[t].id == e.books.cache[k]
      else
        f == e.(tasks := e.tasks[t := Selecting(e.tasks[t].todo, e.tasks[t].now)])
  {
    RunKeeps(s, ls, idle);
  }

  // ---- a whole sweep ----

  /** A step of the sweep itself. */
  predicate Alone(l: Label, t: Task) {
    l == Look(t) || l == Seize(t) || l == Shut(t, true)
  }

  predicate Same<K, V(==)>(a: map<K, V>, b: map<K, V>, k: K) {
    (k in a <==> k in b) && (k in a ==> a[k] == b[k])
  }

  /** As it was when the sweep began. */
  predicate Untouched(e: State, s: State, k: Key) {
    && Same(s.books.cache, e.books.cache, k) && Same(s.books.touch, e.books.touch, k)
    && (k in e.books.cache && e.books.cache[k] < |e.sessions| == |s.sessions| ==> s.sessions[e.books.cache[k]] == e.sessions[e.books.cache[k]])
  }

  /** Gone from both dictionaries, and the session there was is as far as `life`. */
  predicate Dropped(e: State, s: State, k: Key, life: Life) {
    && k !in s.books.cache && k !in s.books.touch
    && (k in e.books.cache && e.books.cache[k] < |e.sessions| == |s.sessions| ==>
          s.sessions[e.books.cache[k]] == e.sessions[e.books.cache[k]].(life := life))
  }

  /** The sweep has still to look at `k`, or is waiting for its lock. */
  predicate Ahead(s: State, t: Task, k: Key) {
    t in s.tasks && match s.tasks[t]
      case Selecting(todo, _) => k in todo
      case Awaiting(key, todo, _) => k == key || k in todo
      case Shutting(_, _, todo, _) => k in todo
      case _ => false
  }

  predicate InHand(s: State, t: Task, k: Key) {
    t in s.tasks && s.tasks[t].Shutting? && s.tasks[t].key == k
  }

  predicate KeyState(e: State, s: State, t: Task, idle: Time, k: Key) {
    if !Idle(e.books, k, e.clock, idle) || Busy(e, k) then Untouched(e, s, k)
    else if InHand(s, t, k) then Dropped(e, s, k, Closing)
    else Dropped(e, s, k, Closed) || (Ahead(s, t, k) && Untouched(e, s, k))
  }

  predicate TaskState(e: State, s: State, t: Task, idle: Time) {
    t in s.tasks ==>
      var w := s.tasks[t];
      && Sweeping(w) && w.now == e.clock && (forall k <- w.todo :: Idle(e.books, k, e.clock, idle))
      && (w.Awaiting? || w.Shutting? ==> Idle(e.books, w.key, e.clock, idle) && !Busy(e, w.key))
      && (w.Shutting? ==> w.key in e.books.cache && e.books.cache[w.key] == w.id)
  }

  /** The locks are as they were, but for the one the sweep holds. */
  predicate LockState(e: State, s: State, t: Task) {
    if t in s.tasks && s.tasks[t].Shutting? then s.tasks[t].key !in e.locks && s.locks == e.locks[s.tasks[t].key := Mine(t)]
    else s.locks == e.locks
  }

  /** The dictionaries and sessions at every key, and where the sweep is. */
  ghost predicate Swept(e: State, s: State, t: Task, idle: Time) {
    && BooksInv(e) && |s.sessions| == |e.sessions|
    && TaskState(e, s, t, idle) && LockState(e, s, t) && forall k :: KeyState(e, s, t, idle, k)
  }

  /** The sweep `t` began in `e` and, alone, has come to `s`. */
  ghost predicate SoFar(e: State, s: State, t: Task, idle: Time) {
    Inv(s) && s.clock == e.clock && s.tasks - {t} == e.tasks && Swept(e, s, t, idle)
  }

  lemma BusyAlike(e: State, s: State, t: Task, idle: Time, k: Key)
    requires BooksInv(e) && |s.sessions| == |e.sessions| && KeyState(e, s, t, idle, k) && Idle(e.books, k, e.clock, idle)
    requires !InHand(s, t, k)
    ensures Busy(s, k) <==> Busy(e, k)
  {
  }

  lemma LookKey(e: State, s: State, t: Task, idle: Time, k: Key)
    requires Swept(e, s, t, idle) && Enabled(s, Look(t), idle) && BooksInv(s)
    ensures KeyState(e, Step(s, Look(t), idle), t, idle, k)
  {
    assert KeyState(e, s, t, idle, k);
    if s.tasks[t].todo != [] { BusyAlike(e, s, t, idle, s.tasks[t].todo[0]); }
  }

  lemma LookTask(e: State, s: State, t: Task, idle: Time)
    requires Swept(e, s, t, idle) && Enabled(s, Look(t), idle) && BooksInv(s)
    ensures var s' := Step(s, Look(t), idle); TaskState(e, s', t, idle) && LockState(e, s', t) && |s'.sessions| == |e.sessions|
  {
    if s.tasks[t].todo != [] {
      assert KeyState(e, s, t, idle, s.tasks[t].todo[0]);
      BusyAlike(e, s, t, idle, s.tasks[t].todo[0]);
    }
  }

  lemma SeizeOther(e: State, s: State, t: Task, idle: Time, k: Key)
    requires Swept(e, s, t, idle) && Enabled(s, Seize(t), idle) && BooksInv(s) && k != s.tasks[t].key
    ensures KeyState(e, Step(s, Seize(t), idle), t, idle, k)
  {
    assert KeyState(e, s, t, idle, k) && KeyState(e, s, t, idle, s.tasks[t].key);
  }

  lemma SeizeOwn(e: State, s: State, t: Task, idle: Time)
    requires Swept(e, s, t, idle) && Enabled(s, Seize(t), idle) && BooksInv(s)
    ensures KeyState(e, Step(s, Seize(t), idle), t, idle, s.tasks[t].key)
  {
    assert KeyState(e, s, t, idle, s.tasks[t].key);
  }

  lemma SeizeTask(e: State, s: State, t: Task, idle: Time)
    requires Swept(e, s, t, idle) && Enabled(s, Seize(t), idle) && BooksInv(s)
    ensures var s' := Step(s, Seize(t), idle); TaskState(e, s', t, idle) && LockState(e, s', t) && |s'.sessions| == |e.sessions|
  {
    assert KeyState(e, s, t, idle, s.tasks[t].key);
  }

  lemma ShutKey(e: State, s: State, t: Task, idle: Time, k: Key)
    requires Swept(e, s, t, idle) && Enabled(s, Shut(t, true), idle) && TaskInv(s, t)
    ensures KeyState(e, Step(s, Shut(t, true), idle), t, idle, k)
  {
    assert KeyState(e, s, t, idle, k) && KeyState(e, s, t, idle, s.tasks[t].key);
  }

  lemma LookSwept(e: State, s: State, t: Task, idle: Time)
    requires Swept(e, s, t, idle) && Enabled(s, Look(t), idle) && BooksInv(s)
    ensures Swept(e, Step(s, Look(t), idle), t, idle)
  {
    LookTask(e, s, t, idle);
    forall k ensures KeyState(e, Step(s, Look(t), idle), t, idle, k) { LookKey(e, s, t, idle, k); }
  }

  lemma SeizeSwept(e: State, s: State, t: Task, idle: Time)
    requires Swept(e, s, t, idle) && Enabled(s, Seize(t), idle) && BooksInv(s)
    ensures Swept(e, Step(s, Seize(t), idle), t, idle)
  {
    SeizeTask(e, s, t, idle);
    forall k ensures KeyState(e, Step(s, Seize(t), idle), t, idle, k) {
      if k == s.tasks[t].key { SeizeOwn(e, s, t, idle); } else { SeizeOther(e, s, t, idle, k); }
    }
  }

  lemma ShutSwept(e: State, s: State, t: Task, idle: Time)
    requires Swept(e, s, t, idle) && Enabled(s, Shut(t, true), idle) && TaskInv(s, t)
    ensures Swept(e, Step(s, Shut(t, true), idle), t, idle)
  {
    assert KeyState(e, s, t, idle, s.tasks[t].key);
    forall k ensures KeyState(e, Step(s, Shut(t, true), idle), t, idle, k) { ShutKey(e, s, t, idle, k); }
  }

  lemma AloneMoves(s: State, t: Task, l: Label, idle: Time)
    requires Alone(l, t) && Enabled(s, l, idle)
    ensures Step(s, l, idle).clock == s.clock && Step(s, l, idle).tasks - {t} == s.tasks - {t}
  {
  }

  lemma StepSoFar(e: State, s: State, t: Task, l: Label, idle: Time)
    requires SoFar(e, s, t, idle) && Alone(l, t) && Enabled(s, l, idle)
    ensures SoFar(e, Step(s, l, idle), t, idle)
  {
    StepKeeps(s, l, idle);
    AloneMoves(s, t, l, idle);
    match l
    case Look(_) => LookSwept(e, s, t, idle);
    case Seize(_) => SeizeSwept(e, s, t, idle);
    case Shut(_, _) => ShutSwept(e, s, t, idle);
  }

  lemma {:induction false} AloneSoFar(e: State, s: State, t: Task, ls: seq<Label>, idle: Time)
    requires SoFar(e, s, t, idle) && Can(s, ls, idle) && forall l <- ls :: Alone(l, t)
    ensures SoFar(e, Run(s, ls, idle), t, idle)
    decreases |ls|
  {
    if ls != [] {
      assert ls[0] in ls && forall l | l in ls[1..] :: l in ls;
      StepSoFar(e, s, t, ls[0], idle);
      AloneSoFar(e, Step(s, ls[0], idle), t, ls[1..], idle);
    }
  }

  lemma SweepBegins(e: State, t: Task, order: seq<Key>, idle: Time)
    requires Inv(e) && Enabled(e, Sweep(t, order), idle)
    ensures SoFar(e, Step(e, Sweep(t, order), idle), t, idle)
  {
    var s := Step(e, Sweep(t, order), idle);
    StepKeeps(e, Sweep(t, order), idle);
    forall k ensures k in order <==> k in IdleKeys(e.books, e.clock, idle) { assert k in (set j | j in order) <==> k in order; }
    forall k ensures KeyState(e, s, t, idle, k) {
      assert Idle(e.books, k, e.clock, idle) ==> k in IdleKeys(e.books, e.clock, idle);
    }
    forall k | k in order ensures Idle(e.books, k, e.clock, idle) { assert k in IdleKeys(e.books, e.clock, idle); }
  }

  /** What a sweep from `e` to `f` does to a thread with a stamp: it drops it and closes its session, if it was idle
      and not in a turn, and else leaves it. */
  predicate Collects(e: State, f: State, idle: Time, k: Key)
    requires k in e.books.touch
  {
    && k in e.books.cache && e.books.cache[k] < |e.sessions| == |f.sessions|
    && if e.clock - e.books.touch[k] > idle && !e.sessions[e.books.cache[k]].busy
       then k !in f.books.cache && k !in f.books.touch && f.sessions[e.books.cache[k]].life == Closed
       else Untouched(e, f, k)
  }

  lemma KeyCollects(e: State, f: State, idle: Time, t: Task, k: Key)
    requires BooksInv(e) && k in e.books.touch && |f.sessions| == |e.sessions| && t !in f.tasks && KeyState(e, f, t, idle, k)
    ensures Collects(e, f, idle, k)
  {
  }

  /** A sweep that comes to its end, with nothing else stepping meanwhile, has dropped every thread that was
      idle when it began and not in a turn, and closed its session; every other thread is as it was, and so
      are the locks and the other tasks. */
  lemma SweepCollects(s: State, ls: seq<Label>, idle: Time, t: Task, order: seq<Key>, own: seq<Label>)
    requires Init(s) && Can(s, ls, idle) && Enabled(Run(s, ls, idle), Sweep(t, order), idle)
    requires Can(Step(Run(s, ls, idle), Sweep(t, order), idle), own, idle) && forall l <- own :: Alone(l, t)
    requires t !in Run(Step(Run(s, ls, idle), Sweep(t, order), idle), own, idle).tasks
    ensures var e := Run(s, ls, idle); var f := Run(Step(e, Sweep(t, order), idle), own, idle);
      && f.locks == e.locks && f.tasks == e.tasks && forall k | k in e.books.touch :: Collects(e, f, idle, k)
  {
    RunKeeps(s, ls, idle);
    var e := Run(s, ls, idle);
    var f := Run(Step(e, Sweep(t, order), idle), own, idle);
    SweepBegins(e, t, order, idle);
    AloneSoFar(e, Step(e, Sweep(t, order), idle), t, own, idle);
    forall k | k in e.books.touch ensures Collects(e, f, idle, k) {
      assert KeyState(e, f, t, idle, k);
      KeyCollects(e, f, idle, t, k);
    }
    assert f.tasks - {t} == f.tasks;
  }

  // ---- that it comes to its end ----

  function Rank(w: Work): nat {
    match w
    case Selecting(todo, _) => 3 * |todo|
    case Awaiting(_, todo, _) => 3 * |todo| + 2
    case Shutting(_, _, todo, _) => 3 * |todo| + 1
    case _ => 0
  }

  /** Nobody holds the lock of a thread that is idle and not in a turn. */
  predicate LocksAreFree(e: State, idle: Time) {
    forall k <- e.locks :: !Idle(e.books, k, e.clock, idle) || Busy(e, k)
  }

  /** The sweep's next step, when nothing else steps. */
  function NextOf(w: Work, t: Task): Label {
    match w
    case Awaiting(_, _, _) => Seize(t)
    case Shutting(_, _, _, _) => Shut(t, true)
    case _ => Look(t)
  }

  lemma NextIsPossible(e: State, s: State, t: Task, idle: Time)
    requires SoFar(e, s, t, idle) && t in s.tasks && LocksAreFree(e, idle)
    ensures var l := NextOf(s.tasks[t], t); Alone(l, t) && Enabled(s, l, idle)
    ensures var s' := Step(s, NextOf(s.tasks[t], t), idle); t in s'.tasks ==> Rank(s'.tasks[t]) < Rank(s.tasks[t])
  {
    assert TaskInv(s, t);
  }

  /** If the locks of the threads it is to drop are free, it does. */
  lemma {:induction false} SweepEnds(e: State, s: State, t: Task, idle: Time) returns (own: seq<Label>)
    requires SoFar(e, s, t, idle) && LocksAreFree(e, idle)
    ensures Can(s, own, idle) && (forall l <- own :: Alone(l, t)) && t !in Run(s, own, idle).tasks
    decreases if t in s.tasks then 1 + Rank(s.tasks[t]) else 0
  {
    own := [];
    if t in s.tasks {
      var l := NextOf(s.tasks[t], t);
      NextIsPossible(e, s, t, idle);
      StepSoFar(e, s, t, l, idle);
      var rest := SweepEnds(e, Step(s, l, idle), t, idle);
      own := [l] + rest;
      assert own[1..] == rest;
    }
  }

  /** After any run a sweep can be taken to its end whenever the locks of the threads that are idle and not in a
      turn are free; so what `SweepCollects` says of it happens. */
  lemma SweepComesToItsEnd(s: State, ls: seq<Label>, idle: Time, t: Task, order: seq<Key>) returns (own: seq<Label>)
    requires Init(s) && Can(s, ls, idle) && Enabled(Run(s, ls, idle), Sweep(t, order), idle)
    requires LocksAreFree(Run(s, ls, idle), idle)
    ensures var b := Step(Run(s, ls, idle), Sweep(t, order), idle);
      Can(b, own, idle) && (forall l <- own :: Alone(l, t)) && t !in Run(b, own, idle).tasks
  {
    RunKeeps(s, ls, idle);
    var e := Run(s, ls, idle);
    SweepBegins(e, t, order, idle);
    own := SweepEnds(e, Step(e, Sweep(t, order), idle), t, idle);
  }

  // ---- a turn ----

  lemma Enters(s: State, k: Key, t: Task, idle: Time) returns (f: State)
    requires Inv(s) && t in s.tasks && s.tasks[t] == Queued(k) && k !in s.locks
    ensures Enabled(s, Enter(t), idle) && f == Step(s, Enter(t), idle) && Inv(f) && k in f.books.cache
    ensures f.tasks == s.tasks[t := Turning(k, f.books.cache[k])] && f.locks == s.locks[k := Mine(t)] && f.clock == s.clock
    ensures f.books.cache[k] < |f.sessions| && f.sessions[f.books.cache[k]] == Session(k, Open, true)
    ensures if k in s.books.cache then f.books.cache == s.books.cache && |f.sessions| == |s.sessions|
            else f.books.cache == s.books.cache[k := |s.sessions|] && |f.sessions| == |s.sessions| + 1
    ensures f.books.touch == s.books.touch[k := s.clock]
    ensures forall i | 0 <= i < |s.sessions| && i != f.books.cache[k] :: f.sessions[i] == s.sessions[i]
  {
    f := Step(s, Enter(t), idle);
    StepKeeps(s, Enter(t), idle);
    if k in s.books.cache { assert SessionInv(s, s.books.cache[k]); }
  }

  lemma OneMore(s: State, l: Label, ls: seq<Label>, idle: Time)
    requires Enabled(s, l, idle) && Can(Step(s, l, idle), ls, idle)
    ensures Can(s, [l] + ls, idle) && Run(s, [l] + ls, idle) == Run(Step(s, l, idle), ls, idle)
  {
    assert ([l] + ls)[1..] == ls;
  }

  lemma Leaves(b: State, k: Key, t: Task, idle: Time) returns (f: State)
    requires t in b.tasks && b.tasks[t].Turning? && b.tasks[t].key == k && b.tasks[t].id < |b.sessions|
    ensures var own := [Settle(t), Leave(t, true)]; Can(b, own, idle) && f == Run(b, own, idle)
    ensures f.clock == b.clock && f.books == Books(b.books.cache, b.books.touch[k := b.clock])
    ensures f.locks == b.locks - {k} && f.tasks == b.tasks - {t}
    ensures var id := b.tasks[t].id; f.sessions == b.sessions[id := b.sessions[id].(busy := false)]
  {
    var c := Step(b, Settle(t), idle);
    f := Step(c, Leave(t, true), idle);
    OneMore(c, Leave(t, true), [], idle);
    assert [Leave(t, true)] + [] == [Leave(t, true)];
    OneMore(b, Settle(t), [Leave(t, true)], idle);
    assert [Settle(t)] + [Leave(t, true)] == [Settle(t), Leave(t, true)];
  }

  function TurnSteps(t: Task, k: Key): seq<Label> {
    [Handle(t, k)] + ([Enter(t)] + [Settle(t), Leave(t, true)])
  }

  /** Thread `k` has the session it had, or a new one if it had none; it is open, not busy, and stamped. */
  predicate Ran(e: State, f: State, k: Key) {
    && f.books.cache == (if k in e.books.cache then e.books.cache else e.books.cache[k := |e.sessions|])
    && f.books.touch == e.books.touch[k := e.clock]
    && f.books.cache[k] < |f.sessions| && f.sessions[f.books.cache[k]] == Session(k, Open, false)
    && |e.sessions| <= |f.sessions|
    && forall i | 0 <= i < |e.sessions| && i != f.books.cache[k] :: f.sessions[i] == e.sessions[i]
  }

  lemma EntersAndLeaves(q: State, k: Key, t: Task, idle: Time) returns (f: State)
    requires Inv(q) && t in q.tasks && q.tasks[t] == Queued(k) && k !in q.locks
    ensures var own := [Enter(t)] + [Settle(t), Leave(t, true)]; Can(q, own, idle) && f == Run(q, own, idle)
    ensures Ran(q, f, k) && f.locks == q.locks && f.tasks == q.tasks - {t}
  {
    var b := Enters(q, k, t, idle);
    f := Leaves(b, k, t, idle);
    OneMore(q, Enter(t), [Settle(t), Leave(t, true)], idle);
    assert q.locks[k := Mine(t)] - {k} == q.locks;
  }

  /** A message on a thread whose lock is free runs its turn on the cached session if there is one and else on a
      new one, and leaves that session cached, open, not busy and stamped, and everything else as it was. */
  lemma HandleRuns(s: State, ls: seq<Label>, k: Key, t: Task, idle: Time) returns (f: State)
    requires Init(s) && Can(s, ls, idle) && t !in Run(s, ls, idle).tasks && k !in Run(s, ls, idle).locks
    ensures var e := Run(s, ls, idle);
      && Can(e, TurnSteps(t, k), idle) && f == Run(e, TurnSteps(t, k), idle)
      && Ran(e, f, k) && f.locks == e.locks && f.tasks == e.tasks
  {
    RunKeeps(s, ls, idle);
    var e := Run(s, ls, idle);
    var q := Step(e, Handle(t, k), idle);
    StepKeeps(e, Handle(t, k), idle);
    f := EntersAndLeaves(q, k, t, idle);
    OneMore(e, Handle(t, k), [Enter(t)] + [Settle(t), Leave(t, true)], idle);
    assert e.tasks[t := Queued(k)] - {t} == e.tasks;
  }
}
