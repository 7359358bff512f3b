/** One worker's session cache: `handle` and `sweep` as tasks that interleave at every await, in any
    number. Steps are the code between two awaits; taking a free lock is folded into the code it
    starts and releasing it into the code it ends, which only adds interleavings. */
module SessionManagers {
  import opened Wrappers
  import opened Rows
  import opened Stores

  type Id = nat      // a session object: its position in `State.sessions`
  type Task = nat

  /** The two dictionaries. */
  datatype Books = Books(cache: map<Key, Id>, touch: map<Key, Time>)

  predicate Idle(b: Books, k: Key, now: Time, idleSeconds: Time) {
    k in b.touch && now - b.touch[k] > idleSeconds
  }

  function IdleKeys(b: Books, now: Time, idleSeconds: Time): set<Key> {
    set k | k in b.touch && Idle(b, k, now, idleSeconds)
  }

  function Entered(b: Books, k: Key, built: Id, now: Time): Books {
    Books(if k in b.cache then b.cache else b.cache[k := built], b.touch[k := now])
  }

  function Stamped(b: Books, k: Key, now: Time): Books {
    b.(touch := b.touch[k := now])
  }

  function Popped(b: Books, k: Key): Books {
    Books(b.cache - {k}, b.touch - {k})
  }

  class SessionManager {
    const idleSeconds: Time
    var cache: map<Key, Id>
    var lastTouch: map<Key, Time>

    constructor (idle: Time)
      ensures View() == Books(map[], map[]) && idleSeconds == idle
    {
      idleSeconds, cache, lastTouch := idle, map[], map[];
    }

    ghost function View(): Books
      reads this
    {
      Books(cache, lastTouch)
    }

    /** `handle`, from the lock to the start of the turn; `built` is the session the factory would build. */
    method Enter(k: Key, built: Id, now: Time) returns (session: Id)
      modifies this
      ensures View() == Entered(old(View()), k, built, now)
      ensures session == cache[k]
    {
      if k !in cache {
        cache := cache[k := built];
      }
      session := cache[k];
      lastTouch := lastTouch[k := now];
    }

    /** `handle`, after a turn that returned. */
    method Leave(k: Key, now: Time)
      modifies this
      ensures View() == Stamped(old(View()), k, now)
    {
      lastTouch := lastTouch[k := now];
    }

    method IsIdle(k: Key, now: Time) returns (idle: bool)
      ensures idle == Idle(View(), k, now, idleSeconds)
    {
      idle := k in lastTouch && now - lastTouch[k] > idleSeconds;
    }

    /** The keys a sweep sets out with: every idle one, once. */
    method Select(now: Time) returns (keys: seq<Key>)
      ensures forall k :: k in keys <==> k in IdleKeys(View(), now, idleSeconds)
      ensures forall i, j | 0 <= i < j < |keys| :: keys[i] != keys[j]
    {
      keys := [];
      var rest := lastTouch.Keys;
      while rest != {}
        invariant rest <= lastTouch.Keys
        invariant forall k :: k in keys <==> k in IdleKeys(View(), now, idleSeconds) && k !in rest
        invariant forall i, j | 0 <= i < j < |keys| :: keys[i] != keys[j]
        decreases |rest|
      {
        var k :| k in rest;
        var idle := IsIdle(k, now);
        if idle {
          keys := keys + [k];
        }
        rest := rest - {k};
      }
    }

    /** `sweep` under the lock: look again, against the same `now`, and drop the entry. */
    method Drop(k: Key, now: Time) returns (session: Option<Id>)
      modifies this
      ensures var was := old(View());
        if Idle(was, k, now, idleSeconds)
        then View() == Popped(was, k) && session == Get(was.cache, k)
        else View() == was && session == None
    {
      session := None;
      var idle := IsIdle(k, now);
      if idle {
        if k in cache {
          session := Some(cache[k]);
        }
        cache := cache - {k};
        lastTouch := lastTouch - {k};
      }
    }
  }

  // ---- every interleaving ----

  datatype Life = Open | Closing | Closed

  datatype Session = Session(key: Key, life: Life, busy: bool)

  datatype Holder = Mine(task: Task) | Foreign    // `Foreign`: a task of another worker

  datatype Work =
    | Queued(key: Key)                                              // `handle`, waiting for the lock
    | Turning(key: Key, id: Id)                                     // in `run_turn`, `_busy` set
    | Winding(key: Key, id: Id)                                     // in its `finally`, `_busy` cleared
    | Selecting(todo: seq<Key>, now: Time)                          // `sweep`, at the top of its loop
    | Awaiting(key: Key, todo: seq<Key>, now: Time)                 // waiting for the lock
    | Shutting(key: Key, id: Id, todo: seq<Key>, now: Time)         // in `close()`, holding the lock

  datatype State = State(
    clock: Time, books: Books, sessions: seq<Session>, locks: map<Key, Holder>, tasks: map<Task, Work>)

  datatype Label =
    | Tick(to: Time)
    | ForeignLock(key: Key)
    | ForeignUnlock(key: Key)
    | Handle(task: Task, key: Key)
    | Enter(task: Task)
    | Settle(task: Task)                        // `run_turn` clears `_busy`
    | Leave(task: Task, returned: bool)         // it returned or raised
    | Strand(task: Task)                        // it raised before its `try`: `_busy` stays set
    | Sweep(task: Task, order: seq<Key>)
    | Look(task: Task)                          // the busy check, for the next key
    | Seize(task: Task)                         // the lock came free: check again, pop, start closing
    | Shut(task: Task, returned: bool)
    | GiveUp(task: Task)                        // cancelled, or the lock could not be had

  /** The bounds on session numbers only make `Step` well defined; `Inv` says they always hold. */
  predicate Enabled(s: State, l: Label, idle: Time) {
    match l
    case Tick(to) => to >= s.clock
    case ForeignLock(k) => k !in s.locks
    case ForeignUnlock(k) => k in s.locks && s.locks[k].Foreign?
    case Handle(t, _) => t !in s.tasks
    case Enter(t) => t in s.tasks && s.tasks[t].Queued? && s.tasks[t].key !in s.locks
                     && (s.tasks[t].key in s.books.cache ==> s.books.cache[s.tasks[t].key] < |s.sessions|)
    case Settle(t) => t in s.tasks && s.tasks[t].Turning? && s.tasks[t].id < |s.sessions|
    case Leave(t, _) => t in s.tasks && s.tasks[t].Winding?
    case Strand(t) => t in s.tasks && s.tasks[t].Turning?
    case Sweep(t, order) => t !in s.tasks && (set k | k in order) == IdleKeys(s.books, s.clock, idle)
    case Look(t) => t in s.tasks && s.tasks[t].Selecting?
                    && forall k | k in s.books.cache :: s.books.cache[k] < |s.sessions|
    case Seize(t) => t in s.tasks && s.tasks[t].Awaiting? && s.tasks[t].key !in s.locks
                     && (s.tasks[t].key in s.books.cache ==> s.books.cache[s.tasks[t].key] < |s.sessions|)
    case Shut(t, _) => t in s.tasks && s.tasks[t].Shutting? && s.tasks[t].id < |s.sessions|
    case GiveUp(t) => t in s.tasks && (s.tasks[t].Queued? || s.tasks[t].Selecting? || s.tasks[t].Awaiting?)
  }

  function Step(s: State, l: Label, idle: Time): State
    requires Enabled(s, l, idle)
  {
    match l
    case Tick(to) => s.(clock := to)
    case ForeignLock(k) => s.(locks := s.locks[k := Foreign])
    case ForeignUnlock(k) => s.(locks := s.locks - {k})
    case Handle(t, k) => s.(tasks := s.tasks[t := Queued(k)])
    case Enter(t) =>
      var k := s.tasks[t].key;
      var books := Entered(s.books, k, |s.sessions|, s.clock);
      var id := books.cache[k];
      s.(books := books,
         sessions := if k in s.books.cache then s.sessions[id := s.sessions[id].(busy := true)]
                     else s.sessions + [Session(k, Open, true)],
         locks := s.locks[k := Mine(t)],
         tasks := s.tasks[t := Turning(k, id)])
    case Settle(t) =>
      var id := s.tasks[t].id;
      s.(sessions := s.sessions[id := s.sessions[id].(busy := false)], tasks := s.tasks[t := Winding(s.tasks[t].key, id)])
    case Leave(t, returned) =>
      var k := s.tasks[t].key;
      s.(books := if returned then Stamped(s.books, k, s.clock) else s.books, locks := s.locks - {k}, tasks := s.tasks - {t})
    case Strand(t) => s.(locks := s.locks - {s.tasks[t].key}, tasks := s.tasks - {t})
    case Sweep(t, order) => s.(tasks := s.tasks[t := Selecting(order, s.clock)])
    case Look(t) =>
      var w := s.tasks[t];
      if w.todo == [] then s.(tasks := s.tasks - {t})
      else
        var k := w.todo[0];
        if k in s.books.cache && s.sessions[s.books.cache[k]].busy
        then s.(tasks := s.tasks[t := Selecting(w.todo[1..], w.now)])
        else s.(tasks := s.tasks[t := Awaiting(k, w.todo[1..], w.now)])
    case Seize(t) =>
      var w := s.tasks[t];
      if !Idle(s.books, w.key, w.now, idle) then s.(tasks := s.tasks[t := Selecting(w.todo, w.now)])
      else if w.key !in s.books.cache then
        s.(books := Popped(s.books, w.key), tasks := s.tasks[t := Selecting(w.todo, w.now)])
      else
        var id := s.books.cache[w.key];
        s.(books := Popped(s.books, w.key),
           sessions := s.sessions[id := s.sessions[id].(life := Closing)],
           locks := s.locks[w.key := Mine(t)],
           tasks := s.tasks[t := Shutting(w.key, id, w.todo, w.now)])
    case Shut(t, returned) =>
      var w := s.tasks[t];
      s.(sessions := s.sessions[w.id := s.sessions[w.id].(life := Closed)],
         locks := s.locks - {w.key},
         tasks := if returned then s.tasks[t := Selecting(w.todo, w.now)] else s.tasks - {t})
    case GiveUp(t) => s.(tasks := s.tasks - {t})
  }

  predicate Can(s: State, ls: seq<Label>, idle: Time)
    decreases |ls|
  {
    ls == [] || (Enabled(s, ls[0], idle) && Can(Step(s, ls[0], idle), ls[1..], idle))
  }

  function Run(s: State, ls: seq<Label>, idle: Time): State
    requires Can(s, ls, idle)
    decreases |ls|
  {
    if ls == [] then s else Run(Step(s, ls[0], idle), ls[1..], idle)
  }

  predicate Init(s: State) {
    s.books == Books(map[], map[]) && s.sessions == [] && s.tasks == map[]
    && forall k | k in s.locks :: s.locks[k].Foreign?
  }

  // ---- the invariant ----

  predicate InTurn(w: Work) {
    w.Turning? || w.Winding?
  }

  predicate Holds(w: Work) {
    InTurn(w) || w.Shutting?
  }

  predicate BooksInv(s: State) {
    && s.books.cache.Keys == s.books.touch.Keys
    && (forall k | k in s.books.cache :: s.books.cache[k] < |s.sessions|
          && s.sessions[s.books.cache[k]].key == k && s.sessions[s.books.cache[k]].life == Open)
    && (forall k | k in s.books.touch :: s.books.touch[k] <= s.clock)
  }

  predicate TaskInv(s: State, t: Task)
    requires t in s.tasks
  {
    var w := s.tasks[t];
    && (Holds(w) ==> w.key in s.locks && s.locks[w.key] == Mine(t))
    && (InTurn(w) ==> w.key in s.books.cache && s.books.cache[w.key] == w.id)
    && (w.Turning? ==> w.id < |s.sessions| && s.sessions[w.id].busy)
    && (w.Shutting? ==> w.id < |s.sessions| && s.sessions[w.id].key == w.key)
    && (w.Shutting? ==> s.sessions[w.id].life == Closing && w.key !in s.books.cache)
    && (w.Selecting? || w.Awaiting? || w.Shutting? ==> w.now <= s.clock)
  }

  /** An open session is the cached one of its key; a closing one has the sweep that closes it, at its lock. */
  predicate SessionInv(s: State, i: Id)
    requires i < |s.sessions|
  {
    var e := s.sessions[i];
    && (e.life == Open ==> e.key in s.books.cache && s.books.cache[e.key] == i)
    && (e.life == Closing ==>
          e.key in s.locks && s.locks[e.key].Mine? && s.locks[e.key].task in s.tasks
          && s.tasks[s.locks[e.key].task].Shutting? && s.tasks[s.locks[e.key].task].id == i)
  }

  predicate LockInv(s: State, k: Key)
    requires k in s.locks
  {
    s.locks[k].Mine? ==> s.locks[k].task in s.tasks && Holds(s.tasks[s.locks[k].task]) && s.tasks[s.locks[k].task].key == k
  }

  predicate Inv(s: State) {
    && BooksInv(s)
    && (forall t | t in s.tasks :: TaskInv(s, t))
    && (forall i | 0 <= i < |s.sessions| :: SessionInv(s, i))
    && (forall k | k in s.locks :: LockInv(s, k))
  }

  lemma EnterKeepsBooks(s: State, l: Label, idle: Time)
    requires Inv(s) && Enabled(s, l, idle) && l.Enter?
    ensures BooksInv(Step(s, l, idle))
  {
  }

  lemma SeizeKeepsBooks(s: State, l: Label, idle: Time)
    requires Inv(s) && Enabled(s, l, idle) && l.Seize?
    ensures BooksInv(Step(s, l, idle))
  {
  }

  lemma StepKeepsBooks(s: State, l: Label, idle: Time)
    requires Inv(s) && Enabled(s, l, idle)
    ensures BooksInv(Step(s, l, idle))
  {
    if l.Enter? {
      EnterKeepsBooks(s, l, idle);
    } else if l.Seize? {
      SeizeKeepsBooks(s, l, idle);
    } else {
      if l.Leave? || l.Settle? || l.Shut? { assert TaskInv(s, l.task); }
      if l.Shut? { assert SessionInv(s, s.tasks[l.task].id); }
    }
  }

  lemma EnterKeepsTask(s: State, l: Label, idle: Time, t: Task)
    requires Inv(s) && Enabled(s, l, idle) && l.Enter? && t in Step(s, l, idle).tasks
    ensures TaskInv(Step(s, l, idle), t)
  {
    assert TaskInv(s, t);
  }

  lemma SeizeKeepsTask(s: State, l: Label, idle: Time, t: Task)
    requires Inv(s) && Enabled(s, l, idle) && l.Seize? && t in Step(s, l, idle).tasks
    ensures TaskInv(Step(s, l, idle), t)
  {
    assert TaskInv(s, t) && TaskInv(s, l.task);
  }

  /** The steps that end something done under the lock. */
  lemma EndKeepsTask(s: State, l: Label, idle: Time, t: Task)
    requires Inv(s) && Enabled(s, l, idle) && (l.Leave? || l.Strand? || l.Shut?) && t in Step(s, l, idle).tasks
    ensures TaskInv(Step(s, l, idle), t)
  {
    assert TaskInv(s, t) && TaskInv(s, l.task);
  }

  lemma SettleKeepsTask(s: State, l: Label, idle: Time, t: Task)
    requires Inv(s) && Enabled(s, l, idle) && l.Settle? && t in Step(s, l, idle).tasks
    ensures TaskInv(Step(s, l, idle), t)
  {
    assert TaskInv(s, t) && TaskInv(s, l.task);
  }

  lemma StepKeepsTask(s: State, l: Label, idle: Time, t: Task)
    requires Inv(s) && Enabled(s, l, idle) && t in Step(s, l, idle).tasks
    ensures TaskInv(Step(s, l, idle), t)
  {
    if l.Enter? {
      EnterKeepsTask(s, l, idle, t);
    } else if l.Seize? {
      SeizeKeepsTask(s, l, idle, t);
    } else if l.Leave? || l.Strand? || l.Shut? {
      EndKeepsTask(s, l, idle, t);
    } else if l.Settle? {
      SettleKeepsTask(s, l, idle, t);
    } else if t in s.tasks {
      assert TaskInv(s, t);
    }
  }

  lemma EnterKeepsSession(s: State, l: Label, idle: Time, i: Id)
    requires Inv(s) && Enabled(s, l, idle) && l.Enter? && i < |Step(s, l, idle).sessions|
    ensures SessionInv(Step(s, l, idle), i)
  {
    if i < |s.sessions| {
      assert SessionInv(s, i);
      if s.sessions[i].life == Closing { assert LockInv(s, s.sessions[i].key); }
    }
  }

  lemma SeizeKeepsSession(s: State, l: Label, idle: Time, i: Id)
    requires Inv(s) && Enabled(s, l, idle) && l.Seize? && i < |s.sessions|
    ensures SessionInv(Step(s, l, idle), i)
  {
    assert SessionInv(s, i);
    if s.sessions[i].life == Closing { assert LockInv(s, s.sessions[i].key); }
  }

  lemma StepKeepsSession(s: State, l: Label, idle: Time, i: Id)
    requires Inv(s) && Enabled(s, l, idle) && i < |Step(s, l, idle).sessions|
    ensures SessionInv(Step(s, l, idle), i)
  {
    if l.Enter? {
      EnterKeepsSession(s, l, idle, i);
    } else if l.Seize? {
      SeizeKeepsSession(s, l, idle, i);
    } else {
      assert SessionInv(s, i);
      if s.sessions[i].life == Closing { assert LockInv(s, s.sessions[i].key); }
      if l.Leave? || l.Settle? || l.Shut? || l.Strand? { assert TaskInv(s, l.task); }
    }
  }

  lemma StepKeepsLock(s: State, l: Label, idle: Time, k: Key)
    requires Inv(s) && Enabled(s, l, idle) && k in Step(s, l, idle).locks
    ensures LockInv(Step(s, l, idle), k)
  {
    if k in s.locks { assert LockInv(s, k); }
    if l.Leave? || l.Settle? || l.Shut? || l.Strand? { assert TaskInv(s, l.task); }
  }

  lemma StepKeeps(s: State, l: Label, idle: Time)
    requires Inv(s) && Enabled(s, l, idle)
    ensures Inv(Step(s, l, idle))
  {
    var s' := Step(s, l, idle);
    StepKeepsBooks(s, l, idle);
    forall t | t in s'.tasks ensures TaskInv(s', t) { StepKeepsTask(s, l, idle, t); }
    forall i | 0 <= i < |s'.sessions| ensures SessionInv(s', i) { StepKeepsSession(s, l, idle, i); }
    forall k | k in s'.locks ensures LockInv(s', k) { StepKeepsLock(s, l, idle, k); }
  }

  lemma {:induction false} RunKeeps(s: State, ls: seq<Label>, idle: Time)
    requires Inv(s) && Can(s, ls, idle)
    ensures Inv(Run(s, ls, idle))
    decreases |ls|
  {
    if ls != [] {
      StepKeeps(s, ls[0], idle);
      RunKeeps(Step(s, ls[0], idle), ls[1..], idle);
    }
  }

  // ---- what it means ----

  /** After any interleaving the two dictionaries have the same keys; a thread has at most one session
      that is not fully closed; an open one is the cached one; and while one is closing, its thread is
      uncached and its lock is held by the sweep that closes it. */
  lemma OneSessionPerThread(s: State, ls: seq<Label>, idle: Time, i: Id, j: Id)
    requires Init(s) && Can(s, ls, idle)
    requires i < |Run(s, ls, idle).sessions| && j < |Run(s, ls, idle).sessions|
    ensures var e := Run(s, ls, idle); var x := e.sessions[i]; var y := e.sessions[j];
      && e.books.cache.Keys == e.books.touch.Keys
      && (x.life != Closed && y.life != Closed && x.key == y.key ==> i == j)
      && (x.life == Open <==> x.key in e.books.cache && e.books.cache[x.key] == i)
      && (x.life == Closing ==> x.key !in e.books.cache && x.key in e.locks && e.locks[x.key].Mine?)
  {
    RunKeeps(s, ls, idle);
    var e := Run(s, ls, idle);
    var x, y := e.sessions[i], e.sessions[j];
    assert SessionInv(e, i) && SessionInv(e, j);
    if x.life == Closing { assert TaskInv(e, e.locks[x.key].task); }
    if y.life == Closing { assert TaskInv(e, e.locks[y.key].task); }
  }

  /** A session leaves the open state only through a sweep that holds its thread's lock and whose own
      `now` is more than the idle window past the session's last stamp; no turn is in flight on it. */
  lemma ClosedOnlyWhenIdle(s: State, ls: seq<Label>, l: Label, idle: Time, i: Id)
    requires Init(s) && Can(s, ls, idle) && Enabled(Run(s, ls, idle), l, idle)
    requires i < |Run(s, ls, idle).sessions| && Run(s, ls, idle).sessions[i].life == Open
    requires Step(Run(s, ls, idle), l, idle).sessions[i].life != Open
    ensures var e := Run(s, ls, idle); var k := e.sessions[i].key;
      && l.Seize? && k !in e.locks && e.tasks[l.task].key == k
      && k in e.books.touch && e.tasks[l.task].now - e.books.touch[k] > idle
      && forall t | t in e.tasks && InTurn(e.tasks[t]) :: e.tasks[t].id != i && e.tasks[t].key != k
  {
    RunKeeps(s, ls, idle);
    var e := Run(s, ls, idle);
    assert SessionInv(e, i);
    forall t | t in e.tasks && InTurn(e.tasks[t])
      ensures l.Seize? ==> e.tasks[t].id != i && e.tasks[t].key != e.sessions[i].key
    {
      assert TaskInv(e, t);
    }
  }

  /** While a turn is in flight its session stays open and cached, whatever the sweeps do. */
  lemma TurnKeepsItsSession(s: State, ls: seq<Label>, idle: Time, t: Task)
    requires Init(s) && Can(s, ls, idle)
    requires t in Run(s, ls, idle).tasks && InTurn(Run(s, ls, idle).tasks[t])
    ensures var e := Run(s, ls, idle); var w := e.tasks[t];
      && w.key in e.books.cache && e.books.cache[w.key] == w.id < |e.sessions| && e.sessions[w.id].life == Open
  {
    RunKeeps(s, ls, idle);
    assert TaskInv(Run(s, ls, idle), t);
  }

  predicate Sweeping(w: Work) {
    w.Selecting? || w.Awaiting? || w.Shutting?
  }

  /** If the sweep `t` is still running it began no later than `k`'s last stamp. */
  predicate StampedSince(s: State, t: Task, k: Key, since: Time) {
    && (t in s.tasks ==> Sweeping(s.tasks[t]) && s.tasks[t].now <= since)
    && (k in s.books.touch ==> since <= s.books.touch[k])
    && since <= s.clock
  }

  /** No later task is given the identity of task `t`. */
  predicate NotReused(ls: seq<Label>, t: Task) {
    forall l <- ls :: (l.Handle? || l.Sweep?) ==> l.task != t
  }

  /** What stamps `k`: a turn starting on it, or returning from it. */
  predicate Stamps(s: State, l: Label, k: Key) {
    && (l.Enter? || (l.Leave? && l.returned))
    && l.task in s.tasks && (s.tasks[l.task].Queued? || InTurn(s.tasks[l.task])) && s.tasks[l.task].key == k
  }

  lemma StepStaysStamped(s: State, l: Label, idle: Time, t: Task, k: Key, since: Time)
    requires Inv(s) && Enabled(s, l, idle) && NotReused([l], t) && StampedSince(s, t, k, since)
    ensures StampedSince(Step(s, l, idle), t, k, since)
  {
    assert BooksInv(s) && l in [l];
    if l.Leave? { assert TaskInv(s, l.task); }
  }

  lemma {:induction false} StaysStamped(s: State, ls: seq<Label>, idle: Time, t: Task, k: Key, since: Time)
    requires Inv(s) && Can(s, ls, idle) && NotReused(ls, t) && StampedSince(s, t, k, since)
    ensures StampedSince(Run(s, ls, idle), t, k, since)
    decreases |ls|
  {
    if ls != [] {
      StepKeeps(s, ls[0], idle);
      StepStaysStamped(s, ls[0], idle, t, k, since);
      StaysStamped(Step(s, ls[0], idle), ls[1..], idle, t, k, since);
    }
  }

  lemma StampIsSeen(s: State, l: Label, idle: Time, t: Task, k: Key)
    requires Inv(s) && t in s.tasks && Sweeping(s.tasks[t]) && Enabled(s, l, idle) && Stamps(s, l, k)
    ensures StampedSince(Step(s, l, idle), t, k, s.clock)
  {
    assert TaskInv(s, t);
  }

  lemma StampedMovesOn(s: State, idle: Time, t: Task, since: Time)
    requires idle >= 0 && Enabled(s, Seize(t), idle) && StampedSince(s, t, s.tasks[t].key, since)
    ensures Step(s, Seize(t), idle) == s.(tasks := s.tasks[t := Selecting(s.tasks[t].todo, s.tasks[t].now)])
  {
  }

  /** A turn that starts on a thread or returns from it after a sweep began is never undone by that
      sweep: however long the sweep then waits and whatever else runs, when the lock comes to it, it
      moves on to its next key and changes nothing. */
  lemma SweepSparesTouched(
    s: State, pre: seq<Label>, l: Label, post: seq<Label>, idle: Time, t: Task, k: Key)
    requires idle >= 0 && Init(s) && Can(s, pre, idle)
    requires t in Run(s, pre, idle).tasks && Sweeping(Run(s, pre, idle).tasks[t])
    requires Enabled(Run(s, pre, idle), l, idle) && Stamps(Run(s, pre, idle), l, k)
    requires Can(Step(Run(s, pre, idle), l, idle), post, idle) && NotReused(post, t)
    ensures var f := Run(Step(Run(s, pre, idle), l, idle), post, idle);
      Enabled(f, Seize(t), idle) && f.tasks[t].key == k ==>
        Step(f, Seize(t), idle) == f.(tasks := f.tasks[t := Selecting(f.tasks[t].todo, f.tasks[t].now)])
  {
    RunKeeps(s, pre, idle);
    var e := Run(s, pre, idle);
    StampIsSeen(e, l, idle, t, k);
    StepKeeps(e, l, idle);
    StaysStamped(Step(e, l, idle), post, idle, t, k, e.clock);
    var f := Run(Step(e, l, idle), post, idle);
    if Enabled(f, Seize(t), idle) && f.tasks[t].key == k { StampedMovesOn(f, idle, t, e.clock); }
  }

  /** Taking its next key, a sweep parks at the lock only if that thread's session is not busy. */
  lemma SweepNeverParksOnBusy(s: State, ls: seq<Label>, idle: Time, t: Task)
    requires Init(s) && Can(s, ls, idle) && Enabled(Run(s, ls, idle), Look(t), idle)
    ensures var e := Run(s, ls, idle); var f := Step(e, Look(t), idle);
      t in f.tasks && f.tasks[t].Awaiting? ==>
        forall u | u in e.tasks && e.tasks[u].Turning? :: e.tasks[u].key != f.tasks[t].key
  {
    RunKeeps(s, ls, idle);
    var e := Run(s, ls, idle);
    forall u | u in e.tasks && e.tasks[u].Turning? ensures TaskInv(e, u) {}
  }
}
