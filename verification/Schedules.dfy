/** Cron schedules: workers poll one store, claim what is due, and run each claim at most once. The cron
    library is a parameter: `occurs` says which times a cron line names, `next` finds the first of
    them after a given time. */
module Schedules {
  import opened Wrappers
  import opened Rows

  type Id = string
  type Cron = string    // the expression together with its time zone

  datatype Status = Missed | Error | Ok

  datatype Schedule = Schedule(cron: Cron, nextRunAt: Time, lastRunAt: Option<Time>, lastStatus: Option<Status>)

  /** What a claim carries away: the schedule as it was due. */
  datatype Due = Due(id: Id, at: Time)

  function Moved(row: Schedule, next: (Cron, Time) -> Time): Schedule {
    row.(nextRunAt := next(row.cron, row.nextRunAt))
  }

  function Advance(rows: map<Id, Schedule>, id: Id, next: (Cron, Time) -> Time): map<Id, Schedule>
    requires id in rows
  {
    rows[id := Moved(rows[id], next)]
  }

  /** `record_run`: a schedule deleted meanwhile stays deleted. */
  function Recorded(rows: map<Id, Schedule>, id: Id, at: Time, status: Status): map<Id, Schedule> {
    if id in rows then rows[id := rows[id].(lastRunAt := Some(at), lastStatus := Some(status))] else rows
  }

  /** The cron library and the runner's grace window. */
  datatype World = World(occurs: (Cron, Time) -> bool, next: (Cron, Time) -> Time, grace: Time)

  /** What `next_after` promises: the first occurrence strictly after `t`. */
  ghost predicate NextIsFirst(w: World) {
    forall c: Cron, t: Time :: IsNext(w, c, t, w.next(c, t))
  }

  ghost predicate IsNext(w: World, c: Cron, t: Time, n: Time) {
    t < n && w.occurs(c, n) && forall u | t < u < n :: !w.occurs(c, u)
  }

  // ---- any number of workers and polls ----

  datatype Phase = Held | Running | Done(status: Status) | Lost    // `Lost`: the worker or the status write failed

  /** `now` is the time of the poll that made the claim, `began` when its turn really started: `handle` had
      waited for the thread lock and had it. */
  datatype Claim = Claim(due: Due, now: Time, phase: Phase, began: Option<Time>)

  datatype Birth = Birth(cron: Cron, first: Time)

  /** `born`, `claims`, `fired` and `done` are history: every schedule ever created, every claim ever made,
      the claims whose turns were started, and those whose status was recorded, in that order. */
  datatype State = State(
    rows: map<Id, Schedule>, born: map<Id, Birth>, claims: seq<Claim>, fired: seq<nat>, done: seq<nat>)

  datatype Label =
    | Create(id: Id, cron: Cron, first: Time)
    | Delete(id: Id)
    | Take(id: Id, now: Time)                  // one row of one poll; rows another poll has locked are skipped
    | Skip(claim: nat)                         // the runner finds the claim too late, and records it as missed
    | Balk(claim: nat)                         // it does not, but `handle` raises before the turn began
    | Start(claim: nat, at: Time)              // it does not, and the turn begins
    | Finish(claim: nat, raised: bool)
    | Lose(claim: nat)

  predicate Late(c: Claim, w: World) {
    c.now - c.due.at > w.grace
  }

  predicate Enabled(s: State, l: Label, w: World) {
    match l
    case Create(id, cron, first) => id !in s.born && w.occurs(cron, first)
    case Delete(id) => true
    case Take(id, now) => id in s.rows && s.rows[id].nextRunAt <= now
    case Skip(n) => n < |s.claims| && s.claims[n].phase == Held && Late(s.claims[n], w)
    case Balk(n) => n < |s.claims| && s.claims[n].phase == Held && !Late(s.claims[n], w)
    case Start(n, at) => n < |s.claims| && s.claims[n].phase == Held && !Late(s.claims[n], w) && s.claims[n].now <= at
    case Finish(n, _) => n < |s.claims| && s.claims[n].phase == Running
    case Lose(n) => n < |s.claims| && !s.claims[n].phase.Done?
  }

  /** Recording a status: the row of the schedule, if it is still there, and the claim. */
  function Record(s: State, n: nat, status: Status): State
    requires n < |s.claims|
  {
    var c := s.claims[n];
    s.(rows := Recorded(s.rows, c.due.id, c.now, status), claims := s.claims[n := c.(phase := Done(status))], done := s.done + [n])
  }

  function Step(s: State, l: Label, w: World): State
    requires Enabled(s, l, w)
  {
    match l
    case Create(id, cron, first) =>
      s.(rows := s.rows[id := Schedule(cron, first, None, None)], born := s.born[id := Birth(cron, first)])
    case Delete(id) => s.(rows := s.rows - {id})
    case Take(id, now) =>
      s.(rows := Advance(s.rows, id, w.next),
         claims := s.claims + [Claim(Due(id, s.rows[id].nextRunAt), now, Held, None)])
    case Skip(n) => Record(s, n, Missed)
    case Balk(n) => Record(s, n, Error)
    case Start(n, at) =>
      s.(claims := s.claims[n := s.claims[n].(phase := Running, began := Some(at))], fired := s.fired + [n])
    case Finish(n, raised) => Record(s, n, if raised then Error else Ok)
    case Lose(n) => s.(claims := s.claims[n := s.claims[n].(phase := Lost)])
  }

  /** Where the steps lead, if each is possible in turn. */
  function After(s: State, ls: seq<Label>, w: World): Option<State> {
    if ls == [] then Some(s)
    else
      var front := After(s, ls[..|ls| - 1], w);
      var l := ls[|ls| - 1];
      if front.Some? && Enabled(front.value, l, w) then Some(Step(front.value, l, w)) else None
  }

  lemma AfterMore(s: State, ls: seq<Label>, l: Label, w: World)
    ensures After(s, ls + [l], w) ==
      var front := After(s, ls, w); if front.Some? && Enabled(front.value, l, w) then Some(Step(front.value, l, w)) else None
  {
    assert (ls + [l])[..|ls|] == ls;
  }

  lemma {:induction false} AfterOn(s: State, a: seq<Label>, t: State, b: seq<Label>, w: World)
    requires After(s, a, w) == Some(t)
    ensures After(s, a + b, w) == After(t, b, w)
    decreases |b|
  {
    if b == [] {
      assert a + b == a;
    } else {
      AfterOn(s, a, t, b[..|b| - 1], w);
      assert (a + b)[..|a + b| - 1] == a + b[..|b| - 1];
    }
  }

  /** Some steps lead from `s` to `t`. */
  ghost predicate Reaches(s: State, t: State, w: World) {
    exists ls :: After(s, ls, w) == Some(t)
  }

  lemma ReachesOn(s: State, t: State, u: State, w: World)
    requires Reaches(s, t, w) && Reaches(t, u, w)
    ensures Reaches(s, u, w)
  {
    var a :| After(s, a, w) == Some(t);
    var b :| After(t, b, w) == Some(u);
    AfterOn(s, a, t, b, w);
  }

  lemma ReachesBy(s: State, t: State, l: Label, w: World)
    requires Reaches(s, t, w) && Enabled(t, l, w)
    ensures Reaches(s, Step(t, l, w), w)
  {
    var a :| After(s, a, w) == Some(t);
    AfterMore(s, a, l, w);
  }

  const EMPTY := State(map[], map[], [], [], [])

  // ---- the invariant ----

  ghost predicate ClaimOf(s: State, n: nat, id: Id, u: Time) {
    n < |s.claims| && s.claims[n].due == Due(id, u)
  }

  ghost predicate Claimed(s: State, id: Id, u: Time) {
    exists n :: ClaimOf(s, n, id, u)
  }

  ghost predicate RowInv(s: State, id: Id, w: World)
    requires id in s.rows
  {
    && id in s.born && s.rows[id].cron == s.born[id].cron
    && w.occurs(s.rows[id].cron, s.rows[id].nextRunAt) && s.born[id].first <= s.rows[id].nextRunAt
    && forall u | s.born[id].first <= u < s.rows[id].nextRunAt && w.occurs(s.rows[id].cron, u) :: Claimed(s, id, u)
  }

  ghost predicate ClaimInv(s: State, n: nat, w: World)
    requires n < |s.claims|
  {
    var d := s.claims[n].due;
    && d.id in s.born && w.occurs(s.born[d.id].cron, d.at) && s.born[d.id].first <= d.at <= s.claims[n].now
    && (d.id in s.rows ==> d.at < s.rows[d.id].nextRunAt)
    && (forall u | s.born[d.id].first <= u <= d.at && w.occurs(s.born[d.id].cron, u) :: Claimed(s, d.id, u))
    && forall m | n < m < |s.claims| && s.claims[m].due.id == d.id :: d.at < s.claims[m].due.at
  }

  /** Where a claim stands, and what history has of it. */
  predicate PhaseInv(s: State, n: nat, w: World)
    requires n < |s.claims|
  {
    var c := s.claims[n];
    && (c.began.Some? <==> n in s.fired)
    && (n in s.fired ==> !Late(c, w) && c.began.value >= c.now)
    && (c.phase == Held ==> n !in s.fired && n !in s.done)
    && (c.phase == Running ==> n in s.fired && n !in s.done)
    && (c.phase == Lost ==> n !in s.done)
    && (c.phase.Done? ==> n in s.done && (c.phase.status == Missed <==> Late(c, w)) && (c.phase.status == Ok ==> n in s.fired))
  }

  predicate HistoryInv(s: State) {
    && (forall i | 0 <= i < |s.fired| :: s.fired[i] < |s.claims|)
    && (forall i | 0 <= i < |s.done| :: s.done[i] < |s.claims| && s.claims[s.done[i]].phase.Done?)
    && (forall i, j | 0 <= i < j < |s.fired| :: s.fired[i] != s.fired[j])
    && (forall i, j | 0 <= i < j < |s.done| :: s.done[i] != s.done[j])
  }

  /** The claim of schedule `id` whose status was recorded last, among the first `k` recordings. */
  function LastDone(s: State, id: Id, k: nat): Option<nat>
    requires k <= |s.done| && forall i | 0 <= i < k :: s.done[i] < |s.claims|
  {
    if k == 0 then None
    else if s.claims[s.done[k - 1]].due.id == id then Some(s.done[k - 1])
    else LastDone(s, id, k - 1)
  }

  /** What the row says of its last run. */
  predicate Tells(row: Schedule, s: State, last: Option<nat>)
    requires last.Some? ==> last.value < |s.claims| && s.claims[last.value].phase.Done?
  {
    && row.lastRunAt == (if last.Some? then Some(s.claims[last.value].now) else None)
    && row.lastStatus == (if last.Some? then Some(s.claims[last.value].phase.status) else None)
  }

  ghost predicate LastInv(s: State, id: Id)
    requires HistoryInv(s) && id in s.rows
  {
    LastIsDone(s, id, |s.done|);
    Tells(s.rows[id], s, LastDone(s, id, |s.done|))
  }

  lemma {:induction false} LastIsDone(s: State, id: Id, k: nat)
    requires HistoryInv(s) && k <= |s.done|
    ensures var last := LastDone(s, id, k);
      last.Some? ==> last.value in s.done && last.value < |s.claims| && s.claims[last.value].phase.Done?
                     && s.claims[last.value].due.id == id
  {
    if k > 0 { LastIsDone(s, id, k - 1); }
  }

  ghost predicate Inv(s: State, w: World) {
    && (forall id | id in s.rows :: RowInv(s, id, w))
    && (forall n | 0 <= n < |s.claims| :: ClaimInv(s, n, w) && PhaseInv(s, n, w))
    && HistoryInv(s)
    && (forall id | id in s.rows :: LastInv(s, id))
    && (forall id | id in s.rows :: id in s.born)
    && (forall n | 0 <= n < |s.claims| :: s.claims[n].due.id in s.born)
  }

  lemma ClaimsStay(s: State, l: Label, w: World, id: Id, u: Time)
    requires Enabled(s, l, w) && Claimed(s, id, u)
    ensures Claimed(Step(s, l, w), id, u)
  {
    var n :| ClaimOf(s, n, id, u);
    assert ClaimOf(Step(s, l, w), n, id, u);
  }

  /** Apart from creating, deleting and taking, a step leaves what a row is scheduled for. */
  lemma RowsStay(s: State, l: Label, w: World, id: Id)
    requires Enabled(s, l, w) && id in Step(s, l, w).rows && id in s.rows
    requires !(l.Take? && l.id == id) && !(l.Create? && l.id == id)
    ensures Step(s, l, w).rows[id].cron == s.rows[id].cron && Step(s, l, w).rows[id].nextRunAt == s.rows[id].nextRunAt
  {
  }

  lemma StepKeepsRow(s: State, l: Label, w: World, id: Id)
    requires NextIsFirst(w) && Inv(s, w) && Enabled(s, l, w) && id in Step(s, l, w).rows
    ensures RowInv(Step(s, l, w), id, w)
  {
    var s' := Step(s, l, w);
    if id in s.rows {
      assert RowInv(s, id, w);
      var due := s.rows[id].nextRunAt;
      if l.Take? && l.id == id {
        assert IsNext(w, s.rows[id].cron, due, s'.rows[id].nextRunAt);
      } else {
        RowsStay(s, l, w, id);
      }
      forall u | s'.born[id].first <= u < s'.rows[id].nextRunAt && w.occurs(s'.rows[id].cron, u) ensures Claimed(s', id, u) {
        if u == due && l.Take? {
          assert ClaimOf(s', |s.claims|, id, u);
        } else {
          ClaimsStay(s, l, w, id, u);
        }
      }
    }
  }

  lemma StepKeepsClaim(s: State, l: Label, w: World, n: nat)
    requires NextIsFirst(w) && Inv(s, w) && Enabled(s, l, w) && n < |Step(s, l, w).claims|
    ensures ClaimInv(Step(s, l, w), n, w)
  {
    var s' := Step(s, l, w);
    var d := s'.claims[n].due;
    if l.Take? {
      assert RowInv(s, l.id, w);
      assert IsNext(w, s.rows[l.id].cron, s.rows[l.id].nextRunAt, s'.rows[l.id].nextRunAt);
    }
    if n < |s.claims| {
      assert ClaimInv(s, n, w);
    }
    forall u | s'.born[d.id].first <= u <= d.at && w.occurs(s'.born[d.id].cron, u) ensures Claimed(s', d.id, u) {
      if u == d.at { assert ClaimOf(s', n, d.id, u); } else { ClaimsStay(s, l, w, d.id, u); }
    }
  }

  /** The steps that record a status. */
  predicate Records(l: Label) {
    l.Skip? || l.Balk? || l.Finish?
  }

  /** What a step does to history: it adds the claim it is about, or nothing. */
  lemma StepHistory(s: State, l: Label, w: World)
    requires Enabled(s, l, w)
    ensures var s' := Step(s, l, w);
      && s'.fired == s.fired + (if l.Start? then [l.claim] else [])
      && s'.done == s.done + (if Records(l) then [l.claim] else [])
      && |s.claims| <= |s'.claims|
      && forall n | 0 <= n < |s.claims| :: s'.claims[n].due == s.claims[n].due && s'.claims[n].now == s.claims[n].now
           && (!((Records(l) || l.Start? || l.Lose?) && l.claim == n) ==> s'.claims[n] == s.claims[n])
  {
  }

  lemma StepKeepsHistory(s: State, l: Label, w: World)
    requires Inv(s, w) && Enabled(s, l, w)
    ensures HistoryInv(Step(s, l, w))
  {
    StepHistory(s, l, w);
    if Records(l) || l.Start? || l.Lose? { assert PhaseInv(s, l.claim, w); }
  }

  lemma StepKeepsPhase(s: State, l: Label, w: World, n: nat)
    requires Inv(s, w) && Enabled(s, l, w) && n < |Step(s, l, w).claims|
    ensures PhaseInv(Step(s, l, w), n, w)
  {
    StepHistory(s, l, w);
    if n < |s.claims| { assert PhaseInv(s, n, w); }
  }

  /** The first `k` recordings do not change their meaning. */
  lemma {:induction false} LastStays(s: State, s': State, id: Id, k: nat)
    requires k <= |s.done| <= |s'.done| && s'.done[..|s.done|] == s.done && |s.claims| <= |s'.claims|
    requires forall i | 0 <= i < k :: s.done[i] < |s.claims|
    requires forall n | 0 <= n < |s.claims| :: s'.claims[n].due == s.claims[n].due
    ensures forall i | 0 <= i < k :: s'.done[i] == s.done[i]
    ensures LastDone(s', id, k) == LastDone(s, id, k)
  {
    assert forall i | 0 <= i < k :: s'.done[i] == s'.done[..|s.done|][i];
    if k > 0 { LastStays(s, s', id, k - 1); }
  }

  /** A schedule no claim is about has no last recording. */
  lemma {:induction false} NothingDone(s: State, id: Id, k: nat)
    requires HistoryInv(s) && k <= |s.done| && forall n | 0 <= n < |s.claims| :: s.claims[n].due.id != id
    ensures LastDone(s, id, k) == None
  {
    if k > 0 { NothingDone(s, id, k - 1); }
  }

  lemma RecordKeepsLast(s: State, n: nat, status: Status, w: World, id: Id)
    requires Inv(s, w) && n < |s.claims| && n !in s.done && id in s.rows && HistoryInv(Record(s, n, status))
    ensures LastInv(Record(s, n, status), id)
  {
    var s' := Record(s, n, status);
    assert LastInv(s, id);
    LastIsDone(s, id, |s.done|);
    LastStays(s, s', id, |s.done|);
    LastIsDone(s', id, |s'.done|);
  }

  lemma OthersKeepLast(s: State, l: Label, w: World, id: Id)
    requires Inv(s, w) && Enabled(s, l, w) && !Records(l) && id in s.rows && id in Step(s, l, w).rows
    requires HistoryInv(Step(s, l, w))
    ensures LastInv(Step(s, l, w), id)
  {
    var s' := Step(s, l, w);
    assert LastInv(s, id) && RowInv(s, id, w);
    StepHistory(s, l, w);
    LastIsDone(s, id, |s.done|);
    LastStays(s, s', id, |s.done|);
    var last := LastDone(s, id, |s.done|);
    if last.Some? { assert PhaseInv(s, last.value, w); }
  }

  lemma StepKeepsLast(s: State, l: Label, w: World, id: Id)
    requires Inv(s, w) && Enabled(s, l, w) && id in Step(s, l, w).rows && HistoryInv(Step(s, l, w))
    ensures LastInv(Step(s, l, w), id)
  {
    if id !in s.rows {
      NothingDone(Step(s, l, w), id, |s.done|);
    } else if Records(l) {
      assert PhaseInv(s, l.claim, w);
      RecordKeepsLast(s, l.claim, if l.Skip? then Missed else if l.Balk? || l.raised then Error else Ok, w, id);
    } else {
      OthersKeepLast(s, l, w, id);
    }
  }

  lemma StepKeeps(s: State, l: Label, w: World)
    requires NextIsFirst(w) && Inv(s, w) && Enabled(s, l, w)
    ensures Inv(Step(s, l, w), w)
  {
    var s' := Step(s, l, w);
    StepKeepsHistory(s, l, w);
    forall id | id in s'.rows ensures RowInv(s', id, w) { StepKeepsRow(s, l, w, id); }
    forall n | 0 <= n < |s'.claims| ensures ClaimInv(s', n, w) && PhaseInv(s', n, w) {
      StepKeepsClaim(s, l, w, n);
      StepKeepsPhase(s, l, w, n);
    }
    forall id | id in s'.rows ensures LastInv(s', id) { StepKeepsLast(s, l, w, id); }
  }

  lemma {:induction false} RunKeeps(ls: seq<Label>, w: World)
    requires NextIsFirst(w) && After(EMPTY, ls, w).Some?
    ensures Inv(After(EMPTY, ls, w).value, w)
  {
    if ls != [] {
      RunKeeps(ls[..|ls| - 1], w);
      StepKeeps(After(EMPTY, ls[..|ls| - 1], w).value, ls[|ls| - 1], w);
    }
  }

  // ---- what it means ----

  /** Whatever workers poll and whenever: the times claimed for a schedule are occurrences of its cron
      line, from its first one on, in order, none twice and none left out. */
  lemma ClaimsAreTheOccurrences(ls: seq<Label>, w: World, n: nat)
    requires NextIsFirst(w) && After(EMPTY, ls, w).Some? && n < |After(EMPTY, ls, w).value.claims|
    ensures var s := After(EMPTY, ls, w).value; var d := s.claims[n].due;
      && d.id in s.born && d.at <= s.claims[n].now
      && (forall m | n < m < |s.claims| && s.claims[m].due.id == d.id :: d.at < s.claims[m].due.at)
      && (forall u | u <= d.at :: s.born[d.id].first <= u && w.occurs(s.born[d.id].cron, u) <==> Claimed(s, d.id, u))
  {
    RunKeeps(ls, w);
    var s := After(EMPTY, ls, w).value;
    assert ClaimInv(s, n, w);
    forall u | Claimed(s, s.claims[n].due.id, u)
      ensures s.born[s.claims[n].due.id].first <= u && w.occurs(s.born[s.claims[n].due.id].cron, u)
    {
      var m :| ClaimOf(s, m, s.claims[n].due.id, u);
      assert ClaimInv(s, m, w);
    }
  }

  /** While a schedule exists they are exactly the occurrences before its `next_run_at`. */
  lemma LiveScheduleIsUpToDate(ls: seq<Label>, w: World, id: Id, u: Time)
    requires NextIsFirst(w) && After(EMPTY, ls, w).Some? && id in After(EMPTY, ls, w).value.rows
    ensures var s := After(EMPTY, ls, w).value;
      && id in s.born
      && (Claimed(s, id, u) <==> s.born[id].first <= u < s.rows[id].nextRunAt && w.occurs(s.born[id].cron, u))
  {
    RunKeeps(ls, w);
    var s := After(EMPTY, ls, w).value;
    assert RowInv(s, id, w);
    if Claimed(s, id, u) {
      var n :| ClaimOf(s, n, id, u);
      assert ClaimInv(s, n, w);
    }
  }

  /** No occurrence of a schedule starts two turns, whichever workers poll. */
  lemma OccurrencesFireAtMostOnce(ls: seq<Label>, w: World, i: nat, j: nat)
    requires NextIsFirst(w) && After(EMPTY, ls, w).Some? && i < j < |After(EMPTY, ls, w).value.fired|
    ensures var s := After(EMPTY, ls, w).value; var a := s.fired[i]; var b := s.fired[j];
      a < |s.claims| && b < |s.claims| && s.claims[a].due != s.claims[b].due
  {
    RunKeeps(ls, w);
    var s := After(EMPTY, ls, w).value;
    var a, b := s.fired[i], s.fired[j];
    assert ClaimInv(s, a, w) && ClaimInv(s, b, w);
  }

  /** Once deleted, a schedule has no row and is claimed no more, whatever is created, polled or still being worked
      off. */
  lemma {:induction false} DeletedIsOver(s: State, ls: seq<Label>, w: World, id: Id)
    requires id in s.born && After(Step(s, Delete(id), w), ls, w).Some?
    ensures var t := After(Step(s, Delete(id), w), ls, w).value;
      id in t.born && id !in t.rows && |s.claims| <= |t.claims| && forall n | |s.claims| <= n < |t.claims| :: t.claims[n].due.id != id
  {
    if ls != [] {
      var front, l := ls[..|ls| - 1], ls[|ls| - 1];
      DeletedIsOver(s, front, w, id);
      StepHistory(After(Step(s, Delete(id), w), front, w).value, l, w);
    }
  }

  /** No claim starts a turn if the poll that made it was past the grace window; a claim ends as missed
      exactly when it was, and as ok only after its turn was started. */
  lemma GraceDecides(ls: seq<Label>, w: World, n: nat)
    requires NextIsFirst(w) && After(EMPTY, ls, w).Some? && n < |After(EMPTY, ls, w).value.claims|
    ensures var s := After(EMPTY, ls, w).value; var c := s.claims[n];
      && (n in s.fired ==> c.now - c.due.at <= w.grace)
      && (c.phase.Done? ==> (c.phase.status == Missed <==> c.now - c.due.at > w.grace) && (c.phase.status == Ok ==> n in s.fired))
      && (n in s.fired ==> c.began.Some? && c.now <= c.began.value)
  {
    RunKeeps(ls, w);
    assert PhaseInv(After(EMPTY, ls, w).value, n, w);
  }

  /** Each claim's status is recorded at most once; and the row of a schedule always tells the poll and the
      status of the claim of it that was recorded last, or of none if none was. */
  lemma RowsTellTheLastRun(ls: seq<Label>, w: World, id: Id)
    requires NextIsFirst(w) && After(EMPTY, ls, w).Some? && id in After(EMPTY, ls, w).value.rows
    ensures var s := After(EMPTY, ls, w).value;
      && (forall i, j | 0 <= i < j < |s.done| :: s.done[i] != s.done[j])
      && (forall i | 0 <= i < |s.done| :: s.done[i] < |s.claims| && s.claims[s.done[i]].phase.Done?)
      && var last := LastDone(s, id, |s.done|);
         if last.None? then s.rows[id].lastRunAt == None && s.rows[id].lastStatus == None
         else last.value < |s.claims| && s.claims[last.value].due.id == id && s.claims[last.value].phase.Done?
              && s.rows[id].lastRunAt == Some(s.claims[last.value].now)
              && s.rows[id].lastStatus == Some(s.claims[last.value].phase.status)
  {
    RunKeeps(ls, w);
    var s := After(EMPTY, ls, w).value;
    LastIsDone(s, id, |s.done|);
    assert LastInv(s, id);
  }

  // ---- the store ----

  /** The claims a poll at `now` makes of what it took. */
  function Claims(dues: seq<Due>, now: Time): seq<Claim> {
    seq(|dues|, i requires 0 <= i < |dues| => Claim(dues[i], now, Held, None))
  }

  /** The claims of a poll: every due row not left out, once. */
  ghost predicate ClaimedAll(was: map<Id, Schedule>, claimed: seq<Due>, leftOut: set<Id>, now: Time) {
    && (forall i, j | 0 <= i < j < |claimed| :: claimed[i].id != claimed[j].id)
    && forall d: Due :: d in claimed <==> d.id in was && d.id !in leftOut && d.at == was[d.id].nextRunAt <= now
  }

  /** The rows after it: those claimed have moved on by one occurrence, and no others. */
  ghost predicate MovedAll(was: map<Id, Schedule>, rows: map<Id, Schedule>, leftOut: set<Id>, now: Time, w: World) {
    rows.Keys == was.Keys
    && forall id | id in rows ::
         rows[id] == (if id !in leftOut && was[id].nextRunAt <= now then Moved(was[id], w.next) else was[id])
  }

  lemma ClaimedOne(was: map<Id, Schedule>, claimed: seq<Due>, leftOut: set<Id>, id: Id, now: Time)
    requires ClaimedAll(was, claimed, leftOut, now) && id in was && id in leftOut && was[id].nextRunAt <= now
    ensures ClaimedAll(was, claimed + [Due(id, was[id].nextRunAt)], leftOut - {id}, now)
  {
    var all, due := claimed + [Due(id, was[id].nextRunAt)], Due(id, was[id].nextRunAt);
    forall i | 0 <= i < |claimed| ensures all[i].id != id { assert claimed[i] in claimed; }
    forall d: Due ensures d in all <==> d.id in was && d.id !in leftOut - {id} && d.at == was[d.id].nextRunAt <= now {
      assert d in all <==> d in claimed || d == due;
    }
  }

  /** Steps lead from `s` to the state in which the poll has made these claims. */
  ghost predicate PollSoFar(s: State, rows: map<Id, Schedule>, claimed: seq<Due>, now: Time, w: World) {
    Reaches(s, s.(rows := rows, claims := s.claims + Claims(claimed, now)), w)
  }

  lemma NothingTaken(s: State, now: Time, w: World)
    ensures PollSoFar(s, s.rows, [], now, w)
  {
    assert s.claims + Claims([], now) == s.claims;
    assert After(s, [], w) == Some(s);
  }

  lemma Took(s: State, rows: map<Id, Schedule>, claimed: seq<Due>, id: Id, now: Time, w: World)
    requires PollSoFar(s, rows, claimed, now, w) && id in rows && rows[id].nextRunAt <= now
    ensures PollSoFar(s, Advance(rows, id, w.next), claimed + [Due(id, rows[id].nextRunAt)], now, w)
  {
    var due := Due(id, rows[id].nextRunAt);
    ReachesBy(s, s.(rows := rows, claims := s.claims + Claims(claimed, now)), Take(id, now), w);
    assert Claims(claimed + [due], now) == Claims(claimed, now) + [Claim(due, now, Held, None)];
    assert s.claims + Claims(claimed + [due], now) == s.claims + Claims(claimed, now) + [Claim(due, now, Held, None)];
  }

  lemma MovedOne(was: map<Id, Schedule>, rows: map<Id, Schedule>, leftOut: set<Id>, id: Id, now: Time, w: World)
    requires MovedAll(was, rows, leftOut, now, w) && id in was && id in leftOut && was[id].nextRunAt <= now
    ensures rows[id] == was[id] && MovedAll(was, Advance(rows, id, w.next), leftOut - {id}, now, w)
  {
  }

  lemma LeftOut(was: map<Id, Schedule>, rows: map<Id, Schedule>, claimed: seq<Due>, leftOut: set<Id>, id: Id, now: Time, w: World)
    requires ClaimedAll(was, claimed, leftOut, now) && MovedAll(was, rows, leftOut, now, w)
    requires id in was && id in leftOut && was[id].nextRunAt > now
    ensures ClaimedAll(was, claimed, leftOut - {id}, now) && MovedAll(was, rows, leftOut - {id}, now, w)
    ensures rows[id] == was[id]
  {
  }

  lemma FirstLeftOut(was: map<Id, Schedule>, locked: set<Id>, now: Time, w: World)
    ensures ClaimedAll(was, [], locked + (was.Keys - locked), now) && MovedAll(was, was, locked + (was.Keys - locked), now, w)
  {
  }

  /** Everything a poll has done so far, with `leftOut` still to look at or to leave alone. */
  ghost predicate PollInv(was: map<Id, Schedule>, s: State, rows: map<Id, Schedule>, claimed: seq<Due>,
                          leftOut: set<Id>, now: Time, w: World) {
    ClaimedAll(was, claimed, leftOut, now) && MovedAll(was, rows, leftOut, now, w) && PollSoFar(s, rows, claimed, now, w)
  }

  lemma StillThere(was: map<Id, Schedule>, rows: map<Id, Schedule>, leftOut: set<Id>, id: Id, now: Time, w: World)
    requires MovedAll(was, rows, leftOut, now, w) && id in was && id in leftOut
    ensures rows[id] == was[id]
  {
  }

  lemma PollStarts(s: State, locked: set<Id>, now: Time, w: World)
    ensures PollInv(s.rows, s, s.rows, [], locked + (s.rows.Keys - locked), now, w)
  {
    NothingTaken(s, now, w);
    FirstLeftOut(s.rows, locked, now, w);
  }

  lemma PollLooks(was: map<Id, Schedule>, s: State, rows: map<Id, Schedule>, claimed: seq<Due>,
                  leftOut: set<Id>, id: Id, now: Time, w: World)
    requires PollInv(was, s, rows, claimed, leftOut, now, w) && id in was && id in leftOut
    ensures id in rows
    ensures if rows[id].nextRunAt <= now
      then PollInv(was, s, Advance(rows, id, w.next), claimed + [Due(id, rows[id].nextRunAt)], leftOut - {id}, now, w)
      else PollInv(was, s, rows, claimed, leftOut - {id}, now, w)
  {
    StillThere(was, rows, leftOut, id, now, w);
    if rows[id].nextRunAt <= now {
      Took(s, rows, claimed, id, now, w);
      ClaimedOne(was, claimed, leftOut, id, now);
      MovedOne(was, rows, leftOut, id, now, w);
    } else {
      LeftOut(was, rows, claimed, leftOut, id, now, w);
    }
  }

  class ScheduleStore {
    var rows: map<Id, Schedule>

    constructor ()
      ensures rows == map[]
    {
      rows := map[];
    }

    /** `claim_due_schedules`; `locked` are the rows another poll holds, which this one skips. Every other
        due row is claimed once, with the time it was due, and moves on by one occurrence. A poll is a
        run of `Take` steps. */
    method ClaimDue(now: Time, locked: set<Id>, w: World, ghost s: State) returns (claimed: seq<Due>)
      requires s.rows == rows
      modifies this
      ensures PollInv(old(rows), s, rows, claimed, locked, now, w)
    {
      claimed := [];
      ghost var was := rows;
      var rest := rows.Keys - locked;
      ghost var leftOut := locked + rest;
      PollStarts(s, locked, now, w);
      while rest != {}
        invariant rest <= was.Keys && rest <= leftOut && leftOut - rest <= locked <= leftOut && rest !! locked
        invariant PollInv(was, s, rows, claimed, leftOut, now, w)
        decreases |rest|
      {
        var id :| id in rest;
        claimed := ClaimRow(id, now, w, claimed, was, s, leftOut);
        rest, leftOut := rest - {id}, leftOut - {id};
      }
      assert leftOut == locked;
    }

    /** One row the poll has locked: claim it if it is due. */
    method ClaimRow(id: Id, now: Time, w: World, claimed: seq<Due>, ghost was: map<Id, Schedule>, ghost s: State, ghost leftOut: set<Id>)
      returns (more: seq<Due>)
      requires PollInv(was, s, rows, claimed, leftOut, now, w) && id in was && id in leftOut
      modifies this
      ensures PollInv(was, s, rows, more, leftOut - {id}, now, w)
    {
      PollLooks(was, s, rows, claimed, leftOut, id, now, w);
      more := claimed;
      if rows[id].nextRunAt <= now {
        more := claimed + [Due(id, rows[id].nextRunAt)];
        rows := Advance(rows, id, w.next);
      }
    }

    method RecordRun(id: Id, at: Time, status: Status)
      modifies this
      ensures rows == Recorded(old(rows), id, at, status)
    {
      if id in rows {
        rows := rows[id := rows[id].(lastRunAt := Some(at), lastStatus := Some(status))];
      }
    }
  }

  // ---- the runner ----

  datatype Outcome = Returns | Raises | Balks    // of `handle`; `Balks`: it raised before the turn began

  /** What the runner meets on one claim of a poll: how long `handle` waits for the thread lock, how long all
      the rest takes, how `handle` ends, and whether the status write works. */
  datatype Fate = Fate(waits: nat, runs: nat, outcome: Outcome, written: bool)

  type Plan = nat -> Fate

  predicate InTime(due: Due, now: Time, w: World) {
    now - due.at <= w.grace
  }

  /** The claim's turn begins, early or late. */
  predicate Begins(due: Due, now: Time, fate: Fate, w: World) {
    InTime(due, now, w) && !fate.outcome.Balks?
  }

  /** The status of a claim polled at `now`. */
  function StatusOf(due: Due, now: Time, fate: Fate, w: World): Status {
    if !InTime(due, now, w) then Missed else if fate.outcome.Returns? then Ok else Error
  }

  /** How long the runner is busy with the first `i` claims of a poll. */
  function Waited(plan: Plan, i: nat): nat {
    if i == 0 then 0 else Waited(plan, i - 1) + plan(i - 1).waits + plan(i - 1).runs
  }

  function Oks(statuses: seq<Status>): nat {
    if statuses == [] then 0 else Oks(statuses[..|statuses| - 1]) + if statuses[|statuses| - 1] == Ok then 1 else 0
  }

  lemma OksMore(statuses: seq<Status>, status: Status)
    ensures Oks(statuses + [status]) == Oks(statuses) + if status == Ok then 1 else 0
  {
    assert (statuses + [status])[..|statuses|] == statuses;
  }

  /** What the runner leaves of a claim it meets with `fate`, if its turn, should it have one, begins at `at`. */
  function Worked(s: State, n: nat, at: Time, fate: Fate, w: World): State
    requires n < |s.claims|
  {
    var c := s.claims[n];
    var begins, status := Begins(c.due, c.now, fate, w), StatusOf(c.due, c.now, fate, w);
    s.(rows := if fate.written then Recorded(s.rows, c.due.id, c.now, status) else s.rows,
       claims := s.claims[n := c.(phase := if fate.written then Done(status) else Lost, began := if begins then Some(at) else c.began)],
       fired := if begins then s.fired + [n] else s.fired,
       done := if fate.written then s.done + [n] else s.done)
  }

  lemma WorkIsSteps(s: State, n: nat, at: Time, fate: Fate, w: World)
    requires n < |s.claims| && s.claims[n].phase == Held && s.claims[n].began == None && s.claims[n].now <= at
    ensures Reaches(s, Worked(s, n, at, fate, w), w)
  {
    var c := s.claims[n];
    assert After(s, [], w) == Some(s);
    if Begins(c.due, c.now, fate, w) {
      var m := Step(s, Start(n, at), w);
      ReachesBy(s, s, Start(n, at), w);
      ReachesBy(s, m, if !fate.written then Lose(n) else Finish(n, fate.outcome.Raises?), w);
      var end := c.(phase := if fate.written then Done(if fate.outcome.Raises? then Error else Ok) else Lost, began := Some(at));
      assert m.claims[n := end] == s.claims[n := end];
    } else {
      ReachesBy(s, s, if !fate.written then Lose(n) else if Late(c, w) then Skip(n) else Balk(n), w);
    }
  }

  /** When the turn of claim `i` begins, if it does: after the time spent on the claims before it, and the
      wait for the lock. */
  function BegunAt(due: Due, now: Time, plan: Plan, i: nat, w: World): Option<Time> {
    if Begins(due, now, plan(i), w) then Some(now + Waited(plan, i) + plan(i).waits) else None
  }

  /** Claim `i` of the poll when the runner is done with it. */
  function EndOf(due: Due, now: Time, plan: Plan, i: nat, w: World): Claim {
    Claim(due, now, if plan(i).written then Done(StatusOf(due, now, plan(i), w)) else Lost, BegunAt(due, now, plan, i, w))
  }

  function WorkedClaims(claimed: seq<Due>, now: Time, k: nat, plan: Plan, w: World): seq<Claim> {
    seq(|claimed|, i requires 0 <= i < |claimed| =>
      if i < k then EndOf(claimed[i], now, plan, i, w) else Claim(claimed[i], now, Held, None))
  }

  lemma {:induction false} WorkedMore(claimed: seq<Due>, now: Time, k: nat, plan: Plan, w: World)
    requires k < |claimed|
    ensures WorkedClaims(claimed, now, k + 1, plan, w) == WorkedClaims(claimed, now, k, plan, w)[k := EndOf(claimed[k], now, plan, k, w)]
  {
  }

  lemma SuffixUpdate(all: seq<Claim>, base: nat, k: nat, c: Claim)
    requires base + k < |all|
    ensures all[base + k := c][base..] == all[base..][k := c]
  {
  }

  /** The poll's claims are the last ones of `t`, and the runner has worked on the first `k` of them; those whose
      turns began are on record. */
  ghost predicate Progress(t: State, base: nat, claimed: seq<Due>, now: Time, k: nat, plan: Plan, w: World) {
    && |t.claims| == base + |claimed| && k <= |claimed| && t.claims[base..] == WorkedClaims(claimed, now, k, plan, w)
    && OnRecord(t, base, claimed, now, k, plan, w)
  }

  predicate OnRecord(t: State, base: nat, claimed: seq<Due>, now: Time, k: nat, plan: Plan, w: World)
    requires k <= |claimed|
  {
    forall i: nat | i < k && Begins(claimed[i], now, plan(i), w) :: base + i in t.fired
  }

  /** Steps lead from `s` to `t`, where the store stands and the poll's work has come so far. */
  ghost predicate WorkSoFar(s: State, t: State, rows: map<Id, Schedule>, base: nat, claimed: seq<Due>,
                            now: Time, k: nat, plan: Plan, w: World) {
    Reaches(s, t, w) && t.rows == rows && Progress(t, base, claimed, now, k, plan, w)
  }

  lemma {:induction false} WorkStarts(s: State, base: nat, claimed: seq<Due>, now: Time, plan: Plan, w: World)
    requires Progress(s, base, claimed, now, 0, plan, w)
    ensures WorkSoFar(s, s, s.rows, base, claimed, now, 0, plan, w)
  {
    assert After(s, [], w) == Some(s);
  }

  lemma {:induction false} HeldNext(m: State, base: nat, claimed: seq<Due>, now: Time, k: nat, plan: Plan, w: World)
    requires Progress(m, base, claimed, now, k, plan, w) && k < |claimed|
    ensures base + k < |m.claims| && m.claims[base + k] == Claim(claimed[k], now, Held, None)
  {
    assert m.claims[base + k] == m.claims[base..][k];
  }

  /** What the runner leaves of claim `k` of a poll, which is claim `n` of the machine. */
  function Next(m: State, n: nat, now: Time, k: nat, plan: Plan, w: World): State
    requires n < |m.claims|
  {
    Worked(m, n, now + Waited(plan, k) + plan(k).waits, plan(k), w)
  }

  lemma {:induction false} NextEnds(m: State, n: nat, due: Due, now: Time, k: nat, plan: Plan, w: World)
    requires n < |m.claims| && m.claims[n] == Claim(due, now, Held, None)
    ensures var t := Next(m, n, now, k, plan, w);
      t.claims == m.claims[n := EndOf(due, now, plan, k, w)] && t.rows == RowsAfter(m.rows, due, now, plan(k), w)
      && t.fired == m.fired + if Begins(due, now, plan(k), w) then [n] else []
    ensures Reaches(m, Next(m, n, now, k, plan, w), w)
  {
    WorkIsSteps(m, n, now + Waited(plan, k) + plan(k).waits, plan(k), w);
  }

  lemma {:induction false} ProgressStep(m: State, t: State, base: nat, claimed: seq<Due>, now: Time, k: nat, plan: Plan, w: World)
    requires Progress(m, base, claimed, now, k, plan, w) && k < |claimed|
    requires t.claims == m.claims[base + k := EndOf(claimed[k], now, plan, k, w)]
    requires t.fired == m.fired + if Begins(claimed[k], now, plan(k), w) then [base + k] else []
    ensures Progress(t, base, claimed, now, k + 1, plan, w)
  {
    SuffixUpdate(m.claims, base, k, EndOf(claimed[k], now, plan, k, w));
    WorkedMore(claimed, now, k, plan, w);
  }

  /** The rows after the work on a claim. */
  function RowsAfter(rows: map<Id, Schedule>, due: Due, now: Time, fate: Fate, w: World): map<Id, Schedule> {
    if fate.written then Recorded(rows, due.id, now, StatusOf(due, now, fate, w)) else rows
  }

  lemma {:induction false} WorkAdvances(s: State, m: State, rows: map<Id, Schedule>, base: nat, claimed: seq<Due>,
                                           now: Time, k: nat, plan: Plan, w: World)
    returns (t: State)
    requires WorkSoFar(s, m, rows, base, claimed, now, k, plan, w) && k < |claimed|
    ensures WorkSoFar(s, t, RowsAfter(rows, claimed[k], now, plan(k), w), base, claimed, now, k + 1, plan, w)
  {
    HeldNext(m, base, claimed, now, k, plan, w);
    t := Next(m, base + k, now, k, plan, w);
    NextEnds(m, base + k, claimed[k], now, k, plan, w);
    ProgressStep(m, t, base, claimed, now, k, plan, w);
    ReachesOn(s, m, t, w);
  }

  /** One status for each of the first claims, in order, and each was written. */
  predicate Recordings(statuses: seq<Status>, claimed: seq<Due>, now: Time, plan: Plan, w: World) {
    |statuses| <= |claimed| &&
    forall i | 0 <= i < |statuses| :: statuses[i] == StatusOf(claimed[i], now, plan(i), w) && plan(i).written
  }

  lemma {:induction false} RecordingsMore(statuses: seq<Status>, claimed: seq<Due>, now: Time, plan: Plan, w: World)
    requires Recordings(statuses, claimed, now, plan, w) && |statuses| < |claimed| && plan(|statuses|).written
    ensures Recordings(statuses + [StatusOf(claimed[|statuses|], now, plan(|statuses|), w)], claimed, now, plan, w)
  {
  }

  /** Those of the first `k` claims whose turns began, each once and in order. */
  predicate Starts(started: seq<nat>, claimed: seq<Due>, now: Time, k: nat, plan: Plan, w: World)
    requires k <= |claimed|
  {
    && (forall i: nat | i < k :: i in started <==> Begins(claimed[i], now, plan(i), w))
    && (forall i | 0 <= i < |started| :: started[i] < k) && forall i, j | 0 <= i < j < |started| :: started[i] < started[j]
  }

  lemma {:induction false} StartsMore(started: seq<nat>, claimed: seq<Due>, now: Time, k: nat, plan: Plan, w: World)
    requires k < |claimed| && Starts(started, claimed, now, k, plan, w)
    ensures Starts(if Begins(claimed[k], now, plan(k), w) then started + [k] else started, claimed, now, k + 1, plan, w)
  {
    assert k in started + [k] && forall i: nat | i < k :: i in started + [k] <==> i in started;
  }

  /** The claims from `base` on that ended ok. */
  function OkClaims(t: State, base: nat): set<nat> {
    set n: nat | base <= n < |t.claims| && t.claims[n].phase == Done(Ok)
  }

  function OkAmong(t: State, base: nat, k: nat): set<nat> {
    set n: nat | base <= n < base + k && n < |t.claims| && t.claims[n].phase == Done(Ok)
  }

  lemma OneOkMore(t: State, base: nat, k: nat)
    requires base + k < |t.claims|
    ensures var was := OkAmong(t, base, k);
      |OkAmong(t, base, k + 1)| == |was| + if t.claims[base + k].phase == Done(Ok) then 1 else 0
  {
    var was := OkAmong(t, base, k);
    assert OkAmong(t, base, k + 1) == if t.claims[base + k].phase == Done(Ok) then was + {base + k} else was;
    assert base + k !in was;
  }

  lemma {:induction false} OksAreCounted(t: State, base: nat, statuses: seq<Status>)
    requires base + |statuses| <= |t.claims| && forall i | 0 <= i < |statuses| :: t.claims[base + i].phase == Done(statuses[i])
    ensures Oks(statuses) == |OkAmong(t, base, |statuses|)|
  {
    if statuses == [] {
      assert OkAmong(t, base, 0) == {};
    } else {
      var k := |statuses| - 1;
      OksAreCounted(t, base, statuses[..k]);
      OneOkMore(t, base, k);
    }
  }

  /** What a poll counts, once every status was written. */
  lemma {:induction false} PollCounts(t: State, base: nat, claimed: seq<Due>, now: Time, statuses: seq<Status>, plan: Plan, w: World)
    requires Progress(t, base, claimed, now, |statuses|, plan, w) && Recordings(statuses, claimed, now, plan, w) && |statuses| == |claimed|
    ensures Oks(statuses) == |OkClaims(t, base)| && forall n | n in OkClaims(t, base) :: n in t.fired
  {
    forall i | 0 <= i < |statuses| ensures t.claims[base + i].phase == Done(statuses[i]) {
      assert t.claims[base + i] == t.claims[base..][i];
    }
    OksAreCounted(t, base, statuses);
    assert OkAmong(t, base, |statuses|) == OkClaims(t, base);
    forall n | n in OkClaims(t, base) ensures n in t.fired {
      var i: nat := n - base;
      assert Begins(claimed[i], now, plan(i), w) && base + i in t.fired;
    }
  }

  class ScheduleRunner {
    const store: ScheduleStore
    const w: World

    constructor (store: ScheduleStore, w: World)
      ensures this.store == store && this.w == w
    {
      this.store, this.w := store, w;
    }

    /** One claim: skip it if it is past the grace window, else hand it to `handle`; then write its status. */
    method WorkOn(due: Due, now: Time, fate: Fate) returns (started: bool, status: Status)
      modifies store
      ensures started == Begins(due, now, fate, w) && status == StatusOf(due, now, fate, w)
      ensures store.rows == RowsAfter(old(store.rows), due, now, fate, w)
    {
      started, status := false, Missed;
      if now - due.at <= w.grace {
        started := !fate.outcome.Balks?;
        status := if fate.outcome.Returns? then Ok else Error;
      }
      if fate.written {
        store.RecordRun(due.id, now, status);
      }
    }

    /** `run_once` after the claim. Claims are worked off in order; each gets one status, and a turn unless it
        was past the grace window at the poll or `handle` raises first. A status write that fails abandons the
        claims after it. The turn of a claim begins once the runner has spent its time on the claims before
        it and `handle` has the thread lock. However it ends, it has taken the machine's steps. */
    method WorkOff(claimed: seq<Due>, now: Time, plan: Plan, ghost s: State, ghost base: nat)
      returns (statuses: seq<Status>, started: seq<nat>, fired: Option<nat>, ghost worked: nat, ghost t: State)
      requires s.rows == store.rows && Progress(s, base, claimed, now, 0, plan, w)
      modifies store
      ensures Recordings(statuses, claimed, now, plan, w)
      ensures worked == if |statuses| < |claimed| then |statuses| + 1 else |claimed|
      ensures |statuses| < |claimed| ==> !plan(|statuses|).written
      ensures Starts(started, claimed, now, worked, plan, w)
      ensures fired == if |statuses| == |claimed| then Some(Oks(statuses)) else None
      ensures WorkSoFar(s, t, store.rows, base, claimed, now, worked, plan, w)
    {
      statuses, started, fired, worked, t := [], [], None, 0, s;
      WorkStarts(s, base, claimed, now, plan, w);
      var count := 0;
      for i := 0 to |claimed|
        invariant |statuses| == i == worked && count == Oks(statuses)
        invariant Recordings(statuses, claimed, now, plan, w) && Starts(started, claimed, now, i, plan, w)
        invariant WorkSoFar(s, t, store.rows, base, claimed, now, i, plan, w)
      {
        t := WorkAdvances(s, t, store.rows, base, claimed, now, i, plan, w);
        StartsMore(started, claimed, now, i, plan, w);
        var begun, status := WorkOn(claimed[i], now, plan(i));
        worked := i + 1;
        if begun {
          started := started + [i];
        }
        if !plan(i).written {
          return;
        }
        RecordingsMore(statuses, claimed, now, plan, w);
        OksMore(statuses, status);
        statuses := statuses + [status];
        if status == Ok {
          count := count + 1;
        }
      }
      fired := Some(count);
    }

    /** `run_once`: claim everything due, work it off, and return how many turns ran. It is a run of the
        machine's steps, whatever fails. It raises if and only if some status write fails, and else its answer
        is the number of its claims that ended ok, each of which started a turn; and of the claims it worked
        on, the turns of exactly these started within the grace window of their due times. */
    method RunOnce(now: Time, locked: set<Id>, plan: Plan, ghost s: State)
      returns (fired: Option<nat>, ghost claimed: seq<Due>, ghost worked: nat, ghost t: State)
      requires s.rows == store.rows
      modifies store
      ensures ClaimedAll(old(store.rows), claimed, locked, now)
      ensures WorkSoFar(s, t, store.rows, |s.claims|, claimed, now, worked, plan, w)
      ensures fired.None? <==> exists i: nat :: i < |claimed| && !plan(i).written
      ensures fired.Some? ==> worked == |claimed| && fired.value == |OkClaims(t, |s.claims|)|
      ensures fired.Some? ==> forall n | n in OkClaims(t, |s.claims|) :: n in t.fired
      ensures forall i: nat | i < worked :: StartsInTime(t, |s.claims| + i, w) <==> WaitFits(claimed[i], now, plan, i, w)
    {
      var dues := store.ClaimDue(now, locked, w, s);
      claimed := dues;
      ghost var m := s.(rows := store.rows, claims := s.claims + Claims(claimed, now));
      assert m.claims[|s.claims|..] == Claims(claimed, now) == WorkedClaims(claimed, now, 0, plan, w);
      var statuses, started;
      statuses, started, fired, worked, t := WorkOff(dues, now, plan, m, |s.claims|);
      ReachesOn(s, m, t, w);
      if fired.Some? { PollCounts(t, |s.claims|, claimed, now, statuses, plan, w); }
      forall i: nat | i < worked ensures StartsInTime(t, |s.claims| + i, w) <==> WaitFits(claimed[i], now, plan, i, w) {
        StartsInTimeIff(t, |s.claims|, claimed, now, worked, plan, i, w);
      }
    }
  }

  // ---- when a turn really starts ----

  /** The turn of claim `n` started, and within the grace window of its due time. */
  predicate StartsInTime(t: State, n: nat, w: World) {
    n < |t.claims| && var c := t.claims[n]; c.began.Some? && c.began.value - c.due.at <= w.grace
  }

  /** The thread lock is had at all, and before the rest of the window the poll left is over. */
  predicate WaitFits(due: Due, now: Time, plan: Plan, i: nat, w: World) {
    !plan(i).outcome.Balks? && Waited(plan, i) + plan(i).waits <= w.grace - (now - due.at)
  }

  /** After any poll: the turn of a claim worked on started within the grace window of its due time if and
      only if `handle` came to start it, and the claims before it and the wait for its thread's lock took no
      longer than the poll left of the window. */
  lemma {:induction false} StartsInTimeIff(t: State, base: nat, claimed: seq<Due>, now: Time, k: nat, plan: Plan, i: nat, w: World)
    requires Progress(t, base, claimed, now, k, plan, w) && i < k
    ensures StartsInTime(t, base + i, w) <==> WaitFits(claimed[i], now, plan, i, w)
  {
    assert t.claims[base + i] == t.claims[base..][i];
  }

  lemma {:induction false} LaterWaitsLonger(plan: Plan, i: nat, j: nat)
    requires i < j
    ensures Waited(plan, i) + plan(i).waits <= Waited(plan, j)
  {
    if i < j - 1 { LaterWaitsLonger(plan, i, j - 1); }
  }

  /** The turns of one poll start in the order of its claims; so one that starts late makes every later one
      late whose schedule was due no later. */
  lemma {:induction false} TurnsStartInOrder(t: State, base: nat, claimed: seq<Due>, now: Time, k: nat, plan: Plan, i: nat, j: nat, w: World)
    requires Progress(t, base, claimed, now, k, plan, w) && i < j < k
    requires t.claims[base + i].began.Some? && t.claims[base + j].began.Some?
    ensures t.claims[base + i].began.value <= t.claims[base + j].began.value
    ensures !StartsInTime(t, base + i, w) && claimed[j].at <= claimed[i].at ==> !StartsInTime(t, base + j, w)
  {
    assert t.claims[base + i] == t.claims[base..][i] && t.claims[base + j] == t.claims[base..][j];
    LaterWaitsLonger(plan, i, j);
  }

  lemma Went(ls: seq<Label>, s: State, l: Label, w: World) returns (ls': seq<Label>, t: State)
    requires After(EMPTY, ls, w) == Some(s) && Enabled(s, l, w)
    ensures After(EMPTY, ls', w) == Some(t) && t == Step(s, l, w)
  {
    AfterMore(EMPTY, ls, l, w);
    ls', t := ls + [l], Step(s, l, w);
  }

  /** It is not always so: a poll finds one schedule due that moment, and its thread's lock is held by
      another turn until the window is over. */
  lemma LockedClaimStartsLate(cron: Cron, w: World) returns (ls: seq<Label>, s: State)
    requires w.grace >= 0 && w.occurs(cron, 0)
    ensures After(EMPTY, ls, w) == Some(s) && s.fired == [0]
    ensures s.claims == [Claim(Due("a", 0), 0, Running, Some(w.grace + 1))] && !StartsInTime(s, 0, w)
  {
    ls, s := Went([], EMPTY, Create("a", cron, 0), w);
    ls, s := Went(ls, s, Take("a", 0), w);
    assert s.claims == [Claim(Due("a", 0), 0, Held, None)] && s.fired == [];
    ls, s := Went(ls, s, Start(0, w.grace + 1), w);
  }

  /** Nor when no lock is held: a poll finds two schedules due that moment, the first one's turn outlasts the
      window, and the second one's turn starts after it. */
  lemma SecondClaimStartsLate(cron: Cron, w: World) returns (ls: seq<Label>, s: State)
    requires w.grace >= 0 && w.occurs(cron, 0)
    ensures After(EMPTY, ls, w) == Some(s) && |s.claims| == 2
    ensures s.claims[0] == Claim(Due("a", 0), 0, Done(Ok), Some(0)) && StartsInTime(s, 0, w)
    ensures s.claims[1] == Claim(Due("b", 0), 0, Running, Some(w.grace + 1)) && s.fired == [0, 1] && !StartsInTime(s, 1, w)
  {
    var m;
    ls, m := TwoDue(cron, w);
    ls, m := Went(ls, m, Start(0, 0), w);
    assert m.claims == [Claim(Due("a", 0), 0, Running, Some(0)), Claim(Due("b", 0), 0, Held, None)] && m.fired == [0];
    ls, m := Went(ls, m, Finish(0, false), w);
    assert m.claims == [Claim(Due("a", 0), 0, Done(Ok), Some(0)), Claim(Due("b", 0), 0, Held, None)] && m.fired == [0];
    ls, s := Went(ls, m, Start(1, w.grace + 1), w);
  }

  lemma TwoDue(cron: Cron, w: World) returns (ls: seq<Label>, s: State)
    requires w.grace >= 0 && w.occurs(cron, 0)
    ensures After(EMPTY, ls, w) == Some(s) && s.fired == []
    ensures s.claims == [Claim(Due("a", 0), 0, Held, None), Claim(Due("b", 0), 0, Held, None)]
  {
    ls, s := [], EMPTY;
    ls, s := Went(ls, s, Create("a", cron, 0), w);
    ls, s := Went(ls, s, Create("b", cron, 0), w);
    assert s.rows["a"].nextRunAt == 0 && s.rows["b"].nextRunAt == 0 && s.claims == [];
    ls, s := Went(ls, s, Take("a", 0), w);
    assert s.rows["b"].nextRunAt == 0 && s.claims == [Claim(Due("a", 0), 0, Held, None)];
    ls, s := Went(ls, s, Take("b", 0), w);
  }
}
