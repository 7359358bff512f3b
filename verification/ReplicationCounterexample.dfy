/** Runs in which a turn is lost: an archived turn of another worker, through an abandoned hydration, through a
    connect under another session id and through a query on another session id; and a worker's own turn,
    through a torn hydration. Every run is given by its steps. */
module ReplicationCounterexample {
  import opened Wrappers
  import opened Rows
  import opened Replication
  import opened ReplicationInvariant
  import opened ReplicationSafety
  import opened ReplicationRuns
  import opened ReplicationTurns
  import opened ReplicationFailedTurns
  import opened ReplicationClose

  const CAPS: map<Wid, nat> := map[0 := 9, 1 := 9, 2 := 9]

  const OPENING: seq<Label> := [Look, Begin, OpenNew(1)]

  lemma OpenHere(v: Local)
    requires v.sh == Shared(None, None) && v.w == NewWorker(map[], 9)
    ensures Takes(v, OPENING) == Some(v.(w := v.w.(client := Some(Client(1, None, "")), phase := Ready(None))))
    ensures LoadsWellHere(v, OPENING) && Mints(OPENING) == 1
  {
    TakesThree(v, Look, Begin, OpenNew(1));
    NothingFails(v, OPENING);
    assert OPENING == [Look, Begin] + [OpenNew(1)];
    NothingMinted([Look, Begin]);
    TakesMore(v, [Look, Begin], OpenNew(1));
  }

  /** Worker 0 opens the thread's first session, and the CLI mints id 1. */
  lemma OpenFirst() returns (t: State)
    ensures Follow(Init(CAPS), Acts(0, OPENING)) == Some(t) && LoadsWell(Init(CAPS), Acts(0, OPENING))
    ensures t.workers.Keys == {0, 1, 2} && LockFree(t, 0) && t.minted <= {1} && t.sh == Shared(None, None)
    ensures t.workers[1] == NewWorker(map[], 9) == t.workers[2]
    ensures t.workers[0] == NewWorker(map[], 9).(client := Some(Client(1, None, "")), phase := Ready(None)) && t.log == []
  {
    OpenHere(View(Init(CAPS), 0));
    t := LiftAll(Init(CAPS), 0, OPENING, 1);
  }

  /** It answers the first turn with `a` and archives it. */
  lemma AnswerFirst() returns (t: State, steps: seq<Step>)
    ensures Follow(Init(CAPS), steps) == Some(t) && LoadsWell(Init(CAPS), steps)
    ensures t.workers.Keys == {0, 1, 2} && LockFree(t, 0) && t.minted <= {1}
    ensures t.workers[1] == t.workers[2] == NewWorker(map[], 9)
    ensures SidOf(t.sh.row) == Some(1) && TurnOf(t.sh.row) == 1 && t.sh.blob == Some(Blob(1, "a")) && ModeOf(t.sh.row) == None
    ensures t.workers[0] == AnsweredFirst()
  {
    var s := OpenFirst();
    var ls := AnswerLabels("a", 1, 0) + SaveLabels(SaveOk);
    FirstHere(View(s, 0));
    t := LiftPlain(s, 0, ls);
    steps := Acts(0, OPENING) + Acts(0, ls);
    FollowOn(Init(CAPS), Acts(0, OPENING), s, Acts(0, ls), t);
  }

  function AnsweredFirst(): Worker {
    Worker(Some(Client(1, None, "a")), None, 1, Some(1), Some(1), true, map[1 := "a"], 9, Idle)
  }

  lemma FirstHere(v: Local)
    requires v.sh == Shared(None, None) && v.w == NewWorker(map[], 9).(client := Some(Client(1, None, "")), phase := Ready(None))
    ensures var ls := AnswerLabels("a", 1, 0) + SaveLabels(SaveOk);
      && Plain(ls) && Takes(v, ls).Some?
      && var v' := Takes(v, ls).value;
        v'.w == AnsweredFirst() && v'.sh == Shared(Some(Row(Some(1), None, 0, 1, None)), Some(Blob(1, "a")))
  {
    assert "" + "a" == "a";
    CommitTakes(v, "a", 0, SaveOk);
  }

  /** And is swept. */
  lemma FirstTurn() returns (t: State, steps: seq<Step>)
    ensures Follow(Init(CAPS), steps) == Some(t) && LoadsWell(Init(CAPS), steps)
    ensures t.workers.Keys == {0, 1, 2} && t.minted <= {1}
    ensures t.workers[0] == t.workers[1] == t.workers[2] == NewWorker(map[], 9)
    ensures SidOf(t.sh.row) == Some(1) && TurnOf(t.sh.row) == 1 && t.sh.blob == Some(Blob(1, "a"))
  {
    var s, before := AnswerFirst();
    CloseHere(View(s, 0));
    t := LiftPlain(s, 0, [Close]);
    steps := before + Acts(0, [Close]);
    FollowOn(Init(CAPS), before, s, Acts(0, [Close]), t);
  }

  lemma CloseHere(v: Local)
    requires v.w == AnsweredFirst()
    ensures Takes(v, [Close]) == Some(v.(w := NewWorker(map[], 9))) && Plain([Close])
  {
    TakesOne(v, Close);
    assert map[1 := "a"] - {1} == map[];
  }

  /** A clean turn after a run. */
  lemma Turn(s: State, before: seq<Step>, w: Wid, b: Bytes, o: SaveOutcome) returns (t: State, steps: seq<Step>)
    requires Follow(Init(CAPS), before) == Some(s) && LoadsWell(Init(CAPS), before)
    requires w in s.workers && LockFree(s, w) && CanResume(View(s, w), 1) && |Resumes(View(s, w), 1) + b| <= s.workers[w].cap
    ensures Follow(Init(CAPS), steps) == Some(t) && LoadsWell(Init(CAPS), steps)
    ensures w in t.workers && LockFree(t, w) && t.minted <= s.minted
    ensures t.workers.Keys == s.workers.Keys && forall v <- s.workers :: v != w ==> t.workers[v] == s.workers[v]
    ensures View(t, w) == Saved(Answered(Connected(View(s, w), 1), b, 0), o)
  {
    t := LiftTurn(s, w, 1, b, 0, o);
    var ls := TurnLabels(View(s, w), 1, b, 0, o);
    steps := before + Acts(w, ls);
    FollowOn(Init(CAPS), before, s, Acts(w, ls), t);
  }

  /** Worker 1 hydrates `a` and answers `b`, but its save fails; worker 0 hydrates `a` and archives `ac`. */
  lemma Branches() returns (t: State, steps: seq<Step>)
    ensures Follow(Init(CAPS), steps) == Some(t) && LoadsWell(Init(CAPS), steps)
    ensures t.workers.Keys == {0, 1, 2} && (forall w <- t.workers :: t.workers[w].phase.Idle?) && t.minted <= {1}
    ensures t.workers[2] == NewWorker(map[], 9)
    ensures SidOf(t.sh.row) == Some(1) && t.sh.blob == Some(Blob(1, "ac"))
    ensures OnFirst(t.sh, t.workers[0])
    ensures Behind(t, t.workers[1])
  {
    t, steps := FirstTurn();
    assert "a" + "b" == "ab" && "a" + "c" == "ac";
    t, steps := Turn(t, steps, 1, "b", SaveFailed);
    t, steps := Turn(t, steps, 0, "c", SaveOk);
  }

  /** A worker that still has `ab`, its own unarchived turn, in session 1, and has not seen another's. */
  predicate Behind(s: State, me: Worker) {
    && me.sid == Some(1) && !me.archived && me.phase.Idle? && me.cap == 9 && me.seen < TurnOf(s.sh.row)
    && 1 in me.disk && me.disk[1] == "ab"
  }

  /** It finds it is behind, moves its seen turn to the row's, and the load raises. Its own file now
      passes for the newer copy. */
  lemma AbandonHydration(s: State) returns (t: State)
    requires s.workers.Keys == {0, 1, 2} && LockFree(s, 1) && SidOf(s.sh.row) == Some(1) && Behind(s, s.workers[1])
    ensures Follow(s, Acts(1, [Look, Begin, Fail])) == Some(t) && !LoadsWell(s, Acts(1, [Look, Begin, Fail]))
    ensures 1 in t.workers && LockFree(t, 1) && t.sh == s.sh
    ensures t.workers[1] == s.workers[1].(client := None, seen := TurnOf(s.sh.row), phase := Idle)
  {
    var v, ls := View(s, 1), [Look, Begin, Fail];
    TakesThree(v, Look, Begin, Fail);
    NothingMinted(ls);
    assert ls == [] + [Look] + [Begin] + [Fail];
    TakesMore(v, [], Look);
    TakesMore(v, [] + [Look], Begin);
    TakesMore(v, [] + [Look] + [Begin], Fail);
    t := LiftAll(s, 1, ls, 0);
  }

  /** The turn that loses: the worker resumes its own file, answers `d` and archives. */
  const LOSING: seq<Label> := [Look, Begin, Resume] + AnswerLabels("d", 3, 0) + SaveLabels(SaveOk)

  lemma Loses(before: seq<Step>, s: State) returns (t: State)
    requires Follow(Init(CAPS), before) == Some(s) && 1 in s.workers && LockFree(s, 1) && CanResume(View(s, 1), 1)
    requires s.workers[1].cap == 9 && LocalIsNewer(s.workers[1], s.sh.row, 1) && s.workers[1].disk[1] == "ab"
    requires s.sh.blob == Some(Blob(1, "ac"))
    ensures Follow(s, Acts(1, LOSING)) == Some(t) && LoadsWell(s, Acts(1, LOSING)) && t.sh.blob == Some(Blob(1, "abd"))
    ensures LosesUpdate(CAPS, before + Acts(1, LOSING))
  {
    assert Resumes(View(s, 1), 1) == "ab" && "ab" + "d" == "abd";
    assert "ac"[1] != "abd"[1];
    assert TurnLabels(View(s, 1), 1, "d", 0, SaveOk) == LOSING;
    t := LiftTurn(s, 1, 1, "d", 0, SaveOk);
    TurnLoses(CAPS, before, s, 1, 1, "d");
  }

  /** Worker 1 abandons a hydration (`u` is the state after it), and its next clean turn replaces `ac`, under its
      own id, by `abd`, which lacks an archived turn. */
  ghost predicate AbandonsAndLoses(before: seq<Step>, s: State, u: State, t: State) {
    var fails := Acts(1, [Look, Begin, Fail]);
    && Follow(s, fails) == Some(u) && !LoadsWell(s, fails)
    && Follow(u, Acts(1, LOSING)) == Some(t) && LoadsWell(u, Acts(1, LOSING)) && t.sh.blob == Some(Blob(1, "abd"))
    && LosesUpdate(CAPS, before + fails + Acts(1, LOSING))
  }

  /** A run without a failing hydration stores `ac`; then one hydration raises; then one clean turn loses it. */
  lemma AbandonedHydrationLosesTurn() returns (before: seq<Step>, s: State, u: State, t: State)
    ensures Follow(Init(CAPS), before) == Some(s) && LoadsWell(Init(CAPS), before) && s.sh.blob == Some(Blob(1, "ac"))
    ensures AbandonsAndLoses(before, s, u, t)
  {
    s, before := Branches();
    u := AbandonHydration(s);
    FollowOn(Init(CAPS), before, s, Acts(1, [Look, Begin, Fail]), u);
    t := Loses(before + Acts(1, [Look, Begin, Fail]), u);
  }

  // ---- the same without a failing hydration ----

  /** A worker is refused the session it would resume, and the CLI mints id `m` for it. */
  function AnotherLabels(m: Sid): seq<Label> {
    [Look, Begin, Load] + ([Refuse] + [Fallback(m)])
  }

  function OnAnother(v: Local, resume: Sid, m: Sid): Local {
    var mode := ModeOf(v.sh.row);
    v.(w := v.w.(client := Some(Client(m, mode, "")), mode := mode, seen := TurnOf(v.sh.row), live := None,
                 disk := v.w.disk - {resume}, phase := Ready(v.sh.row)))
  }

  /** What the refused resume was to start from; only the file `resume` may differ. */
  lemma LoadedHere(v: Local, resume: Sid) returns (u: Local)
    requires v.w.phase.Idle? && v.w.client.None? && SidOf(v.sh.row) == Some(resume) && !LocalIsNewer(v.w, v.sh.row, resume)
    ensures Takes(v, [Look, Begin, Load]) == Some(u) && u.w.disk - {resume} == v.w.disk - {resume}
    ensures u == v.(w := v.w.(seen := TurnOf(v.sh.row), disk := u.w.disk, phase := Opening(v.sh.row, resume, false)))
  {
    var row := v.sh.row;
    TakesThree(v, Look, Begin, Load);
    var l1 := v.(w := v.w.(phase := Looked(row)));
    assert Then(Some(v), Look) == Some(l1);
    var l2 := v.(w := v.w.(seen := TurnOf(row), phase := Loading(row, resume)));
    assert Then(Some(l1), Begin) == Some(l2);
    u := Next(l2, Load);
  }

  lemma AnotherHere(v: Local, resume: Sid, m: Sid)
    requires v.w.phase.Idle? && v.w.client.None? && SidOf(v.sh.row) == Some(resume) && !LocalIsNewer(v.w, v.sh.row, resume)
    ensures Takes(v, AnotherLabels(m)) == Some(OnAnother(v, resume, m))
    ensures LoadsWellHere(v, AnotherLabels(m)) && Mints(AnotherLabels(m)) == 1
  {
    var u := LoadedHere(v, resume);
    RefusedHere(u, v.sh.row, resume, m);
    TakesOn(v, [Look, Begin, Load], [Refuse] + [Fallback(m)]);
    NothingFails(v, AnotherLabels(m));
    NothingMinted([Look, Begin, Load]);
  }

  lemma RefusedHere(v: Local, row: Option<Row>, resume: Sid, m: Sid)
    requires v.w.phase == Opening(row, resume, false)
    ensures var ls := [Refuse] + [Fallback(m)];
      Takes(v, ls) == Some(v.(w := OpenFresh(v.w, m, row).(disk := v.w.disk - {resume}))) && Mints(ls) == 1
  {
    TakesTwo(v, Refuse, Fallback(m));
    TakesOne(v, Refuse);
    TakesOne(v, Fallback(m));
  }

  lemma NameOn(s: State, w: Wid, b: Bytes) returns (t: State)
    requires w in s.workers && LockFree(s, w) && s.workers[w].phase.Ready? && s.workers[w].client.Some?
    ensures Follow(s, Acts(w, NameAndFail(b))) == Some(t) && LoadsWell(s, Acts(w, NameAndFail(b))) && t.minted <= s.minted
    ensures t.workers.Keys == s.workers.Keys && t.workers[w].phase.Idle? && forall v <- s.workers :: v != w ==> t.workers[v] == s.workers[v]
    ensures t.sh == s.sh.(row := Some(Upsert(s.sh.row, Some(s.workers[w].client.value.sid), None, true, 0)))
  {
    NameAndFailTakes(View(s, w), b);
    t := LiftAll(s, w, NameAndFail(b), 0);
  }

  /** Worker 2 is refused session 1, the CLI mints id 2, and it answers nothing, names its session in the row,
      and fails. */
  lemma StartAnother(s: State) returns (t: State)
    requires s.workers.Keys == {0, 1, 2} && 2 !in s.minted && s.workers[2] == NewWorker(map[], 9)
    requires LockFree(s, 2) && SidOf(s.sh.row) == Some(1)
    ensures Follow(s, Acts(2, AnotherLabels(2)) + Acts(2, NameAndFail(""))) == Some(t)
    ensures LoadsWell(s, Acts(2, AnotherLabels(2)) + Acts(2, NameAndFail("")))
    ensures t.workers.Keys == {0, 1, 2} && t.workers[2].phase.Idle? && t.minted <= s.minted + {2}
    ensures t.workers[0] == s.workers[0] && t.workers[1] == s.workers[1]
    ensures t.sh == s.sh.(row := Some(Upsert(s.sh.row, Some(2), None, true, 0)))
  {
    AnotherHere(View(s, 2), 1, 2);
    var u := LiftAll(s, 2, AnotherLabels(2), 2);
    t := NameOn(u, 2, "");
    FollowOn(s, Acts(2, AnotherLabels(2)), u, Acts(2, NameAndFail("")), t);
  }

  /** Worker 1 is behind and connects under session 2, which is not stored; the resume is refused and the
      open without it fails too. Its session-1 file is now trusted. */
  const MOVED: seq<Label> := [Look, Begin, Load] + ([Refuse] + [Fail])

  lemma MovedHere(v: Local)
    requires var me := v.w; me.sid == Some(1) && !me.archived && me.phase.Idle? && me.seen < TurnOf(v.sh.row)
    requires SidOf(v.sh.row) == Some(2) && !StoredUnder(v.sh, 2)
    ensures Takes(v, MOVED) == Some(v.(w := v.w.(client := None, seen := TurnOf(v.sh.row), phase := Idle)))
    ensures LoadsWellHere(v, MOVED) && Mints(MOVED) == 0
  {
    var a, row := [Look, Begin, Load], v.sh.row;
    TakesThree(v, Look, Begin, Load);
    var l1 := v.(w := v.w.(client := None, phase := Looked(row)));
    assert Then(Some(v), Look) == Some(l1);
    var l2 := v.(w := v.w.(client := None, seen := TurnOf(row), phase := Loading(row, 2)));
    assert Then(Some(l1), Begin) == Some(l2);
    var l3 := l2.(w := l2.w.(phase := Opening(row, 2, false)));
    assert Then(Some(l2), Load) == Some(l3);
    BothOpensFail(l3);
    NothingFails(v, a);
    NothingMinted(a);
    TakesOn(v, a, [Refuse] + [Fail]);
  }

  lemma BothOpensFail(v: Local)
    requires v.w.phase.Opening? && v.w.client.None?
    ensures var ls := [Refuse] + [Fail];
      Takes(v, ls) == Some(v.(w := v.w.(phase := Idle))) && LoadsWellHere(v, ls) && Mints(ls) == 0
  {
    var u := v.(w := v.w.(phase := Refused(v.w.phase.row, v.w.phase.resume)));
    TakesTwo(v, Refuse, Fail);
    TakesOne(v, Refuse);
    TakesOne(v, Fail);
    assert Then(Some(v), Refuse) == Some(u) && Next(u, Fail) == v.(w := v.w.(phase := Idle));
  }

  lemma ConnectAnother(s: State) returns (t: State)
    requires s.workers.Keys == {0, 1, 2} && LockFree(s, 1) && SidOf(s.sh.row) == Some(2) && !StoredUnder(s.sh, 2)
    requires Behind(s, s.workers[1])
    ensures Follow(s, Acts(1, MOVED)) == Some(t) && LoadsWell(s, Acts(1, MOVED))
    ensures t.workers.Keys == {0, 1, 2} && LockFree(t, 1) && t.sh == s.sh && t.workers[0] == s.workers[0]
    ensures t.workers[2] == s.workers[2]
    ensures t.workers[1] == s.workers[1].(client := None, seen := TurnOf(s.sh.row), phase := Idle)
  {
    MovedHere(View(s, 1));
    t := LiftAll(s, 1, MOVED, 0);
  }

  /** A worker keeps its cached client for another turn. */
  const AGAIN: seq<Label> := [Look] + [Reuse]

  lemma AgainHere(v: Local)
    requires v.sh.row.Some? && v.w.phase.Idle? && v.w.seen == TurnOf(v.sh.row) && v.w.mode == ModeOf(v.sh.row) && v.w.client.Some?
    ensures Takes(v, AGAIN) == Some(v.(w := v.w.(phase := Ready(v.sh.row))))
    ensures Plain(AGAIN)
  {
    TakesTwo(v, Look, Reuse);
    assert Then(Some(v), Look) == Some(v.(w := v.w.(phase := Looked(v.sh.row))));
  }

  /** A worker with a cached session-1 client that has seen every turn. */
  predicate OnFirst(sh: Shared, me: Worker) {
    && me.phase.Idle? && me.seen == TurnOf(sh.row) && me.mode == ModeOf(sh.row)
    && me.client.Some? && me.client.value.sid == 1
  }

  /** It names its session in the row again, and fails. */
  lemma NameAgain(s: State, w: Wid) returns (t: State)
    requires w in s.workers && LockFree(s, w) && s.sh.row.Some? && OnFirst(s.sh, s.workers[w])
    ensures Follow(s, Acts(w, AGAIN) + Acts(w, NameAndFail("e"))) == Some(t)
    ensures LoadsWell(s, Acts(w, AGAIN) + Acts(w, NameAndFail("e")))
    ensures t.workers.Keys == s.workers.Keys && t.workers[w].phase.Idle? && forall v <- s.workers :: v != w ==> t.workers[v] == s.workers[v]
    ensures t.sh == s.sh.(row := Some(Upsert(s.sh.row, Some(1), None, true, 0)))
  {
    AgainHere(View(s, w));
    var u := LiftPlain(s, w, AGAIN);
    t := NameOn(u, w, "e");
    FollowOn(s, Acts(w, AGAIN), u, Acts(w, NameAndFail("e")), t);
  }

  /** The steps that leave worker 1's file trusted without a failing hydration. */
  lemma MoveAway(s: State) returns (t: State, steps: seq<Step>)
    requires s.workers.Keys == {0, 1, 2} && 2 !in s.minted && s.workers[2] == NewWorker(map[], 9)
    requires (forall w <- s.workers :: s.workers[w].phase.Idle?) && SidOf(s.sh.row) == Some(1) && s.sh.blob == Some(Blob(1, "ac"))
    requires OnFirst(s.sh, s.workers[0]) && Behind(s, s.workers[1])
    ensures Follow(s, steps) == Some(t) && LoadsWell(s, steps)
    ensures 1 in t.workers && LockFree(t, 1) && CanResume(View(t, 1), 1) && t.workers[1].cap == 9
    ensures LocalIsNewer(t.workers[1], t.sh.row, 1) && t.workers[1].disk[1] == "ab" && t.sh.blob == s.sh.blob
  {
    var a, c := Acts(2, AnotherLabels(2)) + Acts(2, NameAndFail("")) + Acts(1, MOVED), Acts(0, AGAIN) + Acts(0, NameAndFail("e"));
    var u := TwoOthers(s);
    t := NameAgain(u, 0);
    FollowOn(s, a, u, c, t);
    steps := a + c;
  }

  lemma TwoOthers(s: State) returns (t: State)
    requires s.workers.Keys == {0, 1, 2} && 2 !in s.minted && s.workers[2] == NewWorker(map[], 9)
    requires (forall w <- s.workers :: s.workers[w].phase.Idle?) && SidOf(s.sh.row) == Some(1) && s.sh.blob == Some(Blob(1, "ac"))
    requires Behind(s, s.workers[1])
    ensures var steps := Acts(2, AnotherLabels(2)) + Acts(2, NameAndFail("")) + Acts(1, MOVED);
      Follow(s, steps) == Some(t) && LoadsWell(s, steps)
    ensures t.workers.Keys == {0, 1, 2} && LockFree(t, 0) && t.workers[0] == s.workers[0]
    ensures t.sh == s.sh.(row := Some(Upsert(s.sh.row, Some(2), None, true, 0)))
    ensures t.workers[1] == s.workers[1].(client := None, seen := TurnOf(t.sh.row), phase := Idle)
  {
    var u := StartAnother(s);
    t := ConnectAnother(u);
    FollowOn(s, Acts(2, AnotherLabels(2)) + Acts(2, NameAndFail("")), u, Acts(1, MOVED), t);
  }

  lemma LosesAfter(before: seq<Step>, s: State, moves: seq<Step>, u: State) returns (t: State)
    requires Follow(Init(CAPS), before) == Some(s) && Follow(s, moves) == Some(u) && LoadsWell(s, moves)
    requires 1 in u.workers && LockFree(u, 1) && CanResume(View(u, 1), 1)
    requires u.workers[1].cap == 9 && LocalIsNewer(u.workers[1], u.sh.row, 1) && u.workers[1].disk[1] == "ab"
    requires u.sh.blob == Some(Blob(1, "ac"))
    ensures var after := moves + Acts(1, LOSING);
      Follow(s, after) == Some(t) && LoadsWell(s, after) && t.sh.blob == Some(Blob(1, "abd")) && LosesUpdate(CAPS, before + after)
  {
    FollowOn(Init(CAPS), before, s, moves, u);
    t := Loses(before + moves, u);
    var turn := Acts(1, LOSING);
    FollowOn(s, moves, u, turn, t);
    assert before + moves + turn == before + (moves + turn);
  }

  /** No hydration raises anywhere in this run, before or after `ac` is stored, and a connect under another
      id loses the same turn. */
  lemma AnotherIdLosesTurn() returns (before: seq<Step>, s: State, after: seq<Step>, t: State)
    ensures Follow(Init(CAPS), before) == Some(s) && LoadsWell(Init(CAPS), before) && s.sh.blob == Some(Blob(1, "ac"))
    ensures Follow(s, after) == Some(t) && LoadsWell(s, after) && t.sh.blob == Some(Blob(1, "abd"))
    ensures LosesUpdate(CAPS, before + after)
  {
    s, before := Branches();
    var u, moves := MoveAway(s);
    t := LosesAfter(before, s, moves, u);
    after := moves + Acts(1, LOSING);
  }

  // ---- a query on another id ----

  /** Worker 0's next turn cannot read the row: the client goes, the archived file stays. */
  const DROPPING: seq<Label> := [LookFail]

  lemma DropHere(v: Local)
    requires v.w == AnsweredFirst()
    ensures Takes(v, DROPPING) == Some(v.(w := v.w.(client := None))) && LoadsWellHere(v, DROPPING) && Mints(DROPPING) == 0
  {
    TakesOne(v, LookFail);
  }

  /** Worker 0 still has its archived `a`; worker 1 has stored `ac`. */
  lemma Archived() returns (t: State, steps: seq<Step>)
    ensures Follow(Init(CAPS), steps) == Some(t) && LoadsWell(Init(CAPS), steps)
    ensures t.workers.Keys == {0, 1, 2} && (forall w <- t.workers :: t.workers[w].phase.Idle?) && t.minted <= {1}
    ensures t.workers[2] == NewWorker(map[], 9) && t.workers[0] == AnsweredFirst().(client := None)
    ensures SidOf(t.sh.row) == Some(1) && t.sh.blob == Some(Blob(1, "ac")) && OnFirst(t.sh, t.workers[1])
  {
    var s, before := AnswerFirst();
    DropHere(View(s, 0));
    t := LiftAll(s, 0, DROPPING, 0);
    steps := before + Acts(0, DROPPING);
    FollowOn(Init(CAPS), before, s, Acts(0, DROPPING), t);
    assert "a" + "c" == "ac";
    t, steps := Turn(t, steps, 1, "c", SaveOk);
  }

  /** It is refused session 2, the CLI mints id 3 for it, and the query fails after `_archived` is cleared. */
  const QUERYING: seq<Label> := AnotherLabels(3) + ([Query] + [Fail])

  lemma QueryFails(u: Local)
    requires u.w.phase.Ready? && u.w.client.Some?
    ensures var ls := [Query] + [Fail];
      Takes(u, ls) == Some(u.(w := u.w.(client := None, archived := false, phase := Idle))) && LoadsWellHere(u, ls) && Mints(ls) == 0
  {
    TakesTwo(u, Query, Fail);
    TakesOne(u, Query);
    TakesOne(u, Fail);
    assert Then(Some(u), Query) == Some(u.(w := u.w.(archived := false, phase := Streaming(u.w.phase.row, None))));
  }

  /** Its file `a` now passes for the newer copy. */
  predicate Queried(sh: Shared, me: Worker) {
    && me.client.None? && me.phase.Idle? && me.seen == TurnOf(sh.row) && me.sid == Some(1) && !me.archived
    && me.disk == map[1 := "a"] && me.cap == 9
  }

  lemma QueryHere(v: Local)
    requires v.w == AnsweredFirst().(client := None) && SidOf(v.sh.row) == Some(2)
    ensures Takes(v, QUERYING).Some? && LoadsWellHere(v, QUERYING) && Mints(QUERYING) == 1
    ensures var v' := Takes(v, QUERYING).value; v'.sh == v.sh && Queried(v.sh, v'.w)
  {
    AnotherHere(v, 2, 3);
    assert map[1 := "a"] - {2} == map[1 := "a"];
    QueryFails(OnAnother(v, 2, 3));
    TakesOn(v, AnotherLabels(3), [Query] + [Fail]);
  }

  lemma QueryOn(s: State) returns (t: State)
    requires s.workers.Keys == {0, 1, 2} && 3 !in s.minted && LockFree(s, 0)
    requires s.workers[0] == AnsweredFirst().(client := None) && SidOf(s.sh.row) == Some(2)
    ensures Follow(s, Acts(0, QUERYING)) == Some(t) && LoadsWell(s, Acts(0, QUERYING)) && t.sh == s.sh
    ensures t.workers.Keys == {0, 1, 2} && t.workers[1] == s.workers[1] && t.workers[2] == s.workers[2] && Queried(t.sh, t.workers[0])
  {
    QueryHere(View(s, 0));
    t := LiftAll(s, 0, QUERYING, 3);
  }

  lemma QueryAnother(s: State) returns (t: State, steps: seq<Step>)
    requires s.workers.Keys == {0, 1, 2} && 2 !in s.minted && 3 !in s.minted && s.workers[2] == NewWorker(map[], 9)
    requires (forall w <- s.workers :: s.workers[w].phase.Idle?) && s.workers[0] == AnsweredFirst().(client := None)
    requires SidOf(s.sh.row) == Some(1)
    ensures Follow(s, steps) == Some(t) && LoadsWell(s, steps) && t.workers.Keys == {0, 1, 2} && t.workers[1] == s.workers[1]
    ensures (forall w <- t.workers :: t.workers[w].phase.Idle?) && Queried(t.sh, t.workers[0])
    ensures t.sh == s.sh.(row := Some(Upsert(s.sh.row, Some(2), None, true, 0)))
  {
    var u := StartAnother(s);
    t := QueryOn(u);
    steps := Acts(2, AnotherLabels(2)) + Acts(2, NameAndFail("")) + Acts(0, QUERYING);
    FollowOn(s, Acts(2, AnotherLabels(2)) + Acts(2, NameAndFail("")), u, Acts(0, QUERYING), t);
  }

  /** No hydration raises, and worker 0's next clean turn resumes `a` and stores it over `ac`. */
  lemma QueryOnAnotherIdLosesTurn() returns (before: seq<Step>, s: State, after: seq<Step>, t: State)
    ensures Follow(Init(CAPS), before) == Some(s) && LoadsWell(Init(CAPS), before) && s.sh.blob == Some(Blob(1, "ac"))
    ensures Follow(s, after) == Some(t) && LoadsWell(s, after) && 0 in t.workers && Armed(t.sh, t.workers[0])
    ensures t.sh.blob == s.sh.blob && LosesUpdate(CAPS, before + after + Acts(0, TurnLabels(View(t, 0), 1, "", 0, SaveOk)))
  {
    s, before := Archived();
    var u, query := QueryAnother(s);
    t := NameAgain(u, 1);
    var again := Acts(1, AGAIN) + Acts(1, NameAndFail("e"));
    FollowOn(s, query, u, again, t);
    after := query + again;
    FollowOn(Init(CAPS), before, s, after, t);
    assert "ac"[1] == 'c' && Resumes(View(t, 0), 1) == "a";
    ArmedLoses(CAPS, before + after, t, 0, 1);
  }

  // ---- an own turn ----

  /** After `/mode` the outdated client goes, and with it the archived file; the hydration that follows
      writes nothing and raises. */
  const TEARING: seq<Label> := [Look, Begin, LoadTorn(0)]

  lemma TornHere(v: Local)
    requires v.w == AnsweredFirst() && SidOf(v.sh.row) == Some(1) && ModeOf(v.sh.row) == Some("plan") && TurnOf(v.sh.row) == 1
    requires v.sh.blob == Some(Blob(1, "a"))
    ensures Takes(v, TEARING).Some? && Mints(TEARING) == 0
    ensures var v' := Takes(v, TEARING).value;
      v'.sh == v.sh && v'.w == AnsweredFirst().(client := None, archived := false, disk := map[1 := ""])
  {
    TakesThree(v, Look, Begin, LoadTorn(0));
    assert map[1 := "a"] - {1} == map[] && map[][1 := ""] == map[1 := ""] && "a"[..0] == "";
    var v1 := v.(w := v.w.(client := None, archived := false, disk := map[], phase := Looked(v.sh.row)));
    assert Then(Some(v), Look) == Some(v1);
    assert Then(Some(v1), Begin) == Some(v1.(w := v1.w.(phase := Loading(v.sh.row, 1))));
    NothingMinted(TEARING);
  }

  lemma Tear(before: seq<Step>, s: State) returns (u: State)
    requires Follow(Init(CAPS), before) == Some(s) && 0 in s.workers && LockFree(s, 0) && s.workers[0] == AnsweredFirst()
    requires SidOf(s.sh.row) == Some(1) && TurnOf(s.sh.row) == 1 && s.sh.blob == Some(Blob(1, "a"))
    ensures Follow(Apply(s, SetMode("plan", 0)), Acts(0, TEARING)) == Some(u)
    ensures Follow(Init(CAPS), before + [SetMode("plan", 0)] + Acts(0, TEARING)) == Some(u)
    ensures 0 in u.workers && LockFree(u, 0) && u.workers[0] == AnsweredFirst().(client := None, archived := false, disk := map[1 := ""])
    ensures SidOf(u.sh.row) == Some(1) && TurnOf(u.sh.row) == 1 && ModeOf(u.sh.row) == Some("plan") && u.sh.blob == s.sh.blob
  {
    var m := Apply(s, SetMode("plan", 0));
    TornHere(View(m, 0));
    u := LiftAll(m, 0, TEARING, 0);
    assert (before + [SetMode("plan", 0)])[..|before|] == before;
    FollowOn(Init(CAPS), before + [SetMode("plan", 0)], m, Acts(0, TEARING), u);
  }

  /** `/mode` makes worker 0 reconnect, the hydration is torn, and that arms it (`u`). Its next clean turn
      answers `d` on an empty conversation, and stores that over `a`. */
  ghost predicate TearsAndLoses(before: seq<Step>, s: State, u: State, t: State) {
    && Follow(Apply(s, SetMode("plan", 0)), Acts(0, TEARING)) == Some(u)
    && 0 in u.workers && Armed(u.sh, u.workers[0]) && u.sh.blob.Some?
    && var turn := Acts(0, TurnLabels(View(u, 0), 1, "d", 0, SaveOk));
       && Follow(u, turn) == Some(t) && 0 in t.workers
       && t.workers[0].client == Some(Client(1, Some("plan"), "d")) && t.sh.blob == Some(Blob(1, "d"))
       && LosesUpdate(CAPS, before + [SetMode("plan", 0)] + Acts(0, TEARING) + turn)
  }

  lemma TurnAfterTear(before: seq<Step>, u: State) returns (t: State)
    requires Follow(Init(CAPS), before) == Some(u) && 0 in u.workers && LockFree(u, 0)
    requires u.workers[0] == AnsweredFirst().(client := None, archived := false, disk := map[1 := ""])
    requires SidOf(u.sh.row) == Some(1) && TurnOf(u.sh.row) == 1 && ModeOf(u.sh.row) == Some("plan") && u.sh.blob == Some(Blob(1, "a"))
    ensures Armed(u.sh, u.workers[0])
    ensures var turn := Acts(0, TurnLabels(View(u, 0), 1, "d", 0, SaveOk));
      Follow(u, turn) == Some(t) && 0 in t.workers && LosesUpdate(CAPS, before + turn)
    ensures t.workers[0].client == Some(Client(1, Some("plan"), "d")) && t.sh.blob == Some(Blob(1, "d"))
  {
    assert Resumes(View(u, 0), 1) == "" && "" + "d" == "d" && "a"[0] != "d"[0];
    t := LiftTurn(u, 0, 1, "d", 0, SaveOk);
    TurnLoses(CAPS, before, u, 0, 1, "d");
  }

  /** One worker alone answers `a` and archives it, and a torn hydration loses it. */
  lemma TornHydrationLosesOwnTurn() returns (before: seq<Step>, s: State, u: State, t: State)
    ensures Follow(Init(CAPS), before) == Some(s) && s.sh.blob == Some(Blob(1, "a"))
    ensures 0 in s.workers && s.workers[0].client == Some(Client(1, None, "a")) && s.workers[0].archived
    ensures TearsAndLoses(before, s, u, t)
  {
    s, before := AnswerFirst();
    u := Tear(before, s);
    t := TurnAfterTear(before + [SetMode("plan", 0)] + Acts(0, TEARING), u);
  }

  // ---- a close ----

  /** The CLI has written `a` of its answer `ab` when the file is archived. */
  const EARLY: seq<Label> := AnswerLabels("ab", 1, 0)

  lemma EarlyHere(v: Local)
    requires v.sh == Shared(None, None) && v.w == NewWorker(map[], 9).(client := Some(Client(1, None, "")), phase := Ready(None))
    ensures Takes(v, EARLY).Some? && Plain(EARLY)
    ensures var v' := Takes(v, EARLY).value;
      v'.w.phase == Bumped(1) && v'.w.client == Some(Client(1, None, "ab")) && v'.w.disk == map[1 := "a"] && v'.w.cap == 9
  {
    assert "" + "ab" == "ab" && "ab"[..1] == "a";
    PartTakes(v, "ab", 1, 0);
  }

  lemma ArchiveEarly(s: State) returns (u: State, t: State)
    requires 0 in s.workers && LockFree(s, 0) && s.log == []
    requires var me := s.workers[0];
      me.phase == Bumped(1) && me.client == Some(Client(1, None, "ab")) && me.disk == map[1 := "a"] && me.cap == 9
    ensures Can(s, Act(0, Archive(SaveOk))) && u == Apply(s, Act(0, Archive(SaveOk)))
    ensures Follow(u, Acts(0, [Finish] + [Flush(2)])) == Some(t) && 0 in t.workers && LockFree(t, 0)
    ensures t.log == [Blob(1, "a")] && t.workers[0].disk == map[1 := "ab"]
    ensures t.workers[0].archived && t.workers[0].sid == Some(1) && t.workers[0].phase.Idle?
  {
    u := Apply(s, Act(0, Archive(SaveOk)));
    assert u.log == [] + [Blob(1, "a")] && "ab"[..2] == "ab";
    t := FinishFlush(u, 0, 2);
    assert map[1 := "a"][1 := "ab"] == map[1 := "ab"];
  }

  lemma AnswerEarly() returns (s: State, before: seq<Step>)
    ensures Follow(Init(CAPS), before) == Some(s) && LoadsWell(Init(CAPS), before)
    ensures 0 in s.workers && LockFree(s, 0) && s.log == []
    ensures var me := s.workers[0];
      me.phase == Bumped(1) && me.client == Some(Client(1, None, "ab")) && me.disk == map[1 := "a"] && me.cap == 9
  {
    var r := OpenFirst();
    EarlyHere(View(r, 0));
    s := LiftPlain(r, 0, EARLY);
    before := Acts(0, OPENING) + Acts(0, EARLY);
    FollowOn(Init(CAPS), Acts(0, OPENING), r, Acts(0, EARLY), s);
  }

  /** One worker, nothing fails: the file is archived (state `u`) before the CLI has finished writing it, the
      save is believed, the CLI writes the rest, and the idle close deletes the only copy of the answer. */
  lemma EarlyArchiveLosesTurn() returns (before: seq<Step>, s: State, u: State, t: State)
    ensures Follow(Init(CAPS), before) == Some(s) && LoadsWell(Init(CAPS), before)
    ensures Can(s, Act(0, Archive(SaveOk))) && u == Apply(s, Act(0, Archive(SaveOk)))
    ensures Follow(u, Acts(0, [Finish] + [Flush(2)])) == Some(t) && 0 in t.workers && t.workers[0].disk == map[1 := "ab"]
    ensures Can(t, Act(0, Close)) && Apply(t, Act(0, Close)).workers[0].disk == map[] && !Accepted(t.log, 1, "ab")
  {
    s, before := AnswerEarly();
    u, t := ArchiveEarly(s);
    CloseDeletes(t, 0, 1);
    assert map[1 := "ab"] - {1} == map[];
  }
}
