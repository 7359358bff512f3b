/** Exactly which failed turns leave a worker that may lose what is stored, and that such a worker does. */
module ReplicationFailedTurns {
  import opened Wrappers
  import opened Rows
  import opened Replication
  import opened ReplicationInvariant
  import opened ReplicationSafety
  import opened ReplicationTheorems
  import opened ReplicationHazards
  import opened ReplicationRuns
  import opened ReplicationTurns

  // ---- an armed worker in the middle of a turn ----

  /** Armed, and busy with another session: nothing the turn still does touches the stray file. */
  ghost predicate Away(sh: Shared, w: Worker) {
    && Armed(sh, w) && !w.phase.Looked?
    && (w.client.Some? ==> Some(w.client.value.sid) != w.sid)
    && (w.phase.Loading? || w.phase.Opening? || w.phase.Refused? ==> Some(w.phase.resume) != w.sid)
  }

  /** The turn is past its save, or its bump raised. */
  predicate Settles(l: Label) {
    l.Archive? || l.BumpLost?
  }

  /** A step between two turns, or a death. */
  predicate Between(l: Label) {
    l.Look? || l.LookFail? || l.Close? || l.Crash?
  }

  lemma ArmsAway(s: State, w: Worker, l: Label)
    requires WorkerInv(s, w) && Enabled(Local(s.sh, w), l) && Arms(s.sh, w, l) && Armed(s.sh, Next(Local(s.sh, w), l).w)
    ensures Away(s.sh, Next(Local(s.sh, w), l).w) && !Settles(l) && !Between(l)
  {
  }

  lemma AwayKept(s: State, w: Worker, l: Label)
    requires WorkerInv(s, w) && Away(s.sh, w) && Enabled(Local(s.sh, w), l) && Minted(l) !! s.minted
    requires !Settles(l) && !Between(l)
    ensures var v := Next(Local(s.sh, w), l); Away(v.sh, v.w)
  {
  }

  lemma SettledIsUnarmed(s: State, w: Worker, l: Label)
    requires WorkerInv(s, w) && WorkerSound(s, w) && Enabled(Local(s.sh, w), l) && Settles(l)
    ensures var v := Next(Local(s.sh, w), l); !Armed(v.sh, v.w)
  {
  }

  // ---- along a turn ----

  /** Where a turn of worker `w` stands: `armed` if it took an arming step, `settled` if it is past its save. */
  ghost predicate TurnState(s: State, on: set<Wid>, w: Wid, armed: bool, settled: bool) {
    && SoundBut(s, on) && w in s.workers && w !in on
    && (settled ==> s.workers[w].phase.Done? || s.workers[w].phase.Idle?)
    && if armed && !settled then Away(s.sh, s.workers[w]) else !Armed(s.sh, s.workers[w])
  }

  lemma PastItsSave(v: Local, l: Label)
    requires Enabled(v, l) && !Between(l) && (v.w.phase.Done? || v.w.phase.Idle?)
    ensures (Next(v, l).w.phase.Done? || Next(v, l).w.phase.Idle?) && !Arms(v.sh, v.w, l)
  {
  }

  lemma OwnStep(s: State, on: set<Wid>, w: Wid, armed: bool, settled: bool, l: Label)
    requires TurnState(s, on, w, armed, settled) && Can(s, Act(w, l))
    requires !l.Close? && !l.Crash? && (l.Look? || l.LookFail? ==> !armed && !settled)
    ensures var s' := Apply(s, Act(w, l));
      TurnState(s', OnStray(s, on, Act(w, l), s'), w, armed || Arms(s.sh, s.workers[w], l), settled || Settles(l))
  {
    var me, a, s' := s.workers[w], Act(w, l), Apply(s, Act(w, l));
    assert WorkerInv(s, me) && WorkerSound(s, me);
    if Trusts(s, a) { TrustIsArmed(s, a); }
    StepSoundBut(s, on, a);
    if settled { PastItsSave(Local(s.sh, me), l); }
    if Settles(l) {
      SettledIsUnarmed(s, me, l);
    } else if Armed(s.sh, me) {
      AwayKept(s, me, l);
    } else {
      ArmingIsExact(s, on, a, w);
      if Arms(s.sh, me, l) { ArmsAway(s, me, l); }
    }
  }

  predicate Own(a: Step, w: Wid) {
    a.Act? && a.w == w
  }

  /** Nobody but worker `w` bumps or saves. */
  predicate Beside(a: Step, w: Wid) {
    Own(a, w) || (a.Act? ==> !a.l.Bump? && !a.l.BumpLost? && !a.l.Archive?)
  }

  lemma OthersLeave(s: State, w: Wid, a: Step)
    requires Can(s, a) && w in s.workers && !Own(a, w) && Beside(a, w)
    ensures var s' := Apply(s, a); w in s'.workers && s'.workers[w] == s.workers[w] && !Saves(s, a)
    ensures var s' := Apply(s, a); s'.sh.blob == s.sh.blob && TurnOf(s'.sh.row) == TurnOf(s.sh.row)
  {
  }

  lemma OtherStep(s: State, on: set<Wid>, w: Wid, armed: bool, settled: bool, a: Step)
    requires TurnState(s, on, w, armed, settled) && Can(s, a) && !Own(a, w) && Beside(a, w)
    ensures TurnState(Apply(s, a), OnStray(s, on, a, Apply(s, a)), w, armed, settled)
  {
    OthersLeave(s, w, a);
    StepSoundBut(s, on, a);
  }

  // ---- the steps of one turn, among others ----

  /** Along the steps worker `w` takes one turn: it reads the row at most once, before all else it does, and
      is neither closed nor dies. */
  predicate OneTurn(steps: seq<Step>, w: Wid) {
    steps != [] ==>
      var front, a := steps[..|steps| - 1], steps[|steps| - 1];
      OneTurn(front, w) && (Own(a, w) ==> !Between(a.l) || ((a.l.Look? || a.l.LookFail?) && !Moves(front, w)))
  }

  predicate Moves(steps: seq<Step>, w: Wid) {
    exists a <- steps :: Own(a, w)
  }

  /** One of the worker's own steps was an arming step. */
  predicate TurnArms(s: State, steps: seq<Step>, w: Wid) {
    steps != [] &&
      var front, a := steps[..|steps| - 1], steps[|steps| - 1];
      TurnArms(s, front, w) || (Own(a, w) && Follow(s, front).Some? && ArmingStep(Follow(s, front).value, a))
  }

  /** And one of them was its save, or a bump that raised. */
  predicate TurnSettles(steps: seq<Step>, w: Wid) {
    exists a <- steps :: Own(a, w) && Settles(a.l)
  }

  lemma TurnSettlesMore(steps: seq<Step>, w: Wid)
    requires steps != []
    ensures var front, a := steps[..|steps| - 1], steps[|steps| - 1];
      TurnSettles(steps, w) <==> TurnSettles(front, w) || (Own(a, w) && Settles(a.l))
  {
    assert steps == steps[..|steps| - 1] + [steps[|steps| - 1]];
  }

  lemma {:induction false} ArmsByMoving(s: State, steps: seq<Step>, w: Wid)
    requires TurnArms(s, steps, w) || TurnSettles(steps, w)
    ensures Moves(steps, w)
  {
    if !TurnSettles(steps, w) && TurnArms(s, steps[..|steps| - 1], w) { ArmsByMoving(s, steps[..|steps| - 1], w); }
  }

  lemma {:induction false} AlongTheTurn(s: State, on: set<Wid>, steps: seq<Step>, u: State, w: Wid) returns (on': set<Wid>)
    requires TurnState(s, on, w, false, false) && Follow(s, steps) == Some(u) && OneTurn(steps, w)
    requires forall a <- steps :: Beside(a, w)
    ensures TurnState(u, on', w, TurnArms(s, steps, w), TurnSettles(steps, w))
  {
    on' := on;
    if steps != [] {
      var front, a := steps[..|steps| - 1], steps[|steps| - 1];
      var t := Follow(s, front).value;
      on' := AlongTheTurn(s, on, front, t, w);
      TurnSettlesMore(steps, w);
      if TurnArms(s, front, w) || TurnSettles(front, w) { ArmsByMoving(s, front, w); }
      if Own(a, w) {
        OwnStep(t, on', w, TurnArms(s, front, w), TurnSettles(front, w), a.l);
      } else {
        OtherStep(t, on', w, TurnArms(s, front, w), TurnSettles(front, w), a);
      }
      on' := OnStray(t, on', a, u);
    }
  }

  // ---- which failed turns are followed by a loss ----

  /** Some clean next turn of the worker saves, and what it saves does not extend what is stored. */
  ghost predicate NextTurnMayLose(s: State, w: Wid, sid: Sid, now: Time)
    requires w in s.workers && s.sh.blob.Some?
  {
    exists b: Bytes | |Resumes(View(s, w), sid) + b| <= s.workers[w].cap && TurnSaves(s, w, sid, b, now) ::
      !TurnExtends(s, w, sid, b, now)
  }

  /** Take a worker that is not armed and not on a stray file, in a state that is sound but for others that are,
      and any steps along which it takes one turn and nobody else bumps. If after them it is idle without
      a client, on a thread whose row names a stored session, its next turn may lose what is stored if
      and only if one of its steps was an arming step, and it came neither to its save nor to a bump that
      raised. */
  lemma LossFollowsArming(s: State, on: set<Wid>, steps: seq<Step>, u: State, w: Wid, sid: Sid, now: Time)
    requires SoundBut(s, on) && w in s.workers && w !in on && !Armed(s.sh, s.workers[w])
    requires Follow(s, steps) == Some(u) && OneTurn(steps, w) && forall a <- steps :: Beside(a, w)
    requires w in u.workers && LockFree(u, w) && CanResume(View(u, w), sid) && |Resumes(View(u, w), sid)| <= u.workers[w].cap
    ensures NextTurnMayLose(u, w, sid, now) <==> TurnArms(s, steps, w) && !TurnSettles(steps, w)
  {
    var on' := AlongTheTurn(s, on, steps, u, w);
    NextTurnIsExact(u, w, sid, now);
  }

  // ---- and the loss itself ----

  /** From the initial state, the steps are a run in which a save neither extends nor opens. */
  ghost predicate LosesUpdate(caps: map<Wid, nat>, steps: seq<Step>) {
    exists states: seq<State>, i: nat :: LostAt(caps, states, steps, i)
  }

  ghost predicate LostAt(caps: map<Wid, nat>, states: seq<State>, steps: seq<Step>, i: nat) {
    && Run(states, steps) && states[0] == Init(caps)
    && i < |steps| && Saves(states[i], steps[i]) && !ExtendsOrOpens(states, steps, i)
  }

  /** The step replaces what is stored under an id by something that does not extend it. */
  ghost predicate SavesWorse(u: State, a: Step) {
    && Can(u, a) && Saves(u, a) && StoredUnder(u.sh, Apply(u, a).sh.blob.value.sid)
    && !(u.sh.blob.value.data <= Apply(u, a).sh.blob.value.data)
  }

  lemma SaveLoses(caps: map<Wid, nat>, ready: seq<Step>, u: State, a: Step, last: seq<Step>)
    requires Follow(Init(caps), ready) == Some(u) && Follow(Init(caps), ready + [a] + last).Some?
    requires SavesWorse(u, a)
    ensures LosesUpdate(caps, ready + [a] + last)
  {
    var steps, i := ready + [a] + last, |ready|;
    var states := FollowIsRun(Init(caps), steps);
    RunIsFollow(states, steps, i);
    assert steps[..i] == ready && steps[i] == a;
    assert LostAt(caps, states, steps, i);
  }

  lemma ReadyToLose(s: State, w: Wid, sid: Sid, b: Bytes) returns (u: State)
    requires w in s.workers && LockFree(s, w) && CanResume(View(s, w), sid)
    requires var hist := Resumes(View(s, w), sid) + b; |hist| <= s.workers[w].cap && !(s.sh.blob.value.data <= hist)
    ensures Follow(s, Acts(w, ReadyLabels(View(s, w), sid, b, 0))) == Some(u) && u.sh.blob == s.sh.blob
    ensures SavesWorse(u, Act(w, Archive(SaveOk)))
  {
    u := ReadyToSave(s, w, sid, b, 0);
    assert Can(u, Act(w, Archive(SaveOk)));
    assert Apply(u, Act(w, Archive(SaveOk))).sh.blob == Some(Blob(sid, Resumes(View(s, w), sid) + b));
  }

  lemma TurnSplits(before: seq<Step>, w: Wid, ready: seq<Label>, o: SaveOutcome)
    ensures before + Acts(w, ready + SaveLabels(o)) == before + Acts(w, ready) + [Act(w, Archive(o))] + [Act(w, Finish)]
  {
  }

  /** After any run: if a worker is armed and idle without a client, on a thread whose row names a stored
      session, and answers with something that does not happen to restore what it lacks, its clean turn
      loses an update. */
  lemma TurnLoses(caps: map<Wid, nat>, before: seq<Step>, s: State, w: Wid, sid: Sid, b: Bytes)
    requires Follow(Init(caps), before) == Some(s) && w in s.workers && LockFree(s, w) && CanResume(View(s, w), sid)
    requires var hist := Resumes(View(s, w), sid) + b; |hist| <= s.workers[w].cap && !(s.sh.blob.value.data <= hist)
    ensures LosesUpdate(caps, before + Acts(w, TurnLabels(View(s, w), sid, b, 0, SaveOk)))
  {
    var ready := ReadyLabels(View(s, w), sid, b, 0);
    var u := ReadyToLose(s, w, sid, b);
    FollowOn(Init(caps), before, s, Acts(w, ready), u);
    var t := LiftTurn(s, w, sid, b, 0, SaveOk);
    FollowOn(Init(caps), before, s, Acts(w, ready + SaveLabels(SaveOk)), t);
    TurnSplits(before, w, ready, SaveOk);
    SaveLoses(caps, before + Acts(w, ready), u, Act(w, Archive(SaveOk)), [Act(w, Finish)]);
  }

  /** An armed worker always has such an answer, so the run goes on to a lost update. */
  lemma ArmedLoses(caps: map<Wid, nat>, before: seq<Step>, s: State, w: Wid, sid: Sid)
    requires Follow(Init(caps), before) == Some(s) && w in s.workers && LockFree(s, w) && CanResume(View(s, w), sid)
    requires |Resumes(View(s, w), sid)| <= s.workers[w].cap && Armed(s.sh, s.workers[w])
    ensures LosesUpdate(caps, before + Acts(w, TurnLabels(View(s, w), sid, "", 0, SaveOk)))
  {
    var base := Resumes(View(s, w), sid);
    assert base + "" == base;
    TurnLoses(caps, before, s, w, sid, "");
  }
}
