/** Whole turns in which nothing fails, as runs of the system, and exactly when such a turn loses what is
    stored. */
module ReplicationTurns {
  import opened Wrappers
  import opened Rows
  import opened Replication
  import opened ReplicationInvariant
  import opened ReplicationSafety
  import opened ReplicationRuns

  // ---- the labels of a turn ----

  /** Connect a worker that has no client, resuming `sid`. */
  function ConnectLabels(v: Local, sid: Sid): seq<Label> {
    if LocalIsNewer(v.w, v.sh.row, sid) then [Look, Begin, Resume] else [Look, Begin, Load] + [Resume]
  }

  /** Answer `b`, bump, and let the CLI write all `n` bytes of the conversation. */
  function AnswerLabels(b: Bytes, n: nat, now: Time): seq<Label> {
    [Query, Emit(b), Name(now)] + ([Bump(now)] + [Flush(n)])
  }

  function SaveLabels(o: SaveOutcome): seq<Label> {
    [Archive(o)] + [Finish]
  }

  /** The conversation the worker would resume. */
  function Resumes(v: Local, sid: Sid): Bytes
    requires v.sh.blob.Some?
  {
    if LocalIsNewer(v.w, v.sh.row, sid) then v.w.disk[sid] else v.sh.blob.value.data
  }

  function ReadyLabels(v: Local, sid: Sid, b: Bytes, now: Time): seq<Label>
    requires v.sh.blob.Some?
  {
    ConnectLabels(v, sid) + AnswerLabels(b, |Resumes(v, sid) + b|, now)
  }

  function TurnLabels(v: Local, sid: Sid, b: Bytes, now: Time, o: SaveOutcome): seq<Label>
    requires v.sh.blob.Some?
  {
    ReadyLabels(v, sid, b, now) + SaveLabels(o)
  }

  /** No crash, no failure, no new session. */
  predicate Plain(ls: seq<Label>) {
    forall l <- ls :: !l.Fail? && !l.LoadTorn? && !l.Crash? && Minted(l) == {}
  }

  lemma ReadyIsPlain(v: Local, sid: Sid, b: Bytes, now: Time)
    requires v.sh.blob.Some?
    ensures Plain(ReadyLabels(v, sid, b, now))
  {
    assert Plain(ConnectLabels(v, sid)) && Plain(AnswerLabels(b, |Resumes(v, sid) + b|, now));
  }

  lemma TurnIsPlain(v: Local, sid: Sid, b: Bytes, now: Time, o: SaveOutcome)
    requires v.sh.blob.Some?
    ensures Plain(TurnLabels(v, sid, b, now, o))
  {
    ReadyIsPlain(v, sid, b, now);
    assert Plain(SaveLabels(o));
  }

  lemma LiftPlain(s: State, w: Wid, ls: seq<Label>) returns (t: State)
    requires w in s.workers && LockFree(s, w) && Takes(View(s, w), ls).Some? && Plain(ls)
    ensures Follow(s, Acts(w, ls)) == Some(t) && LoadsWell(s, Acts(w, ls))
    ensures w in t.workers && LockFree(t, w) && Some(View(t, w)) == Takes(View(s, w), ls) && t.minted <= s.minted
    ensures t.workers.Keys == s.workers.Keys && forall v <- s.workers :: v != w ==> t.workers[v] == s.workers[v]
    ensures (forall l <- ls :: !l.Archive?) ==> t.log == s.log
  {
    NothingFails(View(s, w), ls);
    NothingMinted(ls);
    t := LiftAll(s, w, ls, 0);
  }

  // ---- what they do ----

  /** An idle worker without a client, on a thread whose row names a session that is stored. */
  predicate CanResume(v: Local, sid: Sid) {
    v.w.phase.Idle? && v.w.client.None? && SidOf(v.sh.row) == Some(sid) && v.sh.blob.Some? && v.sh.blob.value.sid == sid
  }

  function Connected(v: Local, sid: Sid): Local
    requires v.sh.blob.Some?
  {
    var base := Resumes(v, sid);
    v.(w := v.w.(client := Some(Client(sid, ModeOf(v.sh.row), base)), mode := ModeOf(v.sh.row), seen := TurnOf(v.sh.row),
                 live := Some(sid), disk := v.w.disk[sid := base], phase := Ready(v.sh.row)))
  }

  lemma ConnectTakes(v: Local, sid: Sid)
    requires CanResume(v, sid)
    ensures Takes(v, ConnectLabels(v, sid)) == Some(Connected(v, sid))
  {
    var row := v.sh.row;
    var l1 := v.(w := v.w.(phase := Looked(row)));
    assert Then(Some(v), Look) == Some(l1);
    if LocalIsNewer(v.w, row, sid) {
      TakesThree(v, Look, Begin, Resume);
      assert v.w.disk[sid := v.w.disk[sid]] == v.w.disk;
      var l2 := v.(w := v.w.(seen := TurnOf(row), phase := Opening(row, sid, true)));
      assert Then(Some(l1), Begin) == Some(l2);
      assert Then(Some(l2), Resume) == Some(Connected(v, sid));
    } else {
      TakesThree(v, Look, Begin, Load);
      TakesMore(v, [Look, Begin, Load], Resume);
      var l2 := v.(w := v.w.(seen := TurnOf(row), phase := Loading(row, sid)));
      assert Then(Some(l1), Begin) == Some(l2);
      var l3 := v.(w := v.w.(seen := TurnOf(row), disk := v.w.disk[sid := v.sh.blob.value.data], phase := Opening(row, sid, false)));
      assert Then(Some(l2), Load) == Some(l3);
      assert Then(Some(l3), Resume) == Some(Connected(v, sid));
    }
  }

  /** The state in which the turn's save is due. */
  function Answered(v: Local, b: Bytes, now: Time): Local
    requires v.w.client.Some?
  {
    var c := v.w.client.value;
    var row := BumpTurn(Some(Upsert(v.sh.row, Some(c.sid), None, true, now)), now);
    Local(v.sh.(row := Some(row)),
          v.w.(client := Some(c.(hist := c.hist + b)), live := Some(c.sid), archived := false, seen := row.turn,
               disk := v.w.disk[c.sid := c.hist + b], phase := Bumped(c.sid)))
  }

  lemma StreamTakes(v: Local, b: Bytes, now: Time)
    requires v.w.phase.Ready? && v.w.client.Some?
    ensures var c := v.w.client.value;
      Takes(v, [Query, Emit(b), Name(now)]) == Some(Local(
        v.sh.(row := Some(Upsert(v.sh.row, Some(c.sid), None, true, now))),
        v.w.(client := Some(c.(hist := c.hist + b)), live := Some(c.sid), archived := false,
             phase := Streaming(v.w.phase.row, Some(c.sid)))))
  {
    TakesThree(v, Query, Emit(b), Name(now));
    var c := v.w.client.value;
    var v1 := v.(w := v.w.(archived := false, phase := Streaming(v.w.phase.row, None)));
    assert Then(Some(v), Query) == Some(v1);
    var v2 := v1.(w := v1.w.(client := Some(c.(hist := c.hist + b))));
    assert Then(Some(v1), Emit(b)) == Some(v2);
  }

  lemma BumpAndFlush(v: Local, n: nat, now: Time)
    requires v.w.phase.Streaming? && v.w.phase.named.Some? && v.w.client.Some?
    requires var c := v.w.client.value; n <= |c.hist| && (c.sid in v.w.disk ==> |v.w.disk[c.sid]| <= n)
    ensures var c := v.w.client.value; var row := BumpTurn(v.sh.row, now);
      Takes(v, [Bump(now)] + [Flush(n)]) == Some(Local(
        v.sh.(row := Some(row)),
        v.w.(seen := row.turn, disk := v.w.disk[c.sid := c.hist[..n]], phase := Bumped(v.w.phase.named.value))))
  {
    var row := BumpTurn(v.sh.row, now);
    var u := Local(v.sh.(row := Some(row)), v.w.(seen := row.turn, phase := Bumped(v.w.phase.named.value)));
    TakesTwo(v, Bump(now), Flush(n));
    assert Then(Some(v), Bump(now)) == Some(u);
    assert Then(Some(u), Flush(n)) == Some(u.(w := u.w.(disk := u.w.disk[u.w.client.value.sid := u.w.client.value.hist[..n]])));
  }

  /** The CLI has written `n` bytes of the conversation when the save is due. */
  lemma PartTakes(v: Local, b: Bytes, n: nat, now: Time)
    requires v.w.phase.Ready? && v.w.client.Some?
    requires var c := v.w.client.value; n <= |c.hist + b| && (c.sid in v.w.disk ==> |v.w.disk[c.sid]| <= n)
    ensures var c := v.w.client.value; var a := Answered(v, b, now);
      Takes(v, AnswerLabels(b, n, now)) == Some(a.(w := a.w.(disk := v.w.disk[c.sid := (c.hist + b)[..n]])))
  {
    var ls := [Query, Emit(b), Name(now)];
    StreamTakes(v, b, now);
    var u := Takes(v, ls).value;
    BumpAndFlush(u, n, now);
    TakesOn(v, ls, [Bump(now)] + [Flush(n)]);
  }

  lemma AnswerTakes(v: Local, b: Bytes, now: Time)
    requires v.w.phase.Ready? && v.w.client.Some?
    requires var c := v.w.client.value; c.sid in v.w.disk ==> |v.w.disk[c.sid]| <= |c.hist + b|
    ensures Takes(v, AnswerLabels(b, |v.w.client.value.hist + b|, now)) == Some(Answered(v, b, now))
  {
    var hist := v.w.client.value.hist + b;
    PartTakes(v, b, |hist|, now);
    assert hist[..|hist|] == hist;
  }

  function Saved(v: Local, o: SaveOutcome): Local
    requires v.w.phase.Bumped? && v.w.phase.sid in v.w.disk
  {
    var sid := v.w.phase.sid;
    Local(v.sh.(blob := if o.SaveFailed? then v.sh.blob else Some(Blob(sid, v.w.disk[sid]))),
          v.w.(sid := Some(sid), archived := o.SaveOk? || v.w.archived, phase := Idle))
  }

  lemma SaveTakes(v: Local, o: SaveOutcome)
    requires v.w.phase.Bumped? && v.w.phase.sid in v.w.disk && |v.w.disk[v.w.phase.sid]| <= v.w.cap
    ensures Takes(v, SaveLabels(o)) == Some(Saved(v, o))
  {
    TakesTwo(v, Archive(o), Finish);
    var u := ArchiveFile(v, v.w.phase.sid, o);
    assert Then(Some(v), Archive(o)) == Some(u) && u.w.phase.Done?;
  }

  lemma ReadyTakes(v: Local, sid: Sid, b: Bytes, now: Time)
    requires CanResume(v, sid)
    ensures Takes(v, ReadyLabels(v, sid, b, now)) == Some(Answered(Connected(v, sid), b, now))
  {
    ConnectTakes(v, sid);
    AnswerTakes(Connected(v, sid), b, now);
    TakesOn(v, ConnectLabels(v, sid), AnswerLabels(b, |Resumes(v, sid) + b|, now));
  }

  lemma TurnTakes(v: Local, sid: Sid, b: Bytes, now: Time, o: SaveOutcome)
    requires CanResume(v, sid) && |Resumes(v, sid) + b| <= v.w.cap
    ensures Takes(v, TurnLabels(v, sid, b, now, o)) == Some(Saved(Answered(Connected(v, sid), b, now), o))
  {
    ReadyTakes(v, sid, b, now);
    SaveTakes(Answered(Connected(v, sid), b, now), o);
    TakesOn(v, ReadyLabels(v, sid, b, now), SaveLabels(o));
  }

  /** The second half of a turn, from a connected client on. */
  lemma CommitTakes(v: Local, b: Bytes, now: Time, o: SaveOutcome)
    requires v.w.phase.Ready? && v.w.client.Some?
    requires var c := v.w.client.value; |c.hist + b| <= v.w.cap && (c.sid in v.w.disk ==> |v.w.disk[c.sid]| <= |c.hist + b|)
    ensures Takes(v, AnswerLabels(b, |v.w.client.value.hist + b|, now) + SaveLabels(o)) == Some(Saved(Answered(v, b, now), o))
    ensures Plain(AnswerLabels(b, |v.w.client.value.hist + b|, now) + SaveLabels(o))
  {
    var n := |v.w.client.value.hist + b|;
    AnswerTakes(v, b, now);
    SaveTakes(Answered(v, b, now), o);
    TakesOn(v, AnswerLabels(b, n, now), SaveLabels(o));
    AnswerIsPlain(b, n, now, o);
  }

  lemma AnswerIsPlain(b: Bytes, n: nat, now: Time, o: SaveOutcome)
    ensures Plain(AnswerLabels(b, n, now) + SaveLabels(o))
  {
    assert Plain(AnswerLabels(b, n, now)) && Plain(SaveLabels(o));
  }

  /** A connected worker answers `b`, names its session in the row, and fails before its bump. */
  function NameAndFail(b: Bytes): seq<Label> {
    [Query, Emit(b), Name(0)] + [Fail]
  }

  lemma NameAndFailTakes(v: Local, b: Bytes)
    requires v.w.phase.Ready? && v.w.client.Some?
    ensures Takes(v, NameAndFail(b)).Some? && LoadsWellHere(v, NameAndFail(b)) && Mints(NameAndFail(b)) == 0
    ensures var v' := Takes(v, NameAndFail(b)).value;
      && v'.sh == v.sh.(row := Some(Upsert(v.sh.row, Some(v.w.client.value.sid), None, true, 0)))
      && v'.w == v.w.(client := None, live := Some(v.w.client.value.sid), archived := false, phase := Idle)
  {
    StreamTakes(v, b, 0);
    TakesMore(v, [Query, Emit(b), Name(0)], Fail);
    NothingFails(v, [Query, Emit(b), Name(0)]);
    NothingMinted(NameAndFail(b));
  }

  /** A clean turn, as a run of the system. */
  lemma LiftTurn(s: State, w: Wid, sid: Sid, b: Bytes, now: Time, o: SaveOutcome) returns (t: State)
    requires w in s.workers && LockFree(s, w) && CanResume(View(s, w), sid)
    requires |Resumes(View(s, w), sid) + b| <= s.workers[w].cap
    ensures var ls := TurnLabels(View(s, w), sid, b, now, o);
      Follow(s, Acts(w, ls)) == Some(t) && LoadsWell(s, Acts(w, ls))
    ensures w in t.workers && LockFree(t, w) && t.minted <= s.minted
    ensures t.workers.Keys == s.workers.Keys && forall v <- s.workers :: v != w ==> t.workers[v] == s.workers[v]
    ensures View(t, w) == Saved(Answered(Connected(View(s, w), sid), b, now), o)
  {
    TurnTakes(View(s, w), sid, b, now, o);
    TurnIsPlain(View(s, w), sid, b, now, o);
    t := LiftPlain(s, w, TurnLabels(View(s, w), sid, b, now, o));
  }

  // ---- exactly when a clean turn loses what is stored ----

  /** The turn's last step but one is a save. */
  predicate TurnSaves(s: State, w: Wid, sid: Sid, b: Bytes, now: Time)
    requires w in s.workers && s.sh.blob.Some?
  {
    var u := Follow(s, Acts(w, ReadyLabels(View(s, w), sid, b, now)));
    u.Some? && Can(u.value, Act(w, Archive(SaveOk))) && Saves(u.value, Act(w, Archive(SaveOk)))
  }

  /** And what it stores extends what was stored under that id. */
  predicate TurnExtends(s: State, w: Wid, sid: Sid, b: Bytes, now: Time)
    requires w in s.workers && s.sh.blob.Some? && TurnSaves(s, w, sid, b, now)
  {
    var u := Follow(s, Acts(w, ReadyLabels(View(s, w), sid, b, now))).value;
    var t := Apply(u, Act(w, Archive(SaveOk)));
    t.sh.blob.value.sid == sid && s.sh.blob == u.sh.blob && s.sh.blob.value.data <= t.sh.blob.value.data
  }

  lemma ReadyToSave(s: State, w: Wid, sid: Sid, b: Bytes, now: Time) returns (u: State)
    requires w in s.workers && LockFree(s, w) && CanResume(View(s, w), sid)
    ensures Follow(s, Acts(w, ReadyLabels(View(s, w), sid, b, now))) == Some(u)
    ensures w in u.workers && u.sh.blob == s.sh.blob
    ensures var me := u.workers[w]; var hist := Resumes(View(s, w), sid) + b;
      me.phase == Bumped(sid) && sid in me.disk && me.disk[sid] == hist && me.cap == s.workers[w].cap
  {
    ReadyTakes(View(s, w), sid, b, now);
    ReadyIsPlain(View(s, w), sid, b, now);
    u := LiftPlain(s, w, ReadyLabels(View(s, w), sid, b, now));
    assert View(u, w) == Answered(Connected(View(s, w), sid), b, now);
  }

  lemma TurnDoesSave(s: State, w: Wid, sid: Sid, b: Bytes, now: Time)
    requires w in s.workers && LockFree(s, w) && CanResume(View(s, w), sid)
    requires |Resumes(View(s, w), sid) + b| <= s.workers[w].cap
    ensures TurnSaves(s, w, sid, b, now)
    ensures TurnExtends(s, w, sid, b, now) <==> s.sh.blob.value.data <= Resumes(View(s, w), sid) + b
  {
    var u := ReadyToSave(s, w, sid, b, now);
    assert Can(u, Act(w, Archive(SaveOk)));
    assert Apply(u, Act(w, Archive(SaveOk))).sh.blob == Some(Blob(sid, Resumes(View(s, w), sid) + b));
  }

  /** Take any worker that is idle without a client, on a thread whose row names a stored session. Its
      next turn, if nothing in it fails, is always a save; and whatever it answers, that save extends
      what is stored, if and only if the worker is not armed. */
  lemma NextTurnIsExact(s: State, w: Wid, sid: Sid, now: Time)
    requires w in s.workers && LockFree(s, w) && CanResume(View(s, w), sid)
    requires |Resumes(View(s, w), sid)| <= s.workers[w].cap
    ensures forall b: Bytes | |Resumes(View(s, w), sid) + b| <= s.workers[w].cap :: TurnSaves(s, w, sid, b, now)
    ensures (forall b: Bytes | |Resumes(View(s, w), sid) + b| <= s.workers[w].cap :: TurnExtends(s, w, sid, b, now))
       <==> !Armed(s.sh, s.workers[w])
  {
    var base := Resumes(View(s, w), sid);
    forall b: Bytes | |base + b| <= s.workers[w].cap
      ensures TurnSaves(s, w, sid, b, now)
      ensures TurnExtends(s, w, sid, b, now) <==> s.sh.blob.value.data <= base + b
    {
      TurnDoesSave(s, w, sid, b, now);
    }
    assert base + "" == base;
    if s.sh.blob.value.data <= base {
      forall b: Bytes ensures s.sh.blob.value.data <= base + b { assert base <= base + b; }
    } else {
      assert !TurnExtends(s, w, sid, "", now);
    }
  }
}
