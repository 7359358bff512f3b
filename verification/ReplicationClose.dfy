/** Closing a session deletes only what the store has. */
module ReplicationClose {
  import opened Wrappers
  import opened Rows
  import opened Replication
  import opened ReplicationInvariant
  import opened ReplicationRuns
  import opened ReplicationSafety

  /** A save that is believed read the file after the CLI had finished writing it. */
  predicate SettledSave(s: State, a: Step)
    requires Can(s, a)
  {
    Saves(s, a) && a.l.o.SaveOk? ==>
      var w := s.workers[a.w];
      w.client.Some? && w.disk[w.phase.sid] == w.client.value.hist
  }

  /** The same of one worker's saves; how the others archive does not matter to it. */
  predicate OwnSettled(s: State, a: Step, w: Wid)
    requires Can(s, a)
  {
    a.Act? && a.w == w ==> SettledSave(s, a)
  }

  /** Some save stored at least `data` under `sid`. */
  ghost predicate Accepted(log: seq<Blob>, sid: Sid, data: Bytes) {
    exists b <- log :: b.sid == sid && data <= b.data
  }

  ghost predicate ArchivedInv(s: State, w: Worker) {
    w.archived && w.sid.Some? ==>
      && (w.sid.value in w.disk ==> Accepted(s.log, w.sid.value, w.disk[w.sid.value]))
      && (w.client.Some? && w.client.value.sid == w.sid.value ==>
            w.sid.value in w.disk && w.disk[w.sid.value] == w.client.value.hist)
  }

  lemma AcceptedGrows(log: seq<Blob>, b: Blob, sid: Sid, data: Bytes)
    requires Accepted(log, sid, data)
    ensures Accepted(log + [b], sid, data)
  {
    var c :| c in log && c.sid == sid && data <= c.data;
    assert c in log + [b];
  }

  lemma LocalArchived(s: State, w: Worker, l: Label)
    requires StoreInv(s) && WorkerInv(s, w) && ArchivedInv(s, w)
    requires Enabled(Local(s.sh, w), l) && Minted(l) !! s.minted && !l.Archive?
    requires l.Crash? ==> forall f <- l.disk :: f in w.disk && l.disk[f] == w.disk[f]
    ensures ArchivedInv(s, Next(Local(s.sh, w), l).w)
  {
    if s.log != [] { assert s.log[|s.log| - 1] in s.log; }
  }

  /** A step that saves nothing, taken by the worker itself or by another. */
  lemma QuietArchived(s: State, a: Step, v: Wid)
    requires Inv(s) && Can(s, a) && !Saves(s, a) && v in s.workers && ArchivedInv(s, s.workers[v])
    ensures ArchivedInv(Apply(s, a), Apply(s, a).workers[v])
  {
    var w := s.workers[v];
    assert WorkerInv(s, w) && Apply(s, a).log == s.log;
    if a.Act? && a.w == v && !a.l.Archive? { LocalArchived(s, w, a.l); }
  }

  lemma SaveArchived(s: State, a: Step, v: Wid)
    requires Inv(s) && Can(s, a) && Saves(s, a) && OwnSettled(s, a, v) && v in s.workers && ArchivedInv(s, s.workers[v])
    ensures ArchivedInv(Apply(s, a), Apply(s, a).workers[v])
  {
    var w := s.workers[v];
    assert WorkerInv(s, w);
    var b := Apply(s, a).sh.blob.value;
    assert (s.log + [b])[|s.log|] == b;
    assert a.w == v && a.l.o.SaveOk? ==> Accepted(s.log + [b], b.sid, b.data);
    if w.archived && w.sid.Some? && w.sid.value in w.disk { AcceptedGrows(s.log, b, w.sid.value, w.disk[w.sid.value]); }
  }

  lemma StepArchived(s: State, a: Step, v: Wid)
    requires Inv(s) && Can(s, a) && OwnSettled(s, a, v) && v in s.workers && ArchivedInv(s, s.workers[v])
    ensures ArchivedInv(Apply(s, a), Apply(s, a).workers[v])
  {
    if Saves(s, a) { SaveArchived(s, a, v); } else { QuietArchived(s, a, v); }
  }

  lemma {:induction false} RunArchived(caps: map<Wid, nat>, states: seq<State>, steps: seq<Step>, i: nat, v: Wid)
    requires Run(states, steps) && states[0] == Init(caps) && i < |states| && v in states[i].workers
    requires forall k | 0 <= k < i :: OwnSettled(states[k], steps[k], v)
    ensures Inv(states[i]) && ArchivedInv(states[i], states[i].workers[v])
  {
    if i > 0 {
      RunArchived(caps, states, steps, i - 1, v);
      StepKept(states[i - 1], steps[i - 1]);
      StepArchived(states[i - 1], steps[i - 1], v);
    }
  }

  /** In every run in which this worker's believed saves were settled, whenever its session is closed (by the sweeper,
      or by a turn that finds its client outdated), every file the close deletes is a prefix of
      bytes that some save stored under its id. */
  lemma CloseDeletesOnlyStored(caps: map<Wid, nat>, states: seq<State>, steps: seq<Step>, i: nat, w: Wid, sid: Sid)
    requires Run(states, steps) && states[0] == Init(caps) && i < |steps|
    requires forall k | 0 <= k < i :: OwnSettled(states[k], steps[k], w)
    requires steps[i] == Act(w, Close) || steps[i] == Act(w, Look)
    requires w in states[i].workers && sid in states[i].workers[w].disk
    ensures sid in states[i + 1].workers[w].disk || Accepted(states[i].log, sid, states[i].workers[w].disk[sid])
  {
    RunArchived(caps, states, steps, i, w);
  }

  // ---- exactly when a close is safe ----

  /** The turn that took the save ends, the CLI writes on to `n` bytes of its conversation, and the session
      is closed: it can come to that, the close deletes the file, and the store has what it held. */
  ghost predicate ClosesSafely(s: State, w: Wid, sid: Sid, n: nat) {
    var u := Follow(s, Acts(w, [Finish] + [Flush(n)]));
    && u.Some? && Can(u.value, Act(w, Close))
    && w in u.value.workers && sid in u.value.workers[w].disk && sid !in Apply(u.value, Act(w, Close)).workers[w].disk
    && Accepted(u.value.log, sid, u.value.workers[w].disk[sid])
  }

  lemma FinishFlush(s: State, w: Wid, n: nat) returns (u: State)
    requires w in s.workers && LockFree(s, w) && s.workers[w].phase.Done? && s.workers[w].client.Some?
    requires var c := s.workers[w].client.value; c.sid in s.workers[w].disk && |s.workers[w].disk[c.sid]| <= n <= |c.hist|
    ensures Follow(s, Acts(w, [Finish] + [Flush(n)])) == Some(u) && LockFree(u, w) && u.log == s.log && w in u.workers
    ensures var me := s.workers[w]; var c := me.client.value;
      u.workers[w] == me.(disk := me.disk[c.sid := c.hist[..n]], phase := Idle)
  {
    var v := View(s, w);
    TakesTwo(v, Finish, Flush(n));
    assert Then(Some(v), Finish) == Some(v.(w := v.w.(phase := Idle)));
    NothingMinted([Finish] + [Flush(n)]);
    u := LiftAll(s, w, [Finish] + [Flush(n)], 0);
  }

  lemma CloseDeletes(s: State, w: Wid, sid: Sid)
    requires w in s.workers && LockFree(s, w)
    requires var me := s.workers[w]; me.phase.Idle? && me.archived && me.sid == Some(sid)
    ensures Can(s, Act(w, Close)) && Apply(s, Act(w, Close)).workers[w].disk == s.workers[w].disk - {sid}
  {
  }

  lemma OneClose(s: State, a: Step, n: nat)
    requires Inv(s) && Can(s, a) && Saves(s, a) && a.l.o.SaveOk?
    requires var me := s.workers[a.w]; me.client.Some? && |me.disk[me.phase.sid]| <= n <= |me.client.value.hist|
    ensures var me := s.workers[a.w];
      ClosesSafely(Apply(s, a), a.w, me.phase.sid, n) <==> Accepted(Apply(s, a).log, me.phase.sid, me.client.value.hist[..n])
  {
    assert WorkerInv(s, s.workers[a.w]);
    var s' := Apply(s, a);
    assert LockFree(s', a.w);
    var u := FinishFlush(s', a.w, n);
    CloseDeletes(u, a.w, s.workers[a.w].phase.sid);
  }

  /** Under one id nothing ever stored is longer than what was stored last. */
  lemma LongerIsNotAccepted(log: seq<Blob>, b: Blob, data: Bytes)
    requires OnlyGrows(log + [b]) && |data| > |b.data|
    ensures !Accepted(log, b.sid, data)
  {
    var all := log + [b];
    forall x | x in log && x.sid == b.sid ensures |x.data| <= |b.data| {
      var i :| 0 <= i < |log| && log[i] == x;
      assert all[i] == x && all[|log|] == b && all[i].data <= all[|log|].data;
    }
  }

  lemma AcceptedPart(log: seq<Blob>, b: Blob, data: Bytes, n: nat)
    requires n <= |data| && b.data <= data && (b.data == data || Accepted(log, b.sid, data))
    ensures Accepted(log + [b], b.sid, data[..n])
  {
    if b.data == data {
      assert (log + [b])[|log|] == b && data[..n] <= b.data;
    } else {
      AcceptedGrows(log, b, b.sid, data);
      var c :| c in log + [b] && c.sid == b.sid && data <= c.data;
      assert data[..n] <= c.data;
    }
  }

  /** After a believed save in any reachable state, every close of the session deletes only bytes that some
      save stored, however much the CLI writes in between, if and only if the file held the client's whole
      conversation when it was archived, or an earlier save had stored all of it. The latter can only be
      after an update was lost. */
  lemma CloseIsExact(s: State, a: Step)
    requires Inv(s) && Can(s, a) && Saves(s, a) && a.l.o.SaveOk?
    ensures var me := s.workers[a.w];
      && me.client.Some?
      && (me.disk[me.phase.sid] == me.client.value.hist || Accepted(s.log, me.phase.sid, me.client.value.hist) <==>
          forall n: nat | |me.disk[me.phase.sid]| <= n <= |me.client.value.hist| ::
            ClosesSafely(Apply(s, a), a.w, me.phase.sid, n))
      && (OnlyGrows(Apply(s, a).log) && Accepted(s.log, me.phase.sid, me.client.value.hist) ==>
            me.disk[me.phase.sid] == me.client.value.hist)
  {
    var me := s.workers[a.w];
    assert WorkerInv(s, me);
    var file, hist := me.disk[me.phase.sid], me.client.value.hist;
    var b := Blob(me.phase.sid, file);
    assert Apply(s, a).log == s.log + [b] && file <= hist;
    forall n: nat | |file| <= n <= |hist|
      ensures ClosesSafely(Apply(s, a), a.w, me.phase.sid, n) <==> Accepted(s.log + [b], b.sid, hist[..n])
    {
      OneClose(s, a, n);
    }
    assert hist[..|hist|] == hist;
    if file == hist || Accepted(s.log, b.sid, hist) {
      forall n: nat | |file| <= n <= |hist| ensures Accepted(s.log + [b], b.sid, hist[..n]) { AcceptedPart(s.log, b, hist, n); }
    }
    if OnlyGrows(s.log + [b]) && |hist| > |file| { LongerIsNotAccepted(s.log, b, hist); }
  }
}
