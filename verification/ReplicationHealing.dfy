/** A session's own turns survive failed saves and reach the store with the first save that works. */
module ReplicationHealing {
  import opened Wrappers
  import opened Rows
  import opened Replication
  import opened ReplicationHazards
  import opened ReplicationInvariant

  /** The session on worker `w` stays alive, its resumes are accepted, its bumps land, no hydration of its
      own file is torn in a way that arms it, and no other worker bumps. Other workers may connect, stream,
      name sessions of their own in the row and fail; `/mode` and partner writes, failed or lost saves,
      over-cap transcripts and every other failure are allowed. */
  predicate Quiet(s: State, a: Step, w: Wid)
    requires Can(s, a)
  {
    a.Act? ==>
      if a.w == w then !(a.l.Refuse? || a.l.Crash? || a.l.Close? || a.l.BumpLost?)
                       && !(a.l.LoadTorn? && Arms(s.sh, s.workers[w], a.l))
      else !(a.l.Bump? || a.l.BumpLost?)
  }

  /** Another session: nothing of it is stored, and the worker has no file of it. */
  ghost predicate Foreign(s: State, me: Worker, sid: Sid, other: Sid) {
    other != sid && !StoredUnder(s.sh, other) && other !in me.disk
  }

  ghost predicate OwnOrForeign(s: State, me: Worker, sid: Sid, other: Sid) {
    other == sid || Foreign(s, me, sid, other)
  }

  /** What the row and the other workers can do to the worker: name its session or a foreign one. */
  ghost predicate Undisturbed(s: State, w: Wid, sid: Sid)
    requires w in s.workers
  {
    var me := s.workers[w];
    && SidOf(s.sh.row).Some? && OwnOrForeign(s, me, sid, SidOf(s.sh.row).value)
    && forall v | v in s.workers && v != w :: HarmlessTo(s, me, sid, s.workers[v])
  }

  ghost predicate HarmlessTo(s: State, me: Worker, sid: Sid, other: Worker) {
    && !other.phase.Bumped?
    && (other.client.Some? && Current(s.sh, other) ==> OwnOrForeign(s, me, sid, other.client.value.sid))
  }

  /** Wherever the session's next client comes from, it will have `h`: its own file if that is the
      copy it would resume, the store otherwise. */
  ghost predicate Has(s: State, me: Worker, sid: Sid, h: Bytes) {
    && Current(s.sh, me) && me.sid == Some(sid)
    && (!me.archived && sid in me.disk ==> h <= me.disk[sid])
    && (me.archived || sid !in me.disk ==> StoredUnder(s.sh, sid) && h <= s.sh.blob.value.data)
    && (me.client.Some? ==> me.client.value.sid == sid && sid in me.disk && h <= me.disk[sid])
    && match me.phase {
         case Fresh(_) => false
         case Refused(_, _) => false
         case Loading(_, r) => if r == sid then StoredUnder(s.sh, sid) && h <= s.sh.blob.value.data else Foreign(s, me, sid, r)
         case Opening(_, r, _) => if r == sid then sid in me.disk && h <= me.disk[sid] else Foreign(s, me, sid, r)
         case _ => true
       }
  }

  ghost predicate Keeps(s: State, w: Wid, sid: Sid, h: Bytes) {
    w in s.workers && Undisturbed(s, w, sid) && Has(s, s.workers[w], sid, h)
  }

  /** Without a save of its own the store stays as it is for the worker: nobody else is at its bump. */
  lemma OthersDoNotSave(s: State, a: Step, w: Wid, sid: Sid, h: Bytes)
    requires Inv(s) && Can(s, a) && Quiet(s, a, w) && Keeps(s, w, sid, h) && (a.Act? ==> a.w != w)
    ensures Apply(s, a).sh.blob == s.sh.blob && TurnOf(Apply(s, a).sh.row) == TurnOf(s.sh.row)
    ensures w in Apply(s, a).workers && Apply(s, a).workers[w] == s.workers[w] && !Saves(s, a)
  {
    if a.Act? { assert HarmlessTo(s, s.workers[w], sid, s.workers[a.w]); }
  }

  lemma OtherNames(s: State, a: Step, w: Wid, sid: Sid, h: Bytes)
    requires Inv(s) && Can(s, a) && Quiet(s, a, w) && Keeps(s, w, sid, h) && (a.Act? ==> a.w != w)
    ensures SidOf(Apply(s, a).sh.row).Some? && OwnOrForeign(s, s.workers[w], sid, SidOf(Apply(s, a).sh.row).value)
  {
    if a.Act? {
      assert HarmlessTo(s, s.workers[w], sid, s.workers[a.w]);
      assert WorkerInv(s, s.workers[a.w]);
    }
  }

  /** Where a worker's client comes from: it had it, resumed it, or had it minted. */
  lemma ClientOrigin(v: Local, l: Label)
    requires Enabled(v, l) && !l.Bump? && Next(v, l).w.client.Some?
    ensures var c := Next(v, l).w.client.value;
      || (v.w.client.Some? && c.sid == v.w.client.value.sid && Next(v, l).w.seen == v.w.seen)
      || (l.Resume? && c.sid == v.w.phase.resume)
      || c.sid in Minted(l)
  {
  }

  lemma OtherStaysHarmless(s: State, a: Step, w: Wid, sid: Sid, h: Bytes)
    requires Inv(s) && Can(s, a) && Quiet(s, a, w) && Keeps(s, w, sid, h) && a.Act? && a.w != w
    ensures var other := Apply(s, a).workers[a.w];
      !other.phase.Bumped?
      && (other.client.Some? && Current(s.sh, other) ==> OwnOrForeign(s, s.workers[w], sid, other.client.value.sid))
  {
    var v := Local(s.sh, s.workers[a.w]);
    assert HarmlessTo(s, s.workers[w], sid, s.workers[a.w]);
    assert WorkerInv(s, s.workers[a.w]) && WorkerInv(s, s.workers[w]);
    if Next(v, a.l).w.client.Some? {
      ClientOrigin(v, a.l);
      if Next(v, a.l).w.client.value.sid in Minted(a.l) { MintedIsForeign(s, a, w, sid); }
    }
  }

  lemma MintedIsForeign(s: State, a: Step, w: Wid, sid: Sid)
    requires Inv(s) && Can(s, a) && a.Act? && w in s.workers && s.workers[w].sid == Some(sid)
    ensures forall m <- Minted(a.l) :: Foreign(s, s.workers[w], sid, m)
  {
    assert WorkerInv(s, s.workers[w]);
    if s.log != [] { assert s.log[|s.log| - 1] in s.log; }
  }

  lemma BystanderQuiet(s: State, a: Step, w: Wid, sid: Sid, h: Bytes)
    requires Inv(s) && Can(s, a) && Quiet(s, a, w) && Keeps(s, w, sid, h) && (a.Act? ==> a.w != w)
    ensures Keeps(Apply(s, a), w, sid, h)
  {
    var s' := Apply(s, a);
    OthersDoNotSave(s, a, w, sid, h);
    OtherNames(s, a, w, sid, h);
    if a.Act? { OtherStaysHarmless(s, a, w, sid, h); }
    forall v | v in s'.workers && v != w ensures HarmlessTo(s', s'.workers[w], sid, s'.workers[v]) {
      if !a.Act? || v != a.w {
        assert s'.workers[v] == s.workers[v];
        assert HarmlessTo(s, s.workers[w], sid, s.workers[v]);
      }
    }
  }

  lemma OwnCommitHas(s: State, a: Step, w: Wid, sid: Sid, h: Bytes)
    requires Inv(s) && Can(s, a) && Quiet(s, a, w) && Keeps(s, w, sid, h) && a.Act? && a.w == w && Commits(a.l)
    ensures Has(Apply(s, a), Apply(s, a).workers[w], sid, h)
    ensures SidOf(Apply(s, a).sh.row) == Some(sid) || Apply(s, a).sh.row == s.sh.row
    ensures Apply(s, a).workers[w].disk == s.workers[w].disk
    ensures Apply(s, a).sh.blob == s.sh.blob || StoredUnder(Apply(s, a).sh, sid)
    ensures TurnOf(s.sh.row) <= TurnOf(Apply(s, a).sh.row)
    ensures Saves(s, a) ==> StoredUnder(Apply(s, a).sh, sid) && h <= Apply(s, a).sh.blob.value.data
  {
    assert WorkerInv(s, s.workers[w]);
  }

  lemma OwnHere(s: State, me: Worker, l: Label, sid: Sid, h: Bytes)
    requires WorkerInv(s, me) && Has(s, me, sid, h) && Enabled(Local(s.sh, me), l) && !Commits(l)
    requires SidOf(s.sh.row).Some? && OwnOrForeign(s, me, sid, SidOf(s.sh.row).value)
    requires !(l.Refuse? || l.Crash? || l.Close?) && !(l.LoadTorn? && Arms(s.sh, me, l))
    ensures Next(Local(s.sh, me), l).sh == s.sh && Has(s, Next(Local(s.sh, me), l).w, sid, h)
    ensures Next(Local(s.sh, me), l).w.disk.Keys <= me.disk.Keys + {sid}
  {
  }

  lemma OwnLocalHas(s: State, a: Step, w: Wid, sid: Sid, h: Bytes)
    requires Inv(s) && Can(s, a) && Quiet(s, a, w) && Keeps(s, w, sid, h) && a.Act? && a.w == w && !Commits(a.l)
    ensures Apply(s, a).sh == s.sh && Has(Apply(s, a), Apply(s, a).workers[w], sid, h)
    ensures Apply(s, a).workers[w].disk.Keys <= s.workers[w].disk.Keys + {sid}
  {
    assert WorkerInv(s, s.workers[w]);
    OwnHere(s, s.workers[w], a.l, sid, h);
  }

  /** What the worker itself does leaves the others as they are, and at most adds its own session. */
  lemma StaysUndisturbed(s: State, s': State, w: Wid, sid: Sid)
    requires w in s.workers && s'.workers.Keys == s.workers.Keys && Undisturbed(s, w, sid)
    requires forall v | v in s.workers && v != w :: s'.workers[v] == s.workers[v] && s.workers[v].seen <= TurnOf(s.sh.row)
    requires s'.workers[w].disk.Keys <= s.workers[w].disk.Keys + {sid}
    requires s'.sh.blob == s.sh.blob || StoredUnder(s'.sh, sid)
    requires SidOf(s'.sh.row) == Some(sid) || SidOf(s'.sh.row) == SidOf(s.sh.row)
    requires TurnOf(s.sh.row) <= TurnOf(s'.sh.row)
    ensures Undisturbed(s', w, sid)
  {
    forall v | v in s'.workers && v != w ensures HarmlessTo(s', s'.workers[w], sid, s'.workers[v]) {
      assert HarmlessTo(s, s.workers[w], sid, s.workers[v]);
    }
  }

  lemma StepKeeps(s: State, a: Step, w: Wid, sid: Sid, h: Bytes)
    requires Inv(s) && Can(s, a) && Quiet(s, a, w) && Keeps(s, w, sid, h)
    ensures Keeps(Apply(s, a), w, sid, h)
    ensures Saves(s, a) ==> StoredUnder(Apply(s, a).sh, sid) && h <= Apply(s, a).sh.blob.value.data
  {
    if !a.Act? || a.w != w {
      BystanderQuiet(s, a, w, sid, h);
      OthersDoNotSave(s, a, w, sid, h);
    } else {
      if Commits(a.l) { OwnCommitHas(s, a, w, sid, h); } else { OwnLocalHas(s, a, w, sid, h); }
      forall v | v in s.workers && v != w ensures s.workers[v].seen <= TurnOf(s.sh.row) { assert WorkerInv(s, s.workers[v]); }
      StaysUndisturbed(s, Apply(s, a), w, sid);
    }
  }

  /** What the file held when the turn came to its archive step, whatever became of the save, is kept. */
  lemma ArchivedPartIsKept(s: State, a: Step, w: Wid)
    requires Inv(s) && Can(s, a) && a.Act? && a.w == w && a.l.Archive? && s.workers[w].phase.sid in s.workers[w].disk
    ensures var me := s.workers[w]; Keeps(Apply(s, a), w, me.phase.sid, me.disk[me.phase.sid])
  {
    assert WorkerInv(s, s.workers[w]);
  }

  ghost predicate Held(s: State, w: Wid, sid: Sid, h: Bytes) {
    Inv(s) && Keeps(s, w, sid, h)
  }

  lemma StepHeld(s: State, a: Step, w: Wid, sid: Sid, h: Bytes)
    requires Held(s, w, sid, h) && Can(s, a) && Quiet(s, a, w)
    ensures Held(Apply(s, a), w, sid, h)
  {
    StepKeeps(s, a, w, sid, h);
    StepKept(s, a);
  }

  lemma {:induction false} RunHeld(states: seq<State>, steps: seq<Step>, i: nat, j: nat, w: Wid, sid: Sid, h: Bytes)
    requires Run(states, steps) && i <= j < |states|
    requires Held(states[i], w, sid, h) && forall k | i <= k < j :: Quiet(states[k], steps[k], w)
    ensures Held(states[j], w, sid, h)
    decreases j - i
  {
    if i < j {
      StepHeld(states[i], steps[i], w, sid, h);
      RunHeld(states, steps, i + 1, j, w, sid, h);
    }
  }

  /** The session has a client whose conversation contains `h`, and whose file holds all of it; and if the
      file counts as archived, the store has `h` too. */
  ghost predicate CaughtUp(s: State, w: Wid, h: Bytes) {
    w in s.workers && s.workers[w].client.Some? && HasWritten(s, s.workers[w], s.workers[w].client.value, h)
  }

  ghost predicate HasWritten(s: State, me: Worker, c: Client, h: Bytes) {
    && h <= c.hist && c.sid in me.disk && me.disk[c.sid] == c.hist
    && (me.archived ==> StoredUnder(s.sh, c.sid) && h <= s.sh.blob.value.data)
  }

  lemma CaughtUpIsHeld(s: State, w: Wid, sid: Sid, part: Bytes, h: Bytes)
    requires Held(s, w, sid, part) && CaughtUp(s, w, h)
    ensures Held(s, w, sid, h)
  {
    assert WorkerInv(s, s.workers[w]);
  }

  /** Answer a turn and archive it at step `i`, with whatever outcome and however much of it the file holds. Once
      the CLI has caught up (state `n`; at once, if the file was settled), and as long as the steps are quiet,
      any client the session has later, after `/mode` reconnects and failed turns alike, still has the whole
      conversation of that turn, and so does the first transcript any later save stores. */
  lemma OwnTurnsSurvive(caps: map<Wid, nat>, states: seq<State>, steps: seq<Step>, i: nat, n: nat, j: nat, w: Wid)
    requires Run(states, steps) && states[0] == Init(caps) && i < n <= j < |steps|
    requires steps[i].Act? && steps[i].w == w && steps[i].l.Archive? && Can(states[i], steps[i])
    requires var me := states[i].workers[w];
      me.client.Some? && me.phase.sid in me.disk && CaughtUp(states[n], w, me.client.value.hist)
    requires forall k | i < k <= j :: Quiet(states[k], steps[k], w)
    ensures var answered := states[i].workers[w].client.value;
      && w in states[j].workers
      && (states[j].workers[w].client.Some? ==>
            states[j].workers[w].client.value.sid == answered.sid && answered.hist <= states[j].workers[w].client.value.hist)
      && (Saves(states[j], steps[j]) ==>
            StoredUnder(states[j + 1].sh, answered.sid) && answered.hist <= states[j + 1].sh.blob.value.data)
  {
    InitInv(caps);
    RunInv(states, steps, i);
    var me := states[i].workers[w];
    assert WorkerInv(states[i], me);
    var answered := me.client.value;
    ArchivedPartIsKept(states[i], steps[i], w);
    StepKept(states[i], steps[i]);
    RunHeld(states, steps, i + 1, n, w, answered.sid, me.disk[answered.sid]);
    CaughtUpIsHeld(states[n], w, answered.sid, me.disk[answered.sid], answered.hist);
    RunHeld(states, steps, n, j, w, answered.sid, answered.hist);
    HeldLater(states[j], steps[j], w, answered.sid, answered.hist);
  }

  lemma HeldLater(s: State, a: Step, w: Wid, sid: Sid, h: Bytes)
    requires Held(s, w, sid, h) && Can(s, a) && Quiet(s, a, w)
    ensures w in s.workers && (s.workers[w].client.Some? ==> s.workers[w].client.value.sid == sid && h <= s.workers[w].client.value.hist)
    ensures Saves(s, a) ==> StoredUnder(Apply(s, a).sh, sid) && h <= Apply(s, a).sh.blob.value.data
  {
    assert WorkerInv(s, s.workers[w]);
    StepKeeps(s, a, w, sid, h);
  }

  /** A settled file has caught up at once. */
  lemma SettledIsCaughtUp(s: State, a: Step, w: Wid)
    requires Inv(s) && Can(s, a) && a.Act? && a.w == w && a.l.Archive?
    requires var me := s.workers[w]; me.client.Some? && me.phase.sid in me.disk && me.disk[me.phase.sid] == me.client.value.hist
    ensures CaughtUp(Apply(s, a), w, s.workers[w].client.value.hist)
  {
    assert WorkerInv(s, s.workers[w]);
  }

  lemma InitInv(caps: map<Wid, nat>)
    ensures Inv(Init(caps))
  {
  }
}
