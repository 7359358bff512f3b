/** What holds in every reachable state of the replication protocol, whatever fails. */
module ReplicationInvariant {
  import opened Wrappers
  import opened Rows
  import opened Replication

  ghost predicate StoredUnder(sh: Shared, sid: Sid) {
    sh.blob.Some? && sh.blob.value.sid == sid
  }

  ghost function StoredIds(log: seq<Blob>): set<Sid> {
    set b <- log :: b.sid
  }

  /** The worker has seen every committed turn of the thread. */
  predicate Current(sh: Shared, w: Worker) {
    w.seen == TurnOf(sh.row)
  }

  /** The row a turn read still names the thread's session id and turn. */
  predicate SameKey(row: Option<Row>, now: Option<Row>) {
    SidOf(row) == SidOf(now) && TurnOf(row) == TurnOf(now)
  }

  /** A worker about to connect: no client, and it counts itself current with the row it read. */
  predicate Connecting(sh: Shared, w: Worker, row: Option<Row>, resume: Option<Sid>) {
    SameKey(row, sh.row) && w.client.None? && Current(sh, w) && SidOf(row) == resume
  }

  ghost predicate PhaseInv(sh: Shared, w: Worker) {
    match w.phase
    case Idle => true
    case Looked(row) =>
      SameKey(row, sh.row) && (w.client.Some? ==> Current(sh, w) && w.mode == ModeOf(row))
    case Fresh(row) => Connecting(sh, w, row, None)
    case Loading(row, resume) => Connecting(sh, w, row, Some(resume))
    case Opening(row, resume, own) =>
      && Connecting(sh, w, row, Some(resume))
      && (!own && StoredUnder(sh, resume) ==> resume in w.disk && w.disk[resume] == sh.blob.value.data)
    case Refused(row, resume) => Connecting(sh, w, row, Some(resume))
    case Ready(row) =>
      Current(sh, w) && w.client.Some? && w.client.value.mode == ModeOf(row)
    case Streaming(row, named) =>
      && Current(sh, w) && w.client.Some? && w.client.value.mode == ModeOf(row) && !w.archived
      && (named.Some? ==> named.value == w.client.value.sid && SidOf(sh.row) == named)
    case Bumped(sid) =>
      && Current(sh, w) && w.client.Some? && w.client.value.sid == sid && !w.archived
      && SidOf(sh.row) == Some(sid)
    case Done => w.client.Some?
  }

  ghost predicate WorkerInv(s: State, w: Worker) {
    && w.seen <= TurnOf(s.sh.row)
    && w.disk.Keys <= s.minted
    && (w.sid.Some? ==> w.sid.value in s.minted)
    && (w.client.Some? ==>
          var c := w.client.value;
          && c.sid in s.minted && c.mode == w.mode
          && (c.sid in w.disk ==> w.disk[c.sid] <= c.hist))
    && PhaseInv(s.sh, w)
  }

  ghost predicate StoreInv(s: State) {
    && (SidOf(s.sh.row).Some? ==> SidOf(s.sh.row).value in s.minted)
    && (s.sh.blob.Some? ==> SidOf(s.sh.row).Some?)
    && s.sh.blob == (if s.log == [] then None else Some(s.log[|s.log| - 1]))
    && StoredIds(s.log) <= s.minted
  }

  /** One turn at a time, and after its bump every other worker is behind. */
  ghost predicate LockInv(s: State) {
    && (forall v, w | v in s.workers && w in s.workers && v != w ::
          s.workers[v].phase.Idle? || s.workers[w].phase.Idle?)
    && (forall v, w | v in s.workers && w in s.workers && v != w ::
          s.workers[w].phase.Bumped? ==> s.workers[v].seen < TurnOf(s.sh.row))
  }

  ghost predicate Inv(s: State) {
    StoreInv(s) && LockInv(s) && forall w <- s.workers :: WorkerInv(s, s.workers[w])
  }

  // ---- it is kept by every step ----

  lemma AppendIds(log: seq<Blob>, b: Blob)
    ensures StoredIds(log + [b]) == StoredIds(log) + {b.sid}
  {
    var all := log + [b];
    forall x | x in StoredIds(all) ensures x in StoredIds(log) + {b.sid} {
      var c :| c in all && c.sid == x;
      assert c in log || c == b;
    }
    forall x | x in StoredIds(log) + {b.sid} ensures x in StoredIds(all) {
      if x == b.sid { assert all[|log|] == b; }
      else { var c :| c in log && c.sid == x; assert c in all; }
    }
  }

  lemma StoreKept(s: State, a: Step)
    requires Inv(s) && Can(s, a)
    ensures StoreInv(Apply(s, a))
  {
    if a.Act? { assert WorkerInv(s, s.workers[a.w]); }
    if Saves(s, a) { AppendIds(s.log, Apply(s, a).sh.blob.value); }
  }

  /** What a step does to a worker's phase and to the thread's turn counter. */
  lemma PhaseMoves(v: Local, l: Label)
    requires Enabled(v, l)
    ensures var v' := Next(v, l);
      && (v.w.phase.Idle? && !l.Look? ==> v'.w.phase.Idle?)
      && TurnOf(v.sh.row) <= TurnOf(v'.sh.row)
      && (v'.w.phase.Bumped? ==>
            if l.Bump? then TurnOf(v.sh.row) < TurnOf(v'.sh.row)
            else v.w.phase.Bumped? && v'.sh == v.sh)
      && (v'.w.seen > v.w.seen ==> !v.w.phase.Idle?)
  {
  }

  lemma LockKept(s: State, a: Step)
    requires Inv(s) && Can(s, a)
    ensures LockInv(Apply(s, a))
  {
    var s' := Apply(s, a);
    if a.Act? { PhaseMoves(Local(s.sh, s.workers[a.w]), a.l); }
    forall v, w | v in s.workers && w in s.workers && v != w
      ensures s'.workers[v].phase.Idle? || s'.workers[w].phase.Idle?
      ensures s'.workers[w].phase.Bumped? ==> s'.workers[v].seen < TurnOf(s'.sh.row)
    {
      assert WorkerInv(s, s.workers[v]) && WorkerInv(s, s.workers[w]);
    }
  }

  /** A worker that does not move stays well. */
  lemma BystanderKept(s: State, a: Step, v: Wid)
    requires Inv(s) && Can(s, a) && v in s.workers && (a.Act? ==> a.w != v)
    ensures WorkerInv(Apply(s, a), Apply(s, a).workers[v])
  {
    assert WorkerInv(s, s.workers[v]);
    if a.Act? { assert WorkerInv(s, s.workers[a.w]); }
  }

  /** The steps that write the shared row or transcript. */
  predicate Commits(l: Label) {
    l.Name? || l.Bump? || l.BumpLost? || l.Archive?
  }

  lemma CommitKept(s: State, a: Step)
    requires Inv(s) && Can(s, a) && a.Act? && Commits(a.l)
    ensures WorkerInv(Apply(s, a), Apply(s, a).workers[a.w])
  {
    assert WorkerInv(s, s.workers[a.w]);
  }

  lemma LocalKept(s: State, w: Worker, l: Label)
    requires WorkerInv(s, w) && !Commits(l) && Enabled(Local(s.sh, w), l)
    requires Minted(l) !! s.minted && (l.Crash? ==> l.disk.Keys <= w.disk.Keys)
    requires SidOf(s.sh.row).Some? ==> SidOf(s.sh.row).value in s.minted
    ensures WorkerInv(s.(minted := s.minted + Minted(l)), Next(Local(s.sh, w), l).w)
  {
    if l.Look? { LookKept(s, w); }
  }

  lemma LookKept(s: State, w: Worker)
    requires WorkerInv(s, w) && w.phase.Idle?
    ensures WorkerInv(s, Next(Local(s.sh, w), Look).w)
  {
  }

  /** Whatever step is taken and whatever fails, the invariant is kept. */
  lemma StepKept(s: State, a: Step)
    requires Inv(s) && Can(s, a)
    ensures Inv(Apply(s, a))
  {
    StoreKept(s, a);
    LockKept(s, a);
    forall v <- s.workers ensures WorkerInv(Apply(s, a), Apply(s, a).workers[v]) {
      if !a.Act? || a.w != v { BystanderKept(s, a, v); }
      else if Commits(a.l) { CommitKept(s, a); }
      else {
        assert WorkerInv(s, s.workers[v]);
        LocalKept(s, s.workers[v], a.l);
      }
    }
  }

  lemma {:induction false} RunInv(states: seq<State>, steps: seq<Step>, i: nat)
    requires Run(states, steps) && Inv(states[0]) && i < |states|
    ensures Inv(states[i])
  {
    if i > 0 {
      RunInv(states, steps, i - 1);
      StepKept(states[i - 1], steps[i - 1]);
    }
  }
}
