/** The main results about runs of the replication protocol. */
module ReplicationTheorems {
  import opened Wrappers
  import opened Rows
  import opened Replication
  import opened ReplicationInvariant
  import opened ReplicationSafety

  // ---- no lost update ----

  /** The step opened a client without resuming, and the CLI minted `x` for it. */
  predicate Mints(a: Step, x: Sid) {
    a.Act? && (a.l.OpenNew? || a.l.Fallback?) && a.l.m == x
  }

  /** Every known id was minted by a client opened without resuming. */
  lemma {:induction false} MintedByFreshOpen(caps: map<Wid, nat>, states: seq<State>, steps: seq<Step>, i: nat, x: Sid)
    requires Run(states, steps) && states[0] == Init(caps) && i < |states| && x in states[i].minted
    ensures exists j | 0 <= j < i :: Mints(steps[j], x)
  {
    assert i > 0;
    var a := steps[i - 1];
    if x in states[i - 1].minted {
      MintedByFreshOpen(caps, states, steps, i - 1, x);
    } else {
      assert Mints(a, x);
    }
  }

  /** Step `i` stored a transcript that extends the stored one under its id, or is the first under
      an id that a client opened without resume minted earlier in the run. */
  ghost predicate ExtendsOrOpens(states: seq<State>, steps: seq<Step>, i: nat)
    requires i < |steps| < |states|
  {
    && states[i + 1].sh.blob.Some?
    && var b := states[i + 1].sh.blob.value;
       if StoredUnder(states[i].sh, b.sid) then states[i].sh.blob.value.data <= b.data
       else b.sid !in StoredIds(states[i].log) && exists j | 0 <= j < i :: Mints(steps[j], b.sid)
  }

  /** Over every run of any number of workers, whatever fails, in which no client opened on a trusted
      stray file gets to save: the log of stored transcripts only grows under each id, and every save
      extends or opens. */
  lemma NoLostUpdate(caps: map<Wid, nat>, states: seq<State>, steps: seq<Step>)
    requires Run(states, steps) && states[0] == Init(caps)
    requires forall k: nat | k < |steps| :: !SavesStray(states, steps, k)
    ensures OnlyGrows(states[|steps|].log)
    ensures forall i: nat | i < |steps| && Saves(states[i], steps[i]) :: ExtendsOrOpens(states, steps, i)
  {
    InitSound(caps);
    RunSoundBut(states, steps, |steps|);
    forall i: nat | i < |steps| && Saves(states[i], steps[i]) ensures ExtendsOrOpens(states, steps, i) {
      SaveIsGood(caps, states, steps, i);
    }
  }

  /** The same of one save, for what was done before it. */
  lemma SaveIsGood(caps: map<Wid, nat>, states: seq<State>, steps: seq<Step>, i: nat)
    requires Run(states, steps) && states[0] == Init(caps) && i < |steps| && Saves(states[i], steps[i])
    requires forall k: nat | k <= i :: !SavesStray(states, steps, k)
    ensures ExtendsOrOpens(states, steps, i)
  {
    InitSound(caps);
    RunSoundBut(states, steps, i);
    assert !SavesStray(states, steps, i);
    SaveExtends(states[i], StrayClients(states, steps, i), steps[i]);
    var w := states[i].workers[steps[i].w];
    assert WorkerInv(states[i], w);
    MintedByFreshOpen(caps, states, steps, i, w.phase.sid);
  }

  // ---- staleness ----

  /** In every reachable state a worker has seen no turn that was not committed, and is behind
      whenever another worker is between its bump and its save; and while no client on a trusted stray
      file has saved, an open client that has seen them all and is not itself such a client continues the
      stored transcript, or is on an id that was never stored. */
  lemma Staleness(caps: map<Wid, nat>, states: seq<State>, steps: seq<Step>, i: nat, w: Wid)
    requires Run(states, steps) && states[0] == Init(caps) && i < |states| && w in states[i].workers
    ensures var s := states[i]; var me := s.workers[w];
      && me.seen <= TurnOf(s.sh.row)
      && (forall v | v in s.workers && v != w && s.workers[v].phase.Bumped? :: me.seen < TurnOf(s.sh.row))
    ensures (forall k: nat | k < i :: !SavesStray(states, steps, k)) && w !in StrayClients(states, steps, i) ==>
      ContinuesStore(states[i], states[i].workers[w])
  {
    InitSound(caps);
    RunInv(states, steps, i);
    var s := states[i];
    assert WorkerInv(s, s.workers[w]);
    if (forall k: nat | k < i :: !SavesStray(states, steps, k)) && w !in StrayClients(states, steps, i) {
      RunSoundBut(states, steps, i);
      assert WorkerSound(s, s.workers[w]);
    }
  }

  /** A client that has seen every turn continues the stored transcript, or is on an id never stored. */
  ghost predicate ContinuesStore(s: State, me: Worker) {
    me.client.Some? && Current(s.sh, me) ==>
      if StoredUnder(s.sh, me.client.value.sid) then s.sh.blob.value.data <= me.client.value.hist
      else me.client.value.sid !in StoredIds(s.log)
  }

  // ---- the permission mode of a turn ----

  predicate CarriesRow(p: Phase) {
    p.Looked? || p.Fresh? || p.Loading? || p.Opening? || p.Refused? || p.Ready? || p.Streaming?
  }

  lemma RowIsKept(v: Local, l: Label)
    requires Enabled(v, l) && !l.Look? && CarriesRow(Next(v, l).w.phase)
    ensures CarriesRow(v.w.phase) && Next(v, l).w.phase.row == v.w.phase.row
  {
  }

  lemma CarriedOn(s: State, a: Step, w: Wid)
    requires Can(s, a) && w in Apply(s, a).workers && CarriesRow(Apply(s, a).workers[w].phase)
    ensures w in s.workers && var row := Apply(s, a).workers[w].phase.row;
      if a == Act(w, Look) then row == s.sh.row else CarriesRow(s.workers[w].phase) && row == s.workers[w].phase.row
  {
    if a.Act? && a.w == w && !a.l.Look? { RowIsKept(Local(s.sh, s.workers[w]), a.l); }
  }

  /** The row a worker carries through its turn is the one it read when the turn began. */
  lemma {:induction false} RowWasRead(caps: map<Wid, nat>, states: seq<State>, steps: seq<Step>, i: nat, w: Wid) returns (j: nat)
    requires Run(states, steps) && states[0] == Init(caps) && i < |states|
    requires w in states[i].workers && CarriesRow(states[i].workers[w].phase)
    ensures j < i && steps[j] == Act(w, Look) && states[i].workers[w].phase.row == states[j].sh.row
    ensures forall k | j < k < i :: steps[k] != Act(w, Look)
  {
    assert i > 0;
    CarriedOn(states[i - 1], steps[i - 1], w);
    if steps[i - 1] == Act(w, Look) {
      j := i - 1;
    } else {
      j := RowWasRead(caps, states, steps, i - 1, w);
    }
  }

  /** Every query is answered in the permission mode of the row read when its turn began, even if
      `/mode` ran on any worker since the client was opened or since the turn began. */
  lemma TurnRunsInRowMode(caps: map<Wid, nat>, states: seq<State>, steps: seq<Step>, i: nat, w: Wid)
    requires Run(states, steps) && states[0] == Init(caps) && i < |steps| && steps[i] == Act(w, Query)
    ensures exists j | 0 <= j < i ::
      && steps[j] == Act(w, Look) && (forall k | j < k < i :: steps[k] != Act(w, Look))
      && states[i].workers[w].client.value.mode == ModeOf(states[j].sh.row)
  {
    InitSound(caps);
    RunInv(states, steps, i);
    assert WorkerInv(states[i], states[i].workers[w]);
    var j := RowWasRead(caps, states, steps, i, w);
  }

  // ---- convergence ----

  lemma {:induction false} NotItsOwnFile(states: seq<State>, steps: seq<Step>, i: nat, j: nat, w: Wid)
    requires Run(states, steps) && i < j < |states| && steps[i] == Act(w, Begin)
    requires w in states[i].workers && states[i].workers[w].seen != TurnOf(states[i].workers[w].phase.row)
    requires forall k | i < k < j :: steps[k] != Act(w, Begin)
    ensures w in states[j].workers && (states[j].workers[w].phase.Opening? ==> !states[j].workers[w].phase.own)
  {
    if j > i + 1 {
      NotItsOwnFile(states, steps, i, j - 1, w);
    }
  }

  /** If the row a worker connects from has moved past the turn the worker committed, the client it
      resumes runs on exactly the stored transcript, whatever file the worker held. */
  lemma Converges(caps: map<Wid, nat>, states: seq<State>, steps: seq<Step>, i: nat, j: nat, w: Wid)
    requires Run(states, steps) && states[0] == Init(caps) && i < j < |steps|
    requires steps[i] == Act(w, Begin) && steps[j] == Act(w, Resume)
    requires w in states[i].workers && states[i].workers[w].seen != TurnOf(states[i].workers[w].phase.row)
    requires forall k | i < k < j :: steps[k] != Act(w, Begin)
    ensures w in states[j].workers && states[j].workers[w].phase.Opening?
    ensures var c := states[j + 1].workers[w].client.value;
      && SidOf(states[j].sh.row) == Some(c.sid)
      && (StoredUnder(states[j].sh, c.sid) ==> c.hist == states[j].sh.blob.value.data)
  {
    InitSound(caps);
    RunInv(states, steps, j);
    assert Can(states[j], steps[j]);
    assert WorkerInv(states[j], states[j].workers[w]);
    NotItsOwnFile(states, steps, i, j, w);
  }
}
