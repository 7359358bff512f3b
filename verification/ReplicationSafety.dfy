/** No update is lost as long as no connect trusts a stray file (see `Trusts`). */
module ReplicationSafety {
  import opened Wrappers
  import opened Rows
  import opened Replication
  import opened ReplicationInvariant

  /** The worker's own file is there and lacks something of the transcript stored under its id. */
  predicate Stray(sh: Shared, w: Worker) {
    && w.sid.Some? && w.sid.value in w.disk
    && sh.blob.Some? && sh.blob.value.sid == w.sid.value
    && !(sh.blob.value.data <= w.disk[w.sid.value])
  }

  /** A connect that is about to resume the worker's own file, because `local_is_newer` says so, although
      the file is stray: the one step by which an update can be lost. */
  predicate TrustsStray(sh: Shared, w: Worker, l: Label) {
    && l.Begin? && w.phase.Looked? && SidOf(w.phase.row).Some?
    && LocalIsNewer(w, w.phase.row, SidOf(w.phase.row).value) && Stray(sh, w)
  }

  predicate Trusts(s: State, a: Step) {
    a.Act? && a.w in s.workers && TrustsStray(s.sh, s.workers[a.w], a.l)
  }

  predicate TrustsAs(s: State, a: Step, w: Wid) {
    Trusts(s, a) && a.w == w
  }

  /** A stray file that the session's bookkeeping will take for the newer copy at its next connect. A
      connect that is about to hydrate over that file is not armed yet. */
  predicate Armed(sh: Shared, w: Worker) {
    Stray(sh, w) && !w.archived && Current(sh, w) && !(w.phase.Loading? && w.phase.resume == w.sid.value)
  }

  /** Under one id the stored history only grows, and an id once replaced never comes back. */
  ghost predicate OnlyGrows(log: seq<Blob>) {
    forall i, j | 0 <= i < j < |log| && log[i].sid == log[j].sid ::
      log[i].data <= log[j].data && forall k | i < k < j :: log[k].sid == log[i].sid
  }

  /** If anything was ever stored under `sid`, it is what is stored now. */
  ghost predicate Last(s: State, sid: Sid) {
    sid in StoredIds(s.log) ==> StoredUnder(s.sh, sid)
  }

  /** The file `sid` on the worker's disk contains what is stored under `sid`. */
  ghost predicate Fits(s: State, w: Worker, sid: Sid) {
    Last(s, sid) && (StoredUnder(s.sh, sid) ==> sid in w.disk && s.sh.blob.value.data <= w.disk[sid])
  }

  ghost predicate WorkerLast(s: State, w: Worker) {
    w.client.Some? && Current(s.sh, w) ==> Last(s, w.client.value.sid)
  }

  ghost predicate WorkerSound(s: State, w: Worker) {
    && (w.client.Some? && Current(s.sh, w) ==> Fits(s, w, w.client.value.sid))
    && (w.phase.Opening? && w.phase.resume in w.disk ==> Fits(s, w, w.phase.resume))
  }

  ghost predicate StoreSound(s: State) {
    (SidOf(s.sh.row).Some? ==> Last(s, SidOf(s.sh.row).value)) && OnlyGrows(s.log)
  }

  /** The worker has a client, or is about to resume one. */
  predicate Holds(w: Worker) {
    w.client.Some? || w.phase.Opening?
  }

  /** How a worker that trusted its own file goes on: on that file, which no believed save has stored. */
  predicate OnOwnFile(w: Worker) {
    && !w.archived && w.sid.Some? && w.sid.value in w.disk && Holds(w)
    && (w.client.Some? ==> w.sid == Some(w.client.value.sid))
    && (w.phase.Opening? ==> w.sid == Some(w.phase.resume))
  }

  /** Sound, except that the clients of the workers `on` may run on stray files. */
  ghost predicate SoundBut(s: State, on: set<Wid>) {
    && Inv(s) && StoreSound(s)
    && (forall w <- s.workers :: WorkerLast(s, s.workers[w]))
    && (forall w <- s.workers :: if w in on then OnOwnFile(s.workers[w]) else WorkerSound(s, s.workers[w]))
  }

  ghost predicate Sound(s: State) {
    SoundBut(s, {})
  }

  /** Which workers are on a stray file after a step: one gets there by trusting it, and leaves when its
      client, or the resume it is about to try, is gone. */
  function OnStray(s: State, on: set<Wid>, a: Step, s': State): set<Wid> {
    set w <- s'.workers | (w in on || TrustsAs(s, a, w)) && Holds(s'.workers[w])
  }

  lemma InitSound(caps: map<Wid, nat>)
    ensures Sound(Init(caps))
  {
  }

  /** Appending to the log keeps `OnlyGrows` when the new entry extends the last one under the same
      id, or has an id never stored. */
  lemma LogGrows(log: seq<Blob>, b: Blob)
    requires OnlyGrows(log)
    requires b.sid in StoredIds(log) ==> |log| > 0 && log[|log| - 1].sid == b.sid && log[|log| - 1].data <= b.data
    ensures OnlyGrows(log + [b])
  {
    var all, n := log + [b], |log|;
    forall i, j | 0 <= i < j < |all| && all[i].sid == all[j].sid
      ensures all[i].data <= all[j].data && forall k | i < k < j :: all[k].sid == all[i].sid
    {
      if j == n {
        assert log[i] in log && log[i].sid in StoredIds(log);
        if i < n - 1 { assert log[i].data <= log[n - 1].data; }
      }
    }
  }

  /** What a save stores extends what was stored under that id, or opens an id never stored. */
  lemma SaveExtends(s: State, on: set<Wid>, a: Step)
    requires SoundBut(s, on) && Can(s, a) && Saves(s, a) && a.w !in on
    ensures var b := Apply(s, a).sh.blob.value;
      && (StoredUnder(s.sh, b.sid) ==> s.sh.blob.value.data <= b.data)
      && (!StoredUnder(s.sh, b.sid) ==> b.sid !in StoredIds(s.log))
  {
    assert WorkerInv(s, s.workers[a.w]) && WorkerSound(s, s.workers[a.w]);
  }

  lemma StoreSoundKept(s: State, on: set<Wid>, a: Step)
    requires SoundBut(s, on) && Can(s, a) && (Saves(s, a) ==> a.w !in on)
    ensures StoreSound(Apply(s, a))
  {
    if a.Act? { assert WorkerInv(s, s.workers[a.w]) && WorkerLast(s, s.workers[a.w]); }
    if Saves(s, a) {
      var b := Apply(s, a).sh.blob.value;
      SaveExtends(s, on, a);
      LogGrows(s.log, b);
      AppendIds(s.log, b);
    }
  }

  lemma SaveSparesBystander(s: State, a: Step, v: Wid)
    requires Inv(s) && Can(s, a) && v in s.workers && Saves(s, a) && a.w != v
    ensures WorkerSound(Apply(s, a), Apply(s, a).workers[v]) && WorkerLast(Apply(s, a), Apply(s, a).workers[v])
  {
    assert WorkerInv(s, s.workers[v]) && WorkerInv(s, s.workers[a.w]);
    assert s.workers[a.w].phase.Bumped? && s.workers[v].seen < TurnOf(s.sh.row);
  }

  /** Without a save the transcript stays, and the turn number never goes back. */
  lemma TurnsGoUp(s: State, a: Step)
    requires Can(s, a) && !Saves(s, a)
    ensures Apply(s, a).sh.blob == s.sh.blob && Apply(s, a).log == s.log && TurnOf(s.sh.row) <= TurnOf(Apply(s, a).sh.row)
  {
  }

  lemma BystanderSound(s: State, a: Step, v: Wid)
    requires Inv(s) && Can(s, a) && v in s.workers && (a.Act? ==> a.w != v) && WorkerLast(s, s.workers[v])
    ensures WorkerLast(Apply(s, a), Apply(s, a).workers[v])
    ensures WorkerSound(s, s.workers[v]) ==> WorkerSound(Apply(s, a), Apply(s, a).workers[v])
  {
    if Saves(s, a) {
      SaveSparesBystander(s, a, v);
    } else {
      TurnsGoUp(s, a);
      assert WorkerInv(s, s.workers[v]);
    }
  }

  lemma CommitSound(s: State, a: Step)
    requires Inv(s) && Can(s, a) && a.Act? && Commits(a.l) && WorkerLast(s, s.workers[a.w])
    ensures WorkerLast(Apply(s, a), Apply(s, a).workers[a.w])
    ensures WorkerSound(s, s.workers[a.w]) ==> WorkerSound(Apply(s, a), Apply(s, a).workers[a.w])
  {
    assert WorkerInv(s, s.workers[a.w]);
    if Saves(s, a) { AppendIds(s.log, Apply(s, a).sh.blob.value); }
  }

  lemma LocalLast(s: State, w: Worker, l: Label)
    requires WorkerInv(s, w) && WorkerLast(s, w) && StoreInv(s) && StoreSound(s)
    requires !Commits(l) && Enabled(Local(s.sh, w), l) && Minted(l) !! s.minted
    ensures WorkerLast(s.(minted := s.minted + Minted(l)), Next(Local(s.sh, w), l).w)
  {
  }

  /** The steps of `_connect`. */
  predicate Connects(l: Label) {
    l.Begin? || l.OpenNew? || l.Load? || l.LoadTorn? || l.Resume? || l.Refuse? || l.Fallback? || l.FallbackMute?
  }

  lemma ConnectSound(s: State, w: Worker, l: Label)
    requires WorkerInv(s, w) && WorkerSound(s, w) && StoreInv(s) && StoreSound(s) && Connects(l)
    requires Enabled(Local(s.sh, w), l) && Minted(l) !! s.minted && !TrustsStray(s.sh, w, l)
    ensures WorkerSound(s.(minted := s.minted + Minted(l)), Next(Local(s.sh, w), l).w)
  {
  }

  lemma LocalSound(s: State, w: Worker, l: Label)
    requires WorkerInv(s, w) && WorkerSound(s, w) && StoreInv(s) && StoreSound(s)
    requires !Commits(l) && Enabled(Local(s.sh, w), l) && Minted(l) !! s.minted && !TrustsStray(s.sh, w, l)
    ensures WorkerSound(s.(minted := s.minted + Minted(l)), Next(Local(s.sh, w), l).w)
  {
    if Connects(l) { ConnectSound(s, w, l); }
  }

  lemma OwnFileHere(v: Local, l: Label)
    requires PhaseInv(v.sh, v.w) && OnOwnFile(v.w) && Enabled(v, l) && !l.Archive? && Holds(Next(v, l).w)
    ensures OnOwnFile(Next(v, l).w)
  {
  }

  lemma OwnFileKept(s: State, a: Step)
    requires Inv(s) && Can(s, a) && a.Act? && OnOwnFile(s.workers[a.w]) && Holds(Apply(s, a).workers[a.w]) && !Saves(s, a)
    ensures OnOwnFile(Apply(s, a).workers[a.w])
  {
    assert WorkerInv(s, s.workers[a.w]);
    if !a.l.Archive? { OwnFileHere(Local(s.sh, s.workers[a.w]), a.l); }
  }

  lemma TrustedIsOwn(s: State, a: Step)
    requires Inv(s) && Can(s, a) && Trusts(s, a)
    ensures OnOwnFile(Apply(s, a).workers[a.w])
  {
  }

  /** A worker whose client is gone is sound again. */
  lemma LetGoIsSound(s: State, w: Worker)
    requires !Holds(w)
    ensures WorkerSound(s, w)
  {
  }

  lemma OwnLast(s: State, a: Step)
    requires Inv(s) && StoreSound(s) && Can(s, a) && a.Act? && WorkerLast(s, s.workers[a.w])
    ensures WorkerLast(Apply(s, a), Apply(s, a).workers[a.w])
  {
    assert WorkerInv(s, s.workers[a.w]);
    if Commits(a.l) { CommitSound(s, a); } else { LocalLast(s, s.workers[a.w], a.l); }
  }

  lemma OwnSound(s: State, a: Step)
    requires Inv(s) && StoreSound(s) && Can(s, a) && a.Act? && WorkerSound(s, s.workers[a.w]) && !Trusts(s, a)
    ensures WorkerSound(Apply(s, a), Apply(s, a).workers[a.w])
  {
    assert WorkerInv(s, s.workers[a.w]);
    if Commits(a.l) { CommitSound(s, a); } else { LocalSound(s, s.workers[a.w], a.l); }
  }

  lemma ActorKept(s: State, on: set<Wid>, a: Step)
    requires SoundBut(s, on) && Can(s, a) && a.Act? && (Saves(s, a) ==> a.w !in on)
    ensures var w' := Apply(s, a).workers[a.w]; if a.w in OnStray(s, on, a, Apply(s, a)) then OnOwnFile(w') else WorkerSound(Apply(s, a), w')
  {
    var w' := Apply(s, a).workers[a.w];
    if !Holds(w') { LetGoIsSound(Apply(s, a), w'); }
    else if Trusts(s, a) { TrustedIsOwn(s, a); }
    else if a.w in on { OwnFileKept(s, a); }
    else { OwnSound(s, a); }
  }

  /** As long as no client on a stray file saves, every step keeps everything else sound. */
  lemma StepSoundBut(s: State, on: set<Wid>, a: Step)
    requires SoundBut(s, on) && Can(s, a) && (Saves(s, a) ==> a.w !in on)
    ensures SoundBut(Apply(s, a), OnStray(s, on, a, Apply(s, a)))
  {
    StepKept(s, a);
    StoreSoundKept(s, on, a);
    forall v <- s.workers
      ensures WorkerLast(Apply(s, a), Apply(s, a).workers[v])
      ensures var v' := Apply(s, a).workers[v]; if v in OnStray(s, on, a, Apply(s, a)) then OnOwnFile(v') else WorkerSound(Apply(s, a), v')
    {
      if a.Act? && a.w == v {
        OwnLast(s, a);
        ActorKept(s, on, a);
      } else {
        assert WorkerLast(s, s.workers[v]);
        BystanderSound(s, a, v);
      }
    }
  }

  lemma TrustIsArmed(s: State, a: Step)
    requires Inv(s) && Can(s, a) && Trusts(s, a)
    ensures Armed(s.sh, s.workers[a.w]) && !WorkerSound(Apply(s, a), Apply(s, a).workers[a.w])
  {
    assert WorkerInv(s, s.workers[a.w]);
  }

  /** A step keeps the protocol sound if and only if it does not trust a stray file; and only an armed
      worker takes a step that does. */
  lemma SoundnessIsExact(s: State, a: Step)
    requires Sound(s) && Can(s, a)
    ensures Sound(Apply(s, a)) <==> !Trusts(s, a)
    ensures Trusts(s, a) ==> Armed(s.sh, s.workers[a.w])
  {
    StepSoundBut(s, {}, a);
    if Trusts(s, a) {
      TrustIsArmed(s, a);
    } else {
      assert OnStray(s, {}, a, Apply(s, a)) == {};
    }
  }

  // ---- over runs ----

  /** The workers whose client, or the resume they are about to try, came from a trusted stray file. */
  function StrayClients(states: seq<State>, steps: seq<Step>, i: nat): set<Wid>
    requires i < |states| == |steps| + 1
  {
    if i == 0 then {} else OnStray(states[i - 1], StrayClients(states, steps, i - 1), steps[i - 1], states[i])
  }

  /** Step `i` is a save by such a client. */
  predicate SavesStray(states: seq<State>, steps: seq<Step>, i: nat)
    requires Run(states, steps) && i < |steps|
  {
    Saves(states[i], steps[i]) && steps[i].w in StrayClients(states, steps, i)
  }

  lemma {:induction false} RunSoundBut(states: seq<State>, steps: seq<Step>, i: nat)
    requires Run(states, steps) && Sound(states[0]) && i < |states|
    requires forall k: nat | k < i :: !SavesStray(states, steps, k)
    ensures SoundBut(states[i], StrayClients(states, steps, i))
  {
    if i > 0 {
      RunSoundBut(states, steps, i - 1);
      assert !SavesStray(states, steps, i - 1);
      StepSoundBut(states[i - 1], StrayClients(states, steps, i - 1), steps[i - 1]);
    }
  }

  lemma {:induction false} RunSound(states: seq<State>, steps: seq<Step>, i: nat)
    requires Run(states, steps) && Sound(states[0]) && i < |states|
    requires forall k | 0 <= k < i :: !Trusts(states[k], steps[k])
    ensures Sound(states[i]) && StrayClients(states, steps, i) == {}
  {
    if i > 0 {
      RunSound(states, steps, i - 1);
      StepSoundBut(states[i - 1], {}, steps[i - 1]);
      assert OnStray(states[i - 1], {}, steps[i - 1], states[i]) == {};
    }
  }
}
