/** Where the protocol can lose an update after all: exactly which steps arm a worker, and how every lost
    update comes about. */
module ReplicationHazards {
  import opened Wrappers
  import opened Rows
  import opened Replication
  import opened ReplicationInvariant
  import opened ReplicationSafety
  import opened ReplicationTheorems

  // ---- which steps arm a worker ----

  /** The steps that leave a stray file trusted: a hydration that raises (or writes half a file)
      after `_connect` has already moved `_seen_seq` to the row's turn; a connect under another id
      that moves `_seen_seq` past the turn the file was right for; and a query on another id that
      clears the `_archived` flag of a file that an abandoned hydration left behind. */
  predicate Arms(sh: Shared, w: Worker, l: Label) {
    match l
    case Fail => w.phase.Loading? && w.sid == Some(w.phase.resume) && !w.archived && Stray(sh, w)
    case LoadTorn(n) =>
      && w.phase.Loading? && w.sid == Some(w.phase.resume) && !w.archived
      && sh.blob.Some? && n < |sh.blob.value.data|
    case Begin =>
      && w.phase.Looked? && !w.archived && Stray(sh, w)
      && TurnOf(w.phase.row) != w.seen && SidOf(w.phase.row) != w.sid
    case Query => w.archived && Stray(sh, w) && w.client.Some? && Some(w.client.value.sid) != w.sid
    case _ => false
  }

  lemma BystanderNotArmed(s: State, a: Step, w: Wid)
    requires Inv(s) && Can(s, a) && w in s.workers && !Armed(s.sh, s.workers[w]) && (a.Act? ==> a.w != w)
    ensures !Armed(Apply(s, a).sh, Apply(s, a).workers[w])
  {
    assert WorkerInv(s, s.workers[w]);
    if a.Act? { assert WorkerInv(s, s.workers[a.w]); }
  }

  lemma CommitNotArmed(s: State, a: Step)
    requires Inv(s) && Can(s, a) && a.Act? && Commits(a.l) && !Armed(s.sh, s.workers[a.w])
    requires WorkerSound(s, s.workers[a.w]) || OnOwnFile(s.workers[a.w])
    ensures !Armed(Apply(s, a).sh, Apply(s, a).workers[a.w])
  {
    assert WorkerInv(s, s.workers[a.w]);
  }

  lemma LocalArming(s: State, w: Worker, l: Label)
    requires WorkerInv(s, w) && !Armed(s.sh, w) && Enabled(Local(s.sh, w), l) && !Commits(l)
    requires WorkerSound(s, w) || OnOwnFile(w)
    requires Minted(l) !! s.minted
    ensures Armed(s.sh, Next(Local(s.sh, w), l).w) <==> Arms(s.sh, w, l)
  {
  }

  /** A step arms a worker that is not armed if and only if it is one of the steps of `Arms`, taken by that
      worker; even if workers `on` have clients on stray files. */
  lemma ArmingIsExact(s: State, on: set<Wid>, a: Step, w: Wid)
    requires SoundBut(s, on) && Can(s, a) && w in s.workers && !Armed(s.sh, s.workers[w])
    ensures Armed(Apply(s, a).sh, Apply(s, a).workers[w]) <==> a.Act? && a.w == w && Arms(s.sh, s.workers[w], a.l)
  {
    assert WorkerInv(s, s.workers[w]);
    if !a.Act? || a.w != w { BystanderNotArmed(s, a, w); }
    else if Commits(a.l) { CommitNotArmed(s, a); }
    else { LocalArming(s, s.workers[w], a.l); }
  }

  /** A step of a worker that `Arms` describes. */
  predicate ArmingStep(s: State, a: Step) {
    a.Act? && a.w in s.workers && Arms(s.sh, s.workers[a.w], a.l)
  }

  // ---- how every lost update comes about ----

  /** Worker `w` was armed by its own step `k`, and is armed ever since up to state `j`. */
  ghost predicate ArmedFrom(states: seq<State>, steps: seq<Step>, k: nat, j: nat, w: Wid)
    requires Run(states, steps) && k < j < |states|
  {
    && steps[k].Act? && steps[k].w == w && ArmingStep(states[k], steps[k])
    && forall i | k < i <= j :: w in states[i].workers && Armed(states[i].sh, states[i].workers[w])
  }

  lemma {:induction false} ArmedSince(caps: map<Wid, nat>, states: seq<State>, steps: seq<Step>, j: nat, w: Wid) returns (k: nat)
    requires Run(states, steps) && states[0] == Init(caps) && j < |states|
    requires forall i: nat | i < j :: !SavesStray(states, steps, i)
    requires w in states[j].workers && Armed(states[j].sh, states[j].workers[w])
    ensures k < j && ArmedFrom(states, steps, k, j, w)
  {
    assert j > 0;
    var s, a := states[j - 1], steps[j - 1];
    if Armed(s.sh, s.workers[w]) {
      k := ArmedSince(caps, states, steps, j - 1, w);
    } else {
      InitSound(caps);
      RunSoundBut(states, steps, j - 1);
      ArmingIsExact(s, StrayClients(states, steps, j - 1), a, w);
      k := j - 1;
    }
  }

  /** Worker `w` trusted its stray file at step `j`, and what it opened then is still there in state `n`. */
  ghost predicate StrayFrom(states: seq<State>, steps: seq<Step>, j: nat, n: nat, w: Wid)
    requires j < n < |states| == |steps| + 1
  {
    TrustsAs(states[j], steps[j], w) && forall m: nat | j < m <= n :: w in StrayClients(states, steps, m)
  }

  lemma {:induction false} StraySince(states: seq<State>, steps: seq<Step>, n: nat, w: Wid) returns (j: nat)
    requires n < |states| == |steps| + 1 && w in StrayClients(states, steps, n)
    ensures j < n && StrayFrom(states, steps, j, n, w)
  {
    if w in StrayClients(states, steps, n - 1) {
      j := StraySince(states, steps, n - 1, w);
    } else {
      j := n - 1;
    }
  }

  lemma {:induction false} FirstStraySave(states: seq<State>, steps: seq<Step>, i: nat) returns (n: nat)
    requires Run(states, steps) && i < |steps| && SavesStray(states, steps, i)
    ensures n <= i && SavesStray(states, steps, n) && forall m: nat | m < n :: !SavesStray(states, steps, m)
  {
    if m: nat :| m < i && SavesStray(states, steps, m) {
      n := FirstStraySave(states, steps, m);
    } else {
      n := i;
    }
  }

  /** A save from a client on a stray file has this history: at step `n`, that one or one before it, a worker
      saves from a client on a stray file; the same worker trusted that file when it connected (step `j`),
      and had left it trusted by one of the steps of `Arms` (step `k`). */
  ghost predicate Traced(states: seq<State>, steps: seq<Step>, k: nat, j: nat, n: nat)
    requires Run(states, steps) && k < j < n < |steps|
  {
    SavesStray(states, steps, n) && StrayFrom(states, steps, j, n, steps[n].w) && ArmedFrom(states, steps, k, j, steps[n].w)
  }

  lemma StraySaveIsTraced(caps: map<Wid, nat>, states: seq<State>, steps: seq<Step>, i: nat) returns (n: nat, j: nat, k: nat)
    requires Run(states, steps) && states[0] == Init(caps) && i < |steps| && SavesStray(states, steps, i)
    ensures k < j < n <= i && Traced(states, steps, k, j, n)
  {
    n := FirstStraySave(states, steps, i);
    j := StraySince(states, steps, n, steps[n].w);
    InitSound(caps);
    RunInv(states, steps, j);
    TrustIsArmed(states[j], steps[j]);
    k := ArmedSince(caps, states, steps, j, steps[n].w);
  }

  /** Every lost update of every run, whatever fails in it, comes about like this. */
  lemma LossIsTraced(caps: map<Wid, nat>, states: seq<State>, steps: seq<Step>, i: nat) returns (n: nat, j: nat, k: nat)
    requires Run(states, steps) && states[0] == Init(caps) && i < |steps|
    requires Saves(states[i], steps[i]) && !ExtendsOrOpens(states, steps, i)
    ensures k < j < n <= i && Traced(states, steps, k, j, n)
  {
    if forall m: nat | m <= i :: !SavesStray(states, steps, m) { SaveIsGood(caps, states, steps, i); }
    var m: nat :| m <= i && SavesStray(states, steps, m);
    n, j, k := StraySaveIsTraced(caps, states, steps, m);
  }

  ghost predicate Unarmed(s: State) {
    forall w <- s.workers :: !Armed(s.sh, s.workers[w])
  }

  lemma UnarmedStep(s: State, a: Step)
    requires Sound(s) && Unarmed(s) && Can(s, a)
    ensures Sound(Apply(s, a)) && (Unarmed(Apply(s, a)) <==> !ArmingStep(s, a))
  {
    if Trusts(s, a) { TrustIsArmed(s, a); }
    SoundnessIsExact(s, a);
    forall w <- s.workers
      ensures Armed(Apply(s, a).sh, Apply(s, a).workers[w]) <==> a.Act? && a.w == w && Arms(s.sh, s.workers[w], a.l)
    {
      ArmingIsExact(s, {}, a, w);
    }
  }

  ghost predicate AllUnarmed(states: seq<State>, n: nat)
    requires n <= |states|
  {
    forall k | 0 <= k < n :: Unarmed(states[k])
  }

  predicate NothingArms(states: seq<State>, steps: seq<Step>, n: nat)
    requires n <= |steps| < |states|
  {
    forall k | 0 <= k < n :: !ArmingStep(states[k], steps[k])
  }

  lemma {:induction false} UnarmedUpTo(caps: map<Wid, nat>, states: seq<State>, steps: seq<Step>, i: nat)
    requires Run(states, steps) && states[0] == Init(caps) && i < |states|
    ensures AllUnarmed(states, i + 1) <==> NothingArms(states, steps, i)
    ensures AllUnarmed(states, i + 1) ==> Sound(states[i])
  {
    InitSound(caps);
    if i > 0 {
      UnarmedUpTo(caps, states, steps, i - 1);
      assert AllUnarmed(states, i + 1) <==> AllUnarmed(states, i) && Unarmed(states[i]);
      assert NothingArms(states, steps, i) <==> NothingArms(states, steps, i - 1) && !ArmingStep(states[i - 1], steps[i - 1]);
      if AllUnarmed(states, i) { UnarmedStep(states[i - 1], steps[i - 1]); }
    }
  }

  /** No worker is armed anywhere in a run if and only if none of its steps is an arming step; and
      then, whatever else fails, no update is lost. */
  lemma NothingIsLostWithoutArming(caps: map<Wid, nat>, states: seq<State>, steps: seq<Step>)
    requires Run(states, steps) && states[0] == Init(caps)
    ensures AllUnarmed(states, |states|) <==> NothingArms(states, steps, |steps|)
    ensures NothingArms(states, steps, |steps|) ==>
      OnlyGrows(states[|steps|].log)
      && forall i: nat | i < |steps| && Saves(states[i], steps[i]) :: ExtendsOrOpens(states, steps, i)
  {
    UnarmedUpTo(caps, states, steps, |steps|);
    if NothingArms(states, steps, |steps|) {
      forall m: nat | m < |steps| ensures !SavesStray(states, steps, m) {
        if SavesStray(states, steps, m) { var n, j, k := StraySaveIsTraced(caps, states, steps, m); }
      }
      NoLostUpdate(caps, states, steps);
    }
  }
}
