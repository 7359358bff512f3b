/** Every interleaving of calls, replies, timeouts, reader exits and restarts on one `McpClient`. */
module McpProtocol {
  import opened Wrappers
  import opened McpClients

  datatype Owner = Handshake | Attempt(call: CallId, n: nat)    // a call's first or second attempt

  datatype Stage = Writing | Waiting | Over(reply: Reply)

  datatype Request = Request(owner: Owner, stage: Stage)

  datatype CallState = Fresh | Trying(n: nat, id: nat) | Retrying | Ended(reply: Reply)

  /** A reply that reached a waiting request. */
  datatype Completion = Completion(id: nat, frame: Frame)

  /** `sent` and `completions` are history: the ids of the frames written, and the replies delivered. */
  datatype State = State(
    wire: Wire, requests: map<nat, Request>, calls: map<CallId, CallState>, sent: seq<nat>, completions: seq<Completion>)

  datatype Label =
    | Spawn                                            // `start`: a new process and its reader
    | Shake                                            // a handshake request registers
    | Call(call: CallId)
    | Try(call: CallId)                                // `_attempt` registers its request
    | RestartFailed(call: CallId, reply: Reply)        // `_restart` raised instead
    | Wrote(id: nat)
    | WriteFailed(id: nat, partly: bool, reply: Reply) // the pipe broke, or there is no process
    | Arrives(frame: Frame)
    | ReaderExits                                      // end of file, or cancelled by `close`
    | Resume(id: nat)                                  // the future is set: the request returns or raises
    | GiveUp(id: nat, written: bool)                   // timed out, in the write or in the wait
    | Settle(call: CallId)                             // `call` looks at how its attempt ended

  predicate InFlight(s: State, id: nat) {
    id in s.requests && !s.requests[id].stage.Over?
  }

  predicate Enabled(s: State, l: Label) {
    match l
    case Spawn => !s.wire.reading
    case Shake => true
    case Call(c) => c !in s.calls
    case Try(c) => c in s.calls && (s.calls[c].Fresh? || s.calls[c].Retrying?)
    case RestartFailed(c, r) => c in s.calls && (s.calls[c].Fresh? || s.calls[c].Retrying?) && !r.Answer? && !r.ToolError?
    case Wrote(id) => InFlight(s, id) && s.requests[id].stage == Writing
    case WriteFailed(id, _, r) => InFlight(s, id) && s.requests[id].stage == Writing && (r == Disconnected || r == Broken)
    case Arrives(_) => s.wire.reading
    case ReaderExits => s.wire.reading
    case Resume(id) => InFlight(s, id) && s.requests[id].stage == Waiting && id in s.wire.futures && s.wire.futures[id].Set?
    case GiveUp(id, _) => InFlight(s, id)
    case Settle(c) => c in s.calls && s.calls[c].Trying? && s.calls[c].id in s.requests && s.requests[s.calls[c].id].stage.Over?
  }

  function Registers(s: State, owner: Owner): State {
    var id := s.wire.nextId + 1;
    if s.wire.reading
    then s.(wire := Registered(s.wire), requests := s.requests[id := Request(owner, Writing)])
    else s.(wire := Forgotten(Registered(s.wire), id), requests := s.requests[id := Request(owner, Over(Disconnected))])
  }

  function Ends(s: State, id: nat, reply: Reply, written: bool): State
    requires id in s.requests
  {
    s.(wire := Forgotten(s.wire, id), requests := s.requests[id := s.requests[id].(stage := Over(reply))],
       sent := if written then s.sent + [id] else s.sent)
  }

  function Attempts(s: CallState): nat {
    if s.Retrying? then 2 else 1
  }

  function Step(s: State, l: Label): State
    requires Enabled(s, l)
  {
    match l
    case Spawn => s.(wire := s.wire.(reading := true))
    case Shake => Registers(s, Handshake)
    case Call(c) => s.(calls := s.calls[c := Fresh])
    case Try(c) =>
      var n := Attempts(s.calls[c]);
      Registers(s, Attempt(c, n)).(calls := s.calls[c := Trying(n, s.wire.nextId + 1)])
    case RestartFailed(c, r) =>
      s.(calls := s.calls[c := if s.calls[c].Fresh? && r == Disconnected then Retrying else Ended(r)])
    case Wrote(id) => s.(requests := s.requests[id := s.requests[id].(stage := Waiting)], sent := s.sent + [id])
    case WriteFailed(id, partly, r) => Ends(s, id, r, partly)
    case Arrives(f) =>
      if Kills(f) then s.(wire := ReaderGone(s.wire))
      else s.(wire := Dispatched(s.wire, f),
              completions := if Dispatched(s.wire, f).futures != s.wire.futures
                             then s.completions + [Completion(KeyOf(f.id).value, f)] else s.completions)
    case ReaderExits => s.(wire := ReaderGone(s.wire))
    case Resume(id) => Ends(s, id, s.wire.futures[id].reply, false)
    case GiveUp(id, written) => Ends(s, id, TimedOut, written && s.requests[id].stage == Writing)
    case Settle(c) =>
      var r := s.requests[s.calls[c].id].stage.reply;
      s.(calls := s.calls[c := if r == Disconnected && s.calls[c].n == 1 then Retrying else Ended(r)])
  }

  predicate Can(s: State, ls: seq<Label>)
    decreases |ls|
  {
    ls == [] || (Enabled(s, ls[0]) && Can(Step(s, ls[0]), ls[1..]))
  }

  function Run(s: State, ls: seq<Label>): State
    requires Can(s, ls)
    decreases |ls|
  {
    if ls == [] then s else Run(Step(s, ls[0]), ls[1..])
  }

  const START := State(Wire(0, {}, map[], false), map[], map[], [], [])

  // ---- the invariant ----

  predicate FromFrame(r: Reply) {
    r.Answer? || r.ToolError?
  }

  /** Some reply frame with this id said `r`. */
  ghost predicate Said(s: State, id: nat, r: Reply) {
    exists k :: SaidAt(s, k, id, r)
  }

  /** A result is an answer, and an error is an error. */
  predicate Says(b: Body, r: Reply) {
    if b.ResultBody? then r == Answer(b.text) else r == ToolError(b.text)
  }

  predicate SaidAt(s: State, k: int, id: nat, r: Reply) {
    0 <= k < |s.completions| && s.completions[k].id == id && s.completions[k].frame.Object?
    && Says(s.completions[k].frame.body, r)
  }

  /** Where a request stands with the client: registered exactly while it is in flight unanswered. */
  predicate Stands(s: State, id: nat)
    requires id in s.requests
  {
    var q := s.requests[id];
    && id <= s.wire.nextId && id in s.wire.futures
    && (id in s.wire.pending ==> !q.stage.Over? && s.wire.futures[id] == Open)
    && (!q.stage.Over? ==> s.wire.futures[id] != Dropped)
    && (!q.stage.Over? && s.wire.futures[id] == Open ==> id in s.wire.pending)
  }

  /** A reply a request got, or ended with, is one that came for it. */
  ghost predicate Truthful(s: State, id: nat)
    requires id in s.requests
  {
    && (id in s.wire.futures && s.wire.futures[id].Set? && FromFrame(s.wire.futures[id].reply) ==> Said(s, id, s.wire.futures[id].reply))
    && (s.requests[id].stage.Over? && FromFrame(s.requests[id].stage.reply) ==> Said(s, id, s.requests[id].stage.reply))
  }

  ghost predicate IdInv(s: State, id: nat)
    requires id in s.requests
  {
    Stands(s, id) && Truthful(s, id) && (s.requests[id].owner.Attempt? ==> OwnerInv(s, id))
  }

  predicate OwnerInv(s: State, id: nat)
    requires id in s.requests && s.requests[id].owner.Attempt?
  {
    var c, n := s.requests[id].owner.call, s.requests[id].owner.n;
    && c in s.calls && 1 <= n <= 2
    && match s.calls[c]
       case Fresh => false
       case Retrying => n == 1 && s.requests[id].stage == Over(Disconnected)
       case Trying(m, current) => n <= m && (n == m <==> id == current) && (n < m ==> s.requests[id].stage == Over(Disconnected))
       case Ended(_) => s.requests[id].stage.Over?
  }

  predicate CallInv(s: State, c: CallId)
    requires c in s.calls
  {
    && (s.calls[c].Trying? ==> s.calls[c].id in s.requests && s.requests[s.calls[c].id].owner == Attempt(c, s.calls[c].n))
    && (s.calls[c].Ended? && FromFrame(s.calls[c].reply) ==>
          exists id | id in s.requests :: Earned(s, c, id, s.calls[c].reply))
  }

  /** `id` was `c`'s, and ended with `r`. */
  predicate Earned(s: State, c: CallId, id: nat, r: Reply)
    requires id in s.requests
  {
    s.requests[id].owner.Attempt? && s.requests[id].owner.call == c && s.requests[id].stage == Over(r)
  }

  predicate SentInv(s: State) {
    && (forall i | 0 <= i < |s.sent| :: s.sent[i] in s.requests && s.requests[s.sent[i]].stage != Writing)
    && (forall i, j | 0 <= i < j < |s.sent| :: s.sent[i] != s.sent[j])
  }

  predicate CompletionInv(s: State) {
    && (forall k | 0 <= k < |s.completions| :: CompletedRightly(s, s.completions[k]))
    && (forall k, m | 0 <= k < m < |s.completions| :: s.completions[k].id != s.completions[m].id)
  }

  predicate CompletedRightly(s: State, c: Completion) {
    c.frame.Object? && KeyOf(c.frame.id) == Some(c.id) && c.id in s.wire.futures
    && s.wire.futures[c.id].Set? && Says(c.frame.body, s.wire.futures[c.id].reply)
  }

  predicate WireInv(s: State) {
    && s.wire.futures.Keys == s.requests.Keys && s.wire.pending <= s.requests.Keys
    && (!s.wire.reading ==> s.wire.pending == {})
  }

  predicate OneOwner(s: State) {
    forall a, b | a in s.requests && b in s.requests && s.requests[a].owner == s.requests[b].owner :: a == b || s.requests[a].owner.Handshake?
  }

  /** A second attempt is made only after a first that the server's death ended. */
  predicate RetryInv(s: State) {
    forall a, b | a in s.requests && b in s.requests && s.requests[a].owner.Attempt?
                  && s.requests[b].owner == Attempt(s.requests[a].owner.call, 2) && s.requests[a].owner.n == 1 ::
      s.requests[a].stage == Over(Disconnected)
  }

  ghost predicate Inv(s: State) {
    && WireInv(s) && SentInv(s) && CompletionInv(s) && OneOwner(s) && RetryInv(s)
    && (forall id | id in s.requests :: IdInv(s, id))
    && (forall c | c in s.calls :: CallInv(s, c))
  }

  lemma StepKeepsWire(s: State, l: Label)
    requires Inv(s) && Enabled(s, l)
    ensures WireInv(Step(s, l))
  {
    if l.Resume? || l.GiveUp? || l.WriteFailed? || l.Wrote? { assert IdInv(s, l.id); }
  }

  lemma NextIdIsNew(s: State)
    requires Inv(s)
    ensures s.wire.nextId + 1 !in s.requests
  {
    forall id | id in s.requests ensures id <= s.wire.nextId { assert IdInv(s, id); }
  }

  lemma StepKeepsSent(s: State, l: Label)
    requires Inv(s) && Enabled(s, l)
    ensures SentInv(Step(s, l))
  {
    if l.Shake? || l.Try? { NextIdIsNew(s); RegisterKeepsSent(s, l); } else { OtherKeepsSent(s, l); }
  }

  lemma RegisterKeepsSent(s: State, l: Label)
    requires SentInv(s) && Enabled(s, l) && (l.Shake? || l.Try?) && s.wire.nextId + 1 !in s.requests
    ensures SentInv(Step(s, l))
  {
  }

  lemma OtherKeepsSent(s: State, l: Label)
    requires SentInv(s) && Enabled(s, l) && !l.Shake? && !l.Try?
    ensures SentInv(Step(s, l))
  {
  }

  lemma ArrivalKeepsCompletions(s: State, l: Label)
    requires Inv(s) && Enabled(s, l) && l.Arrives?
    ensures CompletionInv(Step(s, l))
  {
    forall k | 0 <= k < |s.completions| ensures CompletedRightly(Step(s, l), s.completions[k]) {
      assert CompletedRightly(s, s.completions[k]);
    }
  }

  lemma StepKeepsCompletions(s: State, l: Label)
    requires Inv(s) && Enabled(s, l)
    ensures CompletionInv(Step(s, l))
  {
    if l.Arrives? {
      ArrivalKeepsCompletions(s, l);
    } else {
      NextIdIsNew(s);
      forall k | 0 <= k < |s.completions| ensures CompletedRightly(Step(s, l), s.completions[k]) {
        assert CompletedRightly(s, s.completions[k]);
      }
    }
  }

  /** What a step does to the requests it does not register: owners stay, and so does an end. */
  predicate Keeps(s: State, s': State) {
    forall id | id in s.requests :: id in s'.requests && s'.requests[id].owner == s.requests[id].owner
      && (s.requests[id].stage.Over? ==> s'.requests[id] == s.requests[id])
  }

  lemma StepKeepsRequests(s: State, l: Label)
    requires Inv(s) && Enabled(s, l)
    ensures Keeps(s, Step(s, l))
    ensures !l.Shake? && !l.Try? ==> Step(s, l).requests.Keys == s.requests.Keys
    ensures l.Shake? || l.Try? ==> Step(s, l).requests.Keys == s.requests.Keys + {s.wire.nextId + 1}
    ensures s.wire.nextId + 1 !in s.requests
  {
    NextIdIsNew(s);
    if l.Shake? || l.Try? { RegisterKeepsRequests(s, l); } else { OtherKeepsRequests(s, l); }
  }

  lemma OtherKeepsRequests(s: State, l: Label)
    requires Enabled(s, l) && !l.Shake? && !l.Try?
    ensures Keeps(s, Step(s, l)) && Step(s, l).requests.Keys == s.requests.Keys
  {
  }

  lemma RegisterKeepsRequests(s: State, l: Label)
    requires Enabled(s, l) && (l.Shake? || l.Try?) && s.wire.nextId + 1 !in s.requests
    ensures Keeps(s, Step(s, l)) && Step(s, l).requests.Keys == s.requests.Keys + {s.wire.nextId + 1}
  {
  }

  lemma SameOwners(s: State, s': State)
    requires OneOwner(s) && RetryInv(s) && Keeps(s, s') && s'.requests.Keys == s.requests.Keys
    ensures OneOwner(s') && RetryInv(s')
  {
  }

  lemma TryKeepsOwners(s: State, l: Label)
    requires Inv(s) && Enabled(s, l) && l.Try?
    ensures OneOwner(Step(s, l)) && RetryInv(Step(s, l))
  {
    StepKeepsRequests(s, l);
    forall id | id in s.requests && s.requests[id].owner.Attempt? && s.requests[id].owner.call == l.call
      ensures s.calls[l.call].Retrying? && s.requests[id].owner.n == 1 && s.requests[id].stage == Over(Disconnected)
    {
      assert IdInv(s, id);
    }
  }

  lemma ShakeKeepsOwners(s: State, l: Label)
    requires Inv(s) && Enabled(s, l) && l.Shake?
    ensures OneOwner(Step(s, l)) && RetryInv(Step(s, l))
  {
    StepKeepsRequests(s, l);
  }

  lemma StepKeepsOwners(s: State, l: Label)
    requires Inv(s) && Enabled(s, l)
    ensures OneOwner(Step(s, l)) && RetryInv(Step(s, l))
  {
    if l.Try? {
      TryKeepsOwners(s, l);
    } else if l.Shake? {
      ShakeKeepsOwners(s, l);
    } else {
      StepKeepsRequests(s, l);
      SameOwners(s, Step(s, l));
    }
  }

  lemma SaidStays(s: State, s': State, id: nat, r: Reply)
    requires s.completions <= s'.completions && Said(s, id, r)
    ensures Said(s', id, r)
  {
    var k :| SaidAt(s, k, id, r);
    assert SaidAt(s', k, id, r);
  }

  /** What arrives on the pipe, or its end. */
  lemma PipeKeepsStanding(s: State, l: Label, id: nat)
    requires Inv(s) && Enabled(s, l) && (l.Arrives? || l.ReaderExits?) && id in s.requests
    ensures Stands(Step(s, l), id)
  {
    assert IdInv(s, id);
  }

  lemma RegisterKeepsStanding(s: State, l: Label, id: nat)
    requires Inv(s) && Enabled(s, l) && (l.Shake? || l.Try?) && id in Step(s, l).requests
    ensures Stands(Step(s, l), id)
  {
    if id in s.requests { assert IdInv(s, id); }
  }

  lemma StepKeepsStanding(s: State, l: Label, id: nat)
    requires Inv(s) && Enabled(s, l) && id in Step(s, l).requests
    ensures Stands(Step(s, l), id)
  {
    if l.Arrives? || l.ReaderExits? {
      PipeKeepsStanding(s, l, id);
    } else if l.Shake? || l.Try? {
      RegisterKeepsStanding(s, l, id);
    } else {
      assert IdInv(s, id);
    }
  }

  lemma ArrivalKeepsTruth(s: State, l: Label, id: nat)
    requires Inv(s) && Enabled(s, l) && l.Arrives? && id in s.requests
    ensures Truthful(Step(s, l), id)
  {
    var s' := Step(s, l);
    assert IdInv(s, id);
    if s.wire.futures[id].Set? && FromFrame(s.wire.futures[id].reply) { SaidStays(s, s', id, s.wire.futures[id].reply); }
    if s.requests[id].stage.Over? && FromFrame(s.requests[id].stage.reply) { SaidStays(s, s', id, s.requests[id].stage.reply); }
    if |s'.completions| > |s.completions| && s'.completions[|s.completions|].id == id {
      assert SaidAt(s', |s.completions|, id, Delivered(l.frame.body));
    }
  }

  /** Without a new completion, every reply on record was on record before. */
  lemma NothingNewKeepsTruth(s: State, s': State, id: nat)
    requires id in s.requests && Truthful(s, id) && id in s'.requests && s'.completions == s.completions
    requires id in s.wire.futures && id in s'.wire.futures
    requires s'.wire.futures[id].Set? && FromFrame(s'.wire.futures[id].reply) ==> s'.wire.futures[id] == s.wire.futures[id]
    requires s'.requests[id].stage.Over? && FromFrame(s'.requests[id].stage.reply) ==>
      s'.requests[id].stage == s.requests[id].stage || s.wire.futures[id] == Set(s'.requests[id].stage.reply)
    ensures Truthful(s', id)
  {
    if s'.wire.futures[id].Set? && FromFrame(s'.wire.futures[id].reply) { SaidStays(s, s', id, s'.wire.futures[id].reply); }
    if s'.requests[id].stage.Over? && FromFrame(s'.requests[id].stage.reply) { SaidStays(s, s', id, s'.requests[id].stage.reply); }
  }

  lemma RegisterKeepsTruth(s: State, l: Label, id: nat)
    requires Inv(s) && Enabled(s, l) && (l.Shake? || l.Try?) && id in Step(s, l).requests
    ensures Truthful(Step(s, l), id)
  {
    NextIdIsNew(s);
    if id in s.requests {
      assert IdInv(s, id);
      NothingNewKeepsTruth(s, Step(s, l), id);
    }
  }

  lemma StepKeepsTruth(s: State, l: Label, id: nat)
    requires Inv(s) && Enabled(s, l) && id in Step(s, l).requests
    ensures Truthful(Step(s, l), id)
  {
    if l.Shake? || l.Try? {
      RegisterKeepsTruth(s, l, id);
    } else if l.Arrives? {
      ArrivalKeepsTruth(s, l, id);
    } else {
      assert IdInv(s, id);
      NothingNewKeepsTruth(s, Step(s, l), id);
    }
  }

  lemma StepKeepsOwner(s: State, l: Label, id: nat)
    requires Inv(s) && Enabled(s, l) && id in Step(s, l).requests && Step(s, l).requests[id].owner.Attempt?
    ensures OwnerInv(Step(s, l), id)
  {
    StepKeepsRequests(s, l);
    if id in s.requests { assert IdInv(s, id); }
    if l.Settle? || l.Try? { assert CallInv(s, l.call); }
  }

  lemma StepKeepsId(s: State, l: Label, id: nat)
    requires Inv(s) && Enabled(s, l) && id in Step(s, l).requests
    ensures IdInv(Step(s, l), id)
  {
    StepKeepsStanding(s, l, id);
    StepKeepsTruth(s, l, id);
    if Step(s, l).requests[id].owner.Attempt? { StepKeepsOwner(s, l, id); }
  }

  lemma EarnedStays(s: State, s': State, c: CallId)
    requires Keeps(s, s') && c in s.calls && c in s'.calls && s'.calls[c] == s.calls[c] && CallInv(s, c)
    ensures CallInv(s', c)
  {
    if s.calls[c].Ended? && FromFrame(s.calls[c].reply) {
      var id :| id in s.requests && Earned(s, c, id, s.calls[c].reply);
      assert Earned(s', c, id, s.calls[c].reply);
    }
  }

  lemma StepKeepsCall(s: State, l: Label, c: CallId)
    requires Inv(s) && Enabled(s, l) && c in Step(s, l).calls
    ensures CallInv(Step(s, l), c)
  {
    var s' := Step(s, l);
    StepKeepsRequests(s, l);
    if c in s.calls {
      assert CallInv(s, c);
      if s'.calls[c] == s.calls[c] {
        EarnedStays(s, s', c);
      } else if l.Settle? {
        assert Earned(s', c, s.calls[c].id, s.requests[s.calls[c].id].stage.reply);
      }
    }
  }

  lemma StepKeeps(s: State, l: Label)
    requires Inv(s) && Enabled(s, l)
    ensures Inv(Step(s, l))
  {
    var s' := Step(s, l);
    StepKeepsWire(s, l);
    StepKeepsSent(s, l);
    StepKeepsCompletions(s, l);
    StepKeepsOwners(s, l);
    forall id | id in s'.requests ensures IdInv(s', id) { StepKeepsId(s, l, id); }
    forall c | c in s'.calls ensures CallInv(s', c) { StepKeepsCall(s, l, c); }
  }

  lemma {:induction false} RunKeeps(s: State, ls: seq<Label>)
    requires Inv(s) && Can(s, ls)
    ensures Inv(Run(s, ls))
    decreases |ls|
  {
    if ls != [] {
      StepKeeps(s, ls[0]);
      RunKeeps(Step(s, ls[0]), ls[1..]);
    }
  }

  // ---- what it means ----

  lemma Reached(ls: seq<Label>)
    requires Can(START, ls)
    ensures Inv(Run(START, ls))
  {
    RunKeeps(START, ls);
  }

  /** A frame the reader gets through touches one request at most: the one in flight, unanswered, whose id
      the frame carries; that one gets the frame's result as its answer, or the frame's error as its error.
      Replies to calls that gave up, and notifications, change nothing. */
  lemma RepliesGoHome(ls: seq<Label>, f: Frame, id: nat)
    requires Can(START, ls) && Run(START, ls).wire.reading && !Kills(f) && id in Run(START, ls).requests
    ensures var s := Run(START, ls); var s' := Step(s, Arrives(f)); var hit := f.Object? && KeyOf(f.id) == Some(id);
      && id in s.wire.futures && id in s'.wire.futures
      && (if hit && InFlight(s, id) && s.wire.futures[id] == Open
          then s'.wire.futures[id] == Set(match f.body case ResultBody(t) => Answer(t) case ErrorBody(t) => ToolError(t))
          else s'.wire.futures[id] == s.wire.futures[id])
      && (s'.completions != s.completions <==> exists other :: Concerns(s.wire, f, other))
  {
    Reached(ls);
    var s := Run(START, ls);
    assert IdInv(s, id);
    if f.Object? && KeyOf(f.id).Some? && KeyOf(f.id).value >= 0 && KeyOf(f.id).value in s.wire.pending {
      var n: nat := KeyOf(f.id).value;
      assert Concerns(s.wire, f, n) && IdInv(s, n);
      assert Dispatched(s.wire, f).futures[n] != s.wire.futures[n];
    }
  }

  /** A frame that is no JSON object, or whose id is a list or an object, ends the reader, and whoever is in flight
      unanswered is told that the server is gone; any other frame leaves it reading. */
  lemma FatalFrames(ls: seq<Label>, f: Frame, id: nat)
    requires Can(START, ls) && Run(START, ls).wire.reading && id in Run(START, ls).requests
    ensures var s := Run(START, ls); var s' := Step(s, Arrives(f)); var fatal := f.NotAnObject? || (f.Object? && f.id.CompoundId?);
      && (s'.wire.reading <==> !fatal)
      && id in s.wire.futures && id in s'.wire.futures
      && (fatal ==>
            && s'.wire.pending == {} && s'.completions == s.completions
            && s'.wire.futures[id] == if InFlight(s, id) && s.wire.futures[id] == Open then Set(Disconnected) else s.wire.futures[id])
  {
    Reached(ls);
    assert IdInv(Run(START, ls), id);
  }

  /** The JSON ids a dictionary lookup takes for request `id`. */
  predicate Spells(j: JsonId, id: nat) {
    j == IntId(id) || j == FloatId(id as real) || (id <= 1 && j == BoolId(id == 1))
  }

  /** A frame answers a request in flight if and only if its id is the request's number, with or without
      `.0`, or `true` and the request is number 1: not only the id that was sent. */
  lemma LooseIdsAnswer(ls: seq<Label>, f: Frame, id: nat)
    requires Can(START, ls) && Run(START, ls).wire.reading && !Kills(f) && InFlight(Run(START, ls), id)
    requires var s := Run(START, ls); id in s.wire.futures && s.wire.futures[id] == Open
    ensures var t := Step(Run(START, ls), Arrives(f)).wire;
      id in t.futures && (t.futures[id] != Open <==> f.Object? && Spells(f.id, id))
  {
    RepliesGoHome(ls, f, id);
    if f.Object? { assert KeyOf(f.id) == Some(id) <==> Spells(f.id, id); }
  }

  /** Over the client's whole life, restarts and all, an id is answered at most once, by a frame that
      carries it. */
  lemma AnsweredAtMostOnce(ls: seq<Label>, i: nat, j: nat)
    requires Can(START, ls) && i < j < |Run(START, ls).completions|
    ensures var cs := Run(START, ls).completions; cs[i].id != cs[j].id && cs[i].frame.Object? && KeyOf(cs[i].frame.id) == Some(cs[i].id)
  {
    Reached(ls);
    assert CompletedRightly(Run(START, ls), Run(START, ls).completions[i]);
  }

  /** Every reply on record came up the pipe. */
  lemma {:induction false} CompletionsArrived(s: State, ls: seq<Label>, k: nat)
    requires Can(s, ls) && k < |Run(s, ls).completions|
    ensures (k < |s.completions| && Run(s, ls).completions[k] == s.completions[k]) || Arrived(ls, Run(s, ls).completions[k].frame)
    decreases |ls|
  {
    if ls != [] {
      var s' := Step(s, ls[0]);
      CompletionsArrived(s', ls[1..], k);
      if Arrived(ls[1..], Run(s, ls).completions[k].frame) { assert Arrived(ls, Run(s, ls).completions[k].frame); }
      else { StepCompletes(s, ls[0], k); }
    }
  }

  predicate Arrived(ls: seq<Label>, f: Frame) {
    Arrives(f) in ls
  }

  lemma StepCompletes(s: State, l: Label, k: nat)
    requires Enabled(s, l) && k < |Step(s, l).completions|
    ensures (k < |s.completions| && Step(s, l).completions[k] == s.completions[k]) || l == Arrives(Step(s, l).completions[k].frame)
  {
  }

  /** The frame says `r`: its result is the answer, its error the error. */
  predicate FrameSays(f: Frame, r: Reply) {
    f.Object? && ((r.Answer? && f.body == ResultBody(r.text)) || (r.ToolError? && f.body == ErrorBody(r.text)))
  }

  /** What a call returns as the server's answer was the result, and what it returns as the server's error the
      error, in a frame that came with the id of one of its own requests. */
  lemma AnswersAreOnesOwn(ls: seq<Label>, c: CallId)
    requires Can(START, ls) && c in Run(START, ls).calls
    requires Run(START, ls).calls[c].Ended? && FromFrame(Run(START, ls).calls[c].reply)
    ensures var s := Run(START, ls); var r := s.calls[c].reply;
      exists id, k :: id in s.requests && Earned(s, c, id, r) && SaidAt(s, k, id, r)
        && FrameSays(s.completions[k].frame, r) && KeyOf(s.completions[k].frame.id) == Some(id) && Arrived(ls, s.completions[k].frame)
  {
    Reached(ls);
    var s := Run(START, ls);
    assert CallInv(s, c);
    var id :| id in s.requests && Earned(s, c, id, s.calls[c].reply);
    assert IdInv(s, id);
    var k :| SaidAt(s, k, id, s.calls[c].reply);
    CompletionsArrived(START, ls, k);
    assert CompletedRightly(s, s.completions[k]);
  }

  /** Once the reader has exited nothing is registered, and whoever is still in flight has been told: no
      request waits for a reply that cannot come. */
  lemma NobodyIsLeftWaiting(ls: seq<Label>, id: nat)
    requires Can(START, ls) && !Run(START, ls).wire.reading && InFlight(Run(START, ls), id)
    ensures var w := Run(START, ls).wire; w.pending == {} && id in w.futures && w.futures[id].Set?
  {
    Reached(ls);
    assert IdInv(Run(START, ls), id);
  }

  /** Ids are never reused: whatever happened before, the next request's id is new. */
  lemma IdsAreNew(ls: seq<Label>, l: Label)
    requires Can(START, ls) && Enabled(Run(START, ls), l)
    ensures var s := Run(START, ls); var s' := Step(s, l);
      && s.requests.Keys <= s'.requests.Keys
      && forall id | id in s'.requests && id !in s.requests :: id == s'.wire.nextId > s.wire.nextId && forall old_ <- s.requests :: old_ < id
  {
    Reached(ls);
    var s := Run(START, ls);
    StepKeepsRequests(s, l);
    forall id | id in s.requests ensures id <= s.wire.nextId { assert IdInv(s, id); }
  }

  /** The step writes the frame of request `id`, or some of it. */
  predicate WritesFrame(l: Label, id: nat) {
    l == Wrote(id) || (l.WriteFailed? && l.id == id && l.partly) || l == GiveUp(id, true)
  }

  predicate WaitsForWhatItSent(s: State) {
    forall id | id in s.requests && s.requests[id].stage == Waiting :: id in s.sent
  }

  lemma StepSends(s: State, l: Label, id: nat)
    requires Enabled(s, l) && WaitsForWhatItSent(s)
    ensures WaitsForWhatItSent(Step(s, l)) && (id in Step(s, l).sent <==> id in s.sent || WritesFrame(l, id))
  {
  }

  lemma {:induction false} RunSends(s: State, ls: seq<Label>, id: nat)
    requires Can(s, ls) && WaitsForWhatItSent(s)
    ensures id in Run(s, ls).sent <==> id in s.sent || exists l <- ls :: WritesFrame(l, id)
    decreases |ls|
  {
    if ls != [] {
      StepSends(s, ls[0], id);
      RunSends(Step(s, ls[0]), ls[1..], id);
      assert ls == [ls[0]] + ls[1..];
    }
  }

  /** The frames counted as written are those some step of the run wrote, wholly or in part. */
  lemma FramesAreCounted(ls: seq<Label>, id: nat)
    requires Can(START, ls)
    ensures id in Run(START, ls).sent <==> exists l <- ls :: WritesFrame(l, id)
  {
    RunSends(START, ls, id);
  }

  /** One `call` writes at most two frames; a second one is its second attempt's, and only after the first
      attempt ended because the server was gone. So a call that got an answer never asks again. */
  lemma TwoFramesAtMost(ls: seq<Label>, c: CallId, i: nat, j: nat)
    requires Can(START, ls) && i < j < |Run(START, ls).sent|
    requires var s := Run(START, ls);
      s.sent[i] in s.requests && s.sent[j] in s.requests
      && s.requests[s.sent[i]].owner.Attempt? && s.requests[s.sent[i]].owner.call == c
      && s.requests[s.sent[j]].owner.Attempt? && s.requests[s.sent[j]].owner.call == c
    ensures var s := Run(START, ls); var a := s.requests[s.sent[i]]; var b := s.requests[s.sent[j]];
      && {a.owner.n, b.owner.n} == {1, 2}
      && (if a.owner.n == 1 then a else b).stage == Over(Disconnected)
    ensures var s := Run(START, ls);
      forall k | 0 <= k < |s.sent| && k != i && k != j && s.sent[k] in s.requests && s.requests[s.sent[k]].owner.Attempt? ::
        s.requests[s.sent[k]].owner.call != c
  {
    Reached(ls);
    var s := Run(START, ls);
    assert IdInv(s, s.sent[i]) && IdInv(s, s.sent[j]);
    forall k | 0 <= k < |s.sent| && k != i && k != j && s.sent[k] in s.requests && s.requests[s.sent[k]].owner.Attempt?
      ensures s.requests[s.sent[k]].owner.call != c
    {
      assert IdInv(s, s.sent[k]);
    }
  }

  // ---- that it goes through ----

  /** Some steps lead from `s` to `t`. */
  ghost predicate Reaches(s: State, t: State) {
    exists ls :: Can(s, ls) && Run(s, ls) == t
  }

  lemma {:induction false} RunMore(s: State, ls: seq<Label>, l: Label)
    requires Can(s, ls) && Enabled(Run(s, ls), l)
    ensures Can(s, ls + [l]) && Run(s, ls + [l]) == Step(Run(s, ls), l)
    decreases |ls|
  {
    if ls == [] {
      assert [l][1..] == [];
    } else {
      RunMore(Step(s, ls[0]), ls[1..], l);
      assert (ls + [l])[1..] == ls[1..] + [l];
    }
  }

  lemma Goes(z: State, s: State, l: Label) returns (t: State)
    requires Reaches(z, s) && Enabled(s, l)
    ensures Reaches(z, t) && t == Step(s, l)
  {
    var ls :| Can(z, ls) && Run(z, ls) == s;
    RunMore(z, ls, l);
    t := Step(s, l);
  }

  /** The call's `n`-th attempt has written its frame and waits. */
  predicate Asked(s: State, c: CallId, n: nat, id: nat) {
    && s.wire.reading && c in s.calls && s.calls[c] == Trying(n, id)
    && id in s.requests && s.requests[id] == Request(Attempt(c, n), Waiting)
    && id in s.wire.pending && id in s.wire.futures && s.wire.futures[id] == Open
  }

  lemma Asks(z: State, s: State, c: CallId) returns (t: State)
    requires Reaches(z, s) && s.wire.reading && c in s.calls && (s.calls[c].Fresh? || s.calls[c].Retrying?)
    ensures Reaches(z, t) && Asked(t, c, if s.calls[c].Fresh? then 1 else 2, s.wire.nextId + 1)
  {
    t := Goes(z, s, Try(c));
    t := Goes(z, t, Wrote(s.wire.nextId + 1));
  }

  /** The server's reply to a call that waits is what the call returns. */
  lemma ReplyIsReturned(z: State, s: State, c: CallId, n: nat, id: nat, body: Body) returns (t: State)
    requires Reaches(z, s) && Asked(s, c, n, id)
    ensures Reaches(z, t) && c in t.calls
    ensures t.calls[c] == Ended(match body case ResultBody(x) => Answer(x) case ErrorBody(x) => ToolError(x))
  {
    t := Goes(z, s, Arrives(Object(IntId(id), body)));
    assert t.wire.futures[id].Set? && t.requests == s.requests && t.calls == s.calls;
    t := Goes(z, t, Resume(id));
    assert t.calls == s.calls;
    t := Goes(z, t, Settle(c));
  }

  /** A call that times out says so, and is not tried again. */
  lemma TimeoutIsReturned(z: State, s: State, c: CallId, n: nat, id: nat) returns (t: State)
    requires Reaches(z, s) && Asked(s, c, n, id)
    ensures Reaches(z, t) && c in t.calls && t.calls[c] == Ended(TimedOut) && id !in t.wire.pending
  {
    t := Goes(z, s, GiveUp(id, true));
    t := Goes(z, t, Settle(c));
  }

  /** After any run, a new call to a server that is up and answers returns that answer, or that error. */
  lemma CallGoesThrough(ls: seq<Label>, c: CallId, body: Body) returns (t: State)
    requires Can(START, ls) && Run(START, ls).wire.reading && c !in Run(START, ls).calls
    ensures Reaches(START, t) && c in t.calls
    ensures t.calls[c] == Ended(match body case ResultBody(x) => Answer(x) case ErrorBody(x) => ToolError(x))
  {
    var s := Run(START, ls);
    assert Reaches(START, s);
    t := Goes(START, s, Call(c));
    t := Asks(START, t, c);
    t := ReplyIsReturned(START, t, c, 1, s.wire.nextId + 1, body);
  }

  /** A server that dies under a waiting call is asked once more, and what it says then is what the call
      returns. */
  lemma DeadServerIsAskedAgain(ls: seq<Label>, c: CallId, id: nat, body: Body) returns (t: State)
    requires Can(START, ls) && Asked(Run(START, ls), c, 1, id)
    ensures Reaches(START, t) && c in t.calls
    ensures t.calls[c] == Ended(match body case ResultBody(x) => Answer(x) case ErrorBody(x) => ToolError(x))
  {
    var s := Run(START, ls);
    assert Reaches(START, s);
    t := Goes(START, s, ReaderExits);
    assert t.wire.futures[id] == Set(Disconnected) && t.requests == s.requests && t.calls == s.calls;
    t := Goes(START, t, Resume(id));
    assert t.calls == s.calls && t.requests[id].stage == Over(Disconnected);
    t := Goes(START, t, Settle(c));
    t := Goes(START, t, Spawn);
    var next := t.wire.nextId + 1;
    t := Asks(START, t, c);
    t := ReplyIsReturned(START, t, c, 2, next, body);
  }

  /** So is one that could not be started for the first attempt; one that cannot be started for the second either
      ends the call with that failure. */
  lemma FailedRestartIsTriedAgain(ls: seq<Label>, c: CallId, body: Body, r: Reply) returns (t: State, u: State)
    requires Can(START, ls) && !Run(START, ls).wire.reading && c in Run(START, ls).calls && Run(START, ls).calls[c].Fresh?
    requires !FromFrame(r)
    ensures Reaches(START, t) && c in t.calls
    ensures t.calls[c] == Ended(match body case ResultBody(x) => Answer(x) case ErrorBody(x) => ToolError(x))
    ensures Reaches(START, u) && c in u.calls && u.calls[c] == Ended(r)
  {
    var s := Run(START, ls);
    assert Reaches(START, s);
    s := Goes(START, s, RestartFailed(c, Disconnected));
    assert s.calls[c] == Retrying && !s.wire.reading;
    u := Goes(START, s, RestartFailed(c, r));
    t := Goes(START, s, Spawn);
    var next := t.wire.nextId + 1;
    t := Asks(START, t, c);
    t := ReplyIsReturned(START, t, c, 2, next, body);
  }
}
