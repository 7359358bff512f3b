/** What holds of approvals after any run: any workers, any interleaving, any failure. */
module ApprovalTheorems {
  import opened Wrappers
  import opened Rows
  import opened Stores
  import opened Approvals
  import opened ApprovalInvariant

  lemma Reached(ls: seq<Label>)
    requires Can(START, ls)
    ensures Inv(Run(START, ls))
  {
    RunKeeps(START, ls);
  }

  // ---- whose click it was ----

  predicate Pressed(ls: seq<Label>, c: ClickId, verb: Verb, id: string, user: User) {
    Press(c, verb, id, user) in ls
  }

  /** Such a click was there at the start, or was pressed in the run. */
  predicate FromPress(s: State, ls: seq<Label>, c: ClickId, verb: Verb, id: string, user: User) {
    || Pressed(ls, c, verb, id, user)
    || (c in s.clicks && s.clicks[c].verb == verb && s.clicks[c].id == id && s.clicks[c].user == user)
  }

  lemma StepClicks(s: State, l: Label, c: ClickId)
    requires Enabled(s, l) && c in Step(s, l).clicks
    ensures var k := Step(s, l).clicks[c]; FromPress(s, [l], c, k.verb, k.id, k.user)
  {
  }

  lemma PressedBefore(s: State, ls: seq<Label>, c: ClickId, verb: Verb, id: string, user: User)
    requires ls != [] && Enabled(s, ls[0]) && FromPress(Step(s, ls[0]), ls[1..], c, verb, id, user)
    ensures FromPress(s, ls, c, verb, id, user)
  {
    if Pressed(ls[1..], c, verb, id, user) {
      assert Press(c, verb, id, user) in ls;
    } else {
      StepClicks(s, ls[0], c);
    }
  }

  /** Every click there is was pressed like that in the run. */
  lemma {:induction false} ClicksWerePressed(s: State, ls: seq<Label>, c: ClickId)
    requires Can(s, ls) && c in Run(s, ls).clicks
    ensures var k := Run(s, ls).clicks[c]; FromPress(s, ls, c, k.verb, k.id, k.user)
    decreases |ls|
  {
    if ls != [] {
      ClicksWerePressed(Step(s, ls[0]), ls[1..], c);
      var k := Run(s, ls).clicks[c];
      PressedBefore(s, ls, c, k.verb, k.id, k.user);
    }
  }

  predicate WonByClick(s: State, ls: seq<Label>, w: Win) {
    w.winner.Clicker? ==> FromPress(s, ls, w.winner.click, w.winner.verb, w.id, w.winner.user)
  }

  /** A step wins at most once, by the click it resolves. */
  lemma StepWins(s: State, l: Label, n: nat)
    requires Enabled(s, l) && n < |Step(s, l).wins|
    ensures (n < |s.wins| && Step(s, l).wins[n] == s.wins[n]) || WonByClick(s, [l], Step(s, l).wins[n])
  {
  }

  /** Every win by a click was pressed like that in the run. */
  lemma {:induction false} WinsWerePressed(s: State, ls: seq<Label>, n: nat)
    requires Can(s, ls) && n < |Run(s, ls).wins|
    ensures (n < |s.wins| && Run(s, ls).wins[n] == s.wins[n]) || WonByClick(s, ls, Run(s, ls).wins[n])
    decreases |ls|
  {
    if ls != [] {
      var s', w := Step(s, ls[0]), Run(s, ls).wins[n];
      WinsWerePressed(s', ls[1..], n);
      if n < |s'.wins| && s'.wins[n] == w {
        StepWins(s, ls[0], n);
      } else if w.winner.Clicker? {
        PressedBefore(s, ls, w.winner.click, w.winner.verb, w.id, w.winner.user);
      }
    }
  }

  /** Every approval decided by a click was decided as the button says that was pressed, in the name of the
      person who pressed it; and whatever was not decided by a click was denied by a timeout. */
  lemma WinsAreAsPressed(ls: seq<Label>, n: nat)
    requires Can(START, ls) && n < |Run(START, ls).wins|
    ensures var w := Run(START, ls).wins[n];
      if w.winner.Timeout? then w.decision == Decision(false, "system", "once")
      else
        && Pressed(ls, w.winner.click, w.winner.verb, w.id, w.winner.user)
        && (w.decision.approved <==> w.winner.verb == Approve || w.winner.verb == Always)
        && (w.decision.scope == "always" <==> w.winner.verb == Always)
        && w.decision.who == w.winner.user
  {
    Reached(ls);
    assert WinInv(Run(START, ls), n);
    if Run(START, ls).wins[n].winner.Clicker? { WinsWerePressed(START, ls, n); }
  }

  /** One of `approvers` pressed Approve or Always on `id`, and `d` reports that: the person, unless their id is
      empty, and whether it is for good. */
  predicate ApprovingClick(ls: seq<Label>, w: Win, approvers: set<User>, d: Decision) {
    && w.winner.Clicker? && w.decision.approved
    && w.winner.user in approvers && (w.winner.user != "" ==> d.who == w.winner.user)
    && (w.winner.verb == Approve || w.winner.verb == Always) && Pressed(ls, w.winner.click, w.winner.verb, w.id, w.winner.user)
    && d.scope == if w.winner.verb == Always then "always" else "once"
  }

  /** A request that returns approved had approvers chosen when it was made, and one of them pressed Approve or
      Always, in the one `resolve` call that took its row out of pending; it reports that person. A request
      nobody may approve is denied at once. */
  lemma AuthorizedEndToEnd(ls: seq<Label>, r: Req)
    requires Can(START, ls) && r in Run(START, ls).requests && Run(START, ls).requests[r].phase.Returned?
    ensures var s := Run(START, ls); var q := s.requests[r]; var d := q.phase.decision;
      && (q.approvers == {} ==> d == SYSTEM_DENY)
      && (d.approved ==> exists n: nat :: WonAt(s, n, q.id) && ApprovingClick(ls, s.wins[n], q.approvers, d))
  {
    Reached(ls);
    var s := Run(START, ls);
    var q := s.requests[r];
    assert RequestInv(s, r);
    if q.phase.decision.approved {
      var n: nat :| ApprovedBy(s, n, q.id, q.phase.decision);
      WinsAreAsPressed(ls, n);
      assert WonAt(s, n, q.id) && WinInv(s, n);
    }
  }

  /** Whatever interleaving of listening, reading, clicks, notifications late or lost, and timeouts: if the
      row is still there when a waiter has its answer, or any time later, the row is decided and the
      answer is its decision. */
  lemma WaitAnswersTheRow(ls: seq<Label>, r: Req)
    requires Can(START, ls) && r in Run(START, ls).requests && Run(START, ls).requests[r].approvers != {}
    requires var p := Run(START, ls).requests[r].phase; p.Decided? || p.Returned?
    requires Run(START, ls).requests[r].id in Run(START, ls).rows
    ensures var s := Run(START, ls); var d := s.requests[r].phase.decision; var row := s.rows[s.requests[r].id];
      && row.decision.Some? && d.approved == row.decision.value.approved
      && (row.decision.value.who != "" ==> d.who == row.decision.value.who)
      && (row.decision.value.scope != "" ==> d.scope == row.decision.value.scope)
  {
    Reached(ls);
    assert RequestInv(Run(START, ls), r);
  }

  /** When a waiter reads for the last time its row is not pending: a timeout never answers for a row
      that someone can still approve. */
  lemma LastReadIsFinal(ls: seq<Label>, r: Req)
    requires Can(START, ls) && Enabled(Run(START, ls), Reread(r))
    ensures !Undecided(Run(START, ls).rows, Run(START, ls).requests[r].id)
  {
    Reached(ls);
    assert RequestInv(Run(START, ls), r);
  }

  /** Of all `resolve` calls on an id, clicks and timeouts on any workers, at most one is told it resolved
      it. */
  lemma AtMostOneWin(ls: seq<Label>, id: string, n: nat, m: nat)
    requires Can(START, ls) && WonAt(Run(START, ls), n, id) && WonAt(Run(START, ls), m, id)
    ensures n == m
  {
    Reached(ls);
    assert WinInv(Run(START, ls), n) && WinInv(Run(START, ls), m);
  }

  /** A clicker who is told that their click decided an approval is told the truth: it was decided as the
      button says that they pressed, and no other clicker of it is told so. Who is told "approved" pressed
      Approve or Always and the row, while it is there, is approved; who is told "denied" pressed Deny, and it is
      denied. */
  lemma OneResolver(ls: seq<Label>, c: ClickId)
    requires Can(START, ls) && c in Run(START, ls).clicks
    requires var t := Run(START, ls).clicks[c].stage; t == Told(SaidApproved) || t == Told(SaidDenied)
    ensures var s := Run(START, ls); var k := s.clicks[c]; var yes := k.stage == Told(SaidApproved);
      && Pressed(ls, c, k.verb, k.id, k.user) && (if yes then k.verb == Approve || k.verb == Always else k.verb == Deny)
      && (exists n: nat :: WonAt(s, n, k.id) && s.wins[n] == Win(k.id, Clicker(c, k.verb, k.user),
            Decision(yes, k.user, if k.verb == Always then "always" else "once")))
      && (k.id in s.rows ==> s.rows[k.id].decision.Some? && s.rows[k.id].decision.value.approved == yes)
      && forall o | o in s.clicks && o != c && s.clicks[o].id == k.id ::
           s.clicks[o].stage != Told(SaidApproved) && s.clicks[o].stage != Told(SaidDenied)
  {
    Reached(ls);
    var s := Run(START, ls);
    var k := s.clicks[c];
    assert ClickInv(s, c);
    ClicksWerePressed(START, ls, c);
    var n: nat :| WonAt(s, n, k.id) && s.wins[n].winner == Clicker(c, k.verb, k.user);
    assert WinInv(s, n);
    if k.id in s.rows { assert RowInv(s, k.id); }
    forall o | o in s.clicks && o != c && s.clicks[o].id == k.id
      ensures s.clicks[o].stage != Told(SaidApproved) && s.clicks[o].stage != Told(SaidDenied)
    {
      assert ClickInv(s, o);
      if s.clicks[o].stage == Told(SaidApproved) || s.clicks[o].stage == Told(SaidDenied) {
        var m: nat :| WonAt(s, m, k.id) && s.wins[m].winner == Clicker(o, s.clicks[o].verb, s.clicks[o].user);
        AtMostOneWin(ls, k.id, n, m);
      }
    }
  }

  /** A row that has left pending never changes its decision, and once pruned never comes back. */
  lemma {:induction false} DecisionIsFinal(s: State, ls: seq<Label>, id: string)
    requires Inv(s) && Can(s, ls) && id in s.rows && s.rows[id].decision.Some?
    ensures var e := Run(s, ls);
      !Undecided(e.rows, id) && (id in e.rows ==> e.rows[id].decision == s.rows[id].decision)
  {
    assert RowInv(s, id);
    WonIsFinal(s, ls, id);
  }

  lemma {:induction false} WonIsFinal(s: State, ls: seq<Label>, id: string)
    requires Inv(s) && Can(s, ls) && Won(s, id)
    ensures !Undecided(Run(s, ls).rows, id)
    ensures var e := Run(s, ls);
      id in e.rows ==> id in s.rows && e.rows[id].decision == s.rows[id].decision
    decreases |ls|
  {
    if ls == [] {
      var n: nat :| WonAt(s, n, id);
      if id in s.rows { assert RowInv(s, id); }
    } else {
      var s' := Step(s, ls[0]);
      StepEffect(s, ls[0]);
      StepKeeps(s, ls[0]);
      WonStays(s, s', id);
      WonRowStays(s, s', id);
      WonIsFinal(s', ls[1..], id);
    }
  }

  // ---- retention ----

  /** A decision has the time it was recorded at. */
  predicate Dated(s: State) {
    forall id | id in s.rows :: s.rows[id].decision.Some? <==> s.rows[id].resolvedAt.Some?
  }

  lemma StepDated(s: State, l: Label)
    requires Enabled(s, l) && Dated(s)
    ensures Dated(Step(s, l))
  {
  }

  lemma {:induction false} RunDated(s: State, ls: seq<Label>)
    requires Can(s, ls) && Dated(s)
    ensures Dated(Run(s, ls))
    decreases |ls|
  {
    if ls != [] {
      StepDated(s, ls[0]);
      RunDated(Step(s, ls[0]), ls[1..]);
    }
  }

  /** After any run, retention deletes exactly the approvals decided before the cutoff, so none that is still
      pending, and touches nothing else. */
  lemma RetentionIsExact(ls: seq<Label>, cutoff: Time, id: string)
    requires Can(START, ls)
    ensures var s := Run(START, ls); var s' := Step(s, Retain(cutoff));
      && (id in s'.rows <==> id in s.rows && (s.rows[id].decision.Some? ==> s.rows[id].resolvedAt.Some? && s.rows[id].resolvedAt.value >= cutoff))
      && (id in s'.rows ==> s'.rows[id] == s.rows[id])
      && s'.requests == s.requests && s'.clicks == s.clicks && s'.pending == s.pending
  {
    RunDated(START, ls);
  }

  // ---- the counter ----

  /** The requests a worker has waiting on a thread. */
  function WaitingOn(s: State, slot: Slot): set<Req> {
    set r | r in s.requests && Waiting(s.requests[r].phase) && s.requests[r].slot == slot
  }

  predicate CountRight(s: State, slot: Slot) {
    && (slot in s.pending <==> WaitingOn(s, slot) != {})
    && (slot in s.pending ==> s.pending[slot] == |WaitingOn(s, slot)|)
  }

  /** The counter of a request's slot when it goes from `was` waiting to `now` waiting. */
  function Recounted(pending: map<Slot, nat>, slot: Slot, was: bool, now: bool): map<Slot, nat> {
    if !was && now then Counted(pending, slot) else if was && !now then Uncounted(pending, slot) else pending
  }

  lemma MoveCounts(s: State, s': State, slot: Slot, r: Req)
    requires CountRight(s, slot) && OnlyMoved(s, s', r)
    requires s'.pending == Recounted(s.pending, s.requests[r].slot, Waiting(s.requests[r].phase), Waiting(s'.requests[r].phase))
    ensures CountRight(s', slot)
  {
    var before, after := WaitingOn(s, slot), WaitingOn(s', slot);
    if s.requests[r].slot != slot || Waiting(s.requests[r].phase) == Waiting(s'.requests[r].phase) {
      assert after == before;
    } else if Waiting(s'.requests[r].phase) {
      assert after == before + {r};
    } else {
      assert r in before && after == before - {r};
      assert after != {} ==> |after| > 0;
    }
  }

  /** A step that moves a request counts it in or out as it enters or leaves the wait. */
  lemma StepPends(s: State, l: Label)
    requires Enabled(s, l) && MovesRequest(l)
    ensures var s' := Step(s, l); var r := l.req;
      r in s'.requests
      && s'.pending == Recounted(s.pending, s.requests[r].slot, Waiting(s.requests[r].phase), Waiting(s'.requests[r].phase))
  {
  }

  lemma StepCounts(s: State, l: Label, slot: Slot)
    requires CountRight(s, slot) && Enabled(s, l)
    ensures CountRight(Step(s, l), slot)
  {
    if MovesRequest(l) {
      StepMoves(s, l);
      StepPends(s, l);
      MoveCounts(s, Step(s, l), slot, l.req);
    } else {
      assert WaitingOn(Step(s, l), slot) == WaitingOn(s, slot);
    }
  }

  lemma {:induction false} RunCounts(s: State, ls: seq<Label>, slot: Slot)
    requires CountRight(s, slot) && Can(s, ls)
    ensures CountRight(Run(s, ls), slot)
    decreases |ls|
  {
    if ls != [] {
      StepCounts(s, ls[0], slot);
      RunCounts(Step(s, ls[0]), ls[1..], slot);
    }
  }

  /** After any run `_pending` for a thread is the number of requests waiting on it, and has no entry
      for a thread with none, so `pending_for` is exact. */
  lemma PendingIsTheNumberWaiting(ls: seq<Label>, slot: Slot)
    requires Can(START, ls)
    ensures var s := Run(START, ls);
      && (slot in s.pending <==> WaitingOn(s, slot) != {})
      && (slot in s.pending ==> s.pending[slot] == |WaitingOn(s, slot)| > 0)
  {
    assert WaitingOn(START, slot) == {};
    RunCounts(START, ls, slot);
  }

  // ---- that it goes through ----

  /** Some steps lead from `s` to `t`. */
  ghost predicate Reaches(s: State, t: State) {
    exists ls :: Can(s, ls) && Run(s, ls) == t
  }

  lemma {:induction false} RunMore(s: State, ls: seq<Label>, l: Label)
    requires Can(s, ls) && Enabled(Run(s, ls), l)
    ensures Can(s, ls + [l]) && Run(s, ls + [l]) == Step(Run(s, ls), l)
    decreases |ls|
  {
    if ls == [] {
      assert [l][1..] == [];
    } else {
      RunMore(Step(s, ls[0]), ls[1..], l);
      assert (ls + [l])[1..] == ls[1..] + [l];
    }
  }

  lemma ReachesBy(s: State, t: State, l: Label)
    requires Reaches(s, t) && Enabled(t, l)
    ensures Reaches(s, Step(t, l))
  {
    var ls :| Can(s, ls) && Run(s, ls) == t;
    RunMore(s, ls, l);
  }

  /** The request waits on a row of its own that its approvers can decide. */
  predicate Asking(s: State, r: Req, slot: Slot, id: string, approvers: set<User>) {
    && r in s.requests && s.requests[r] == Request(slot, id, approvers, Parked(false))
    && Undecided(s.rows, id) && s.rows[id].approvers == approvers
  }

  /** A new request with approvers gets its row, and then waits on it. */
  lemma GetsRow(z: State, s: State, r: Req, slot: Slot, id: string, approvers: set<User>) returns (t: State)
    requires Reaches(z, s) && r !in s.requests && id !in s.chosen && id !in s.rows && approvers != {}
    ensures Reaches(z, t) && t.clicks == s.clicks && r in t.requests && t.requests[r] == Request(slot, id, approvers, Listed)
    ensures Undecided(t.rows, id) && t.rows[id].approvers == approvers
  {
    t := Goes(z, s, Ask(r, slot, id, approvers));
    assert t.requests[r] == Request(slot, id, approvers, Chosen);
    t := Goes(z, t, Label.Create(r));
    assert t.requests[r] == Request(slot, id, approvers, Created) && Undecided(t.rows, id);
    t := Goes(z, t, List(r));
  }

  lemma Waits(z: State, s: State, r: Req) returns (t: State)
    requires Reaches(z, s) && r in s.requests && s.requests[r].phase == Listed && Undecided(s.rows, s.requests[r].id)
    ensures Reaches(z, t) && t.clicks == s.clicks && t.rows == s.rows
    ensures r in t.requests && t.requests[r] == s.requests[r].(phase := Parked(false))
  {
    t := Goes(z, s, Post(r));
    assert t.requests[r] == s.requests[r].(phase := Connecting);
    t := Goes(z, t, Listen(r));
    assert t.requests[r] == s.requests[r].(phase := Listening(false));
    t := Goes(z, t, Read(r));
  }

  lemma Asks(z: State, s: State, r: Req, slot: Slot, id: string, approvers: set<User>) returns (t: State)
    requires Reaches(z, s) && r !in s.requests && id !in s.chosen && id !in s.rows && approvers != {}
    ensures Reaches(z, t) && Asking(t, r, slot, id, approvers) && t.clicks == s.clicks
  {
    t := GetsRow(z, s, r, slot, id, approvers);
    t := Waits(z, t, r);
  }

  lemma Goes(z: State, s: State, l: Label) returns (t: State)
    requires Reaches(z, s) && Enabled(s, l)
    ensures Reaches(z, t) && t == Step(s, l)
  {
    ReachesBy(z, s, l);
    t := Step(s, l);
  }

  /** A click on a pending approval by one of its approvers decides it as the button says; anyone else's, and
      one on a row that is gone or decided, changes no row. The clicker is told which. */
  lemma ClickDecides(z: State, s: State, c: ClickId, verb: Verb, id: string, user: User, now: Time) returns (t: State)
    requires Reaches(z, s) && c !in s.clicks
    ensures Reaches(z, t) && c in t.clicks && t.requests == s.requests
    ensures if id !in s.rows then t.rows == s.rows && t.clicks[c].stage == Told(Gone)
      else if user !in s.rows[id].approvers then t.rows == s.rows && t.clicks[c].stage == Told(Unauthorized)
      else if !Undecided(s.rows, id) then t.rows == s.rows && t.clicks[c].stage == Told(Gone)
      else
        && id in t.rows && t.rows[id].decision.Some? && DecidesAsClicked(verb, user, t.rows[id].decision.value) && id in t.notified
        && t.clicks[c].stage == Told(if verb == Deny then SaidDenied else SaidApproved)
  {
    t := Goes(z, s, Press(c, verb, id, user));
    t := Goes(z, t, LookUp(c));
    if id in s.rows {
      t := Goes(z, t, Authorize(c));
      if user in s.rows[id].approvers { t := Goes(z, t, ResolveClick(c, now)); }
    }
  }

  /** The last read of a decided row is what the request returns. */
  lemma ReadsAndReturns(z: State, s: State, r: Req) returns (t: State)
    requires Reaches(z, s) && r in s.requests && s.requests[r].phase == Rereading
    requires var id := s.requests[r].id; id in s.rows && s.rows[id].decision.Some?
    ensures Reaches(z, t) && r in t.requests && t.rows == s.rows
    ensures var d := s.rows[s.requests[r].id].decision.value;
      t.requests[r].phase == Returned(Decision(d.approved, if d.who == "" then "system" else d.who, if d.scope == "" then "once" else d.scope))
  {
    t := Goes(z, s, Reread(r));
    t := Goes(z, t, Leave(r));
  }

  /** A waiter that is notified of a decision returns it. */
  lemma WaiterReturns(z: State, s: State, r: Req) returns (t: State)
    requires Reaches(z, s) && r in s.requests && s.requests[r].phase.Parked?
    requires var id := s.requests[r].id; id in s.notified && id in s.rows && s.rows[id].decision.Some?
    ensures Reaches(z, t) && r in t.requests && t.rows == s.rows
    ensures var d := s.rows[s.requests[r].id].decision.value;
      t.requests[r].phase == Returned(Decision(d.approved, if d.who == "" then "system" else d.who, if d.scope == "" then "once" else d.scope))
  {
    t := Goes(z, s, Wake(r));
    t := Goes(z, t, Woken(r));
    t := ReadsAndReturns(z, t, r);
  }

  /** A waiter that nobody answers in time denies the request itself. */
  lemma TimeoutDenies(z: State, s: State, r: Req, now: Time) returns (t: State)
    requires Reaches(z, s) && r in s.requests && s.requests[r].phase.Parked? && Undecided(s.rows, s.requests[r].id)
    ensures Reaches(z, t) && r in t.requests && t.requests[r].phase == Returned(Decision(false, "system", "once"))
    ensures var id := s.requests[r].id; id in t.rows && t.rows[id].decision == Some(Decision(false, "system", "once"))
  {
    t := Goes(z, s, Expire(r));
    t := Goes(z, t, ResolveSelf(r, now));
    t := ReadsAndReturns(z, t, r);
  }

  lemma FindsNothing(z: State, s: State, r: Req) returns (t: State)
    requires Reaches(z, s) && r in s.requests && s.requests[r].phase == Rereading && s.requests[r].id !in s.rows
    ensures Reaches(z, t) && r in t.requests && t.rows == s.rows
    ensures t.requests[r].phase == Returned(Decision(false, "system", "once"))
  {
    t := Goes(z, s, Reread(r));
    assert t.requests[r] == s.requests[r].(phase := Decided(SYSTEM_DENY));
    t := Goes(z, t, Leave(r));
  }

  /** So does one whose row retention has deleted meanwhile. */
  lemma PrunedIsDenied(z: State, s: State, r: Req, now: Time) returns (t: State)
    requires Reaches(z, s) && r in s.requests && s.requests[r].phase.Parked? && s.requests[r].id !in s.rows
    ensures Reaches(z, t) && r in t.requests && t.requests[r].phase == Returned(Decision(false, "system", "once"))
    ensures t.rows == s.rows
  {
    t := Goes(z, s, Expire(r));
    assert t.requests[r] == s.requests[r].(phase := Expiring) && t.rows == s.rows;
    t := Goes(z, t, ResolveSelf(r, now));
    t := FindsNothing(z, t, r);
  }

  /** After any run a new request can be asked and decided: whichever button one of its approvers presses, the
      request returns what the button says, and for whom. */
  lemma ApprovalGoesThrough(ls: seq<Label>, r: Req, slot: Slot, id: string, approvers: set<User>, c: ClickId, verb: Verb, user: User, now: Time)
    returns (t: State)
    requires Can(START, ls) && r !in Run(START, ls).requests && id !in Run(START, ls).chosen && c !in Run(START, ls).clicks
    requires user in approvers && user != ""
    ensures Reaches(START, t) && r in t.requests
    ensures t.requests[r].phase == Returned(Decision(verb != Deny, user, if verb == Always then "always" else "once"))
  {
    Reached(ls);
    var s := Run(START, ls);
    if id in s.rows { KnownId(s, id); }
    assert Reaches(START, s);
    t := Asks(START, s, r, slot, id, approvers);
    t := ClickDecides(START, t, c, verb, id, user, now);
    t := WaiterReturns(START, t, r);
  }
}
