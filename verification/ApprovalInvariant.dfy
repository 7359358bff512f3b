/** What every step of the approval protocol keeps. */
module ApprovalInvariant {
  import opened Wrappers
  import opened Rows
  import opened Stores
  import opened Approvals

  predicate WonAt(s: State, n: nat, id: string) {
    n < |s.wins| && s.wins[n].id == id
  }

  ghost predicate Won(s: State, id: string) {
    exists n: nat :: WonAt(s, n, id)
  }

  /** `d` is what a waiter reads off a row decided as `decision`. */
  predicate Reads(d: Decision, decision: Decision) {
    d == Reading(decision, "unknown") || d == Reading(decision, "system")
  }

  /** A click decides what its verb says, in the name of whoever clicked: Approve and Always approve, Deny does
      not, and only Always is for good. */
  predicate DecidesAsClicked(verb: Verb, user: User, d: Decision) {
    && (d.approved <==> verb == Approve || verb == Always)
    && (d.scope == "always" <==> verb == Always) && (d.scope == "once" <==> verb == Approve || verb == Deny)
    && d.who == user
  }

  /** The `n`-th successful `resolve` was a click, by a chosen approver, that approved `id`; `d` reports it. */
  predicate ApprovedBy(s: State, n: nat, id: string, d: Decision) {
    && WonAt(s, n, id) && s.wins[n].winner.Clicker? && s.wins[n].decision.approved && Reads(d, s.wins[n].decision)
    && id in s.chosen && s.wins[n].decision.who in s.chosen[id]
  }

  ghost predicate Authorized(s: State, id: string, d: Decision) {
    exists n: nat :: ApprovedBy(s, n, id, d)
  }

  ghost predicate RowInv(s: State, id: string)
    requires id in s.rows
  {
    var row := s.rows[id];
    && id in s.chosen && row.approvers <= s.chosen[id]
    && (row.decision.Some? ==> Won(s, id))
    && (forall n: nat | WonAt(s, n, id) :: row.decision == Some(s.wins[n].decision))
  }

  predicate AsWon(w: Win) {
    if w.winner.Clicker? then DecidesAsClicked(w.winner.verb, w.winner.user, w.decision) else w.decision == SYSTEM_DENY
  }

  ghost predicate WinInv(s: State, n: nat)
    requires n < |s.wins|
  {
    var w := s.wins[n];
    && w.id in s.chosen
    && (w.decision.approved ==> w.winner.Clicker? && w.decision.who in s.chosen[w.id])
    && AsWon(w)
    && (forall m | n < m < |s.wins| :: s.wins[m].id != w.id)
  }

  ghost predicate RequestInv(s: State, r: Req)
    requires r in s.requests
  {
    var q := s.requests[r];
    && q.id in s.chosen && s.chosen[q.id] == q.approvers
    && (q.approvers == {} ==> q.phase == Returned(SYSTEM_DENY))
    && (q.phase == Chosen ==> q.id !in s.rows && !Won(s, q.id))
    && (q.phase == Listening(true) || q.phase == Parked(true) ==> q.id in s.notified)
    && (q.phase == Rereading ==> !Undecided(s.rows, q.id))
    && (q.phase.Decided? || (q.phase.Returned? && q.approvers != {}) ==>
          && (q.id in s.rows ==> s.rows[q.id].decision.Some?
                                         && Reads(q.phase.decision, s.rows[q.id].decision.value))
          && (q.phase.decision.approved ==> Authorized(s, q.id, q.phase.decision)))
  }

  predicate Distinct(s: State) {
    forall r, q | r in s.requests && q in s.requests && s.requests[r].id == s.requests[q].id :: r == q
  }

  ghost predicate ClickInv(s: State, c: ClickId)
    requires c in s.clicks
  {
    var k := s.clicks[c];
    && (k.stage == Cleared ==> k.id in s.chosen && k.user in s.chosen[k.id])
    && (k.stage == Told(SaidApproved) || k.stage == Told(SaidDenied) ==> ToldTruly(s, c))
    && (k.stage == Told(SaidApproved) ==> k.verb == Approve || k.verb == Always)
    && (k.stage == Told(SaidDenied) ==> k.verb == Deny)
  }

  ghost predicate ToldTruly(s: State, c: ClickId)
    requires c in s.clicks
  {
    exists n: nat :: WonAt(s, n, s.clicks[c].id) && s.wins[n].winner == Clicker(c, s.clicks[c].verb, s.clicks[c].user)
  }

  ghost predicate Inv(s: State) {
    && (forall id | id in s.rows :: RowInv(s, id))
    && (forall n | 0 <= n < |s.wins| :: WinInv(s, n))
    && Distinct(s) && (forall r | r in s.requests :: RequestInv(s, r))
    && (forall c | c in s.clicks :: ClickInv(s, c))
    && (forall id | id in s.notified :: Won(s, id))
  }

  // ---- what a step does to rows and wins ----

  predicate Counts(s: State, w: Win) {
    && (w.decision.approved ==> w.winner.Clicker? && w.id in s.chosen && w.decision.who in s.chosen[w.id])
    && AsWon(w)
  }

  predicate Wins(s: State, s': State, w: Win) {
    && s'.wins == s.wins + [w] && s'.notified == s.notified + {w.id} && Undecided(s.rows, w.id) && Counts(s, w)
    && w.id in s'.rows && s'.rows[w.id].decision == Some(w.decision)
  }

  ghost predicate RowEffect(s: State, s': State, id: string)
    requires id in s'.rows
  {
    var row := s'.rows[id];
    if id in s.rows then
      && (row.approvers == s.rows[id].approvers || (id in s.chosen && row.approvers == s.chosen[id]))
      && (row.decision == s.rows[id].decision || (|s'.wins| > |s.wins| && s'.wins[|s.wins|].id == id))
    else
      row.approvers == {} && row.decision == None && id in s.chosen && !Won(s, id)
  }

  ghost predicate Effect(s: State, s': State) {
    && (forall id | id in s.chosen :: id in s'.chosen && s'.chosen[id] == s.chosen[id])
    && ((s'.wins == s.wins && s'.notified == s.notified)
        || (|s'.wins| > |s.wins| && Wins(s, s', s'.wins[|s.wins|])))
    && (forall id | id in s'.rows :: RowEffect(s, s', id))
  }

  lemma ResolveEffect(s: State, id: string, d: Decision, winner: Winner, now: Time)
    requires Counts(s, Win(id, winner, d))
    ensures var s' := Resolving(s, id, d, winner, now).0;
      Effect(s, s') && s'.requests == s.requests && s'.clicks == s.clicks && s'.pending == s.pending && s'.chosen == s.chosen
    ensures Resolving(s, id, d, winner, now).1 <==> Undecided(s.rows, id)
    ensures Resolving(s, id, d, winner, now).1 ==> Resolving(s, id, d, winner, now).0.wins == s.wins + [Win(id, winner, d)]
    ensures !Resolving(s, id, d, winner, now).1 ==> Resolving(s, id, d, winner, now).0 == s
    ensures !Undecided(Resolving(s, id, d, winner, now).0.rows, id)
  {
  }

  predicate Quiet(s: State, s': State) {
    && s'.rows == s.rows && s'.wins == s.wins && s'.notified == s.notified
    && forall id | id in s.chosen :: id in s'.chosen && s'.chosen[id] == s.chosen[id]
  }

  lemma QuietEffect(s: State, s': State)
    requires Quiet(s, s')
    ensures Effect(s, s')
  {
  }

  lemma CreateEffect(s: State, r: Req)
    requires Inv(s) && Enabled(s, Label.Create(r))
    ensures Effect(s, Step(s, Label.Create(r)))
  {
    assert RequestInv(s, r);
  }

  lemma ListEffect(s: State, r: Req)
    requires Inv(s) && Enabled(s, List(r))
    ensures Effect(s, Step(s, List(r)))
  {
    assert RequestInv(s, r);
  }

  lemma RetainEffect(s: State, cutoff: Time)
    ensures Effect(s, Step(s, Retain(cutoff)))
  {
  }

  lemma StepEffect(s: State, l: Label)
    requires Inv(s) && Enabled(s, l)
    ensures Effect(s, Step(s, l))
  {
    if l.Create? {
      CreateEffect(s, l.req);
    } else if l.List? {
      ListEffect(s, l.req);
    } else if l.ResolveSelf? {
      ResolveEffect(s, s.requests[l.req].id, SYSTEM_DENY, Timeout(l.req), l.now);
      var m := Resolving(s, s.requests[l.req].id, SYSTEM_DENY, Timeout(l.req), l.now).0;
      SameEffect(s, m, Step(s, l));
    } else if l.ResolveClick? {
      assert ClickInv(s, l.click);
      ResolveEffect(s, s.clicks[l.click].id, ClickDecision(s.clicks[l.click]), ClickWinner(l.click, s.clicks[l.click]), l.now);
      var m := Resolving(s, s.clicks[l.click].id, ClickDecision(s.clicks[l.click]), ClickWinner(l.click, s.clicks[l.click]), l.now).0;
      SameEffect(s, m, Step(s, l));
    } else if l.Retain? {
      RetainEffect(s, l.cutoff);
    } else {
      NoEffect(s, l);
    }
  }

  lemma SameEffect(s: State, m: State, s': State)
    requires Effect(s, m) && m.rows == s'.rows && m.wins == s'.wins && m.notified == s'.notified && m.chosen == s'.chosen
    ensures Effect(s, s')
  {
    forall id | id in s'.rows ensures RowEffect(s, s', id) { assert RowEffect(s, m, id); }
  }

  lemma NoEffect(s: State, l: Label)
    requires Enabled(s, l) && !l.Create? && !l.List? && !l.ResolveSelf? && !l.ResolveClick? && !l.Retain?
    ensures Effect(s, Step(s, l))
  {
    assert Quiet(s, Step(s, l));
    QuietEffect(s, Step(s, l));
  }

  // ---- each part of the invariant, from the effect alone ----

  lemma WinsStay(s: State, s': State, n: nat, id: string)
    requires Effect(s, s') && WonAt(s, n, id)
    ensures WonAt(s', n, id) && s'.wins[n] == s.wins[n]
  {
  }

  lemma WonStays(s: State, s': State, id: string)
    requires Effect(s, s') && Won(s, id)
    ensures Won(s', id)
  {
    var n: nat :| WonAt(s, n, id);
    WinsStay(s, s', n, id);
  }

  lemma KeepsRow(s: State, s': State, id: string)
    requires Inv(s) && Effect(s, s') && id in s'.rows
    ensures RowInv(s', id)
  {
    assert RowEffect(s, s', id);
    if id in s.rows { assert RowInv(s, id); }
    if |s'.wins| > |s.wins| && s'.wins[|s.wins|].id == id {
      assert WonAt(s', |s.wins|, id);
    } else if s'.rows[id].decision.Some? {
      WonStays(s, s', id);
    }
    forall n: nat | WonAt(s', n, id) ensures s'.rows[id].decision == Some(s'.wins[n].decision) {
      if n < |s.wins| { assert WonAt(s, n, id); }
    }
  }

  lemma KeepsWin(s: State, s': State, n: nat)
    requires Inv(s) && Effect(s, s') && n < |s'.wins|
    ensures WinInv(s', n)
  {
    if |s'.wins| > |s.wins| {
      var w := s'.wins[|s.wins|];
      assert RowInv(s, w.id);
      if n < |s.wins| { assert s.wins[n].id == w.id ==> WonAt(s, n, w.id); }
    }
    if n < |s.wins| { assert WinInv(s, n); }
  }

  lemma KeepsNotified(s: State, s': State, id: string)
    requires Inv(s) && Effect(s, s') && id in s'.notified
    ensures Won(s', id)
  {
    if id in s.notified { WonStays(s, s', id); } else { assert WonAt(s', |s.wins|, id); }
  }

  /** Once an id is won its row, if still there, is decided for good, and never comes back if not. */
  lemma WonRowStays(s: State, s': State, id: string)
    requires Inv(s) && Effect(s, s') && Won(s, id)
    ensures !Undecided(s'.rows, id)
    ensures id in s'.rows ==> id in s.rows && s'.rows[id].decision == s.rows[id].decision
  {
    var n: nat :| WonAt(s, n, id);
    WonStays(s, s', id);
    if id in s'.rows { assert RowEffect(s, s', id); }
    if id in s.rows { assert RowInv(s, id); }
  }

  lemma AuthorizedStays(s: State, s': State, id: string, d: Decision)
    requires Effect(s, s') && Authorized(s, id, d)
    ensures Authorized(s', id, d)
  {
    var n: nat :| ApprovedBy(s, n, id, d);
    assert ApprovedBy(s', n, id, d);
  }

  /** Reading a decided row gives an authorized answer. */
  lemma ReadingIsAuthorized(s: State, id: string, nobody: User)
    requires Inv(s) && id in s.rows && s.rows[id].decision.Some?
    requires s.rows[id].decision.value.approved && (nobody == "unknown" || nobody == "system")
    ensures Authorized(s, id, Reading(s.rows[id].decision.value, nobody))
  {
    assert RowInv(s, id);
    var n: nat :| WonAt(s, n, id);
    assert WinInv(s, n);
    assert ApprovedBy(s, n, id, Reading(s.rows[id].decision.value, nobody));
  }

  lemma KeepsOther(s: State, s': State, r: Req)
    requires Inv(s) && Effect(s, s') && r in s.requests && r in s'.requests && s'.requests[r] == s.requests[r]
    requires s.requests[r].id in s'.rows ==> s.requests[r].id in s.rows
    ensures RequestInv(s', r)
  {
    var q := s.requests[r];
    assert RequestInv(s, r);
    if q.phase == Chosen && Won(s', q.id) {
      var n: nat :| WonAt(s', n, q.id);
      assert n < |s.wins| ==> WonAt(s, n, q.id);
    }
    if q.phase == Rereading {
      if q.id in s'.rows { assert RowEffect(s, s', q.id); }
    }
    if q.phase.Decided? || (q.phase.Returned? && q.approvers != {}) {
      if q.id in s'.rows {
        assert RowEffect(s, s', q.id);
        assert RowInv(s, q.id);
        WonRowStays(s, s', q.id);
      }
      if q.phase.decision.approved { AuthorizedStays(s, s', q.id, q.phase.decision); }
    }
  }

  /** Only the request that owns an id creates its row. */
  lemma NewRow(s: State, l: Label, id: string)
    requires Enabled(s, l) && id !in s.rows && id in Step(s, l).rows
    ensures l.Create? && id == s.requests[l.req].id
  {
    if !l.Create? { NoNewRow(s, l); }
  }

  lemma NoNewRow(s: State, l: Label)
    requires Enabled(s, l) && !l.Create?
    ensures Step(s, l).rows.Keys <= s.rows.Keys
  {
    if l.ResolveSelf? || l.ResolveClick? { ResolveKeepsRows(s, l); }
  }

  lemma ResolveKeepsRows(s: State, l: Label)
    requires Enabled(s, l) && (l.ResolveSelf? || l.ResolveClick?)
    ensures Step(s, l).rows.Keys == s.rows.Keys
  {
  }

  lemma CreateKeeps(s: State, l: Label)
    requires Inv(s) && Enabled(s, l) && l.Create?
    ensures RequestInv(Step(s, l), l.req)
  {
    assert RequestInv(s, l.req);
  }

  lemma SelfResolveKeeps(s: State, l: Label)
    requires Inv(s) && Enabled(s, l) && l.ResolveSelf?
    ensures RequestInv(Step(s, l), l.req)
  {
    ResolveEffect(s, s.requests[l.req].id, SYSTEM_DENY, Timeout(l.req), l.now);
    assert RequestInv(s, l.req);
  }

  /** The first read, when it answers, and the last one: both answer what the row says. */
  lemma ReadKeeps(s: State, l: Label)
    requires Inv(s) && Enabled(s, l) && (l.Read? || l.Reread?)
    ensures RequestInv(Step(s, l), l.req)
  {
    var s' := Step(s, l);
    var id := s.requests[l.req].id;
    assert RequestInv(s, l.req);
    if id in s.rows && s.rows[id].decision.Some? && s.rows[id].decision.value.approved {
      var nobody := if l.Read? then "unknown" else "system";
      ReadingIsAuthorized(s, id, nobody);
      var n: nat :| ApprovedBy(s, n, id, Reading(s.rows[id].decision.value, nobody));
      assert ApprovedBy(s', n, id, Reading(s.rows[id].decision.value, nobody));
    }
  }

  lemma WakeKeeps(s: State, l: Label)
    requires Inv(s) && Enabled(s, l) && (l.Woken? || l.Wake?)
    ensures RequestInv(Step(s, l), l.req)
  {
    assert RequestInv(s, l.req);
    if l.Woken? {
      var id := s.requests[l.req].id;
      assert Won(s, id);
      var n: nat :| WonAt(s, n, id);
      if id in s.rows { assert RowInv(s, id); }
    }
  }

  lemma LeaveKeeps(s: State, l: Label)
    requires Inv(s) && Enabled(s, l) && (l.Leave? || l.Fail?)
    ensures RequestInv(Step(s, l), l.req)
  {
    var q := s.requests[l.req];
    assert RequestInv(s, l.req);
    StepEffect(s, l);
    if l.Leave? && q.phase.decision.approved { AuthorizedStays(s, Step(s, l), q.id, q.phase.decision); }
  }

  lemma MoverKeeps(s: State, l: Label)
    requires Inv(s) && Enabled(s, l) && (l.List? || l.Post? || l.Listen? || l.Expire?)
    ensures RequestInv(Step(s, l), l.req)
  {
    assert RequestInv(s, l.req);
  }

  lemma KnownId(s: State, id: string)
    requires Inv(s) && (id in s.rows || Won(s, id))
    ensures id in s.chosen
  {
    if id in s.rows {
      assert RowInv(s, id);
    } else {
      var n: nat :| WonAt(s, n, id);
      assert WinInv(s, n);
    }
  }

  lemma AskKeeps(s: State, l: Label)
    requires Inv(s) && Enabled(s, l) && l.Ask?
    ensures RequestInv(Step(s, l), l.req)
  {
    if l.id in s.rows { KnownId(s, l.id); }
    if Won(Step(s, l), l.id) {
      var n: nat :| WonAt(Step(s, l), n, l.id);
      assert WonAt(s, n, l.id);
      KnownId(s, l.id);
    }
  }

  predicate MovesRequest(l: Label) {
    l.Create? || l.List? || l.Post? || l.Listen? || l.Wake? || l.Read? || l.Woken? || l.Expire? || l.ResolveSelf?
    || l.Reread? || l.Leave? || l.Fail?
  }

  /** Request `r` changed phase, and nothing else did. */
  predicate OnlyMoved(s: State, s': State, r: Req) {
    && s'.requests.Keys == s.requests.Keys && r in s.requests && s'.requests[r].slot == s.requests[r].slot
    && s'.requests[r].id == s.requests[r].id
    && forall o | o in s.requests && o != r :: s'.requests[o] == s.requests[o]
  }

  lemma StepMoves(s: State, l: Label)
    requires Enabled(s, l) && MovesRequest(l)
    ensures OnlyMoved(s, Step(s, l), l.req)
  {
  }

  lemma MovedKeeps(s: State, l: Label)
    requires Inv(s) && Enabled(s, l) && MovesRequest(l)
    ensures l.req in Step(s, l).requests && RequestInv(Step(s, l), l.req)
  {
    if l.Create? {
      CreateKeeps(s, l);
    } else if l.ResolveSelf? {
      SelfResolveKeeps(s, l);
    } else if l.Read? || l.Reread? {
      ReadKeeps(s, l);
    } else if l.Woken? || l.Wake? {
      WakeKeeps(s, l);
    } else if l.Leave? || l.Fail? {
      LeaveKeeps(s, l);
    } else {
      MoverKeeps(s, l);
    }
  }

  lemma StepKeepsRequest(s: State, l: Label, r: Req)
    requires Inv(s) && Enabled(s, l) && r in Step(s, l).requests
    ensures RequestInv(Step(s, l), r)
  {
    if MovesRequest(l) && r == l.req {
      MovedKeeps(s, l);
    } else if l.Ask? && r == l.req {
      AskKeeps(s, l);
    } else {
      RestKeeps(s, l, r);
    }
  }

  lemma RestKeeps(s: State, l: Label, r: Req)
    requires Inv(s) && Enabled(s, l) && r in Step(s, l).requests && !((MovesRequest(l) || l.Ask?) && r == l.req)
    ensures RequestInv(Step(s, l), r)
  {
    var s' := Step(s, l);
    StepEffect(s, l);
    if MovesRequest(l) { StepMoves(s, l); }
    var id := s.requests[r].id;
    if id !in s.rows && id in s'.rows { NewRow(s, l, id); }
    KeepsOther(s, s', r);
  }

  lemma StepKeepsDistinct(s: State, l: Label)
    requires Inv(s) && Enabled(s, l)
    ensures Distinct(Step(s, l))
  {
    if l.Ask? {
      forall r | r in s.requests ensures s.requests[r].id in s.chosen { assert RequestInv(s, r); }
    } else if MovesRequest(l) {
      StepMoves(s, l);
    }
  }

  lemma ClickStays(s: State, s': State, c: ClickId)
    requires Inv(s) && Effect(s, s') && c in s.clicks && c in s'.clicks && s'.clicks[c] == s.clicks[c]
    ensures ClickInv(s', c)
  {
    assert ClickInv(s, c);
    if s.clicks[c].stage == Told(SaidApproved) || s.clicks[c].stage == Told(SaidDenied) {
      var n: nat :| WonAt(s, n, s.clicks[c].id) && s.wins[n].winner == Clicker(c, s.clicks[c].verb, s.clicks[c].user);
      WinsStay(s, s', n, s.clicks[c].id);
    }
  }

  lemma AuthorizeKeeps(s: State, l: Label)
    requires Inv(s) && Enabled(s, l) && l.Authorize?
    ensures ClickInv(Step(s, l), l.click)
  {
    var id := s.clicks[l.click].id;
    if id in s.rows { assert RowInv(s, id); }
  }

  lemma StepKeepsClick(s: State, l: Label, c: ClickId)
    requires Inv(s) && Enabled(s, l) && c in Step(s, l).clicks
    ensures ClickInv(Step(s, l), c)
  {
    if l.Authorize? && l.click == c {
      AuthorizeKeeps(s, l);
    } else if l.ResolveClick? && l.click == c {
      ResolveClickKeeps(s, l);
    } else if c in s.clicks && Step(s, l).clicks[c] == s.clicks[c] {
      StepEffect(s, l);
      ClickStays(s, Step(s, l), c);
    }
  }

  lemma ResolveClickKeeps(s: State, l: Label)
    requires Inv(s) && Enabled(s, l) && l.ResolveClick?
    ensures ClickInv(Step(s, l), l.click)
  {
    assert ClickInv(s, l.click);
    ResolveEffect(s, s.clicks[l.click].id, ClickDecision(s.clicks[l.click]), ClickWinner(l.click, s.clicks[l.click]), l.now);
    if Undecided(s.rows, s.clicks[l.click].id) {
      assert WonAt(Step(s, l), |s.wins|, s.clicks[l.click].id);
    }
  }

  lemma StepKeeps(s: State, l: Label)
    requires Inv(s) && Enabled(s, l)
    ensures Inv(Step(s, l))
  {
    var s' := Step(s, l);
    StepEffect(s, l);
    StepKeepsDistinct(s, l);
    forall id | id in s'.rows ensures RowInv(s', id) { KeepsRow(s, s', id); }
    forall n | 0 <= n < |s'.wins| ensures WinInv(s', n) { KeepsWin(s, s', n); }
    forall r | r in s'.requests ensures RequestInv(s', r) { StepKeepsRequest(s, l, r); }
    forall c | c in s'.clicks ensures ClickInv(s', c) { StepKeepsClick(s, l, c); }
    forall id | id in s'.notified ensures Won(s', id) { KeepsNotified(s, s', id); }
  }

  lemma {:induction false} RunKeeps(s: State, ls: seq<Label>)
    requires Inv(s) && Can(s, ls)
    ensures Inv(Run(s, ls))
    decreases |ls|
  {
    if ls != [] {
      StepKeeps(s, ls[0]);
      RunKeeps(Step(s, ls[0]), ls[1..]);
    }
  }
}
