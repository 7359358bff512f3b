/** The gate in front of the approval protocol: who may approve, what a button's action id says, and the
    per-worker count of requests waiting on a thread. */
module ApprovalGates {
  import opened Wrappers
  import opened Rows
  import opened Stores
  import opened Approvals
  import opened ApprovalTheorems
  import ApprovalInvariant

  // ---- who may approve ----

  datatype Approver = Approver(user: User, scope: string, catchall: bool)

  /** `a in b` on strings. */
  predicate Within(a: string, b: string) {
    exists i | 0 <= i <= |b| :: a <= b[i..]
  }

  function WordEnd(s: string, i: nat, separates: char -> bool): (j: nat)
    requires i <= |s|
    ensures i <= j <= |s| && (forall k | i <= k < j :: !separates(s[k])) && (j < |s| ==> separates(s[j]))
    decreases |s| - i
  {
    if i < |s| && !separates(s[i]) then WordEnd(s, i + 1, separates) else i
  }

  /** The words of an already lower-cased scope, from position `i` on. */
  function Keywords(scope: string, i: nat, separates: char -> bool): (words: seq<string>)
    requires i <= |scope|
    decreases |scope| - i
  {
    if i == |scope| then []
    else if separates(scope[i]) then Keywords(scope, i + 1, separates)
    else
      var j := WordEnd(scope, i + 1, separates);
      [scope[i..j]] + Keywords(scope, j, separates)
  }

  /** A longest run without a comma or white space. */
  predicate IsWord(s: string, i: nat, j: nat, separates: char -> bool) {
    && i < j <= |s| && (forall k | i <= k < j :: !separates(s[k]))
    && (i > 0 ==> separates(s[i - 1])) && (j < |s| ==> separates(s[j]))
  }

  ghost predicate WordFrom(s: string, i: nat, word: string, separates: char -> bool) {
    exists a: nat, b: nat :: i <= a && IsWord(s, a, b, separates) && word == s[a..b]
  }

  /** The keywords of a scope are exactly its longest runs without a separator. */
  lemma {:induction false} KeywordsAreTheWords(s: string, i: nat, word: string, separates: char -> bool)
    requires i <= |s| && (i == 0 || separates(s[i - 1]) || i == |s| || separates(s[i]))
    ensures word in Keywords(s, i, separates) <==> WordFrom(s, i, word, separates)
    decreases |s| - i
  {
    if i < |s| && separates(s[i]) {
      KeywordsAreTheWords(s, i + 1, word, separates);
      if WordFrom(s, i, word, separates) {
        var a: nat, b: nat :| i <= a && IsWord(s, a, b, separates) && word == s[a..b];
        assert a != i;
      }
    } else if i < |s| {
      var j := WordEnd(s, i + 1, separates);
      KeywordsAreTheWords(s, j, word, separates);
      assert IsWord(s, i, j, separates);
      if WordFrom(s, i, word, separates) {
        var a: nat, b: nat :| i <= a && IsWord(s, a, b, separates) && word == s[a..b];
        WordsAreApart(s, i, j, a, b, separates);
      }
    }
  }

  lemma WordsAreApart(s: string, i: nat, j: nat, a: nat, b: nat, separates: char -> bool)
    requires IsWord(s, i, j, separates) && IsWord(s, a, b, separates) && i <= a
    ensures (a == i && b == j) || a >= j
  {
  }

  predicate Covers(a: Approver, summary: string, lower: string -> string, separates: char -> bool) {
    !a.catchall && exists w <- Keywords(lower(a.scope), 0, separates) :: Within(w, lower(summary))
  }

  /** What stands in `a` from `i` to `j` stands in `b` from `k` on. */
  predicate StandsAt(a: string, i: nat, j: nat, b: string, k: nat) {
    i <= j <= |a| && k + (j - i) <= |b| && a[i..j] == b[k..k + (j - i)]
  }

  /** A word of the scope stands somewhere in the summary. */
  ghost predicate InScope(scope: string, summary: string, separates: char -> bool) {
    exists i: nat, j: nat, k: nat :: IsWord(scope, i, j, separates) && StandsAt(scope, i, j, summary, k)
  }

  lemma WithinIsStandsAt(s: string, i: nat, j: nat, b: string)
    requires i <= j <= |s|
    ensures Within(s[i..j], b) <==> exists k: nat :: StandsAt(s, i, j, b, k)
  {
    if Within(s[i..j], b) {
      var k: nat :| k <= |b| && s[i..j] <= b[k..];
      assert b[k..][..j - i] == b[k..k + (j - i)];
      assert StandsAt(s, i, j, b, k);
    }
    if k: nat :| StandsAt(s, i, j, b, k) {
      assert b[k..][..j - i] == b[k..k + (j - i)];
    }
  }

  lemma KeywordInScope(scope: string, summary: string, separates: char -> bool, w: string)
    requires w in Keywords(scope, 0, separates) && Within(w, summary)
    ensures InScope(scope, summary, separates)
  {
    KeywordsAreTheWords(scope, 0, w, separates);
    var i: nat, j: nat :| IsWord(scope, i, j, separates) && w == scope[i..j];
    WithinIsStandsAt(scope, i, j, summary);
  }

  lemma InScopeByKeyword(scope: string, summary: string, separates: char -> bool) returns (w: string)
    requires InScope(scope, summary, separates)
    ensures w in Keywords(scope, 0, separates) && Within(w, summary)
  {
    var i: nat, j: nat, k: nat :| IsWord(scope, i, j, separates) && StandsAt(scope, i, j, summary, k);
    w := scope[i..j];
    KeywordsAreTheWords(scope, 0, w, separates);
    WithinIsStandsAt(scope, i, j, summary);
  }

  /** `a` covers the summary if and only if it is no catch-all and a word of its scope stands in the summary,
      both lower-cased. */
  lemma CoversIsInScope(a: Approver, summary: string, lower: string -> string, separates: char -> bool)
    ensures Covers(a, summary, lower, separates) <==> !a.catchall && InScope(lower(a.scope), lower(summary), separates)
  {
    if Covers(a, summary, lower, separates) {
      var w :| w in Keywords(lower(a.scope), 0, separates) && Within(w, lower(summary));
      KeywordInScope(lower(a.scope), lower(summary), separates, w);
    }
    if !a.catchall && InScope(lower(a.scope), lower(summary), separates) {
      var w := InScopeByKeyword(lower(a.scope), lower(summary), separates);
    }
  }

  function SelectApprovers(
    summary: string, approvers: seq<Approver>, envFallback: set<User>, manager: Option<User>,
    lower: string -> string, separates: char -> bool): set<User>
  {
    var matches := set a | a in approvers && Covers(a, summary, lower, separates) :: a.user;
    var catchall := set a | a in approvers && a.catchall :: a.user;
    if matches != {} then matches
    else if catchall != {} then catchall
    else if envFallback != {} then envFallback
    else if manager.Some? && manager.value != "" then {manager.value}
    else {}
  }

  lemma RungsInOrder(
    summary: string, approvers: seq<Approver>, envFallback: set<User>, manager: Option<User>,
    lower: string -> string, separates: char -> bool, u: User)
    ensures var all := SelectApprovers(summary, approvers, envFallback, manager, lower, separates);
      var scoped := exists a <- approvers :: Covers(a, summary, lower, separates);
      var open := exists a <- approvers :: a.catchall;
      && (scoped ==> (u in all <==> exists a <- approvers :: Covers(a, summary, lower, separates) && a.user == u))
      && (!scoped && open ==> (u in all <==> exists a <- approvers :: a.catchall && a.user == u))
      && (!scoped && !open && envFallback != {} ==> all == envFallback)
      && (!scoped && !open && envFallback == {} ==> (u in all <==> manager == Some(u) && u != ""))
      && (all == {} <==> !scoped && !open && envFallback == {} && manager.GetOr("") == "")
  {
    var matches := set a | a in approvers && Covers(a, summary, lower, separates) :: a.user;
    var catchall := set a | a in approvers && a.catchall :: a.user;
    if a :| a in approvers && Covers(a, summary, lower, separates) { assert a.user in matches; }
    if a :| a in approvers && a.catchall { assert a.user in catchall; }
  }

  /** `who` stands on the rung that decides for this summary. */
  ghost predicate OnTheRung(
    who: User, summary: string, approvers: seq<Approver>, envFallback: set<User>, manager: Option<User>,
    lower: string -> string, separates: char -> bool)
  {
    if exists a <- approvers :: Covers(a, summary, lower, separates)
      then exists a <- approvers :: Covers(a, summary, lower, separates) && a.user == who
    else if exists a <- approvers :: a.catchall then exists a <- approvers :: a.catchall && a.user == who
    else if envFallback != {} then who in envFallback
    else manager == Some(who) && who != ""
  }

  /** Whatever happens between the workers: a request whose approvers were selected for its summary and
      that comes back approved was approved by a click of someone on the deciding rung. If somebody's scope
      names a word of the summary, it was such a person; a catch-all approver only if nobody's does; someone
      from the environment's list only if there is no catch-all either; and else the manager. */
  lemma ApprovedByTheRightPerson(
    ls: seq<Label>, r: Req, summary: string, approvers: seq<Approver>, envFallback: set<User>, manager: Option<User>,
    lower: string -> string, separates: char -> bool) returns (n: nat)
    requires Can(START, ls) && r in Run(START, ls).requests
    requires Run(START, ls).requests[r].approvers == SelectApprovers(summary, approvers, envFallback, manager, lower, separates)
    requires var p := Run(START, ls).requests[r].phase; p.Returned? && p.decision.approved
    ensures var s := Run(START, ls);
      && n < |s.wins| && s.wins[n].id == s.requests[r].id && s.wins[n].winner.Clicker? && s.wins[n].winner.verb != Deny
      && Pressed(ls, s.wins[n].winner.click, s.wins[n].winner.verb, s.wins[n].id, s.wins[n].winner.user)
      && OnTheRung(s.wins[n].winner.user, summary, approvers, envFallback, manager, lower, separates)
  {
    var s := Run(START, ls);
    var q := s.requests[r];
    AuthorizedEndToEnd(ls, r);
    n :| ApprovalInvariant.WonAt(s, n, q.id) && ApprovingClick(ls, s.wins[n], q.approvers, q.phase.decision);
    RungsInOrder(summary, approvers, envFallback, manager, lower, separates, s.wins[n].winner.user);
  }

  // ---- action ids ----

  const PREFIX := "jean_appr:"

  function VerbName(v: Verb): string {
    match v case Approve => "approve" case Always => "always" case Deny => "deny"
  }

  /** The action id of a button. */
  function ActionId(v: Verb, id: string): string {
    PREFIX + VerbName(v) + ":" + id
  }

  /** `.+` stops at a newline, and `$` also matches before a last one. */
  function IdPart(rest: string): Option<string> {
    var id := if rest != "" && rest[|rest| - 1] == '\n' then rest[..|rest| - 1] else rest;
    if id != "" && '\n' !in id then Some(id) else None
  }

  function TakeVerb(s: string): Option<(Verb, string)> {
    if "approve:" <= s then Some((Approve, s[|"approve:"|..]))
    else if "always:" <= s then Some((Always, s[|"always:"|..]))
    else if "deny:" <= s then Some((Deny, s[|"deny:"|..]))
    else None
  }

  lemma TakeVerbIsExact(s: string, v: Verb, rest: string)
    ensures TakeVerb(s) == Some((v, rest)) <==> s == VerbName(v) + ":" + rest
  {
    if s == VerbName(v) + ":" + rest {
      assert s[1] == VerbName(v)[1];
      assert s[|VerbName(v)| + 1..] == rest;
      assert "approve:" <= s ==> s[1] == "approve:"[1];
      assert "always:" <= s ==> s[1] == "always:"[1];
    }
  }

  /** `ACTION_RE.match`. */
  function ParseAction(action: string): Option<(Verb, string)> {
    if !(PREFIX <= action) then None
    else
      match TakeVerb(action[|PREFIX|..])
      case None => None
      case Some((v, rest)) => if IdPart(rest).Some? then Some((v, IdPart(rest).value)) else None
  }

  lemma IdPartIsExact(rest: string, id: string)
    ensures IdPart(rest) == Some(id) <==> id != "" && '\n' !in id && (rest == id || rest == id + "\n")
  {
    if rest != "" { assert rest == rest[..|rest| - 1] + [rest[|rest| - 1]]; }
    if id != "" && rest == id { assert id[|id| - 1] in id; }
  }

  lemma AfterPrefix(action: string, tail: string)
    ensures action == PREFIX + tail <==> PREFIX <= action && action[|PREFIX|..] == tail
  {
    if PREFIX <= action { assert action == PREFIX + action[|PREFIX|..]; }
  }

  lemma ActionIdIs(v: Verb, id: string)
    ensures ActionId(v, id) == PREFIX + (VerbName(v) + ":" + id)
    ensures ActionId(v, id) + "\n" == PREFIX + (VerbName(v) + ":" + (id + "\n"))
  {
  }

  /** The action ids that parse are exactly the ones the buttons carry (a stray last newline is let
      pass), and each parses to the verb and the id it was made of. */
  lemma ActionRoundTrip(action: string, v: Verb, id: string)
    ensures ParseAction(action) == Some((v, id)) <==>
      id != "" && '\n' !in id && (action == ActionId(v, id) || action == ActionId(v, id) + "\n")
  {
    var tail, stray := VerbName(v) + ":" + id, VerbName(v) + ":" + (id + "\n");
    ActionIdIs(v, id);
    AfterPrefix(action, tail);
    AfterPrefix(action, stray);
    if PREFIX <= action {
      var s := action[|PREFIX|..];
      TakeVerbIsExact(s, v, id);
      TakeVerbIsExact(s, v, id + "\n");
      if TakeVerb(s).Some? { IdPartIsExact(TakeVerb(s).value.1, id); }
    }
  }

  // ---- the gate ----

  /** One worker's part of the counters. */
  function OnWorker(pending: map<Slot, nat>, worker: nat): map<Key, nat> {
    map slot | slot in pending && slot.worker == worker :: slot.key := pending[slot]
  }

  lemma SlotOf(pending: map<Slot, nat>, worker: nat, k: Key)
    ensures k in OnWorker(pending, worker) <==> Slot(worker, k) in pending
    ensures k in OnWorker(pending, worker) ==> OnWorker(pending, worker)[k] == pending[Slot(worker, k)]
  {
    if Slot(worker, k) in pending { assert Slot(worker, k).key == k; }
  }

  /** The machine's counters move on one worker as that worker's gate moves its own: `CountIn` is the
      machine's `Post`, `CountOut` its `Leave` and its `Fail`. */
  lemma CountsInOnItsWorker(pending: map<Slot, nat>, slot: Slot, worker: nat)
    ensures OnWorker(Counted(pending, slot), worker)
      == if slot.worker == worker then Counted(OnWorker(pending, worker), slot.key) else OnWorker(pending, worker)
  {
    var after := OnWorker(Counted(pending, slot), worker);
    forall k: Key
      ensures (k in OnWorker(pending, worker) <==> Slot(worker, k) in pending) && (k in after <==> Slot(worker, k) in Counted(pending, slot))
    {
      SlotOf(pending, worker, k);
      SlotOf(Counted(pending, slot), worker, k);
    }
  }

  lemma CountsOutOnItsWorker(pending: map<Slot, nat>, slot: Slot, worker: nat)
    ensures OnWorker(Uncounted(pending, slot), worker)
      == if slot.worker == worker then Uncounted(OnWorker(pending, worker), slot.key) else OnWorker(pending, worker)
  {
    var after := OnWorker(Uncounted(pending, slot), worker);
    forall k: Key
      ensures (k in OnWorker(pending, worker) <==> Slot(worker, k) in pending) && (k in after <==> Slot(worker, k) in Uncounted(pending, slot))
    {
      SlotOf(pending, worker, k);
      SlotOf(Uncounted(pending, slot), worker, k);
    }
  }

  class ApprovalGate {
    var pending: map<Key, nat>

    constructor ()
      ensures pending == map[]
    {
      pending := map[];
    }

    /** Before `wait`. */
    method CountIn(key: Key)
      modifies this
      ensures pending == Counted(old(pending), key)
    {
      pending := pending[key := (if key in pending then pending[key] else 0) + 1];
    }

    /** After it, however it ended. */
    method CountOut(key: Key)
      modifies this
      ensures pending == Uncounted(old(pending), key)
    {
      if (if key in pending then pending[key] else 0) <= 1 {
        pending := pending - {key};
      } else {
        pending := pending[key := pending[key] - 1];
      }
    }

    /** On a worker whose counters are where a run of the protocol has left them, the answer is whether a
        request is waiting on the thread there. */
    method PendingFor(key: Key, ghost worker: nat, ghost ls: seq<Label>) returns (waiting: bool)
      requires Can(START, ls) && pending == OnWorker(Run(START, ls).pending, worker)
      ensures waiting <==> exists r | r in Run(START, ls).requests :: WaitsOn(Run(START, ls), r, Slot(worker, key))
    {
      waiting := key in pending && pending[key] > 0;
      ghost var s, slot := Run(START, ls), Slot(worker, key);
      PendingIsTheNumberWaiting(ls, slot);
      assert slot in s.pending ==> slot.key in pending;
      assert forall r :: r in WaitingOn(s, slot) <==> r in s.requests && WaitsOn(s, r, slot);
      if r :| r in WaitingOn(s, slot) { assert WaitsOn(s, r, slot); }
    }
  }

  predicate WaitsOn(s: State, r: Req, slot: Slot)
    requires r in s.requests
  {
    Waiting(s.requests[r].phase) && s.requests[r].slot == slot
  }
}
