/** Approvals across workers: requests that create a row, post buttons and wait on it; clicks that resolve
    it; timeouts, notifications that may be late or lost, and retention. A step is the code between two
    awaits, with the query it ends in. */
module Approvals {
  import opened Wrappers
  import opened Rows
  import opened Stores

  type Req = nat
  type ClickId = nat

  datatype Slot = Slot(worker: nat, key: Key)

  datatype Phase =
    | Chosen                      // approvers picked, no row yet
    | Created
    | Listed                      // `set_approvers` done: the buttons can be posted
    | Connecting                  // in `wait`
    | Listening(woken: bool)      // LISTEN is up; `woken`: the future is set
    | Parked(woken: bool)         // the first read found the row pending (or missing)
    | Expiring                    // timed out, about to resolve it itself
    | Rereading
    | Decided(decision: Decision)
    | Returned(decision: Decision)
    | Raised

  datatype Request = Request(slot: Slot, id: string, approvers: set<User>, phase: Phase)

  datatype Verb = Approve | Always | Deny

  datatype Stage =
    | Clicked
    | Known                       // `get_pending` found the row
    | Cleared                     // the clicker is one of its approvers
    | Told(reply: ClickReply)

  datatype ClickReply = SaidApproved | SaidDenied | Gone | Unauthorized

  datatype Click = Click(verb: Verb, id: string, user: User, stage: Stage)

  datatype Winner = Clicker(click: ClickId, verb: Verb, user: User) | Timeout(req: Req)

  /** A `resolve` call that was told it resolved the row. */
  datatype Win = Win(id: string, winner: Winner, decision: Decision)

  /** `pending` holds every worker's `_pending` counter. `chosen` and `wins` are history: the approvers
      picked for each id ever handed out, and every successful `resolve`. */
  datatype State = State(
    rows: Stores.Approvals, requests: map<Req, Request>, clicks: map<ClickId, Click>, pending: map<Slot, nat>,
    notified: set<string>, chosen: map<string, set<User>>, wins: seq<Win>)

  datatype Label =
    | Ask(req: Req, slot: Slot, id: string, approvers: set<User>)    // the selection, and its refusal if empty
    | Create(req: Req)
    | List(req: Req)
    | Post(req: Req)                    // the buttons are up: count the request and enter `wait`
    | Listen(req: Req)
    | Wake(req: Req)                    // a notification for its id arrives
    | Read(req: Req)
    | Woken(req: Req)
    | Expire(req: Req)
    | ResolveSelf(req: Req, now: Time)
    | Reread(req: Req)
    | Leave(req: Req)
    | Fail(req: Req)                    // any await of an unfinished request raises, or it is cancelled
    | Press(click: ClickId, verb: Verb, id: string, user: User)
    | LookUp(click: ClickId)
    | Authorize(click: ClickId)
    | ResolveClick(click: ClickId, now: Time)
    | DropClick(click: ClickId)         // an await of a click raises
    | Retain(cutoff: Time)                // `prune` deletes rows decided before `cutoff`

  const SYSTEM_DENY := Decision(false, "system", "once")

  /** `row["approver_id"] or ...`, `row["scope"] or "once"`. */
  function OrElse(s: string, other: string): string {
    if s == "" then other else s
  }

  function Reading(d: Decision, nobody: User): Decision {
    Decision(d.approved, OrElse(d.who, nobody), OrElse(d.scope, "once"))
  }

  predicate Waiting(p: Phase) {
    p.Connecting? || p.Listening? || p.Parked? || p.Expiring? || p.Rereading? || p.Decided?
  }

  predicate Ended(p: Phase) {
    p.Returned? || p.Raised?
  }

  predicate Live(s: State, r: Req) {
    r in s.requests && !Ended(s.requests[r].phase)
  }

  predicate Enabled(s: State, l: Label) {
    match l
    case Ask(r, _, id, _) => r !in s.requests && id !in s.chosen
    case Create(r) => Live(s, r) && s.requests[r].phase == Chosen
    case List(r) => Live(s, r) && s.requests[r].phase == Created
    case Post(r) => Live(s, r) && s.requests[r].phase == Listed
    case Listen(r) => Live(s, r) && s.requests[r].phase == Connecting
    case Wake(r) => Live(s, r) && (s.requests[r].phase.Listening? || s.requests[r].phase.Parked?) && s.requests[r].id in s.notified
    case Read(r) => Live(s, r) && s.requests[r].phase.Listening?
    case Woken(r) => Live(s, r) && s.requests[r].phase == Parked(true)
    case Expire(r) => Live(s, r) && s.requests[r].phase.Parked?
    case ResolveSelf(r, _) => Live(s, r) && s.requests[r].phase == Expiring
    case Reread(r) => Live(s, r) && s.requests[r].phase == Rereading
    case Leave(r) => Live(s, r) && s.requests[r].phase.Decided?
    case Fail(r) => Live(s, r)
    case Press(c, _, _, _) => c !in s.clicks
    case LookUp(c) => c in s.clicks && s.clicks[c].stage == Clicked
    case Authorize(c) => c in s.clicks && s.clicks[c].stage == Known
    case ResolveClick(c, _) => c in s.clicks && s.clicks[c].stage == Cleared
    case DropClick(c) => c in s.clicks
    case Retain(_) => true
  }

  function To(s: State, r: Req, phase: Phase): State
    requires r in s.requests
  {
    s.(requests := s.requests[r := s.requests[r].(phase := phase)])
  }

  function Stands(s: State, c: ClickId, stage: Stage): State
    requires c in s.clicks
  {
    s.(clicks := s.clicks[c := s.clicks[c].(stage := stage)])
  }

  /** `self._pending[key] = self._pending.get(key, 0) + 1` */
  function Counted<K>(pending: map<K, nat>, slot: K): map<K, nat> {
    pending[slot := (if slot in pending then pending[slot] else 0) + 1]
  }

  /** The `finally` of the wait: the last one out removes the key. */
  function Uncounted<K>(pending: map<K, nat>, slot: K): map<K, nat> {
    if slot !in pending || pending[slot] <= 1 then pending - {slot} else pending[slot := pending[slot] - 1]
  }

  /** A `resolve` call: the guarded UPDATE, and the notification if it changed the row. */
  function Resolving(s: State, id: string, d: Decision, winner: Winner, now: Time): (State, bool) {
    if Undecided(s.rows, id)
    then (s.(rows := WithDecision(s.rows, id, d, now), notified := s.notified + {id}, wins := s.wins + [Win(id, winner, d)]), true)
    else (s, false)
  }

  function ClickDecision(c: Click): Decision {
    Decision(c.verb != Deny, c.user, if c.verb == Always then "always" else "once")
  }

  function ClickWinner(c: ClickId, k: Click): Winner {
    Clicker(c, k.verb, k.user)
  }

  function Step(s: State, l: Label): State
    requires Enabled(s, l)
  {
    match l
    case Ask(r, slot, id, approvers) =>
      s.(requests := s.requests[r := Request(slot, id, approvers, if approvers == {} then Returned(SYSTEM_DENY) else Chosen)],
         chosen := s.chosen[id := approvers])
    case Create(r) =>
      To(s.(rows := WithRow(s.rows, s.requests[r].id, s.requests[r].slot.key, "")), r, Created)
    case List(r) =>
      To(s.(rows := WithApprovers(s.rows, s.requests[r].id, s.requests[r].approvers)), r, Listed)
    case Post(r) => To(s.(pending := Counted(s.pending, s.requests[r].slot)), r, Connecting)
    case Listen(r) => To(s, r, Listening(false))
    case Wake(r) => To(s, r, if s.requests[r].phase.Listening? then Listening(true) else Parked(true))
    case Read(r) =>
      var id := s.requests[r].id;
      if id in s.rows && s.rows[id].decision.Some?
      then To(s, r, Decided(Reading(s.rows[id].decision.value, "unknown")))
      else To(s, r, Parked(s.requests[r].phase.woken))
    case Woken(r) => To(s, r, Rereading)
    case Expire(r) => To(s, r, Expiring)
    case ResolveSelf(r, now) => To(Resolving(s, s.requests[r].id, SYSTEM_DENY, Timeout(r), now).0, r, Rereading)
    case Reread(r) =>
      var id := s.requests[r].id;
      To(s, r, Decided(
        if id !in s.rows || s.rows[id].decision.None? then SYSTEM_DENY
        else Reading(s.rows[id].decision.value, "system")))
    case Leave(r) =>
      To(s.(pending := Uncounted(s.pending, s.requests[r].slot)), r, Returned(s.requests[r].phase.decision))
    case Fail(r) =>
      To(if Waiting(s.requests[r].phase) then s.(pending := Uncounted(s.pending, s.requests[r].slot)) else s, r, Raised)
    case Press(c, verb, id, user) => s.(clicks := s.clicks[c := Click(verb, id, user, Clicked)])
    case LookUp(c) => Stands(s, c, if s.clicks[c].id in s.rows then Known else Told(Gone))
    case Authorize(c) =>
      var id := s.clicks[c].id;
      Stands(s, c, if id in s.rows && s.clicks[c].user in s.rows[id].approvers then Cleared else Told(Unauthorized))
    case ResolveClick(c, now) =>
      var (after, won) := Resolving(s, s.clicks[c].id, ClickDecision(s.clicks[c]), ClickWinner(c, s.clicks[c]), now);
      Stands(after, c, Told(if !won then Gone else if s.clicks[c].verb == Deny then SaidDenied else SaidApproved))
    case DropClick(c) => s.(clicks := s.clicks - {c})
    case Retain(cutoff) => s.(rows := s.rows - StaleApprovals(s.rows, cutoff))
  }

  predicate Can(s: State, ls: seq<Label>)
    decreases |ls|
  {
    ls == [] || (Enabled(s, ls[0]) && Can(Step(s, ls[0]), ls[1..]))
  }

  function Run(s: State, ls: seq<Label>): State
    requires Can(s, ls)
    decreases |ls|
  {
    if ls == [] then s else Run(Step(s, ls[0]), ls[1..])
  }

  const START := State(map[], map[], map[], map[], {}, map[], [])
}
