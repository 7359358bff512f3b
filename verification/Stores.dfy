/** The two stores: the dictionaries of `MemoryStore` and the tables of `PostgresStore`. Every
    sequence of calls gives the same answers on both. */
module Stores {
  import opened Wrappers
  import opened Rows

  datatype Key = Key(channel: string, thread: string)

  datatype Decision = Decision(approved: bool, who: User, scope: string)

  datatype Approval = Approval(
    key: Key, summary: string, approvers: set<User>, decision: Option<Decision>, resolvedAt: Option<Time>)

  // ---- the calls ----

  datatype Call =
    | GetSession(key: Key)
    | UpsertSession(key: Key, newSid: Option<Sid>, mode: Option<Mode>, touch: bool)
    | PutPartner(key: Key, user: Option<User>)
    | GetPartner(key: Key)
    | Bump(key: Key)
    | Save(key: Key, sid: Sid, data: Bytes)
    | Load(key: Key, sid: Sid)
    | CreateApproval(id: string, key: Key, summary: string)
    | SetApprovers(id: string, users: set<User>)
    | ApproversOf(id: string)
    | GetPending(id: string)
    | Resolve(id: string, approved: bool, who: User, scope: string)
    | Prune(sessionsOlderThan: Time, approvalsOlderThan: Time)

  datatype Reply =
    | Nothing
    | NoSession                                    // `save` without a session row
    | TheRow(row: Option<Row>)
    | ThePartner(user: Option<User>)
    | TheTurn(turn: nat)
    | TheData(data: Option<Bytes>)
    | TheUsers(users: set<User>)
    | ThePending(pending: Option<(Key, string)>)
    | Resolved(ok: bool)
    | Pruned(approvals: nat, sessions: nat)

  function Get<K, V>(m: map<K, V>, k: K): Option<V> {
    if k in m then Some(m[k]) else None
  }

  // ---- MemoryStore, as values ----

  datatype Db = Db(sessions: map<Key, Row>, transcripts: map<Key, Blob>, approvals: map<string, Approval>)

  const EMPTY := Db(map[], map[], map[])

  type Approvals = map<string, Approval>

  predicate Undecided(approvals: Approvals, id: string) {
    id in approvals && approvals[id].decision.None?
  }

  function WithRow(approvals: Approvals, id: string, key: Key, summary: string): Approvals {
    if id in approvals then approvals else approvals[id := Approval(key, summary, {}, None, None)]
  }

  function WithApprovers(approvals: Approvals, id: string, users: set<User>): Approvals {
    if id in approvals then approvals[id := approvals[id].(approvers := users)] else approvals
  }

  /** `resolve`: only a row that is there and undecided changes. */
  function WithDecision(approvals: Approvals, id: string, d: Decision, now: Time): Approvals {
    if Undecided(approvals, id) then approvals[id := approvals[id].(decision := Some(d), resolvedAt := Some(now))] else approvals
  }

  function StaleApprovals(approvals: Approvals, cutoff: Time): set<string> {
    set id | id in approvals && approvals[id].resolvedAt.Some? && approvals[id].resolvedAt.value < cutoff
  }

  function StaleSessions(db: Db, cutoff: Time): set<Key> {
    set k | k in db.sessions && db.sessions[k].lastActive < cutoff
  }

  function Memory(db: Db, c: Call, now: Time): (Db, Reply) {
    match c
    case GetSession(k) => (db, TheRow(Get(db.sessions, k)))
    case UpsertSession(k, sid, mode, touch) =>
      (db.(sessions := db.sessions[k := Upsert(Get(db.sessions, k), sid, mode, touch, now)]), Nothing)
    case PutPartner(k, user) =>
      (db.(sessions := db.sessions[k := SetPartner(Get(db.sessions, k), user, now)]), Nothing)
    case GetPartner(k) => (db, ThePartner(if k in db.sessions then db.sessions[k].partner else None))
    case Bump(k) =>
      var row := BumpTurn(Get(db.sessions, k), now);
      (db.(sessions := db.sessions[k := row]), TheTurn(row.turn))
    case Save(k, sid, data) =>
      if k !in db.sessions then (db, NoSession)
      else (db.(transcripts := db.transcripts[k := Blob(sid, data)]), Nothing)
    case Load(k, sid) => (db, TheData(LoadBlob(Get(db.transcripts, k), sid)))
    case CreateApproval(id, k, summary) => (db.(approvals := WithRow(db.approvals, id, k, summary)), Nothing)
    case SetApprovers(id, users) => (db.(approvals := WithApprovers(db.approvals, id, users)), Nothing)
    case ApproversOf(id) => (db, TheUsers(if id in db.approvals then db.approvals[id].approvers else {}))
    case GetPending(id) =>
      (db, ThePending(if id in db.approvals then Some((db.approvals[id].key, db.approvals[id].summary)) else None))
    case Resolve(id, approved, who, scope) =>
      (db.(approvals := WithDecision(db.approvals, id, Decision(approved, who, scope), now)), Resolved(Undecided(db.approvals, id)))
    case Prune(sCut, aCut) =>
      var ids, keys := StaleApprovals(db.approvals, aCut), StaleSessions(db, sCut);
      (Db(db.sessions - keys, db.transcripts - keys, db.approvals - ids), Pruned(|ids|, |keys|))
  }

  // ---- PostgresStore, as tables ----

  datatype SessionRec = SessionRec(
    sdk_session_id: Option<Sid>, permission_mode: Option<Mode>, last_active_at: Time,
    turn_seq: nat, engaged_with: Option<User>)

  /** gzip is lossless: the compressed bytes stand for the bytes they expand to. */
  datatype Gzip = Gzip(expands: Bytes)

  datatype TranscriptRec = TranscriptRec(sdk_session_id: Sid, data: Gzip, raw_bytes: nat, updated_at: Time)

  datatype Status = Pending | Approved | Denied

  datatype ApprovalRec = ApprovalRec(
    key: Key, summary: string, status: Status, approved: Option<bool>, approver_id: Option<User>,
    approvers: set<User>, scope: string, resolved_at: Option<Time>)

  datatype Tables = Tables(
    sessions: map<Key, SessionRec>, transcripts: map<Key, TranscriptRec>, approvals: map<string, ApprovalRec>)

  function Coalesce<T>(a: Option<T>, b: Option<T>): Option<T> {
    if a.Some? then a else b
  }

  /** `INSERT ... ON CONFLICT DO UPDATE`: the `inserted` record, or `update` applied to the one there. */
  function InsertOrUpdate<R>(table: map<Key, R>, k: Key, inserted: R, update: R -> R): map<Key, R> {
    table[k := if k in table then update(table[k]) else inserted]
  }

  /** `DELETE FROM sessions WHERE ...`, with the foreign key's `ON DELETE CASCADE`. */
  function DeleteSessions(t: Tables, keys: set<Key>): Tables {
    t.(sessions := t.sessions - keys, transcripts := t.transcripts - keys)
  }

  /** `UPDATE approvals SET status=..., resolved_at=...` of the rows the WHERE clause hits. */
  function UpdateDecided(approvals: map<string, ApprovalRec>, hit: set<string>, d: Decision, now: Time): map<string, ApprovalRec> {
    map i | i in approvals ::
      if i in hit then
        approvals[i].(status := if d.approved then Approved else Denied, approved := Some(d.approved),
                      approver_id := Some(d.who), scope := d.scope, resolved_at := Some(now))
      else approvals[i]
  }

  function ReadRow(r: SessionRec): Row {
    Row(r.sdk_session_id, r.permission_mode, r.last_active_at, r.turn_seq, r.engaged_with)
  }

  function Sql(t: Tables, c: Call, now: Time): (Tables, Reply) {
    match c
    case GetSession(k) => (t, TheRow(if k in t.sessions then Some(ReadRow(t.sessions[k])) else None))
    case UpsertSession(k, sid, mode, touch) =>
      var sessions := InsertOrUpdate(t.sessions, k,
        SessionRec(sid, mode, if touch then now else 0, 0, None),
        (r: SessionRec) => r.(sdk_session_id := Coalesce(sid, r.sdk_session_id),
                              permission_mode := Coalesce(mode, r.permission_mode),
                              last_active_at := if touch then now else r.last_active_at));
      (t.(sessions := sessions), Nothing)
    case PutPartner(k, user) =>
      var sessions := InsertOrUpdate(t.sessions, k, SessionRec(None, None, 0, 0, user),
        (r: SessionRec) => r.(engaged_with := user));
      (t.(sessions := sessions), Nothing)
    case GetPartner(k) => (t, ThePartner(if k in t.sessions then t.sessions[k].engaged_with else None))
    case Bump(k) =>
      var sessions := InsertOrUpdate(t.sessions, k, SessionRec(None, None, now, 1, None),
        (r: SessionRec) => r.(turn_seq := r.turn_seq + 1));
      (t.(sessions := sessions), TheTurn(sessions[k].turn_seq))
    case Save(k, sid, data) =>
      if k !in t.sessions then (t, NoSession)   // the foreign key
      else
        var rec := TranscriptRec(sid, Gzip(data), |data|, now);
        (t.(transcripts := InsertOrUpdate(t.transcripts, k, rec, (r: TranscriptRec) => rec)), Nothing)
    case Load(k, sid) =>
      (t, TheData(if k !in t.transcripts || t.transcripts[k].sdk_session_id != sid then None
                  else Some(t.transcripts[k].data.expands)))
    case CreateApproval(id, k, summary) =>
      if id in t.approvals then (t, Nothing)
      else (t.(approvals := t.approvals[id := ApprovalRec(k, summary, Pending, None, None, {}, "once", None)]), Nothing)
    case SetApprovers(id, users) =>
      (t.(approvals := map i | i in t.approvals :: if i == id then t.approvals[i].(approvers := users) else t.approvals[i]),
       Nothing)
    case ApproversOf(id) => (t, TheUsers(if id in t.approvals then t.approvals[id].approvers else {}))
    case GetPending(id) =>
      (t, ThePending(if id in t.approvals then Some((t.approvals[id].key, t.approvals[id].summary)) else None))
    case Resolve(id, approved, who, scope) =>
      var hit := set i | i in t.approvals && i == id && t.approvals[i].status == Pending;
      (t.(approvals := UpdateDecided(t.approvals, hit, Decision(approved, who, scope), now)), Resolved(hit != {}))
    case Prune(sCut, aCut) =>
      var ids := set i | i in t.approvals && t.approvals[i].resolved_at.Some? && t.approvals[i].resolved_at.value < aCut;
      var keys := set k | k in t.sessions && t.sessions[k].last_active_at < sCut;
      (DeleteSessions(t.(approvals := t.approvals - ids), keys), Pruned(|ids|, |keys|))
  }

  // ---- they agree ----

  function ReadApproval(r: ApprovalRec): Approval {
    Approval(r.key, r.summary, r.approvers,
             if r.status == Pending then None
             else Some(Decision(r.approved.GetOr(false), r.approver_id.GetOr("unknown"), r.scope)),
             r.resolved_at)
  }

  /** The tables hold what the dictionaries hold. */
  ghost predicate Mirrors(db: Db, t: Tables) {
    && db.sessions.Keys == t.sessions.Keys && (forall k <- t.sessions :: db.sessions[k] == ReadRow(t.sessions[k]))
    && db.transcripts.Keys == t.transcripts.Keys
    && (forall k <- t.transcripts :: db.transcripts[k] == Blob(t.transcripts[k].sdk_session_id, t.transcripts[k].data.expands))
    && db.approvals.Keys == t.approvals.Keys
    && (forall i <- t.approvals :: db.approvals[i] == ReadApproval(t.approvals[i]))
  }

  predicate ApprovalCall(c: Call) {
    c.CreateApproval? || c.SetApprovers? || c.ApproversOf? || c.GetPending? || c.Resolve?
  }

  lemma ApprovalAgrees(db: Db, t: Tables, c: Call, now: Time)
    requires Mirrors(db, t) && ApprovalCall(c)
    ensures Memory(db, c, now).1 == Sql(t, c, now).1 && Mirrors(Memory(db, c, now).0, Sql(t, c, now).0)
  {
    if c.Resolve? {
      ResolveAgrees(db, t, c, now);
    } else if c.CreateApproval? {
      CreateAgrees(db, t, c, now);
    } else if c.SetApprovers? {
      ApproversAgree(db, t, c, now);
    }
  }

  lemma CreateAgrees(db: Db, t: Tables, c: Call, now: Time)
    requires Mirrors(db, t) && c.CreateApproval?
    ensures Memory(db, c, now).1 == Sql(t, c, now).1 && Mirrors(Memory(db, c, now).0, Sql(t, c, now).0)
  {
  }

  lemma ApproversAgree(db: Db, t: Tables, c: Call, now: Time)
    requires Mirrors(db, t) && c.SetApprovers?
    ensures Memory(db, c, now).1 == Sql(t, c, now).1 && Mirrors(Memory(db, c, now).0, Sql(t, c, now).0)
  {
    var db', t' := Memory(db, c, now).0, Sql(t, c, now).0;
    assert t'.sessions == t.sessions && t'.transcripts == t.transcripts;
    forall i <- t'.approvals ensures db'.approvals[i] == ReadApproval(t'.approvals[i]) {}
  }

  lemma ResolveAgrees(db: Db, t: Tables, c: Call, now: Time)
    requires Mirrors(db, t) && c.Resolve?
    ensures Memory(db, c, now).1 == Sql(t, c, now).1 && Mirrors(Memory(db, c, now).0, Sql(t, c, now).0)
  {
    var hit := set i | i in t.approvals && i == c.id && t.approvals[i].status == Pending;
    var d := Decision(c.approved, c.who, c.scope);
    assert Undecided(db.approvals, c.id) <==> c.id in hit;
    forall i <- t.approvals
      ensures WithDecision(db.approvals, c.id, d, now)[i] == ReadApproval(UpdateDecided(t.approvals, hit, d, now)[i])
    {
      assert i in hit ==> i == c.id;
    }
  }

  lemma PruneAgrees(db: Db, t: Tables, c: Call, now: Time)
    requires Mirrors(db, t) && c.Prune?
    ensures Memory(db, c, now).1 == Sql(t, c, now).1 && Mirrors(Memory(db, c, now).0, Sql(t, c, now).0)
  {
    assert StaleApprovals(db.approvals, c.approvalsOlderThan) ==
      set i | i in t.approvals && t.approvals[i].resolved_at.Some? && t.approvals[i].resolved_at.value < c.approvalsOlderThan;
    assert StaleSessions(db, c.sessionsOlderThan) ==
      set k | k in t.sessions && t.sessions[k].last_active_at < c.sessionsOlderThan;
  }

  lemma SessionAgrees(db: Db, t: Tables, c: Call, now: Time)
    requires Mirrors(db, t) && !ApprovalCall(c) && !c.Prune?
    ensures Memory(db, c, now).1 == Sql(t, c, now).1 && Mirrors(Memory(db, c, now).0, Sql(t, c, now).0)
  {
  }

  /** The answers to a sequence of calls, each made at its own time. */
  function MemoryReplies(db: Db, calls: seq<(Call, Time)>): seq<Reply>
    decreases |calls|
  {
    if calls == [] then []
    else
      var (db', reply) := Memory(db, calls[0].0, calls[0].1);
      [reply] + MemoryReplies(db', calls[1..])
  }

  function SqlReplies(t: Tables, calls: seq<(Call, Time)>): seq<Reply>
    decreases |calls|
  {
    if calls == [] then []
    else
      var (t', reply) := Sql(t, calls[0].0, calls[0].1);
      [reply] + SqlReplies(t', calls[1..])
  }

  /** Whatever the callers do, they cannot tell the two stores apart. */
  lemma {:induction false} StoresAgree(db: Db, t: Tables, calls: seq<(Call, Time)>)
    requires Mirrors(db, t)
    ensures MemoryReplies(db, calls) == SqlReplies(t, calls)
    decreases |calls|
  {
    if calls != [] {
      var (c, now) := calls[0];
      if ApprovalCall(c) { ApprovalAgrees(db, t, c, now); }
      else if c.Prune? { PruneAgrees(db, t, c, now); }
      else { SessionAgrees(db, t, c, now); }
      StoresAgree(Memory(db, c, now).0, Sql(t, c, now).0, calls[1..]);
    }
  }

  // ---- integrity ----

  /** A transcript has a session row, and a decision was made when it was recorded as resolved. */
  ghost predicate Integrity(db: Db) {
    && db.transcripts.Keys <= db.sessions.Keys
    && forall id <- db.approvals :: db.approvals[id].decision.Some? <==> db.approvals[id].resolvedAt.Some?
  }

  /** Every transcript's row names a session. */
  ghost predicate Linked(db: Db) {
    forall k <- db.transcripts :: k in db.sessions && db.sessions[k].sid.Some?
  }

  /** Every call keeps the foreign key; prune takes a session's transcript with it and leaves every
      undecided approval; and no call ever un-names a session or takes a turn back, except that
      prune drops whole rows. */
  lemma CallKeeps(db: Db, c: Call, now: Time)
    requires Integrity(db)
    ensures var db' := Memory(db, c, now).0;
      && Integrity(db')
      && (forall k | k in db.sessions && k in db'.sessions ::
            && db.sessions[k].turn <= db'.sessions[k].turn
            && (db.sessions[k].sid.Some? ==> db'.sessions[k].sid.Some?))
      && (forall k <- db.sessions :: k !in db'.sessions ==> c.Prune? && k !in db'.transcripts)
      && (forall id <- db.approvals :: db.approvals[id].decision.None? ==>
            id in db'.approvals && (!c.Resolve? ==> db'.approvals[id].decision.None?))
  {
  }

  /** A transcript's row goes on naming a session, unless a transcript is saved for a row that names
      none; exactly that call breaks the link. */
  lemma LinkIsExact(db: Db, c: Call, now: Time)
    requires Integrity(db) && Linked(db)
    ensures Linked(Memory(db, c, now).0) <==> !(c.Save? && c.key in db.sessions && db.sessions[c.key].sid.None?)
  {
    var db' := Memory(db, c, now).0;
    if c.Save? && c.key in db.sessions && db.sessions[c.key].sid.None? { assert c.key in db'.transcripts; }
  }

  /** The database after a sequence of calls, each made at its own time. */
  function After(db: Db, calls: seq<(Call, Time)>): Db
    decreases |calls|
  {
    if calls == [] then db else After(Memory(db, calls[0].0, calls[0].1).0, calls[1..])
  }

  /** A `save` for a thread whose row names no session. */
  predicate SavesUnnamed(db: Db, c: Call) {
    c.Save? && c.key in db.sessions && db.sessions[c.key].sid.None?
  }

  /** Every transcript belongs to a named session, before the calls and after each of them. */
  ghost predicate AlwaysLinked(db: Db, calls: seq<(Call, Time)>)
    decreases |calls|
  {
    Linked(db) && (calls != [] ==> AlwaysLinked(Memory(db, calls[0].0, calls[0].1).0, calls[1..]))
  }

  predicate EverSavesUnnamed(db: Db, calls: seq<(Call, Time)>)
    decreases |calls|
  {
    calls != [] && (SavesUnnamed(db, calls[0].0) || EverSavesUnnamed(Memory(db, calls[0].0, calls[0].1).0, calls[1..]))
  }

  /** Over every sequence of calls the foreign key holds; and every transcript belongs to a named session
      all along if and only if no call saves for a row that names none. */
  lemma {:induction false} TranscriptsAreNamed(db: Db, calls: seq<(Call, Time)>)
    requires Integrity(db) && Linked(db)
    ensures Integrity(After(db, calls))
    ensures AlwaysLinked(db, calls) <==> !EverSavesUnnamed(db, calls)
    decreases |calls|
  {
    if calls != [] {
      var db' := Memory(db, calls[0].0, calls[0].1).0;
      CallKeeps(db, calls[0].0, calls[0].1);
      LinkIsExact(db, calls[0].0, calls[0].1);
      if Linked(db') { TranscriptsAreNamed(db', calls[1..]); } else { IntegrityStays(db', calls[1..]); }
    }
  }

  lemma {:induction false} IntegrityStays(db: Db, calls: seq<(Call, Time)>)
    requires Integrity(db)
    ensures Integrity(After(db, calls))
    decreases |calls|
  {
    if calls != [] {
      CallKeeps(db, calls[0].0, calls[0].1);
      IntegrityStays(Memory(db, calls[0].0, calls[0].1).0, calls[1..]);
    }
  }
}
