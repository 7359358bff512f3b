/** `MemoryStore`: dictionaries of mutable rows, updated in place. Every method does what `Memory`
    says the call does, and no row it hands out is one it keeps. */
module MemoryStores {
  import opened Wrappers
  import opened Rows
  import R = Rows
  import opened Stores

  class SessionRow {
    var sid: Option<Sid>
    var mode: Option<Mode>
    var lastActive: Time
    var turn: nat
    var partner: Option<User>

    constructor (r: Row)
      ensures Value() == r
    {
      sid, mode, lastActive, turn, partner := r.sid, r.mode, r.lastActive, r.turn, r.partner;
    }

    function Value(): Row
      reads this
    {
      Row(sid, mode, lastActive, turn, partner)
    }
  }

  class MemoryStore {
    var sessions: map<Key, SessionRow>
    var transcripts: map<Key, Blob>
    var approvals: map<string, Approval>

    /** The rows the store keeps. */
    ghost function Rows(): set<SessionRow>
      reads this
    {
      sessions.Values
    }

    /** No two threads share a row. */
    ghost predicate Valid()
      reads this
    {
      forall j, k | j in sessions && k in sessions && j != k :: sessions[j] != sessions[k]
    }

    ghost function View(): Db
      reads this, Rows()
    {
      Db(map k | k in sessions :: sessions[k].Value(), transcripts, approvals)
    }

    ghost function RowOf(key: Key): Option<Row>
      reads this, Rows()
    {
      if key in sessions then Some(sessions[key].Value()) else None
    }

    constructor ()
      ensures Valid() && View() == EMPTY && Rows() == {}
    {
      sessions, transcripts, approvals := map[], map[], map[];
    }

    /** The row handed out is a copy: a caller that assigns to it does not reach the store. */
    method GetSession(key: Key) returns (row: SessionRow?)
      requires Valid()
      ensures Memory(View(), Stores.GetSession(key), 0) == (View(), TheRow(if row == null then None else Some(row.Value())))
      ensures row != null ==> fresh(row)
    {
      if key in sessions {
        row := new SessionRow(sessions[key].Value());
      } else {
        row := null;
      }
    }

    method UpsertSession(key: Key, sid: Option<Sid>, mode: Option<Mode>, touch: bool, now: Time)
      requires Valid()
      modifies this`sessions
      ensures Valid() && View() == Memory(old(View()), Stores.UpsertSession(key, sid, mode, touch), now).0
      ensures fresh(Rows() - old(Rows())) && RowOf(key) == Some(Upsert(old(RowOf(key)), sid, mode, touch, now))
    {
      var existing := if key in sessions then Some(sessions[key].Value()) else None;
      var row := new SessionRow(Upsert(existing, sid, mode, touch, now));
      sessions := sessions[key := row];
    }

    method SetPartner(key: Key, user: Option<User>, now: Time)
      requires Valid()
      modifies this`sessions, Rows()
      ensures Valid() && View() == Memory(old(View()), PutPartner(key, user), now).0
      ensures fresh(Rows() - old(Rows()))
    {
      if key !in sessions {
        UpsertSession(key, None, None, false, now);
      }
      sessions[key].partner := user;
    }

    method GetPartner(key: Key) returns (user: Option<User>)
      ensures Memory(View(), Stores.GetPartner(key), 0) == (View(), ThePartner(user))
    {
      user := if key in sessions then sessions[key].partner else None;
    }

    method BumpTurn(key: Key, now: Time) returns (turn: nat)
      requires Valid()
      modifies this`sessions, Rows()
      ensures Valid() && View() == Memory(old(View()), Bump(key), now).0
      ensures TheTurn(turn) == Memory(old(View()), Bump(key), now).1
      ensures fresh(Rows() - old(Rows()))
      ensures RowOf(key) == Some(R.BumpTurn(old(RowOf(key)), now)) && turn == RowOf(key).value.turn
    {
      if key !in sessions {
        UpsertSession(key, None, None, true, now);
      }
      var row := sessions[key];
      assert View().sessions[key] == row.Value();
      row.turn := row.turn + 1;
      turn := row.turn;
    }

    /** `Failure` is the `LookupError` for a thread without a session row. */
    method Save(key: Key, sid: Sid, data: Bytes) returns (done: Result<(), Key>)
      modifies this`transcripts
      ensures View() == Memory(old(View()), Stores.Save(key, sid, data), 0).0
      ensures key in sessions ==> transcripts == old(transcripts)[key := Blob(sid, data)]
      ensures (if done.Success? then Nothing else NoSession) == Memory(old(View()), Stores.Save(key, sid, data), 0).1
    {
      if key !in sessions {
        return Failure(key);
      }
      transcripts := transcripts[key := Blob(sid, data)];
      return Success(());
    }

    method Load(key: Key, sid: Sid) returns (data: Option<Bytes>)
      ensures Memory(View(), Stores.Load(key, sid), 0) == (View(), TheData(data))
    {
      if key !in transcripts || transcripts[key].sid != sid {
        return None;
      }
      return Some(transcripts[key].data);
    }

    method Resolve(id: string, approved: bool, who: User, scope: string, now: Time) returns (ok: bool)
      modifies this`approvals
      ensures View() == Memory(old(View()), Stores.Resolve(id, approved, who, scope), now).0
      ensures Resolved(ok) == Memory(old(View()), Stores.Resolve(id, approved, who, scope), now).1
    {
      if id !in approvals || approvals[id].decision.Some? {
        return false;
      }
      var row := approvals[id];
      approvals := approvals[id := row.(decision := Some(Decision(approved, who, scope)), resolvedAt := Some(now))];
      return true;
    }

    method DeleteApprovals(ids: set<string>)
      modifies this`approvals
      ensures approvals == old(approvals) - ids
      ensures View() == old(View()).(approvals := approvals)
    {
      var left := ids;
      while left != {}
        invariant left <= ids && approvals == old(approvals) - (ids - left)
      {
        var id :| id in left;
        approvals := approvals - {id};
        left := left - {id};
      }
    }

    /** A session's transcript goes with it. */
    method DeleteSessions(keys: set<Key>)
      modifies this`sessions, this`transcripts
      ensures sessions == old(sessions) - keys && transcripts == old(transcripts) - keys
      ensures View().sessions == old(View()).sessions - keys
    {
      var left := keys;
      while left != {}
        invariant left <= keys
        invariant sessions == old(sessions) - (keys - left) && transcripts == old(transcripts) - (keys - left)
      {
        var k :| k in left;
        sessions := sessions - {k};
        transcripts := transcripts - {k};
        left := left - {k};
      }
    }

    method StaleKeys(cutoff: Time) returns (keys: set<Key>)
      ensures keys == StaleSessions(View(), cutoff) && keys <= sessions.Keys
    {
      keys := set k | k in sessions && sessions[k].lastActive < cutoff;
      assert forall k | k in sessions :: View().sessions[k].lastActive == sessions[k].lastActive;
    }

    method Prune(sessionsOlderThan: Time, approvalsOlderThan: Time) returns (approvalsDeleted: nat, sessionsDeleted: nat)
      requires Valid()
      modifies this
      ensures Valid() && forall k <- sessions :: k in old(sessions) && sessions[k] == old(sessions)[k]
      ensures View() == Memory(old(View()), Stores.Prune(sessionsOlderThan, approvalsOlderThan), 0).0
      ensures Pruned(approvalsDeleted, sessionsDeleted) ==
        Memory(old(View()), Stores.Prune(sessionsOlderThan, approvalsOlderThan), 0).1
    {
      ghost var was := View();
      var ids := StaleApprovals(approvals, approvalsOlderThan);
      var keys := StaleKeys(sessionsOlderThan);
      DeleteApprovals(ids);
      DeleteSessions(keys);
      approvalsDeleted, sessionsDeleted := |ids|, |keys|;
      PruneMeans(was, sessionsOlderThan, approvalsOlderThan, ids, keys);
    }
  }

  lemma PruneMeans(db: Db, older: Time, olderApprovals: Time, ids: set<string>, keys: set<Key>)
    requires ids == StaleApprovals(db.approvals, olderApprovals) && keys == StaleSessions(db, older)
    ensures Memory(db, Stores.Prune(older, olderApprovals), 0)
         == (Db(db.sessions - keys, db.transcripts - keys, db.approvals - ids), Pruned(|ids|, |keys|))
  {
  }
}
