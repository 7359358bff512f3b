/** `JeanSession`: the code of one worker's session, updating its fields, its files and the store in
    place. Whatever the environment does, what the code does is a run of the protocol's steps. */
module JeanSessions {
  import opened Wrappers
  import opened Rows
  import opened Stores
  import opened MemoryStores
  import opened LocalTranscripts
  import opened Replication
  import opened ReplicationRuns
  import opened TurnScripts

  /** `l` took the worker from `v` to `v'`; without a label nothing changed. */
  ghost predicate Did(v: Local, l: Option<Label>, v': Local) {
    if l.Some? then Enabled(v, l.value) && v' == Next(v, l.value) else v' == v
  }

  class JeanSession {
    const key: Key
    const cap: nat
    const store: MemoryStore
    const local: LocalTranscripts
    var client: Option<Client>
    var mode: Option<Mode>
    var seenSeq: nat
    var sid: Option<Sid>
    var liveSid: Option<Sid>
    var archived: bool
    var busy: bool
    ghost var phase: Phase     // where in `run_turn` the code is

    ghost predicate Valid()
      reads this, store, local, store.Rows()
    {
      store.Valid()
    }

    /** The protocol's view of the thread's shared state and of this worker. */
    ghost function At(): Local
      reads this, store, local, store.Rows()
    {
      Local(Shared(store.RowOf(key), Get(store.transcripts, key)),
            Worker(client, mode, seenSeq, sid, liveSid, archived, local.files, cap, phase))
    }

    constructor (key: Key, cap: nat, store: MemoryStore, local: LocalTranscripts)
      requires store.Valid()
      ensures Valid() && At().w == NewWorker(local.files, cap) && !busy
      ensures this.key == key && this.store == store && this.local == local
    {
      this.key, this.cap, this.store, this.local := key, cap, store, local;
      client, mode, seenSeq, sid, liveSid, archived, busy := None, None, 0, None, None, false, false;
      phase := Idle;
    }

    method Close()
      requires Valid()
      modifies this`client, this`archived, local
      ensures Valid() && At().sh == old(At().sh) && At().w == CloseSession(old(At().w))
    {
      client := None;
      if archived && sid.Some? {
        local.Delete(sid.value);
        archived := false;
      }
    }

    // ---- single steps ----

    /** Connect without an id to resume. */
    method OpenNewSession(row: Option<Row>, p: Plan) returns (ok: bool)
      requires Valid() && phase == Fresh(row) && liveSid.None?
      modifies this`client, this`mode, this`phase
      ensures Valid() && Did(old(At()), OpenStep(p), At()) && ok == p.opens
      ensures if ok then phase == Ready(row) && client.Some? else client == old(client) && phase == Fresh(row)
    {
      if !p.opens {
        return false;
      }
      client, mode := Some(Client(p.mint, ModeOf(row), "")), ModeOf(row);
      phase := Ready(row);
      return true;
    }

    /** Replace the local file with the store's copy, if the store has one for this id. */
    method Hydrate(id: Sid, p: Plan) returns (ok: bool)
      requires Valid() && phase.Loading? && phase.resume == id && client.None?
      modifies this`phase, local
      ensures Valid() && Did(old(At()), FillStep(old(At()), id, p), At()) && (p.load.LoadOk? ==> ok)
      ensures if ok then phase == Opening(old(phase).row, id, false) else phase == old(phase) || phase.Idle?
    {
      if p.load.LoadRaises? {
        return false;
      }
      var data := store.Load(key, id);
      if data.Some? {
        if p.load.WriteStops? && p.load.n <= |data.value| {
          local.WriteTorn(id, data.value, p.load.n);
          phase := Idle;
          return false;
        }
        local.Write(id, data.value);
      }
      phase := Opening(phase.row, id, false);
      return true;
    }

    /** Open a client on the local file; the CLI may refuse, and does when there is no file. */
    method OpenResumed(row: Option<Row>, id: Sid, p: Plan) returns (ok: bool)
      requires Valid() && phase.Opening? && phase.row == row && phase.resume == id
      modifies this`client, this`mode, this`liveSid, this`phase
      ensures Valid() && Did(old(At()), Some(if ok then Resume else Refuse), At())
      ensures if ok then phase == Ready(row) && client.Some? else phase == Refused(row, id) && client == old(client)
      ensures ok == (p.accepted && id in local.files)
    {
      var file := local.Read(id);
      if p.accepted && file.Some? {
        client, mode := Some(Client(id, ModeOf(row), file.value)), ModeOf(row);
        liveSid := Some(id);
        phase := Ready(row);
        return true;
      }
      phase := Refused(row, id);
      return false;
    }

    /** After a refused resume: open without one, delete the dead file, and say so in the thread. */
    method OpenFallback(row: Option<Row>, id: Sid, p: Plan) returns (ok: bool)
      requires Valid() && phase == Refused(row, id) && client.None?
      modifies this`client, this`mode, this`liveSid, this`phase, local
      ensures Valid() && Did(old(At()), FallbackStep(p), At()) && ok == (p.opens && p.apologyPosts)
      ensures if ok then phase == Ready(row) && client.Some? else (phase.Refused? || phase.Idle?) && client.None?
    {
      if !p.opens {
        return false;
      }
      if p.apologyPosts {
        OpenInstead(row, id, p.mint);
        return true;
      }
      FailToApologize(row, id);
      return false;
    }

    method OpenInstead(row: Option<Row>, id: Sid, mint: Sid)
      requires Valid() && phase == Refused(row, id) && client.None?
      modifies this`client, this`mode, this`liveSid, this`phase, local
      ensures Valid() && Did(old(At()), Some(Fallback(mint)), At()) && phase == Ready(row) && client.Some?
    {
      mode, liveSid, client := ModeOf(row), None, Some(Client(mint, ModeOf(row), ""));
      local.Delete(id);
      phase := Ready(row);
    }

    /** The client that was opened was never assigned. */
    method FailToApologize(row: Option<Row>, id: Sid)
      requires Valid() && phase == Refused(row, id) && client.None?
      modifies this`mode, this`liveSid, this`phase, local
      ensures Valid() && Did(old(At()), Some(FallbackMute), At()) && phase.Idle?
    {
      mode, liveSid := ModeOf(row), None;
      local.Delete(id);
      phase := Idle;
    }

    /** The start of `_connect`: move `_seen_seq` to the row's turn, and choose the file to resume. */
    method BeginConnect(row: Option<Row>) returns (resume: Option<Sid>, hydrate: bool)
      requires Valid() && phase == Looked(row) && client.None?
      modifies this`seenSeq, this`liveSid, this`phase
      ensures Valid() && Did(old(At()), Some(Begin), At()) && resume == SidOf(row)
      ensures phase == if resume.None? then Fresh(row) else if hydrate then Loading(row, resume.value)
                       else Opening(row, resume.value, true)
      ensures resume.None? ==> liveSid.None?
    {
      var committed := seenSeq;
      resume, hydrate := SidOf(row), false;
      seenSeq := TurnOf(row);
      if resume.None? {
        liveSid := None;
        phase := Fresh(row);
      } else {
        hydrate := !(sid == resume && !archived && seenSeq == committed && resume.value in local.files);
        phase := if hydrate then Loading(row, resume.value) else Opening(row, resume.value, true);
      }
    }

    /** `get_session` and the drop of an outdated client. */
    method LookUp() returns (row: Option<Row>)
      requires Valid() && phase.Idle?
      modifies this`client, this`archived, this`phase, local
      ensures Valid() && Did(old(At()), Some(Look), At()) && phase == Looked(row)
    {
      var copy := store.GetSession(key);
      row := if copy == null then None else Some(copy.Value());
      if client.Some? {
        var modeChanged := ModeOf(row) != mode;
        var stale := row.None? || row.value.turn != seenSeq;
        if modeChanged || stale {
          Close();
        }
      }
      phase := Looked(row);
    }

    /** The message stream names the session: remember it and write it to the row. */
    method NameSession(now: Time) returns (id: Sid)
      requires Valid() && phase.Streaming? && client.Some?
      modifies this`liveSid, this`phase, store`sessions
      ensures Valid() && Did(old(At()), Some(Name(now)), At()) && id == old(client).value.sid && fresh(store.Rows() - old(store.Rows()))
    {
      id := client.value.sid;
      StoreName(id, now);
      liveSid := Some(id);
      phase := Streaming(phase.row, Some(id));
    }

    method StoreName(id: Sid, now: Time)
      requires Valid()
      modifies store`sessions
      ensures Valid() && At().w == old(At().w) && fresh(store.Rows() - old(store.Rows()))
      ensures At().sh == old(At().sh).(row := Some(Upsert(old(At().sh.row), Some(id), None, true, now)))
    {
      store.UpsertSession(key, Some(id), None, true, now);
    }

    method BumpStored(now: Time) returns (turn: nat)
      requires Valid()
      modifies store`sessions, store.Rows()
      ensures Valid() && At().w == old(At().w) && fresh(store.Rows() - old(store.Rows())) && key in store.sessions
      ensures At().sh == old(At().sh).(row := Some(BumpTurn(old(At().sh.row), now))) && turn == TurnOf(At().sh.row)
    {
      turn := store.BumpTurn(key, now);
    }

    /** `bump_turn`. When the answer is lost, the turn fails: `run_turn` drops the client. */
    method CommitBump(id: Sid, p: Plan) returns (ok: bool)
      requires Valid() && phase.Streaming? && phase.named == Some(id)
      modifies this`client, this`seenSeq, this`phase, store`sessions, store.Rows()
      ensures Valid() && Did(old(At()), BumpStep(p), At()) && fresh(store.Rows() - old(store.Rows())) && ok == p.bump.BumpOk?
      ensures if ok then phase == Bumped(id) && key in store.sessions && client == old(client) else phase.Streaming? || client.None?
    {
      if p.bump.BumpRaises? {
        return false;
      }
      var turn := BumpStored(p.now);
      if p.bump.BumpOk? {
        seenSeq := turn;
        phase := Bumped(id);
        assert At().w == Next(old(At()), Label.Bump(p.now)).w;
        return true;
      }
      client, phase := None, Idle;
      assert At().w == Next(old(At()), BumpLost(p.now)).w;
      return false;
    }

    /** The CLI has written the first `n` bytes of the conversation by the time `_settle` returns. */
    method CliWrites(n: nat)
      requires Valid() && client.Some?
      modifies local
      ensures Valid() && Did(old(At()), FlushStep(old(At()), n), At())
    {
      var c := client.value;
      var data := local.Read(c.sid);
      var was := data.GetOr("");
      if |was| <= n <= |c.hist| && was <= c.hist {
        local.Append(c.sid, c.hist[|was|..n]);
        assert was + c.hist[|was|..n] == c.hist[..n];
      }
    }

    /** `_archive`: the file as it is now, unless there is none, it is over the cap, or the save fails. */
    method ArchiveFile(id: Sid, o: SaveOutcome)
      requires Valid() && phase == Bumped(id) && key in store.sessions
      modifies this`sid, this`archived, this`phase, store`transcripts
      ensures Valid() && Did(old(At()), Some(Archive(o)), At())
    {
      sid := Some(id);
      phase := Done;
      var data := local.Read(id);
      if data.Some? && |data.value| <= cap && !o.SaveFailed? {
        SaveFile(id, data.value, o);
      }
      assert At().w == Next(old(At()), Archive(o)).w;
    }

    method SaveFile(id: Sid, data: Bytes, o: SaveOutcome)
      requires Valid() && key in store.sessions
      modifies this`archived, store`transcripts
      ensures Valid() && At().w == old(At().w).(archived := if o.SaveOk? then true else old(archived))
      ensures At().sh == old(At().sh).(blob := Some(Blob(id, data)))
    {
      var _ := store.Save(key, id, data);
      if o.SaveOk? {
        archived := true;
      }
    }

    // ---- the turn ----

    /** `_connect`. On `!ok` it raised. */
    method Connect(row: Option<Row>, p: Plan, ghost t: Trace) returns (ok: bool)
      requires Valid() && phase == Looked(row) && client.None? && t.at == At()
      modifies this`client, this`mode, this`seenSeq, this`liveSid, this`phase, local
      ensures Valid() && At() == ConnectT(t, row, p).at && ok == phase.Ready?
      ensures if ok then phase == Ready(row) && client.Some? else client.None?
      ensures p.Clean() ==> ok
    {
      var resume, hydrate := BeginConnect(row);
      ghost var b := Go(t, Begin);
      if resume.None? {
        ok := ConnectNew(row, p, b);
        return;
      }
      if hydrate {
        ok := Fill(row, resume.value, p, b);
        if ok {
          ok := ConnectResumed(row, resume.value, p, FillT(b, resume.value, p));
        }
      } else {
        ok := ConnectResumed(row, resume.value, p, b);
      }
    }

    /** `_connect` when the row names no session. */
    method ConnectNew(row: Option<Row>, p: Plan, ghost t: Trace) returns (ok: bool)
      requires Valid() && phase == Fresh(row) && liveSid.None? && client.None? && t.at == At()
      modifies this`client, this`mode, this`phase
      ensures Valid() && At() == OpenNewT(t, p).at && ok == phase.Ready?
      ensures ok == p.opens && if ok then phase == Ready(row) && client.Some? else client.None?
    {
      ok := OpenNewSession(row, p);
    }

    /** Hydration, as a step of the run. */
    method Fill(row: Option<Row>, id: Sid, p: Plan, ghost t: Trace) returns (ok: bool)
      requires Valid() && phase == Loading(row, id) && client.None? && t.at == At()
      modifies this`phase, local
      ensures Valid() && At() == FillT(t, id, p).at && (p.load.LoadOk? ==> ok)
      ensures if ok then phase == Opening(row, id, false) else !phase.Opening? && !phase.Ready?
    {
      ok := Hydrate(id, p);
    }

    /** The second half of `_connect`: resume, or fall back to a fresh session. */
    method ConnectResumed(row: Option<Row>, id: Sid, p: Plan, ghost t: Trace) returns (ok: bool)
      requires Valid() && phase.Opening? && phase.row == row && phase.resume == id && client.None? && t.at == At()
      modifies this`client, this`mode, this`liveSid, this`phase, local
      ensures Valid() && At() == ResumeT(t, id, p).at && ok == phase.Ready?
      ensures if ok then phase == Ready(row) && client.Some? else client.None?
      ensures p.opens && p.apologyPosts ==> ok
    {
      ok := OpenResumed(row, id, p);
      if !ok {
        ok := OpenFallback(row, id, p);
      }
    }

    /** From here on the local file may be ahead of the store's copy. */
    method SendQuery()
      requires Valid() && phase.Ready? && client.Some?
      modifies this`archived, this`phase
      ensures Valid() && Did(old(At()), Some(Query), At()) && phase.Streaming? && phase.named.None? && client.Some?
    {
      archived := false;
      phase := Streaming(phase.row, None);
    }

    /** Send the query and read the response stream; `named` is the session id it carried, if any. */
    method Stream(p: Plan, ghost t: Trace) returns (named: Option<Sid>)
      requires Valid() && phase.Ready? && client.Some? && t.at == At()
      modifies this`client, this`liveSid, this`archived, this`phase, store`sessions
      ensures Valid() && At() == StreamT(Go(t, Query), p.stream, p.now).at && fresh(store.Rows() - old(store.Rows()))
      ensures client.Some? && phase.Streaming? && phase.named == named && named.Some? == p.Named()
    {
      SendQuery();
      named := ReceiveAll(p, Go(t, Query));
    }

    method ReceiveAll(p: Plan, ghost t: Trace) returns (named: Option<Sid>)
      requires Valid() && phase.Streaming? && phase.named.None? && client.Some? && t.at == At()
      modifies this`client, this`liveSid, this`phase, store`sessions
      ensures Valid() && At() == StreamT(t, p.stream, p.now).at && fresh(store.Rows() - old(store.Rows()))
      ensures client.Some? && phase.Streaming? && phase.named == named && named.Some? == p.Named()
    {
      named := None;
      for i := 0 to |p.stream|
        invariant Received(t, p.stream[..i], p.now) && fresh(store.Rows() - old(store.Rows()))
        invariant client.Some? && phase.Streaming? && phase.named == named && named.Some? == NamedIn(p.stream[..i])
      {
        named := ReceiveNext(p.stream, i, named, p.now, t);
      }
      assert p.stream[..|p.stream|] == p.stream;
    }

    /** The stream so far has been heard. */
    ghost predicate Received(t: Trace, stream: seq<Message>, now: Time)
      reads this, store, local, store.Rows()
    {
      Valid() && At() == StreamT(t, stream, now).at
    }

    method ReceiveNext(stream: seq<Message>, i: nat, was: Option<Sid>, now: Time, ghost t: Trace) returns (named: Option<Sid>)
      requires i < |stream| && Received(t, stream[..i], now)
      requires client.Some? && phase.Streaming? && phase.named == was && was.Some? == NamedIn(stream[..i])
      modifies this`client, this`liveSid, this`phase, store`sessions
      ensures Received(t, stream[..i + 1], now) && fresh(store.Rows() - old(store.Rows()))
      ensures client.Some? && phase.Streaming? && phase.named == named && named.Some? == NamedIn(stream[..i + 1])
    {
      StreamMore(t, stream, i, now);
      named := Receive(stream[i], was, now, StreamT(t, stream[..i], now));
    }

    method Receive(msg: Message, was: Option<Sid>, now: Time, ghost t: Trace) returns (named: Option<Sid>)
      requires Valid() && phase.Streaming? && phase.named == was && client.Some? && t.at == At()
      modifies this`client, this`liveSid, this`phase, store`sessions
      ensures Valid() && At() == HearT(t, msg, now).at && fresh(store.Rows() - old(store.Rows()))
      ensures client.Some? && phase.Streaming? && phase.named == named && named.Some? == (was.Some? || msg.named)
    {
      Hear(msg.adds);
      named := was;
      if msg.named {
        var id := NameSession(now);
        named := Some(id);
      }
    }

    /** What the CLI adds to the conversation. */
    method Hear(adds: Bytes)
      requires Valid() && phase.Streaming? && client.Some?
      modifies this`client
      ensures Valid() && Did(old(At()), Some(Emit(adds)), At()) && client.Some?
    {
      client := Some(client.value.(hist := client.value.hist + adds));
    }

    /** Settle and archive. When the settling or the read raises, nothing is saved and the turn fails. */
    method Keep(id: Sid, p: Plan, ghost t: Trace) returns (ok: bool)
      requires Valid() && phase == Bumped(id) && client.Some? && key in store.sessions && t.at == At()
      modifies this`sid, this`archived, this`phase, local, store`transcripts
      ensures Valid() && At() == KeepT(t, p).at && ok == p.keep.KeepOk? && !phase.Idle?
      ensures ok ==> phase.Done? && EndsWith(KeepT(t, p), Archive(p.save))
    {
      CliWrites(p.settled);
      ok := p.keep.KeepOk?;
      if !p.keep.SettleRaises? {
        ArchiveFile(id, if ok then p.save else SaveFailed);
      }
    }

    /** Bump, settle, archive. */
    method Commit(id: Sid, p: Plan, ghost t: Trace) returns (ok: bool)
      requires Valid() && phase.Streaming? && phase.named == Some(id) && client.Some? && t.at == At()
      modifies this`client, this`seenSeq, this`sid, this`archived, this`phase, local, store`sessions, store`transcripts, store.Rows()
      ensures Valid() && At() == CommitT(t, p).at && fresh(store.Rows() - old(store.Rows()))
      ensures ok == (p.bump.BumpOk? && p.keep.KeepOk?)
      ensures if ok then phase.Done? && EndsWith(CommitT(t, p), Archive(p.save)) else phase.Idle? ==> client.None?
    {
      ok := CommitBump(id, p);
      if ok {
        ok := Keep(id, p, Go(t, Label.Bump(p.now)));
      }
    }

    /** Read the row, and connect unless the cached client still fits it. */
    method Prepare(p: Plan) returns (ok: bool)
      requires Valid() && phase.Idle?
      modifies this`client, this`mode, this`seenSeq, this`liveSid, this`archived, this`phase, local
      ensures Valid() && At() == PrepareT(Trace([], old(At())), p).at && ok == phase.Ready?
      ensures if ok then client.Some? else client.None?
      ensures p.Clean() ==> ok
    {
      ghost var t := Go(Trace([], At()), Look);
      var row := LookUp();
      if client.None? {
        ok := Connect(row, p, t);
      } else {
        phase := Ready(row);
        ok := true;
      }
    }

    /** `get_session` raised. */
    method LookUpFails()
      requires Valid() && phase.Idle?
      modifies this`client
      ensures Valid() && Did(old(At()), Some(LookFail), At()) && client.None?
    {
      client := None;
    }

    /** With a client open: query, stream, and commit what was answered. */
    method Answer(p: Plan, ghost t: Trace) returns (ok: bool)
      requires Valid() && phase.Ready? && client.Some? && t.at == At()
      modifies this`client, this`seenSeq, this`sid, this`liveSid, this`archived, this`phase
      modifies local, store`sessions, store`transcripts, store.Rows()
      ensures Valid() && At() == AnswerT(t, p).at && fresh(store.Rows() - old(store.Rows())) && ok == Ends(p)
      ensures !ok && phase.Idle? ==> client.None?
      ensures ok ==> if p.Named() then phase.Done? && EndsWith(AnswerT(t, p), Archive(p.save)) else phase.Streaming? && phase.named.None?
    {
      var id := Stream(p, t);
      ok := p.streamEnds;
      if ok && id.Some? {
        ok := Commit(id.value, p, StreamT(Go(t, Query), p.stream, p.now));
      }
    }

    /** The end of `run_turn`: return, or drop the client and raise. */
    method Conclude(ok: bool, ghost t: Trace)
      requires Valid() && t.at == At()
      requires if ok then phase.Done? || (phase.Streaming? && phase.named.None?) else phase.Idle? ==> client.None?
      modifies this`client, this`phase
      ensures Valid() && At() == ConcludeT(t, ok).at && phase.Idle?
      ensures if ok then ConcludeT(t, ok).ls == t.ls + [Finish] else client.None?
    {
      if !ok {
        client := None;
      }
      phase := Idle;
    }

    /** The body of `run_turn`'s `try`. */
    method RunBody(p: Plan) returns (ok: bool)
      requires Valid() && phase.Idle?
      modifies this`client, this`mode, this`seenSeq, this`sid, this`liveSid, this`archived, this`phase
      modifies local, store`sessions, store`transcripts, store.Rows()
      ensures Valid() && At() == TriedT(old(At()), p).at && fresh(store.Rows() - old(store.Rows()))
      ensures ok == (PrepareT(Trace([], old(At())), p).at.w.phase.Ready? && Ends(p))
      ensures (p.Clean() ==> ok) && (!ok && phase.Idle? ==> client.None?)
      ensures ok ==> if p.Named() then phase.Done? && EndsWith(TriedT(old(At()), p), Archive(p.save)) else phase.Streaming? && phase.named.None?
    {
      ghost var t := PrepareT(Trace([], At()), p);
      ok := Prepare(p);
      if ok {
        ok := Answer(p, t);
      }
    }

    /** `run_turn` from its `try` on. */
    method RunTry(p: Plan) returns (ok: bool)
      requires Valid() && phase.Idle? && p.statusSet && p.rowReads
      modifies this`client, this`mode, this`seenSeq, this`sid, this`liveSid, this`archived, this`phase
      modifies local, store`sessions, store`transcripts, store.Rows()
      ensures Valid() && phase.Idle? && fresh(store.Rows() - old(store.Rows()))
      ensures At() == TurnT(old(At()), p).at && ok == Succeeds(old(At()), p)
      ensures p.Clean() ==> ok
      ensures if ok then SavedLast(TurnT(old(At()), p).ls, p) else client.None?
    {
      ghost var t := TriedT(At(), p);
      ok := RunBody(p);
      Conclude(ok, t);
    }

    /** All of `run_turn`. */
    method RunThrough(p: Plan) returns (ok: bool)
      requires Valid() && phase.Idle?
      modifies this`busy, this`client, this`mode, this`seenSeq, this`sid, this`liveSid, this`archived, this`phase
      modifies local, store`sessions, store`transcripts, store.Rows()
      ensures Valid() && phase.Idle? && fresh(store.Rows() - old(store.Rows()))
      ensures At() == TurnT(old(At()), p).at && ok == Succeeds(old(At()), p) && busy == !p.statusSet
      ensures p.Clean() ==> ok
      ensures if ok then SavedLast(TurnT(old(At()), p).ls, p) else p.statusSet ==> client.None?
    {
      busy := true;
      assert At() == old(At());
      ok := false;
      if p.statusSet {
        if p.rowReads {
          ok := RunTry(p);
        } else {
          LookUpFails();
        }
        busy := false;
      }
    }

    /** `run_turn`. Whatever the plan says goes wrong, the turn takes exactly the steps of `TurnT`, one after
        another: the protocol's own, from the worker's state before it to its state after it, where the worker
        is idle again. When nothing goes wrong it gets to the end, and has archived if it learnt its id. A
        turn on a thread whose session can be resumed goes on with that session. A turn whose first status
        call raises does nothing at all, but stays marked as busy. */
    method RunTurn(p: Plan) returns (ok: bool, ghost ls: seq<Label>)
      requires Valid() && phase.Idle?
      modifies this`busy, this`client, this`mode, this`seenSeq, this`sid, this`liveSid, this`archived, this`phase
      modifies local, store`sessions, store`transcripts, store.Rows()
      ensures Valid() && phase.Idle? && fresh(store.Rows() - old(store.Rows()))
      ensures Trace(ls, At()) == TurnT(old(At()), p) && ok == Succeeds(old(At()), p) && busy == !p.statusSet
      ensures Led(old(At()), ls, At(), p.mint) && (ls == [] <==> !p.statusSet)
      ensures p.statusSet ==> ls[0].Look? || ls[0].LookFail?
      ensures p.Clean() ==> ok
      ensures ok ==> SavedLast(ls, p)
      ensures !ok && p.statusSet ==> client.None?
      ensures GoesOn(old(At()), p) ==> WentOn(old(At()), At(), p) && SameSession(ls)
    {
      ghost var v := At();
      TurnLed(v, p);
      if GoesOn(v, p) { GoesOnIs(v, p); }
      ls := TurnT(v, p).ls;
      ok := RunThrough(p);
    }
  }

  /** A turn of the class is a run of the system: from any state in which this worker stands where
      the session stood, nobody else has the lock, and the id to be minted is new. */
  lemma TurnIsARun(s: State, w: Wid, ls: seq<Label>, v: Local, m: Sid) returns (t: State)
    requires w in s.workers && LockFree(s, w) && Led(View(s, w), ls, v, m) && m !in s.minted
    ensures Follow(s, Acts(w, ls)) == Some(t) && w in t.workers && View(t, w) == v
    ensures t.workers.Keys == s.workers.Keys && forall u <- s.workers :: u != w ==> t.workers[u] == s.workers[u]
  {
    t := LiftAll(s, w, ls, m);
  }
}
