/** The steps of the replication protocol that one turn of `run_turn` takes, and what a turn leaves behind in
    which nothing goes wrong. */
module TurnScripts {
  import opened Wrappers
  import opened Rows
  import opened Replication
  import opened ReplicationRuns

  /** What hydration meets: nothing wrong, a `load` that raises, or a write that stops after `n` bytes. */
  datatype LoadOutcome = LoadOk | LoadRaises | WriteStops(n: nat)

  datatype BumpOutcome = BumpOk | BumpRaises | BumpLandsAndRaises

  /** What happens between the bump and the save: nothing wrong, a `_settle` that raises, or a read of the
      file that does. */
  datatype KeepOutcome = KeepOk | SettleRaises | ReadRaises

  /** One message of the response stream: what the CLI adds to the conversation, and whether the
      message carries the session id. */
  datatype Message = Message(adds: Bytes, named: bool)

  predicate NamedIn(stream: seq<Message>) {
    exists msg <- stream :: msg.named
  }

  /** Everything the outside world decides about one turn. */
  datatype Plan = Plan(
    statusSet: bool, rowReads: bool, load: LoadOutcome, accepted: bool, opens: bool, mint: Sid, apologyPosts: bool,
    stream: seq<Message>, streamEnds: bool, bump: BumpOutcome,
    settled: nat, keep: KeepOutcome, save: SaveOutcome, now: Time)
  {
    /** The response stream carries the session id. */
    predicate Named() {
      NamedIn(stream)
    }

    /** Nothing goes wrong that ends the turn. */
    predicate Clean() {
      statusSet && rowReads && load.LoadOk? && opens && apologyPosts && streamEnds && bump.BumpOk? && keep.KeepOk?
    }
  }

  // ---- the steps ----

  /** The steps so far, and where they have led. */
  datatype Trace = Trace(ls: seq<Label>, at: Local)

  function Go(t: Trace, l: Label): Trace {
    if Enabled(t.at, l) then Trace(t.ls + [l], Next(t.at, l)) else t
  }

  function GoIf(t: Trace, l: Option<Label>): Trace {
    if l.Some? then Go(t, l.value) else t
  }

  /** Opening without an id to resume; nothing happens when it raises. */
  function OpenStep(p: Plan): Option<Label> {
    if p.opens then Some(OpenNew(p.mint)) else None
  }

  /** Hydrating `id`. */
  function FillStep(v: Local, id: Sid, p: Plan): Option<Label> {
    var data := LoadBlob(v.sh.blob, id);
    if p.load.LoadRaises? then None
    else if p.load.WriteStops? && data.Some? && p.load.n <= |data.value| then Some(LoadTorn(p.load.n))
    else Some(Label.Load)
  }

  /** Opening without the id that was refused. */
  function FallbackStep(p: Plan): Option<Label> {
    if !p.opens then None else Some(if p.apologyPosts then Fallback(p.mint) else FallbackMute)
  }

  function BumpStep(p: Plan): Option<Label> {
    match p.bump
    case BumpRaises => None
    case BumpLandsAndRaises => Some(BumpLost(p.now))
    case BumpOk => Some(Label.Bump(p.now))
  }

  function OpenNewT(t: Trace, p: Plan): Trace {
    GoIf(t, OpenStep(p))
  }

  function FillT(t: Trace, id: Sid, p: Plan): Trace {
    GoIf(t, FillStep(t.at, id, p))
  }

  function FallbackT(t: Trace, p: Plan): Trace {
    GoIf(t, FallbackStep(p))
  }

  function ResumeT(t: Trace, id: Sid, p: Plan): Trace {
    if p.accepted && id in t.at.w.disk then Go(t, Resume) else FallbackT(Go(t, Refuse), p)
  }

  /** `_connect` once it has chosen between the worker's own file and the store's. */
  function ChosenT(b: Trace, id: Sid, p: Plan): Trace {
    if b.at.w.phase.Opening? then ResumeT(b, id, p) else FilledT(FillT(b, id, p), id, p)
  }

  function FilledT(f: Trace, id: Sid, p: Plan): Trace {
    if f.at.w.phase.Opening? then ResumeT(f, id, p) else f
  }

  function ConnectT(t: Trace, row: Option<Row>, p: Plan): Trace {
    if SidOf(row).None? then OpenNewT(Go(t, Begin), p) else ChosenT(Go(t, Begin), SidOf(row).value, p)
  }

  function PrepareT(t: Trace, p: Plan): Trace {
    LookedT(Go(t, Look), t.at.sh.row, p)
  }

  function LookedT(u: Trace, row: Option<Row>, p: Plan): Trace {
    if u.at.w.client.Some? then Go(u, Reuse) else ConnectT(u, row, p)
  }

  function HearT(t: Trace, msg: Message, now: Time): Trace {
    var u := Go(t, Emit(msg.adds));
    if msg.named then Go(u, Name(now)) else u
  }

  function StreamT(t: Trace, stream: seq<Message>, now: Time): Trace {
    if stream == [] then t else HearT(StreamT(t, stream[..|stream| - 1], now), stream[|stream| - 1], now)
  }

  /** What the CLI has written, if anything. */
  function FileOf(w: Worker, id: Sid): Bytes {
    if id in w.disk then w.disk[id] else ""
  }

  /** The CLI writes the first `n` bytes of the conversation, if its file holds no more yet. */
  function FlushStep(v: Local, n: nat): Option<Label> {
    if v.w.client.Some? && Writes(FileOf(v.w, v.w.client.value.sid), v.w.client.value.hist, n) then Some(Flush(n)) else None
  }

  function FlushT(t: Trace, n: nat): Trace {
    GoIf(t, FlushStep(t.at, n))
  }

  predicate Writes(was: Bytes, hist: Bytes, n: nat) {
    |was| <= n <= |hist| && was <= hist
  }

  function KeepT(t: Trace, p: Plan): Trace {
    ArchiveT(FlushT(t, p.settled), p)
  }

  function ArchiveT(f: Trace, p: Plan): Trace {
    match p.keep
    case SettleRaises => f
    case ReadRaises => Go(f, Archive(SaveFailed))
    case KeepOk => Go(f, Archive(p.save))
  }

  function CommitT(t: Trace, p: Plan): Trace {
    if p.bump.BumpOk? then KeepT(GoIf(t, BumpStep(p)), p) else GoIf(t, BumpStep(p))
  }

  function AnswerT(t: Trace, p: Plan): Trace {
    HeardT(StreamT(Go(t, Query), p.stream, p.now), p)
  }

  function HeardT(u: Trace, p: Plan): Trace {
    if p.streamEnds && p.Named() then CommitT(u, p) else u
  }

  /** A connected turn comes to its end. */
  predicate Ends(p: Plan) {
    p.streamEnds && (p.Named() ==> p.bump.BumpOk? && p.keep.KeepOk?)
  }

  function ConcludeT(t: Trace, ok: bool): Trace {
    if ok then Go(t, Finish) else if t.at.w.phase.Idle? then t else Go(t, Fail)
  }

  /** The turn connects or keeps its client, and comes to its end. */
  predicate Succeeds(v: Local, p: Plan) {
    p.statusSet && p.rowReads && PrepareT(Trace([], v), p).at.w.phase.Ready? && Ends(p)
  }

  /** A turn from `v`. */
  function TurnT(v: Local, p: Plan): Trace {
    var t := Trace([], v);
    if !p.statusSet then t
    else if !p.rowReads then Go(t, LookFail)
    else ConcludeT(TriedT(v, p), Succeeds(v, p))
  }

  /** The body of the `try`. */
  function TriedT(v: Local, p: Plan): Trace {
    PreparedT(PrepareT(Trace([], v), p), p)
  }

  function PreparedT(u: Trace, p: Plan): Trace {
    if u.at.w.phase.Ready? then AnswerT(u, p) else u
  }

  lemma StreamMore(t: Trace, stream: seq<Message>, i: nat, now: Time)
    requires i < |stream|
    ensures StreamT(t, stream[..i + 1], now) == HearT(StreamT(t, stream[..i], now), stream[i], now)
    ensures NamedIn(stream[..i + 1]) <==> NamedIn(stream[..i]) || stream[i].named
  {
    assert stream[..i + 1][..i] == stream[..i] && stream[..i + 1] == stream[..i] + [stream[i]];
  }

  /** The turn came to its end, and its last step but one was its save, if it was told its id. */
  predicate SavedLast(ls: seq<Label>, p: Plan) {
    ls != [] && ls[|ls| - 1].Finish? && (p.Named() ==> |ls| > 1 && ls[|ls| - 2] == Archive(p.save))
  }

  // ---- what a clean turn leaves behind ----

  /** What the CLI adds over the whole stream, in order. */
  function Adds(stream: seq<Message>): Bytes {
    if stream == [] then "" else Adds(stream[..|stream| - 1]) + stream[|stream| - 1].adds
  }

  /** After the query and the stream. */
  function Heard(v: Local, stream: seq<Message>, now: Time): Local
    requires v.w.phase.Streaming? && v.w.client.Some?
  {
    var c := v.w.client.value.(hist := v.w.client.value.hist + Adds(stream));
    if NamedIn(stream) then
      Local(v.sh.(row := Some(Upsert(v.sh.row, Some(c.sid), None, true, now))),
            v.w.(client := Some(c), live := Some(c.sid), phase := Streaming(v.w.phase.row, Some(c.sid))))
    else
      v.(w := v.w.(client := Some(c)))
  }

  lemma NamedInMore(stream: seq<Message>)
    requires stream != []
    ensures NamedIn(stream) <==> NamedIn(stream[..|stream| - 1]) || stream[|stream| - 1].named
  {
    assert stream == stream[..|stream| - 1] + [stream[|stream| - 1]];
  }

  lemma {:induction false} StreamIsHeard(t: Trace, stream: seq<Message>, now: Time)
    requires t.at.w.phase.Streaming? && t.at.w.client.Some?
    ensures StreamT(t, stream, now).at == Heard(t.at, stream, now)
  {
    if stream == [] {
      assert t.at.w.client.value.hist + "" == t.at.w.client.value.hist;
    } else {
      var front, msg := stream[..|stream| - 1], stream[|stream| - 1];
      StreamIsHeard(t, front, now);
      NamedInMore(stream);
      HearMore(t.at, front, msg, now);
    }
  }

  lemma HearMore(v: Local, front: seq<Message>, msg: Message, now: Time)
    requires v.w.phase.Streaming? && v.w.client.Some?
    ensures forall ls :: HearT(Trace(ls, Heard(v, front, now)), msg, now).at == Heard(v, front + [msg], now)
  {
    var c := v.w.client.value;
    assert (front + [msg])[..|front|] == front;
    NamedInMore(front + [msg]);
    assert c.hist + Adds(front) + msg.adds == c.hist + Adds(front + [msg]);
  }

  /** What the save finds: the conversation as far as the CLI has written it. */
  function Written(was: Bytes, hist: Bytes, n: nat): Bytes {
    if Writes(was, hist, n) then hist[..n] else was
  }

  /** A save stores a file that is there and no longer than the cap. */
  predicate Stores(disk: map<Sid, Bytes>, id: Sid, cap: nat, o: SaveOutcome) {
    id in disk && |disk[id]| <= cap && !o.SaveFailed?
  }

  /** The row when the turn is over: it names the client's session, and its turn is one more. */
  function RowAfter(row: Option<Row>, id: Sid, now: Time): Row {
    BumpTurn(Some(Upsert(row, Some(id), None, true, now)), now)
  }

  predicate EndsWith(t: Trace, l: Label) {
    t.ls != [] && t.ls[|t.ls| - 1] == l
  }

  /** The end of a turn that answered from a connected client, in state `r`, and was told its session id. */
  function Concluded(r: Local, p: Plan): Local
    requires r.w.client.Some?
  {
    var c := r.w.client.value.(hist := r.w.client.value.hist + Adds(p.stream));
    var was := FileOf(r.w, c.sid);
    var disk := if Writes(was, c.hist, p.settled) then r.w.disk[c.sid := c.hist[..p.settled]] else r.w.disk;
    var row := RowAfter(r.sh.row, c.sid, p.now);
    var stores := Stores(disk, c.sid, r.w.cap, p.save);
    Local(Shared(Some(row), if stores then Some(Blob(c.sid, disk[c.sid])) else r.sh.blob),
          r.w.(client := Some(c), live := Some(c.sid), sid := Some(c.sid), archived := stores && p.save.SaveOk?,
               seen := row.turn, disk := disk, phase := Idle))
  }

  /** Bump, settle and archive, with nothing going wrong. */
  lemma CommitIs(t: Trace, p: Plan)
    requires t.at.w.phase.Streaming? && t.at.w.client.Some? && t.at.w.phase.named == Some(t.at.w.client.value.sid)
    requires p.bump.BumpOk? && p.keep.KeepOk? && !t.at.w.archived
    ensures var v := t.at; var c := v.w.client.value; var row := BumpTurn(v.sh.row, p.now);
      var disk := if Writes(FileOf(v.w, c.sid), c.hist, p.settled) then v.w.disk[c.sid := c.hist[..p.settled]] else v.w.disk;
      var stores := Stores(disk, c.sid, v.w.cap, p.save);
      CommitT(t, p).at == Local(
        Shared(Some(row), if stores then Some(Blob(c.sid, disk[c.sid])) else v.sh.blob),
        v.w.(sid := Some(c.sid), archived := stores && p.save.SaveOk?, seen := row.turn, disk := disk, phase := Done))
    ensures EndsWith(CommitT(t, p), Archive(p.save))
  {
    var v, c, row := t.at, t.at.w.client.value, BumpTurn(t.at.sh.row, p.now);
    var b := Go(t, Label.Bump(p.now));
    assert b.at == Local(v.sh.(row := Some(row)), v.w.(seen := row.turn, phase := Bumped(c.sid)));
    var f := FlushT(b, p.settled);
    assert f.at == b.at.(w := b.at.w.(disk :=
      if Writes(FileOf(v.w, c.sid), c.hist, p.settled) then v.w.disk[c.sid := c.hist[..p.settled]] else v.w.disk));
  }

  lemma AnswerIs(u: Trace, p: Plan)
    requires u.at.w.phase.Ready? && u.at.w.client.Some? && Ends(p)
    ensures p.Named() ==> ConcludeT(AnswerT(u, p), true).at == Concluded(u.at, p)
    ensures !p.Named() ==> ConcludeT(AnswerT(u, p), true).at == Unnamed(u.at, p)
    ensures ConcludeT(AnswerT(u, p), true).ls == AnswerT(u, p).ls + [Finish]
    ensures p.Named() ==> EndsWith(AnswerT(u, p), Archive(p.save))
  {
    var q := Go(u, Query);
    assert q.at == u.at.(w := u.at.w.(archived := false, phase := Streaming(u.at.w.phase.row, None)));
    StreamIsHeard(q, p.stream, p.now);
    if p.Named() { CommitIs(StreamT(q, p.stream, p.now), p); }
  }

  /** A turn whose stream never carried an id commits nothing. */
  function Unnamed(r: Local, p: Plan): Local
    requires r.w.client.Some?
  {
    var c := r.w.client.value;
    r.(w := r.w.(client := Some(c.(hist := c.hist + Adds(p.stream))), archived := false, phase := Idle))
  }

  // ---- where a clean turn answers from ----

  /** The worker once it has read the row: without its client, if the row no longer fits it. */
  function Seen(v: Local): Worker {
    if v.w.client.Some? && Outdated(v.w, v.sh.row) then CloseSession(v.w) else v.w
  }

  /** The file of session `id` once it has been hydrated, if there is one: the worker's own if it is the newer
      copy, else the store's, else whatever the worker has. */
  function Hydrated(v: Local, id: Sid): Option<Bytes> {
    var w := Seen(v);
    if !LocalIsNewer(w, v.sh.row, id) && LoadBlob(v.sh.blob, id).Some? then LoadBlob(v.sh.blob, id)
    else if id in w.disk then Some(w.disk[id]) else None
  }

  /** Connected to a client with this session and conversation, on this disk. */
  function On(v: Local, id: Sid, hist: Bytes, live: Option<Sid>, disk: map<Sid, Bytes>): Local {
    v.(w := Seen(v).(client := Some(Client(id, ModeOf(v.sh.row), hist)), mode := ModeOf(v.sh.row), seen := TurnOf(v.sh.row),
                     live := live, disk := disk, phase := Ready(v.sh.row)))
  }

  /** The client a clean turn answers from: the cached one if it still fits the row; a new session if the row
      names none; the row's session, on its hydrated file, if the CLI accepts it; else a new session, and the
      file is gone. */
  function Prepared(v: Local, p: Plan): Local {
    var w, sid := Seen(v), SidOf(v.sh.row);
    if w.client.Some? then v.(w := w.(phase := Ready(v.sh.row)))
    else if sid.None? then On(v, p.mint, "", None, w.disk)
    else if p.accepted && Hydrated(v, sid.value).Some? then
      On(v, sid.value, Hydrated(v, sid.value).value, sid, w.disk[sid.value := Hydrated(v, sid.value).value])
    else On(v, p.mint, "", None, w.disk - {sid.value})
  }

  /** Ready to resume, after hydration if there was any. */
  function Filled(v: Local, id: Sid, own: bool): Local {
    var w := Seen(v);
    v.(w := w.(seen := TurnOf(v.sh.row), phase := Opening(v.sh.row, id, own),
               disk := if Hydrated(v, id).Some? then w.disk[id := Hydrated(v, id).value] else w.disk))
  }

  lemma FillIs(v: Local, p: Plan, u: Trace)
    requires v.w.phase.Idle? && Seen(v).client.None? && SidOf(v.sh.row).Some? && p.load.LoadOk?
    requires u.at == v.(w := Seen(v).(phase := Looked(v.sh.row)))
    ensures var id := SidOf(v.sh.row).value; var b := Go(u, Begin);
      if LocalIsNewer(Seen(v), v.sh.row, id) then b.at == Filled(v, id, true)
      else !b.at.w.phase.Opening? && FillT(b, id, p).at == Filled(v, id, false)
  {
    var id, b, w := SidOf(v.sh.row).value, Go(u, Begin), Seen(v);
    if LocalIsNewer(w, v.sh.row, id) {
      assert w.disk[id := w.disk[id]] == w.disk;
    } else {
      assert b.at == v.(w := w.(seen := TurnOf(v.sh.row), phase := Loading(v.sh.row, id)));
      if LoadBlob(v.sh.blob, id).None? && id in w.disk { assert w.disk[id := w.disk[id]] == w.disk; }
    }
  }

  lemma ResumeIs(v: Local, p: Plan, id: Sid, own: bool, f: Trace)
    requires Seen(v).client.None? && SidOf(v.sh.row) == Some(id) && p.opens && p.apologyPosts && f.at == Filled(v, id, own)
    ensures ResumeT(f, id, p).at == Prepared(v, p)
  {
    var w := Seen(v);
    if p.accepted && id in f.at.w.disk {
      assert Hydrated(v, id).Some?;
    } else {
      var r := Go(f, Refuse);
      assert r.at == f.at.(w := f.at.w.(phase := Refused(v.sh.row, id)));
      assert f.at.w.disk - {id} == w.disk - {id};
    }
  }

  lemma PrepareIs(v: Local, p: Plan)
    requires v.w.phase.Idle? && p.Clean()
    ensures PrepareT(Trace([], v), p).at == Prepared(v, p)
  {
    var u := Go(Trace([], v), Look);
    assert u.at == v.(w := Seen(v).(phase := Looked(v.sh.row)));
    if Seen(v).client.None? && SidOf(v.sh.row).Some? {
      var id := SidOf(v.sh.row).value;
      FillIs(v, p, u);
      var own := LocalIsNewer(Seen(v), v.sh.row, id);
      ResumeIs(v, p, id, own, if own then Go(u, Begin) else FillT(Go(u, Begin), id, p));
    }
  }

  /** A turn in which nothing goes wrong succeeds, and leaves the row, the transcript, the files and the worker
      exactly like this. */
  lemma CleanTurnIs(v: Local, p: Plan)
    requires v.w.phase.Idle? && p.Clean()
    ensures Prepared(v, p).w.client.Some? && Succeeds(v, p)
    ensures TurnT(v, p).at == if p.Named() then Concluded(Prepared(v, p), p) else Unnamed(Prepared(v, p), p)
  {
    PrepareIs(v, p);
    AnswerIs(PrepareT(Trace([], v), p), p);
  }

  /** A turn that goes on with the row's session: its file, once hydrated, is resumed, and the CLI accepts it. */
  ghost predicate GoesOn(v: Local, p: Plan) {
    && v.w.phase.Idle? && p.Clean() && p.Named() && p.accepted
    && Seen(v).client.None? && SidOf(v.sh.row).Some? && Hydrated(v, SidOf(v.sh.row).value).Some?
  }

  /** No step of the turn gives the session up for a new one. */
  predicate SameSession(ls: seq<Label>) {
    forall l <- ls :: !l.Refuse? && !l.Fallback? && !l.FallbackMute? && !l.OpenNew?
  }

  /** What such a turn leaves: the client is on the row's session, and has what it resumed with everything the
      CLI added in order; the file and, if it fits and the save works, the store have that as far as the CLI
      has written it. */
  ghost predicate WentOn(v: Local, v': Local, p: Plan)
    requires SidOf(v.sh.row).Some? && Hydrated(v, SidOf(v.sh.row).value).Some?
  {
    var id, mode := SidOf(v.sh.row).value, ModeOf(v.sh.row);
    var base := Hydrated(v, id).value;
    var hist := base + Adds(p.stream);
    var file := if |base| <= p.settled <= |hist| then hist[..p.settled] else base;
    var stored := |file| <= v.w.cap && !p.save.SaveFailed?;
    && v'.sh.row == Some(v.sh.row.value.(lastActive := p.now, turn := v.sh.row.value.turn + 1))
    && v'.sh.blob == (if stored then Some(Blob(id, file)) else v.sh.blob)
    && v'.w == Worker(Some(Client(id, mode, hist)), mode, TurnOf(v.sh.row) + 1, Some(id), Some(id),
                      stored && p.save.SaveOk?, Seen(v).disk[id := file], v.w.cap, Idle)
  }

  lemma GoSame(t: Trace, l: Label)
    requires SameSession(t.ls) && !l.Refuse? && !l.Fallback? && !l.FallbackMute? && !l.OpenNew?
    ensures SameSession(Go(t, l).ls)
  {
  }

  lemma {:induction false} StreamSame(t: Trace, stream: seq<Message>, now: Time)
    requires SameSession(t.ls)
    ensures SameSession(StreamT(t, stream, now).ls)
  {
    if stream != [] {
      var front, msg := stream[..|stream| - 1], stream[|stream| - 1];
      StreamSame(t, front, now);
      var u := StreamT(t, front, now);
      GoSame(u, Emit(msg.adds));
      GoSame(Go(u, Emit(msg.adds)), Name(now));
    }
  }

  lemma CommitSame(u: Trace, p: Plan)
    requires SameSession(u.ls) && p.bump.BumpOk? && p.keep.KeepOk?
    ensures SameSession(CommitT(u, p).ls)
  {
    var b := Go(u, Label.Bump(p.now));
    GoSame(u, Label.Bump(p.now));
    GoSame(b, Flush(p.settled));
    GoSame(FlushT(b, p.settled), Archive(p.save));
  }

  lemma AnswerSame(t: Trace, p: Plan)
    requires SameSession(t.ls) && Ends(p)
    ensures SameSession(ConcludeT(AnswerT(t, p), true).ls)
  {
    GoSame(t, Query);
    StreamSame(Go(t, Query), p.stream, p.now);
    if p.Named() { CommitSame(StreamT(Go(t, Query), p.stream, p.now), p); }
    GoSame(AnswerT(t, p), Finish);
  }

  lemma PrepareSame(v: Local, p: Plan)
    requires GoesOn(v, p)
    ensures SameSession(PrepareT(Trace([], v), p).ls)
  {
    var u, id := Go(Trace([], v), Look), SidOf(v.sh.row).value;
    assert u.at == v.(w := Seen(v).(phase := Looked(v.sh.row)));
    FillIs(v, p, u);
  }

  lemma ConcludedWentOn(v: Local, p: Plan)
    requires GoesOn(v, p)
    ensures Prepared(v, p).w.client.Some? && WentOn(v, Concluded(Prepared(v, p), p), p)
  {
    var base := Hydrated(v, SidOf(v.sh.row).value).value;
    assert base <= base + Adds(p.stream);
  }

  /** So does the turn. */
  lemma GoesOnIs(v: Local, p: Plan)
    requires GoesOn(v, p)
    ensures WentOn(v, TurnT(v, p).at, p) && SameSession(TurnT(v, p).ls)
  {
    CleanTurnIs(v, p);
    ConcludedWentOn(v, p);
    PrepareSame(v, p);
    AnswerSame(PrepareT(Trace([], v), p), p);
  }

  /** A worker that died, or whose session was closed, knows nothing of the files it finds: its next turn, if clean,
      goes on from what the store has of the row's session, whatever is on its disk. */
  lemma NewLifeResumesTheStored(v: Local, l: Label, p: Plan)
    requires (l.Crash? || l.Close?) && Enabled(v, l) && p.Clean() && p.Named() && p.accepted
    requires v.sh.blob.Some? && SidOf(v.sh.row) == Some(v.sh.blob.value.sid)
    ensures var stored := v.sh.blob.value; var u := Next(v, l); var t := TurnT(u, p);
      && u.sh == v.sh && t.at.w.client == Some(Client(stored.sid, ModeOf(v.sh.row), stored.data + Adds(p.stream)))
      && SameSession(t.ls) && TurnOf(t.at.sh.row) == TurnOf(v.sh.row) + 1
  {
    GoesOnIs(Next(v, l), p);
  }

  // ---- every turn is a run of the protocol's steps ----

  /** The labels `ls` lead from `start` to `v`, and mint no id but `m`, at most once. */
  ghost predicate Led(start: Local, ls: seq<Label>, v: Local, m: Sid) {
    && Takes(start, ls) == Some(v) && Mints(ls) <= 1
    && forall l <- ls :: !l.Crash? && !l.Close? && Minted(l) <= {m}
  }

  /** A step of a turn. */
  predicate OfTurn(l: Label) {
    !l.Crash? && !l.Close?
  }

  /** What is `young` before a session id is minted, and `good` at any time, stays so. */
  ghost predicate Closed(young: Trace -> bool, good: Trace -> bool, m: Sid) {
    && (forall t: Trace :: young(t) ==> good(t))
    && (forall t: Trace, l: Label | OfTurn(l) :: KeptBy(young, good, m, t, l))
  }

  ghost predicate KeptBy(young: Trace -> bool, good: Trace -> bool, m: Sid, t: Trace, l: Label) {
    && (young(t) && Minted(l) == {} ==> young(Go(t, l)))
    && (young(t) && Minted(l) <= {m} ==> good(Go(t, l)))
    && (good(t) && Minted(l) == {} ==> good(Go(t, l)))
  }

  lemma GoKeeps(young: Trace -> bool, good: Trace -> bool, m: Sid, t: Trace, l: Label)
    requires Closed(young, good, m) && OfTurn(l)
    ensures KeptBy(young, good, m, t, l) && (young(t) ==> good(t))
  {
  }

  lemma FallbackKeeps(young: Trace -> bool, good: Trace -> bool, t: Trace, p: Plan)
    requires Closed(young, good, p.mint) && young(t)
    ensures good(FallbackT(t, p))
  {
    GoKeeps(young, good, p.mint, t, Fallback(p.mint));
    GoKeeps(young, good, p.mint, t, FallbackMute);
  }

  lemma ResumeKeeps(young: Trace -> bool, good: Trace -> bool, t: Trace, id: Sid, p: Plan)
    requires Closed(young, good, p.mint) && young(t)
    ensures good(ResumeT(t, id, p))
  {
    GoKeeps(young, good, p.mint, t, Resume);
    GoKeeps(young, good, p.mint, t, Refuse);
    FallbackKeeps(young, good, Go(t, Refuse), p);
  }

  lemma FillKeeps(young: Trace -> bool, good: Trace -> bool, t: Trace, id: Sid, p: Plan)
    requires Closed(young, good, p.mint) && young(t)
    ensures young(FillT(t, id, p))
  {
    if p.load.WriteStops? { GoKeeps(young, good, p.mint, t, LoadTorn(p.load.n)); }
    GoKeeps(young, good, p.mint, t, Label.Load);
  }

  lemma ConnectKeeps(young: Trace -> bool, good: Trace -> bool, t: Trace, row: Option<Row>, p: Plan)
    requires Closed(young, good, p.mint) && young(t)
    ensures good(ConnectT(t, row, p))
  {
    var b := Go(t, Begin);
    GoKeeps(young, good, p.mint, t, Begin);
    if SidOf(row).None? {
      GoKeeps(young, good, p.mint, b, OpenNew(p.mint));
    } else {
      var id := SidOf(row).value;
      FillKeeps(young, good, b, id, p);
      ResumeKeeps(young, good, b, id, p);
      ResumeKeeps(young, good, FillT(b, id, p), id, p);
    }
  }

  lemma LookedKeeps(young: Trace -> bool, good: Trace -> bool, u: Trace, row: Option<Row>, p: Plan)
    requires Closed(young, good, p.mint) && young(u)
    ensures good(LookedT(u, row, p))
  {
    GoKeeps(young, good, p.mint, u, Reuse);
    ConnectKeeps(young, good, u, row, p);
  }

  lemma {:induction false} StreamKeeps(young: Trace -> bool, good: Trace -> bool, t: Trace, stream: seq<Message>, now: Time, m: Sid)
    requires Closed(young, good, m) && good(t)
    ensures good(StreamT(t, stream, now))
  {
    if stream != [] {
      var front, msg := stream[..|stream| - 1], stream[|stream| - 1];
      StreamKeeps(young, good, t, front, now, m);
      var u := StreamT(t, front, now);
      GoKeeps(young, good, m, u, Emit(msg.adds));
      GoKeeps(young, good, m, Go(u, Emit(msg.adds)), Name(now));
    }
  }

  lemma CommitKeeps(young: Trace -> bool, good: Trace -> bool, t: Trace, p: Plan)
    requires Closed(young, good, p.mint) && good(t)
    ensures good(CommitT(t, p))
  {
    var b := Go(t, Label.Bump(p.now));
    var f := FlushT(b, p.settled);
    GoKeeps(young, good, p.mint, t, BumpLost(p.now));
    GoKeeps(young, good, p.mint, t, Label.Bump(p.now));
    GoKeeps(young, good, p.mint, b, Flush(p.settled));
    GoKeeps(young, good, p.mint, f, Archive(SaveFailed));
    GoKeeps(young, good, p.mint, f, Archive(p.save));
  }

  lemma AnswerKeeps(young: Trace -> bool, good: Trace -> bool, t: Trace, p: Plan)
    requires Closed(young, good, p.mint) && good(t)
    ensures good(AnswerT(t, p))
  {
    GoKeeps(young, good, p.mint, t, Query);
    StreamKeeps(young, good, Go(t, Query), p.stream, p.now, p.mint);
    CommitKeeps(young, good, StreamT(Go(t, Query), p.stream, p.now), p);
  }

  /** From the read of the row on. */
  lemma RestKeeps(young: Trace -> bool, good: Trace -> bool, v: Local, p: Plan)
    requires Closed(young, good, p.mint) && young(Go(Trace([], v), Look)) && p.statusSet && p.rowReads
    ensures good(TurnT(v, p))
  {
    var u := PrepareT(Trace([], v), p);
    LookedKeeps(young, good, Go(Trace([], v), Look), v.sh.row, p);
    AnswerKeeps(young, good, u, p);
    ConcludeKeeps(young, good, AnswerT(u, p), Succeeds(v, p), p.mint);
    ConcludeKeeps(young, good, u, Succeeds(v, p), p.mint);
  }

  lemma ConcludeKeeps(young: Trace -> bool, good: Trace -> bool, t: Trace, ok: bool, m: Sid)
    requires Closed(young, good, m) && good(t)
    ensures good(ConcludeT(t, ok))
  {
    GoKeeps(young, good, m, t, Finish);
    GoKeeps(young, good, m, t, Fail);
  }

  /** The trace is a turn's so far, from `start` on, after the row was read. */
  ghost predicate Underway(start: Local, t: Trace, m: Sid) {
    Led(start, t.ls, t.at, m) && t.ls != [] && t.ls[0].Look?
  }

  lemma GoLed(start: Local, t: Trace, m: Sid, l: Label)
    requires Underway(start, t, m) && OfTurn(l) && Minted(l) <= {m} && (Minted(l) == {} || Mints(t.ls) == 0)
    ensures Underway(start, Go(t, l), m) && (Minted(l) == {} && Mints(t.ls) == 0 ==> Mints(Go(t, l).ls) == 0)
  {
    TakesMore(start, t.ls, l);
  }

  lemma UnderwayIsClosed(start: Local, m: Sid)
    ensures Closed(t => Underway(start, t, m) && Mints(t.ls) == 0, t => Underway(start, t, m), m)
  {
    var young, good := (t: Trace) => Underway(start, t, m) && Mints(t.ls) == 0, (t: Trace) => Underway(start, t, m);
    forall t: Trace, l: Label | OfTurn(l) ensures KeptBy(young, good, m, t, l) {
      if good(t) && Minted(l) <= {m} && (Minted(l) == {} || Mints(t.ls) == 0) { GoLed(start, t, m, l); }
    }
  }

  /** Whatever goes wrong, a turn takes the protocol's own steps, one after another, and the first one reads
      the row. */
  lemma TurnLed(v: Local, p: Plan)
    requires v.w.phase.Idle?
    ensures var t := TurnT(v, p); Led(v, t.ls, t.at, p.mint)
    ensures var t := TurnT(v, p); if p.statusSet then t.ls != [] && (t.ls[0].Look? || t.ls[0].LookFail?) else t.ls == []
  {
    if p.statusSet {
      var l := if p.rowReads then Look else LookFail;
      TakesOne(v, l);
      assert [] + [l] == [l];
      if p.rowReads {
        UnderwayIsClosed(v, p.mint);
        RestKeeps(t => Underway(v, t, p.mint) && Mints(t.ls) == 0, t => Underway(v, t, p.mint), v, p);
      }
    }
  }
}
