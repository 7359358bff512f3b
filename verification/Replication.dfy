/** The replication protocol of one Slack thread, as a state machine.

    Any number of workers share the thread's session row and stored transcript. Each worker has
    its own disk, at most one CLI child (`Client`) and the bookkeeping fields of `JeanSession`.
    A step is what one worker does between two awaits of `run_turn`, a failure there, a step of
    the CLI child, an idle close, a worker's death, or a `/mode` or partner write from anywhere.

    What the environment is taken to do:
      - a CLI child appends to one file, the one it resumed or its own new one, behind its
        answers (`Flush`), and writes nothing after it is torn down;
      - a resume can be refused at any time, and is when there is no local file;
      - a turn and an idle close hold the thread lock, which a dead worker gives up;
      - a session id the CLI mints was never used before;
      - retention does not delete the row while the thread is in use. */
module Replication {
  import opened Wrappers
  import opened Rows

  type Wid = nat

  /** A connected CLI child: the session it writes, the permission mode baked in at connect, and
      the whole conversation in its memory. Its file holds a prefix of `hist`. */
  datatype Client = Client(sid: Sid, mode: Option<Mode>, hist: Bytes)

  /** Where a worker is inside `run_turn`; `row` is the row it read at the start of the turn. */
  datatype Phase =
    | Idle
    | Looked(row: Option<Row>)
    | Fresh(row: Option<Row>)                               // about to open with no id to resume
    | Loading(row: Option<Row>, resume: Sid)                // about to hydrate from the store
    | Opening(row: Option<Row>, resume: Sid, own: bool)     // about to resume; `own`: the local file is newer
    | Refused(row: Option<Row>, resume: Sid)                // the resume failed; about to open without one
    | Ready(row: Option<Row>)
    | Streaming(row: Option<Row>, named: Option<Sid>)       // `named`: the id the stream has carried
    | Bumped(sid: Sid)
    | Done

  /** A worker: the fields of its `JeanSession` and its local transcript files. */
  datatype Worker = Worker(
    client: Option<Client>, mode: Option<Mode>, seen: nat, sid: Option<Sid>, live: Option<Sid>,
    archived: bool, disk: map<Sid, Bytes>, cap: nat, phase: Phase)

  datatype Shared = Shared(row: Option<Row>, blob: Option<Blob>)

  datatype Local = Local(sh: Shared, w: Worker)

  datatype SaveOutcome = SaveOk | SaveFailed | SaveLost   // SaveLost: it landed, and the caller saw an error

  datatype Label =
    | Look
    | LookFail                      // reading the row raised
    | Reuse
    | Begin
    | OpenNew(m: Sid)
    | Load
    | LoadTorn(n: nat)
    | Resume
    | Refuse
    | Fallback(m: Sid)
    | FallbackMute                  // the fallback opened, but the apology could not be posted
    | Query
    | Emit(b: Bytes)
    | Flush(n: nat)
    | Name(now: Time)
    | Bump(now: Time)
    | BumpLost(now: Time)           // the bump landed, and the caller saw an error
    | Archive(o: SaveOutcome)
    | Finish
    | Fail                          // an exception out of the turn: drop the client
    | Close                         // the idle sweeper closes the session and drops it
    | Crash(disk: map<Sid, Bytes>)  // the worker dies; `disk` is what its next life finds

  function NewWorker(disk: map<Sid, Bytes>, cap: nat): Worker {
    Worker(None, None, 0, None, None, false, disk, cap, Idle)
  }

  // ---- what the steps do to one worker ----

  /** `close()`: drop the client; delete the local file only if the store has it. */
  function CloseSession(w: Worker): Worker {
    var w := w.(client := None);
    if w.archived && w.sid.Some? then w.(disk := w.disk - {w.sid.value}, archived := false) else w
  }

  /** The cached client no longer fits the row: its mode changed, or another worker took a turn. */
  predicate Outdated(w: Worker, row: Option<Row>) {
    ModeOf(row) != w.mode || row.None? || row.value.turn != w.seen
  }

  /** `local_is_newer`, judged with the seq committed before this connect. */
  predicate LocalIsNewer(w: Worker, row: Option<Row>, resume: Sid) {
    w.sid == Some(resume) && !w.archived && TurnOf(row) == w.seen && resume in w.disk
  }

  function FailTurn(w: Worker): Worker {
    w.(client := None, phase := Idle)
  }

  function OpenFresh(w: Worker, m: Sid, row: Option<Row>): Worker {
    w.(client := Some(Client(m, ModeOf(row), "")), mode := ModeOf(row), live := None, phase := Ready(row))
  }

  predicate Enabled(v: Local, l: Label) {
    var w := v.w;
    match l
    case Look => w.phase.Idle?
    case LookFail => w.phase.Idle?
    case Reuse => w.phase.Looked? && w.client.Some?
    case Begin => w.phase.Looked? && w.client.None?
    case OpenNew(_) => w.phase.Fresh?
    case Load => w.phase.Loading?
    case LoadTorn(n) =>
      w.phase.Loading? && var d := LoadBlob(v.sh.blob, w.phase.resume); d.Some? && n <= |d.value|
    case Resume => w.phase.Opening? && w.phase.resume in w.disk
    case Refuse => w.phase.Opening?
    case Fallback(_) => w.phase.Refused?
    case FallbackMute => w.phase.Refused?
    case Query => w.phase.Ready? && w.client.Some?
    case Emit(_) => w.phase.Streaming? && w.client.Some?
    case Flush(n) =>
      w.client.Some? && var c := w.client.value;
      n <= |c.hist| && (c.sid in w.disk ==> |w.disk[c.sid]| <= n)
    case Name(_) => w.phase.Streaming? && w.client.Some?
    case Bump(_) => w.phase.Streaming? && w.phase.named.Some?
    case BumpLost(_) => w.phase.Streaming? && w.phase.named.Some?
    case Archive(_) => w.phase.Bumped?
    case Finish => w.phase.Done? || (w.phase.Streaming? && w.phase.named.None?)
    case Fail => !w.phase.Idle?
    case Close => w.phase.Idle?
    case Crash(_) => true
  }

  /** What `_archive` does with the file it read: nothing when there is none or it is over the cap. */
  function ArchiveFile(v: Local, sid: Sid, o: SaveOutcome): Local {
    var w := v.w.(sid := Some(sid), phase := Done);
    if sid !in w.disk || |w.disk[sid]| > w.cap || o.SaveFailed? then
      v.(w := w)
    else
      Local(v.sh.(blob := Some(Blob(sid, w.disk[sid]))), w.(archived := if o.SaveOk? then true else w.archived))
  }

  function Next(v: Local, l: Label): Local
    requires Enabled(v, l)
  {
    var w := v.w;
    match l
    case Look =>
      var kept := if w.client.Some? && Outdated(w, v.sh.row) then CloseSession(w) else w;
      v.(w := kept.(phase := Looked(v.sh.row)))
    case LookFail => v.(w := FailTurn(w))
    case Reuse => v.(w := w.(phase := Ready(w.phase.row)))
    case Begin =>
      var row := w.phase.row;
      var w' := w.(seen := TurnOf(row));
      if SidOf(row).None? then v.(w := w'.(live := None, phase := Fresh(row)))
      else
        var resume := SidOf(row).value;
        v.(w := w'.(phase := if LocalIsNewer(w, row, resume) then Opening(row, resume, true) else Loading(row, resume)))
    case OpenNew(m) => v.(w := OpenFresh(w, m, w.phase.row))
    case Load =>
      var data := LoadBlob(v.sh.blob, w.phase.resume);
      v.(w := w.(disk := if data.Some? then w.disk[w.phase.resume := data.value] else w.disk,
                 phase := Opening(w.phase.row, w.phase.resume, false)))
    case LoadTorn(n) =>
      var data := LoadBlob(v.sh.blob, w.phase.resume).value;
      v.(w := FailTurn(w.(disk := w.disk[w.phase.resume := data[..n]])))
    case Resume =>
      var c := Client(w.phase.resume, ModeOf(w.phase.row), w.disk[w.phase.resume]);
      v.(w := w.(client := Some(c), mode := c.mode, live := Some(c.sid), phase := Ready(w.phase.row)))
    case Refuse => v.(w := w.(phase := Refused(w.phase.row, w.phase.resume)))
    case Fallback(m) =>
      v.(w := OpenFresh(w, m, w.phase.row).(disk := w.disk - {w.phase.resume}))
    case FallbackMute =>
      v.(w := FailTurn(w.(mode := ModeOf(w.phase.row), live := None, disk := w.disk - {w.phase.resume})))
    case Query => v.(w := w.(archived := false, phase := Streaming(w.phase.row, None)))
    case Emit(b) =>
      var c := w.client.value;
      v.(w := w.(client := Some(c.(hist := c.hist + b))))
    case Flush(n) =>
      var c := w.client.value;
      v.(w := w.(disk := w.disk[c.sid := c.hist[..n]]))
    case Name(now) =>
      var sid := w.client.value.sid;
      Local(v.sh.(row := Some(Upsert(v.sh.row, Some(sid), None, true, now))),
            w.(live := Some(sid), phase := Streaming(w.phase.row, Some(sid))))
    case Bump(now) =>
      var row := BumpTurn(v.sh.row, now);
      Local(v.sh.(row := Some(row)), w.(seen := row.turn, phase := Bumped(w.phase.named.value)))
    case BumpLost(now) =>
      Local(v.sh.(row := Some(BumpTurn(v.sh.row, now))), FailTurn(w))
    case Archive(o) => ArchiveFile(v, w.phase.sid, o)
    case Finish => v.(w := w.(phase := Idle))
    case Fail => v.(w := FailTurn(w))
    case Close => v.(w := NewWorker(CloseSession(w).disk, w.cap))
    case Crash(disk) => v.(w := NewWorker(disk, w.cap))
  }

  // ---- the whole system ----

  /** `minted`: every session id any CLI has minted. `log`: every transcript a save stored, in order. */
  datatype State = State(sh: Shared, workers: map<Wid, Worker>, minted: set<Sid>, log: seq<Blob>)

  datatype Step =
    | Act(w: Wid, l: Label)
    | SetMode(mode: Mode, now: Time)                  // a `/mode` command, on any worker
    | Engage(user: Option<User>, now: Time)           // the gateway writes the thread's partner

  function Init(caps: map<Wid, nat>): State {
    State(Shared(None, None), map w | w in caps :: NewWorker(map[], caps[w]), {}, [])
  }

  /** The id a step mints, if it is one that opens a client without resuming. */
  function Minted(l: Label): set<Sid> {
    if l.OpenNew? || l.Fallback? then {l.m} else {}
  }

  /** Nobody else holds the thread lock. */
  predicate LockFree(s: State, w: Wid) {
    forall v <- s.workers :: v != w ==> s.workers[v].phase.Idle?
  }

  predicate Can(s: State, a: Step) {
    match a
    case Act(w, l) =>
      && w in s.workers
      && Enabled(Local(s.sh, s.workers[w]), l)
      && Minted(l) !! s.minted
      && (l.Look? || l.LookFail? || l.Close? ==> LockFree(s, w))
      && (l.Crash? ==> forall f <- l.disk :: f in s.workers[w].disk && l.disk[f] == s.workers[w].disk[f])
    case SetMode(_, _) => true
    case Engage(_, _) => true
  }

  /** The step stored a transcript. */
  predicate Saves(s: State, a: Step)
    requires Can(s, a)
  {
    && a.Act? && a.l.Archive? && !a.l.o.SaveFailed?
    && var w := s.workers[a.w];
       w.phase.sid in w.disk && |w.disk[w.phase.sid]| <= w.cap
  }

  function Apply(s: State, a: Step): State
    requires Can(s, a)
  {
    match a
    case Act(w, l) =>
      var v := Next(Local(s.sh, s.workers[w]), l);
      State(v.sh, s.workers[w := v.w], s.minted + Minted(l),
            if Saves(s, a) then s.log + [v.sh.blob.value] else s.log)
    case SetMode(mode, now) =>
      s.(sh := s.sh.(row := Some(Upsert(s.sh.row, None, Some(mode), false, now))))
    case Engage(user, now) =>
      s.(sh := s.sh.(row := Some(SetPartner(s.sh.row, user, now))))
  }

  /** `states` is a run of the system taking `steps`. */
  predicate Run(states: seq<State>, steps: seq<Step>) {
    && |states| == |steps| + 1
    && forall i | 0 <= i < |steps| :: Can(states[i], steps[i]) && states[i + 1] == Apply(states[i], steps[i])
  }
}
