/** One MCP server shared by every session of a worker: concurrent JSON-RPC calls down one pipe, matched
    by id, with timeouts, a reader that may exit, and restarts. */
module McpClients {
  import opened Wrappers

  type CallId = nat

  // ---- what comes up the pipe ----

  datatype JsonId = IntId(n: int) | FloatId(r: real) | BoolId(b: bool) | StringId(s: string) | NoId | CompoundId

  datatype Body = ResultBody(text: string) | ErrorBody(text: string)

  datatype Frame =
    | Noise                              // not JSON: skipped
    | NotAnObject                        // JSON, but without `.get`: the reader dies of it
    | Object(id: JsonId, body: Body)

  /** The key a dictionary lookup takes the id for: Python's `1`, `1.0` and `True` are one key. */
  function KeyOf(id: JsonId): Option<int> {
    match id
    case IntId(n) => Some(n)
    case FloatId(r) => if (r.Floor as real) == r then Some(r.Floor) else None
    case BoolId(b) => Some(if b then 1 else 0)
    case _ => None
  }

  /** A frame the reader cannot get past: no object, or an id that cannot be hashed. */
  predicate Kills(f: Frame) {
    f.NotAnObject? || (f.Object? && f.id.CompoundId?)
  }

  // ---- the client's own state ----

  datatype Reply = Answer(text: string) | ToolError(text: string) | Disconnected | TimedOut | Broken

  datatype Future = Open | Set(reply: Reply) | Dropped     // `Dropped`: nobody awaits it any more

  /** `pending` are the ids in `_pending`; a future is named by the id it was made for. */
  datatype Wire = Wire(nextId: nat, pending: set<nat>, futures: map<nat, Future>, reading: bool)

  function Delivered(b: Body): Reply {
    match b case ResultBody(t) => Answer(t) case ErrorBody(t) => ToolError(t)
  }

  function Registered(w: Wire): Wire {
    var id := w.nextId + 1;
    w.(nextId := id, pending := w.pending + {id}, futures := w.futures[id := Open])
  }

  /** The `finally` of a request: it leaves `_pending`, and nobody awaits its future. */
  function Forgotten(w: Wire, id: nat): Wire {
    w.(pending := w.pending - {id}, futures := if id in w.futures && w.futures[id] == Open then w.futures[id := Dropped] else w.futures)
  }

  predicate Concerns(w: Wire, f: Frame, id: nat) {
    f.Object? && KeyOf(f.id) == Some(id) && id in w.pending
  }

  function Dispatched(w: Wire, f: Frame): Wire {
    if f.Object? && KeyOf(f.id).Some? && KeyOf(f.id).value >= 0 && KeyOf(f.id).value in w.pending then
      var id: nat := KeyOf(f.id).value;
      w.(pending := w.pending - {id},
         futures := if id in w.futures && w.futures[id] == Open then w.futures[id := Set(Delivered(f.body))] else w.futures)
    else w
  }

  /** The reader's `finally`: everyone still registered is told. */
  function ReaderGone(w: Wire): Wire {
    w.(pending := {}, reading := false,
       futures := map id | id in w.futures :: if id in w.pending && w.futures[id] == Open then Set(Disconnected) else w.futures[id])
  }

  class McpClient {
    var nextId: nat
    var pending: set<nat>
    var futures: map<nat, Future>
    var reading: bool

    constructor ()
      ensures View() == Wire(0, {}, map[], false)
    {
      nextId, pending, futures, reading := 0, {}, map[], false;
    }

    ghost function View(): Wire
      reads this
    {
      Wire(nextId, pending, futures, reading)
    }

    /** `_request` up to its write: register, then check; a request that finds the reader gone says so at once. */
    method Register() returns (id: nat, alive: bool)
      modifies this
      ensures id == old(nextId) + 1 && alive == old(reading)
      ensures View() == if alive then Registered(old(View())) else Forgotten(Registered(old(View())), id)
    {
      nextId := nextId + 1;
      id := nextId;
      futures := futures[id := Open];
      pending := pending + {id};
      alive := reading;
      if !alive {
        Forget(id);
      }
    }

    method Forget(id: nat)
      modifies this
      ensures View() == Forgotten(old(View()), id)
    {
      pending := pending - {id};
      if id in futures && futures[id] == Open {
        futures := futures[id := Dropped];
      }
    }

    /** `_read_loop` over the lines up to its end: dispatch each, then fail whoever is left. */
    method ReadLoop(frames: seq<Frame>)
      requires forall id <- pending :: id in futures
      modifies this
      ensures View() == ReaderGone(ReadAll(old(View()), frames))
    {
      var i := 0;
      while i < |frames| && !Kills(frames[i])
        invariant 0 <= i <= |frames|
        invariant ReadAll(View(), frames[i..]) == ReadAll(old(View()), frames)
      {
        var f := frames[i];
        assert frames[i..][0] == f && frames[i..][1..] == frames[i + 1..];
        if f.Object? && KeyOf(f.id).Some? && KeyOf(f.id).value >= 0 {
          var id := KeyOf(f.id).value;
          if id in pending {
            pending := pending - {id};
            if id in futures && futures[id] == Open {
              futures := futures[id := Set(Delivered(f.body))];
            }
          }
        }
        i := i + 1;
      }
      futures := map id | id in futures :: if id in pending && futures[id] == Open then Set(Disconnected) else futures[id];
      pending := {};
      reading := false;
    }
  }

  /** The frames a reader gets through: all of them, or those before the first that kills it. */
  function ReadAll(w: Wire, frames: seq<Frame>): Wire
    decreases |frames|
  {
    if frames == [] || Kills(frames[0]) then w else ReadAll(Dispatched(w, frames[0]), frames[1..])
  }
}
