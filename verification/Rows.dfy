/** One thread's row in the `sessions` table, its row in the `transcripts` table, and what
    each store operation does to them. Both stores and the replication protocol use these. */
module Rows {
  import opened Wrappers

  type Sid = nat        // a session id the CLI minted
  type Mode = string    // a permission mode
  type User = string    // a Slack user id
  type Bytes = string   // raw bytes, one character each
  type Time = int

  datatype Row = Row(sid: Option<Sid>, mode: Option<Mode>, lastActive: Time, turn: nat, partner: Option<User>)

  datatype Blob = Blob(sid: Sid, data: Bytes)

  /** `upsert_session`: a `None` argument leaves the column alone; `touch` stamps the clock. */
  function Upsert(row: Option<Row>, sid: Option<Sid>, mode: Option<Mode>, touch: bool, now: Time): Row {
    match row
    case None => Row(sid, mode, if touch then now else 0, 0, None)
    case Some(r) =>
      r.(sid := if sid.Some? then sid else r.sid,
         mode := if mode.Some? then mode else r.mode,
         lastActive := if touch then now else r.lastActive)
  }

  /** `set_partner`: here `None` is a value to store, not "leave it alone". */
  function SetPartner(row: Option<Row>, user: Option<User>, now: Time): Row {
    var r := if row.Some? then row.value else Upsert(None, None, None, false, now);
    r.(partner := user)
  }

  /** `bump_turn`: a row it has to create is touched, an existing one is not. */
  function BumpTurn(row: Option<Row>, now: Time): Row {
    var r := if row.Some? then row.value else Upsert(None, None, None, true, now);
    r.(turn := r.turn + 1)
  }

  /** `load` answers only for the session id the blob is stored under. */
  function LoadBlob(blob: Option<Blob>, sid: Sid): Option<Bytes> {
    if blob.Some? && blob.value.sid == sid then Some(blob.value.data) else None
  }

  function TurnOf(row: Option<Row>): nat {
    if row.Some? then row.value.turn else 0
  }

  function SidOf(row: Option<Row>): Option<Sid> {
    if row.Some? then row.value.sid else None
  }

  function ModeOf(row: Option<Row>): Option<Mode> {
    if row.Some? then row.value.mode else None
  }
}
