/** `_settle`: waiting until the CLI has written the turn. */
module Settle {
  import opened Wrappers
  import opened Rows
  import opened LocalTranscripts

  /** One turn of the polling loop: the reading, when it was taken, and the clock read after it. */
  datatype Poll = Poll(reading: Reading, taken: real, clock: real)

  datatype Outcome = NoFile | Quiet | TimedOut

  function Ceil(x: real): int {
    -((-x).Floor)
  }

  /** How many consecutive unchanged readings count as quiet. */
  function QuietNeeded(quiet: real, interval: real): nat
    requires interval > 0.0
  {
    var n := Ceil(quiet / interval);
    if n < 1 then 1 else n
  }

  /** A reading is taken before the clock is read, and the loop sleeps at least `interval` after that. */
  ghost predicate Sleeps(polls: nat -> Poll, interval: real, i: nat) {
    polls(i).taken <= polls(i).clock && polls(i).clock + interval <= polls(i + 1).taken
  }

  ghost predicate Timely(polls: nat -> Poll, start: real, interval: real) {
    start <= polls(0).taken && forall i: nat :: Sleeps(polls, interval, i)
  }

  lemma {:induction false} SleepsAddUp(polls: nat -> Poll, start: real, interval: real, i: nat, j: nat)
    requires Timely(polls, start, interval) && interval > 0.0 && i <= j
    ensures polls(j).taken >= polls(i).taken + (j - i) as real * interval && polls(j).clock >= polls(j).taken
  {
    assert Sleeps(polls, interval, j);
    if i < j {
      SleepsAddUp(polls, start, interval, i, j - 1);
      assert Sleeps(polls, interval, j - 1);
      assert (j - i) as real * interval == (j - 1 - i) as real * interval + interval;
    }
  }

  lemma QuietLongEnough(quiet: real, interval: real, n: nat)
    requires interval > 0.0 && n >= QuietNeeded(quiet, interval)
    ensures n as real * interval >= quiet
  {
    var q := quiet / interval;
    assert Ceil(q) as real >= q;
    assert n as real >= q;
    assert n as real * interval >= q * interval;
  }

  lemma Scaled(a: real, b: real, c: real)
    requires a >= b && c > 0.0
    ensures a * c >= b * c
  {
  }

  lemma PollsAreBounded(timeout: real, interval: real, i: nat)
    requires interval > 0.0 && i as real * interval < timeout
    ensures i < Ceil(timeout / interval)
  {
    var q := timeout / interval;
    assert q * interval == timeout;
    if i as real >= q { Scaled(i as real, q, interval); }
    assert Ceil(q) as real >= q;
  }

  /** The file was the same size in the readings `first` to `last`. */
  ghost predicate Unchanged(polls: nat -> Poll, first: nat, last: nat) {
    first <= last && forall i: nat | first <= i <= last :: polls(i).reading.size == polls(last).reading.size
  }

  /** Readings with the same size, up to the last one, long enough; `last` is the loop's last poll. */
  ghost predicate SatQuiet(polls: nat -> Poll, last: nat, quiet: real) {
    exists first: nat | first <= last :: Unchanged(polls, first, last) && polls(last).taken - polls(first).taken >= quiet
  }

  /** `still` readings unchanged up to `last`, and no more. */
  ghost predicate StillFor(polls: nat -> Poll, still: nat, last: nat) {
    && still <= last && Unchanged(polls, last - still, last)
    && (still < last ==> polls(last - 1 - still).reading.size != polls(last).reading.size)
  }

  lemma QuietExit(polls: nat -> Poll, start: real, interval: real, quiet: real, still: nat, last: nat)
    requires Timely(polls, start, interval) && interval > 0.0
    requires StillFor(polls, still, last) && still >= QuietNeeded(quiet, interval)
    ensures SatQuiet(polls, last, quiet)
  {
    SleepsAddUp(polls, start, interval, last - still, last);
    QuietLongEnough(quiet, interval, still);
  }

  lemma NotQuietYet(polls: nat -> Poll, needed: nat, still: nat, last: nat)
    requires StillFor(polls, still, last) && still < needed
    ensures !exists first: nat :: first + needed <= last && Unchanged(polls, first, last)
  {
    forall first: nat | first + needed <= last ensures !Unchanged(polls, first, last) {
      assert first <= last - 1 - still <= last;
    }
  }

  lemma BeforeDeadline(polls: nat -> Poll, start: real, interval: real, timeout: real, last: nat)
    requires Timely(polls, start, interval) && interval > 0.0 && polls(last).clock < start + timeout
    ensures last < Ceil(timeout / interval)
  {
    SleepsAddUp(polls, start, interval, 0, last);
    PollsAreBounded(timeout, interval, last);
  }

  /** It exits quiet only when every record owed is there (if they could be counted) and the file
      was unchanged for the whole quiet window; it exits by the deadline only past the deadline and
      when the last reading did not meet that; and it exits within `timeout / interval` sleeps. */
  method SettleFile(fileExists: bool, target: nat, reliable: bool, timeout: real, interval: real, quiet: real,
                    start: real, polls: nat -> Poll)
    returns (outcome: Outcome, last: nat)
    requires interval > 0.0 && timeout >= 0.0 && Timely(polls, start, interval)
    ensures outcome.NoFile? <==> !fileExists
    ensures outcome.Quiet? ==> (reliable ==> polls(last).reading.records >= target) && SatQuiet(polls, last, quiet)
    ensures outcome.TimedOut? ==> polls(last).clock >= start + timeout
    ensures outcome.TimedOut? ==>
      (reliable && polls(last).reading.records < target)
      || !exists first: nat :: first + QuietNeeded(quiet, interval) <= last && Unchanged(polls, first, last)
    ensures !outcome.NoFile? ==> last <= Ceil(timeout / interval)
  {
    if !fileExists {
      return NoFile, 0;
    }
    var deadline := start + timeout;
    var quietNeeded := QuietNeeded(quiet, interval);
    var lastSize: int := -1;
    var still: nat := 0;
    last := 0;
    while true
      invariant last == 0 ==> lastSize == -1
      invariant last > 0 ==> lastSize == polls(last - 1).reading.size && StillFor(polls, still, last - 1)
      invariant last <= Ceil(timeout / interval)
      decreases Ceil(timeout / interval) - last
    {
      var poll := polls(last);
      still := if poll.reading.size == lastSize then still + 1 else 0;
      assert StillFor(polls, still, last);
      var targetMet := if reliable then poll.reading.records >= target else true;
      if targetMet && still >= quietNeeded {
        QuietExit(polls, start, interval, quiet, still, last);
        return Quiet, last;
      }
      if poll.clock >= deadline {
        if targetMet { NotQuietYet(polls, quietNeeded, still, last); }
        return TimedOut, last;
      }
      BeforeDeadline(polls, start, interval, timeout, last);
      lastSize := poll.reading.size;
      last := last + 1;
    }
  }

  ghost predicate SameFrom(file: real -> Bytes, since: real, end: real) {
    forall t: real | since <= t <= end :: file(t) == file(end)
  }

  /** What a quiet exit means for an append-only file: over the whole quiet window the file did not
      change at all, and a full scan of it counts every record the turn owed. */
  lemma QuietFileIsComplete(file: real -> Bytes, polls: nat -> Poll, last: nat, quiet: real, target: nat)
    requires forall t, u: real | t <= u :: file(t) <= file(u)
    requires forall i: nat :: polls(i).reading == Scan(file(polls(i).taken))
    requires SatQuiet(polls, last, quiet) && polls(last).reading.records >= target
    ensures Count(file(polls(last).taken)) >= target
    ensures exists since: real :: since + quiet <= polls(last).taken && SameFrom(file, since, polls(last).taken)
  {
    var first: nat :| first <= last && Unchanged(polls, first, last) && polls(last).taken - polls(first).taken >= quiet;
    var since, end := polls(first).taken, polls(last).taken;
    assert polls(first).reading.size == polls(last).reading.size;
    forall t: real | since <= t <= end ensures file(t) == file(end) {
      assert file(since) <= file(t) && file(t) <= file(end);
    }
    assert SameFrom(file, since, end);
  }

  // ---- what the turn owes ----

  /** What was counted before the turn, if it was counted in the file the turn then wrote. */
  function Baseline(counted: Option<(Sid, nat)>, sid: Sid): nat {
    if counted.Some? && counted.value.0 == sid then counted.value.1 else 0
  }

  /** `run_turn`'s settling: `counted` is the file it knew before the query and the records in it, `streamed`
      the assistant messages of the response. With none the records cannot be counted. */
  method SettleTurn(fileExists: bool, counted: Option<(Sid, nat)>, sid: Sid, streamed: nat, timeout: real, interval: real,
                    quiet: real, start: real, polls: nat -> Poll)
    returns (outcome: Outcome, last: nat)
    requires interval > 0.0 && timeout >= 0.0 && Timely(polls, start, interval)
    ensures outcome.Quiet? && streamed > 0 ==> polls(last).reading.records >= Baseline(counted, sid) + streamed
    ensures outcome.Quiet? ==> SatQuiet(polls, last, quiet)
    ensures outcome.NoFile? <==> !fileExists
    ensures outcome.TimedOut? ==> polls(last).clock >= start + timeout
    ensures outcome.TimedOut? ==>
      (streamed > 0 && polls(last).reading.records < streamed + if counted.Some? && counted.value.0 == sid then counted.value.1 else 0)
      || !exists first: nat :: first + QuietNeeded(quiet, interval) <= last && Unchanged(polls, first, last)
    ensures !outcome.NoFile? ==> last <= Ceil(timeout / interval)
  {
    var baseline := if counted.Some? then counted.value.1 else 0;
    if counted.Some? && counted.value.0 != sid {
      baseline := 0;
    }
    outcome, last := SettleFile(fileExists, baseline + streamed, streamed > 0, timeout, interval, quiet, start, polls);
  }

  /** After a quiet exit the turn is on disk: since the moment before the query the session's file, which is
      only appended to, has gained a record for every assistant message streamed; if the turn ran in
      another file than the one that was counted, or none was, that file has at least so many. */
  lemma TurnIsOnDisk(file: real -> Bytes, polls: nat -> Poll, last: nat, quiet: real,
                     counted: Option<(Sid, nat)>, sid: Sid, streamed: nat, before: real)
    requires forall t, u: real | t <= u :: file(t) <= file(u)
    requires forall i: nat :: polls(i).reading == Scan(file(polls(i).taken))
    requires counted.Some? && counted.value.0 == sid ==> counted.value.1 == Count(file(before))
    requires streamed > 0 && SatQuiet(polls, last, quiet) && polls(last).reading.records >= Baseline(counted, sid) + streamed
    ensures var end := file(polls(last).taken);
      Count(end) >= streamed + if counted.Some? && counted.value.0 == sid then Count(file(before)) else 0
    ensures exists since: real :: since + quiet <= polls(last).taken && SameFrom(file, since, polls(last).taken)
  {
    QuietFileIsComplete(file, polls, last, quiet, Baseline(counted, sid) + streamed);
  }
}
