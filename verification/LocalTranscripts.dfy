/** The CLI's transcript files on one worker's disk, and the cached count of their `assistant`
    records. */
module LocalTranscripts {
  import opened Wrappers
  import opened Rows

  const MARKER: Bytes := "\"type\":\"assistant\""

  /** Python's `bytes.count`: non-overlapping occurrences, found greedily from the left. */
  function Count(data: Bytes): nat {
    if |data| < |MARKER| then 0
    else if data[..|MARKER|] == MARKER then 1 + Count(data[|MARKER|..])
    else Count(data[1..])
  }

  /** What the CLI appends never lowers the count: the greedy scan takes the same matches. */
  lemma {:induction false} CountOfAppended(data: Bytes, more: Bytes)
    ensures Count(data) <= Count(data + more)
    decreases |data|
  {
    var all := data + more;
    if |data| >= |MARKER| {
      assert all[..|MARKER|] == data[..|MARKER|];
      var skip := if data[..|MARKER|] == MARKER then |MARKER| else 1;
      assert all[skip..] == data[skip..] + more;
      CountOfAppended(data[skip..], more);
    }
  }

  /** One reading of a file: its size in bytes and its `assistant` records. */
  datatype Reading = Reading(size: nat, records: nat)

  /** The reading a full scan of `data` gives. */
  function Scan(data: Bytes): Reading {
    Reading(|data|, Count(data))
  }

  /** The bytes of a file; a missing file reads as none. */
  function ContentIn(files: map<Sid, Bytes>, sid: Sid): Bytes {
    if sid in files then files[sid] else ""
  }

  // ---- when a cached count can be trusted ----

  /** Whatever the CLI appends to `data`, a cached reading that `sample` returns for it is right: `sample`
      returns it exactly when the file has the cached size. */
  ghost predicate Trusty(cached: Option<Reading>, data: Bytes) {
    forall more: Bytes :: RightAt(cached, data + more)
  }

  predicate RightAt(cached: Option<Reading>, data: Bytes) {
    cached.Some? && cached.value.size == |data| ==> cached.value == Scan(data)
  }

  /** What the greedy scan leaves unscanned: too short to hold another marker. */
  function Rest(data: Bytes): (r: Bytes)
    ensures |r| < |MARKER|
  {
    if |data| < |MARKER| then data
    else if data[..|MARKER|] == MARKER then Rest(data[|MARKER|..])
    else Rest(data[1..])
  }

  lemma {:induction false} CountGoesOn(data: Bytes, more: Bytes)
    ensures Count(data + more) == Count(data) + Count(Rest(data) + more)
    decreases |data|
  {
    var all := data + more;
    if |data| >= |MARKER| {
      assert all[..|MARKER|] == data[..|MARKER|];
      var skip := if data[..|MARKER|] == MARKER then |MARKER| else 1;
      assert all[skip..] == data[skip..] + more;
      CountGoesOn(data[skip..], more);
    }
  }

  predicate MarkerAt(data: Bytes, i: nat) {
    i + |MARKER| <= |data| && data[i..i + |MARKER|] == MARKER
  }

  lemma Shifted(data: Bytes, i: nat)
    requires data != ""
    ensures MarkerAt(data, i + 1) <==> MarkerAt(data[1..], i)
  {
    var n := i + |MARKER|;
    if n + 1 <= |data| { assert data[i + 1..n + 1] == data[1..][i..n]; }
  }

  /** The greedy count misses a marker only when there is none. */
  lemma {:induction false} CountIsZeroIff(data: Bytes)
    ensures Count(data) == 0 <==> forall i: nat :: !MarkerAt(data, i)
    decreases |data|
  {
    if |data| >= |MARKER| {
      if data[..|MARKER|] == MARKER {
        assert MarkerAt(data, 0);
      } else {
        CountIsZeroIff(data[1..]);
        forall i: nat ensures MarkerAt(data, i + 1) <==> MarkerAt(data[1..], i) { Shifted(data, i); }
        if i: nat :| MarkerAt(data, i) {
          assert i > 0;
          Shifted(data, i - 1);
        }
        if i: nat :| MarkerAt(data[1..], i) { Shifted(data, i); }
      }
    }
  }

  /** With `room` more bytes the CLI can complete one more marker: some end of what is unscanned is a
      start of it, and what is then missing fits. */
  predicate CanComplete(data: Bytes, room: nat) {
    exists i | 0 <= i <= |Rest(data)| :: Rest(data)[i..] <= MARKER && |Rest(data)| - i + room >= |MARKER|
  }

  lemma Completed(r: Bytes, i: nat, tail: Bytes)
    requires i <= |r| && r[i..] <= MARKER
    ensures MarkerAt(r + (MARKER[|r| - i..] + tail), i)
  {
    var missing := MARKER[|r| - i..];
    assert r[i..] + missing == MARKER;
    assert r + (missing + tail) == r[..i] + (r[i..] + missing) + tail;
  }

  lemma CompletesOne(data: Bytes, room: nat) returns (more: Bytes)
    requires CanComplete(data, room)
    ensures |more| == room && Count(data + more) > Count(data)
  {
    var r := Rest(data);
    var i :| 0 <= i <= |r| && r[i..] <= MARKER && |r| - i + room >= |MARKER|;
    var tail := seq(room - (|MARKER| - (|r| - i)), _ => ' ');
    more := MARKER[|r| - i..] + tail;
    Completed(r, i, tail);
    CountIsZeroIff(r + more);
    CountGoesOn(data, more);
  }

  lemma MarkerNeedsRoom(data: Bytes, more: Bytes, i: nat)
    requires MarkerAt(Rest(data) + more, i)
    ensures CanComplete(data, |more|)
  {
    var r := Rest(data);
    if i <= |r| {
      assert r[i..] == (r + more)[i..i + |MARKER|][..|r| - i] == MARKER[..|r| - i];
    } else {
      assert r[|r|..] <= MARKER;
    }
  }

  lemma CompletesNone(data: Bytes, more: Bytes)
    requires !CanComplete(data, |more|)
    ensures Count(data + more) == Count(data)
  {
    if i: nat :| MarkerAt(Rest(data) + more, i) { MarkerNeedsRoom(data, more, i); }
    CountIsZeroIff(Rest(data) + more);
    CountGoesOn(data, more);
  }

  lemma Blanks(data: Bytes, room: nat) returns (more: Bytes)
    ensures |more| == room && Count(data + more) == Count(data)
  {
    more := seq(room, _ => ' ');
    var all := Rest(data) + more;
    forall i: nat ensures !MarkerAt(all, i) {
      if i + |MARKER| <= |all| { assert all[i..i + |MARKER|][|MARKER| - 1] == ' '; }
    }
    CountIsZeroIff(all);
    CountGoesOn(data, more);
  }

  /** Exactly when a cached reading can be trusted over a file that holds `data`: the file is already
      longer; or the counts agree and the CLI cannot complete a marker before the file is that long. */
  predicate TrustIsSafe(cached: Option<Reading>, data: Bytes) {
    cached.Some? && cached.value.size >= |data| ==>
      cached.value.records == Count(data) && !CanComplete(data, cached.value.size - |data|)
  }

  lemma TrustIsExact(cached: Option<Reading>, data: Bytes)
    ensures Trusty(cached, data) <==> TrustIsSafe(cached, data)
  {
    if cached.Some? && cached.value.size >= |data| {
      var room: nat := cached.value.size - |data|;
      var blanks := Blanks(data, room);
      assert cached.value.records != Count(data) ==> !RightAt(cached, data + blanks);
      if CanComplete(data, room) {
        var more := CompletesOne(data, room);
        assert cached.value.records == Count(data) ==> !RightAt(cached, data + more);
      }
      if TrustIsSafe(cached, data) {
        forall more: Bytes ensures RightAt(cached, data + more) {
          if |more| == room { CompletesNone(data, more); }
        }
      }
    }
  }

  lemma TrustyAppended(cached: Option<Reading>, data: Bytes, more: Bytes)
    requires Trusty(cached, data)
    ensures Trusty(cached, data + more)
  {
    forall rest: Bytes ensures RightAt(cached, data + more + rest) {
      assert RightAt(cached, data + (more + rest));
      assert data + (more + rest) == data + more + rest;
    }
  }

  lemma ScannedIsTrusty(data: Bytes)
    ensures Trusty(Some(Scan(data)), data)
  {
    forall more: Bytes ensures RightAt(Some(Scan(data)), data + more) {
      if more == "" { assert data + more == data; }
    }
  }

  class LocalTranscripts {
    var files: map<Sid, Bytes>
    var counts: map<Sid, Reading>

    ghost function Content(sid: Sid): Bytes
      reads this
    {
      ContentIn(files, sid)
    }

    ghost function Cached(sid: Sid): Option<Reading>
      reads this
    {
      if sid in counts then Some(counts[sid]) else None
    }

    /** The file as `sample` sees it: its bytes, and what is cached about them. */
    ghost function Look(sid: Sid): File
      reads this
    {
      File(Content(sid), Cached(sid))
    }

    constructor ()
      ensures files == map[] && counts == map[]
    {
      files, counts := map[], map[];
    }

    /** The CLI appends to a file; jean is not told. */
    method Append(sid: Sid, more: Bytes)
      modifies this`files
      ensures files == old(files)[sid := old(Content(sid)) + more]
    {
      var was := if sid in files then files[sid] else "";
      files := files[sid := was + more];
    }

    method Read(sid: Sid) returns (data: Option<Bytes>)
      ensures data == if sid in files then Some(files[sid]) else None
    {
      data := if sid in files then Some(files[sid]) else None;
    }

    method Size(sid: Sid) returns (n: nat)
      ensures n == |Content(sid)|
    {
      n := if sid in files then |files[sid]| else 0;
    }

    /** `sample`: `appended` is what the CLI appends between the stat and the read. If the cache can be
        trusted, the reading is the one a full rescan would have given at one of the two moments. */
    method Sample(sid: Sid, appended: Bytes) returns (r: Reading)
      modifies this
      ensures Look(sid) == After(old(Look(sid)), Samples(sid, appended))
      ensures forall other | other != sid :: Look(other) == old(Look(other))
      ensures r == Answer(old(Look(sid)), appended)
      ensures Trusty(old(Cached(sid)), old(Content(sid))) ==> r == Scan(old(Content(sid))) || r == Scan(Content(sid))
    {
      assert Content(sid) + "" == Content(sid);
      assert Trusty(Cached(sid), Content(sid)) ==> RightAt(Cached(sid), Content(sid) + "");
      var size := Size(sid);
      if appended != "" {
        Append(sid, appended);
      }
      if sid in counts && counts[sid].size == size {
        r := counts[sid];
      } else {
        var data := Read(sid);
        r := Scan(data.GetOr(""));
        counts := counts[sid := r];
      }
    }

    /** `write` replaces the file (hydration), and then forgets what was counted of it. */
    method Write(sid: Sid, data: Bytes)
      modifies this
      ensures files == old(files)[sid := data] && counts == old(counts) - {sid}
    {
      files := files[sid := data];
      counts := counts - {sid};
    }

    /** `write_bytes` raises after `n` bytes: the file is cut short, and what was counted of the old one
        is still cached. */
    method WriteTorn(sid: Sid, data: Bytes, n: nat)
      requires n <= |data|
      modifies this`files
      ensures files == old(files)[sid := data[..n]]
    {
      files := files[sid := data[..n]];
    }

    method Delete(sid: Sid)
      modifies this
      ensures files == old(files) - {sid} && counts == old(counts) - {sid}
    {
      files := files - {sid};
      counts := counts - {sid};
    }
  }

  // ---- every interleaving ----

  datatype Event =
    | Appends(sid: Sid, more: Bytes)
    | Hydrates(sid: Sid, data: Bytes)
    | Tears(sid: Sid, data: Bytes)         // a hydration that raises after writing `data`
    | Deletes(sid: Sid)
    | Samples(sid: Sid, appended: Bytes)

  datatype File = File(content: Bytes, cached: Option<Reading>)

  /** The reading `sample` returns. */
  function Answer(f: File, appended: Bytes): Reading {
    if f.cached.Some? && f.cached.value.size == |f.content| then f.cached.value else Scan(f.content + appended)
  }

  /** What an event on its file does to it. */
  function After(f: File, e: Event): File {
    match e
    case Appends(_, more) => f.(content := f.content + more)
    case Hydrates(_, data) => File(data, None)
    case Tears(_, data) => f.(content := data)
    case Deletes(_) => File("", None)
    case Samples(_, appended) => File(f.content + appended, Some(Answer(f, appended)))
  }

  /** File `sid` after the first `n` events. */
  function FileAt(start: File, events: seq<Event>, n: nat, sid: Sid): File
    requires n <= |events|
  {
    if n == 0 then start
    else if events[n - 1].sid == sid then After(FileAt(start, events, n - 1, sid), events[n - 1])
    else FileAt(start, events, n - 1, sid)
  }

  /** What event `n` is told, if it is a sample. */
  function Told(start: File, events: seq<Event>, n: nat): Option<Reading>
    requires n < |events|
  {
    if events[n].Samples? then Some(Answer(FileAt(start, events, n, events[n].sid), events[n].appended)) else None
  }

  /** The reading at event `n` is what a full rescan would give just before or just after it. */
  predicate HonestAt(start: File, events: seq<Event>, n: nat, sid: Sid)
    requires n < |events|
  {
    events[n].sid == sid && events[n].Samples? ==>
      var before := FileAt(start, events, n, sid).content;
      Told(start, events, n) == Some(Scan(before)) || Told(start, events, n) == Some(Scan(before + events[n].appended))
  }

  /** A torn hydration at event `n`, if there is one, leaves a cache that can be trusted. */
  predicate TearsSafely(start: File, events: seq<Event>, n: nat, sid: Sid)
    requires n < |events|
  {
    events[n].sid == sid && events[n].Tears? ==> TrustIsSafe(FileAt(start, events, n, sid).cached, events[n].data)
  }

  /** `sample` counts the file anew. */
  predicate Rescans(f: File) {
    f.cached.Some? ==> f.cached.value.size != |f.content|
  }

  /** Whatever was torn before event `n`, nothing wrong is cached after it: a delete, a hydration that
      does not raise or leaves a cache that can be trusted, or a sample that counts anew. */
  predicate Heals(start: File, events: seq<Event>, n: nat, sid: Sid)
    requires n < |events|
  {
    events[n].sid == sid &&
    match events[n]
    case Appends(_, _) => false
    case Hydrates(_, _) => true
    case Tears(_, data) => TrustIsSafe(FileAt(start, events, n, sid).cached, data)
    case Deletes(_) => true
    case Samples(_, _) => Rescans(FileAt(start, events, n, sid))
  }

  /** Every torn hydration before event `n` leaves a cache that can be trusted, or is healed before `n`. */
  predicate TornAreHealed(start: File, events: seq<Event>, n: nat, sid: Sid)
    requires n <= |events|
  {
    forall k: nat | k < n :: TearsSafely(start, events, k, sid) || exists m: nat | k < m < n :: Heals(start, events, m, sid)
  }

  lemma HealedIsTrusty(start: File, events: seq<Event>, n: nat, sid: Sid)
    requires n < |events| && Heals(start, events, n, sid)
    ensures Trusty(FileAt(start, events, n + 1, sid).cached, FileAt(start, events, n + 1, sid).content)
  {
    match events[n]
    case Tears(_, data) => TrustIsExact(FileAt(start, events, n, sid).cached, data);
    case Samples(_, appended) => ScannedIsTrusty(FileAt(start, events, n, sid).content + appended);
    case _ =>
  }

  lemma {:induction false} TrustyAt(start: File, events: seq<Event>, n: nat, sid: Sid)
    requires n <= |events| && Trusty(start.cached, start.content) && TornAreHealed(start, events, n, sid)
    ensures Trusty(FileAt(start, events, n, sid).cached, FileAt(start, events, n, sid).content)
  {
    if n > 0 {
      if Heals(start, events, n - 1, sid) {
        HealedIsTrusty(start, events, n - 1, sid);
      } else {
        assert TearsSafely(start, events, n - 1, sid);
        assert TornAreHealed(start, events, n - 1, sid);
        TrustyAt(start, events, n - 1, sid);
        if events[n - 1].sid == sid { StaysTrusty(FileAt(start, events, n - 1, sid), events[n - 1]); }
      }
    }
  }

  lemma StaysTrusty(f: File, e: Event)
    requires Trusty(f.cached, f.content) && (e.Tears? ==> TrustIsSafe(f.cached, e.data))
    ensures Trusty(After(f, e).cached, After(f, e).content)
  {
    match e
    case Appends(_, more) => TrustyAppended(f.cached, f.content, more);
    case Tears(_, data) => TrustIsExact(f.cached, data);
    case Samples(_, appended) =>
      if Answer(f, appended) == Scan(f.content + appended) {
        ScannedIsTrusty(f.content + appended);
      } else {
        TrustyAppended(f.cached, f.content, appended);
      }
    case _ =>
  }

  /** Over any interleaving of appends, hydrations, torn hydrations, deletes and samples, a reading is one a
      full rescan would give if every torn hydration before it left a cache that can be trusted or was
      healed in between. */
  lemma ReadingsAreHonest(start: File, events: seq<Event>, n: nat, sid: Sid)
    requires n < |events| && Trusty(start.cached, start.content) && TornAreHealed(start, events, n, sid)
    ensures HonestAt(start, events, n, sid)
  {
    TrustyAt(start, events, n, sid);
    var f := FileAt(start, events, n, sid);
    assert f.content + "" == f.content;
    assert RightAt(f.cached, f.content + "");
  }

  /** And only those: after a torn hydration every later reading of that file, whatever the CLI appends
      before it, is honest if and only if the cache left behind can be trusted. */
  lemma TearingIsExact(f: File, data: Bytes, sid: Sid)
    ensures TrustIsSafe(f.cached, data) <==>
      forall more: Bytes :: HonestAt(f, [Tears(sid, data), Appends(sid, more), Samples(sid, "")], 2, sid)
  {
    TrustIsExact(f.cached, data);
    forall more: Bytes
      ensures HonestAt(f, [Tears(sid, data), Appends(sid, more), Samples(sid, "")], 2, sid) <==> RightAt(f.cached, data + more)
    {
      var es := [Tears(sid, data), Appends(sid, more), Samples(sid, "")];
      assert FileAt(f, es, 1, sid) == File(data, f.cached);
      assert FileAt(f, es, 2, sid) == File(data + more, f.cached);
      assert data + more + "" == data + more;
    }
  }

  /** A file with one record is counted, a hydration over it writes nothing and raises, and the CLI then
      writes as many bytes without a record: `sample` still answers one. */
  lemma TornHydrationMiscounts(sid: Sid, more: Bytes)
    requires |more| == |MARKER| && Count(more) == 0
    ensures var es := [Samples(sid, ""), Tears(sid, ""), Appends(sid, more), Samples(sid, "")];
      !HonestAt(File(MARKER, None), es, 3, sid)
  {
    var es := [Samples(sid, ""), Tears(sid, ""), Appends(sid, more), Samples(sid, "")];
    var start := File(MARKER, None);
    assert MARKER[..|MARKER|] == MARKER && MARKER[|MARKER|..] == "" && Count(MARKER) == 1;
    assert MARKER + "" == MARKER && "" + more == more && more + "" == more;
    assert FileAt(start, es, 1, sid) == File(MARKER, Some(Scan(MARKER)));
    assert FileAt(start, es, 2, sid) == File("", Some(Scan(MARKER)));
    assert FileAt(start, es, 3, sid) == File(more, Some(Scan(MARKER)));
  }

  method Perform(local: LocalTranscripts, e: Event) returns (r: Option<Reading>)
    modifies local
    ensures forall sid :: local.Look(sid) == if sid == e.sid then After(old(local.Look(sid)), e) else old(local.Look(sid))
    ensures r == if e.Samples? then Some(Answer(old(local.Look(e.sid)), e.appended)) else None
  {
    r := None;
    match e {
      case Appends(sid, more) => local.Append(sid, more);
      case Hydrates(sid, data) => local.Write(sid, data);
      case Tears(sid, data) => local.WriteTorn(sid, data, |data|);
      case Deletes(sid) => local.Delete(sid);
      case Samples(sid, appended) =>
        var got := local.Sample(sid, appended);
        r := Some(got);
    }
  }

  /** The class over any sequence of events: its readings are the ones `FileAt` and `Answer` give, so
      `ReadingsAreHonest` and `TearingIsExact` are about it. */
  method Replay(local: LocalTranscripts, events: seq<Event>) returns (readings: seq<Option<Reading>>)
    modifies local
    ensures |readings| == |events|
    ensures forall i | 0 <= i < |events| :: readings[i] == Told(old(local.Look(events[i].sid)), events, i)
    ensures forall sid :: local.Look(sid) == FileAt(old(local.Look(sid)), events, |events|, sid)
  {
    readings := [];
    for n := 0 to |events|
      invariant |readings| == n
      invariant forall sid :: local.Look(sid) == FileAt(old(local.Look(sid)), events, n, sid)
      invariant forall i | 0 <= i < n :: readings[i] == Told(old(local.Look(events[i].sid)), events, i)
    {
      var r := Perform(local, events[n]);
      readings := readings + [r];
    }
  }
}
