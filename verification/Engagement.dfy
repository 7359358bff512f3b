/** Who jean is talking to: `decide`, and the gateway that folds it over a thread's messages. */
module Engagement {
  import opened Wrappers
  import opened Rows

  // ---- mentions ----

  predicate Upper(c: char) {
    'A' <= c <= 'Z' || '0' <= c <= '9'
  }

  function RunEnd(s: string, i: nat, member: char -> bool): (j: nat)
    requires i <= |s|
    ensures i <= j <= |s| && (forall k | i <= k < j :: member(s[k])) && (j < |s| ==> !member(s[j]))
    decreases |s| - i
  {
    if i < |s| && member(s[i]) then RunEnd(s, i + 1, member) else i
  }

  /** `<@U...>` or `<@W...|label>` at `i`: the user id, and where the mention ends. */
  function MentionAt(s: string, i: nat): (m: Option<(User, nat)>)
    requires i < |s|
    ensures m.Some? ==> i < m.value.1 <= |s|
  {
    if i + 3 < |s| && s[i] == '<' && s[i + 1] == '@' && (s[i + 2] == 'U' || s[i + 2] == 'W') then
      var j := RunEnd(s, i + 3, Upper);
      if j == i + 3 || j == |s| then None
      else if s[j] == '>' then Some((s[i + 2..j], j + 1))
      else
        var k := RunEnd(s, j + 1, c => c != '>');
        if s[j] == '|' && j + 1 < k < |s| then Some((s[i + 2..j], k + 1)) else None
    else None
  }

  /** `mentions_in`: every mentioned user id from position `i` on, in order. */
  function MentionsIn(s: string, i: nat := 0): seq<User>
    requires i <= |s|
    decreases |s| - i
  {
    if i == |s| then []
    else
      match MentionAt(s, i)
      case Some((user, next)) => [user] + MentionsIn(s, next)
      case None => MentionsIn(s, i + 1)
  }

  /** A mention as it is written: who, and from where to where. */
  datatype Span = Span(user: User, start: nat, end: nat)

  /** `<@`, an id of `U` or `W` and one or more capitals or digits up to `m`, perhaps `|` and a label of
      anything but `>`, and `>`. */
  ghost predicate WrittenTo(s: string, x: Span, m: nat) {
    && x.start + 4 <= m < x.end <= |s| && x.user == s[x.start + 2..m]
    && s[x.start] == '<' && s[x.start + 1] == '@' && (s[x.start + 2] == 'U' || s[x.start + 2] == 'W')
    && (forall k | x.start + 3 <= k < m :: Upper(s[k]))
    && s[x.end - 1] == '>' && (m == x.end - 1 || (s[m] == '|' && m + 1 < x.end - 1 && forall k | m < k < x.end - 1 :: s[k] != '>'))
  }

  ghost predicate Written(s: string, x: Span) {
    exists m :: WrittenTo(s, x, m)
  }

  /** A mention is found at a place exactly when one is written there. */
  lemma MentionIsExact(s: string, i: nat, u: User, end: nat)
    requires i < |s|
    ensures MentionAt(s, i) == Some((u, end)) <==> Written(s, Span(u, i, end))
  {
    if i + 3 < |s| && s[i] == '<' && s[i + 1] == '@' && (s[i + 2] == 'U' || s[i + 2] == 'W') {
      var j := RunEnd(s, i + 3, Upper);
      if MentionAt(s, i) == Some((u, end)) { assert WrittenTo(s, Span(u, i, end), j); }
      if m :| WrittenTo(s, Span(u, i, end), m) {
        assert m == j;
        if s[j] == '|' { assert RunEnd(s, j + 1, c => c != '>') == end - 1; }
      }
    }
  }

  /** `x` starts within one of `spans`. */
  predicate Overlaps(spans: seq<Span>, x: Span) {
    exists sp <- spans :: sp.start <= x.start < sp.end
  }

  ghost predicate AllWritten(s: string, i: nat, spans: seq<Span>) {
    forall k | 0 <= k < |spans| :: Written(s, spans[k]) && i <= spans[k].start
  }

  predicate Apart(spans: seq<Span>) {
    forall k, l | 0 <= k < l < |spans| :: spans[k].end <= spans[l].start
  }

  ghost predicate AllFound(s: string, i: nat, spans: seq<Span>) {
    forall x: Span | Written(s, x) && i <= x.start :: Overlaps(spans, x)
  }

  predicate UsersOf(spans: seq<Span>, users: seq<User>) {
    |spans| == |users| && forall k | 0 <= k < |spans| :: spans[k].user == users[k]
  }

  lemma OneMoreApart(first: Span, rest: seq<Span>, s: string)
    requires Apart(rest) && AllWritten(s, first.end, rest) && Written(s, first)
    ensures Apart([first] + rest) && AllWritten(s, first.start, [first] + rest)
  {
    var spans := [first] + rest;
    assert forall k | 0 < k < |spans| :: spans[k] == rest[k - 1];
  }

  lemma OneMoreFound(first: Span, rest: seq<Span>, s: string)
    requires AllFound(s, first.end, rest)
    ensures AllFound(s, first.start, [first] + rest)
  {
    var spans := [first] + rest;
    forall x: Span | Written(s, x) && first.start <= x.start ensures Overlaps(spans, x) {
      if x.start >= first.end {
        assert Overlaps(rest, x);
        var sp :| sp in rest && sp.start <= x.start < sp.end;
        assert sp in spans;
      } else {
        assert first in spans;
      }
    }
  }

  lemma OneMoreUser(first: Span, rest: seq<Span>, users: seq<User>)
    requires UsersOf(rest, users)
    ensures UsersOf([first] + rest, [first.user] + users)
  {
  }

  lemma NoneAt(s: string, i: nat, spans: seq<Span>)
    requires i < |s| && MentionAt(s, i).None? && AllWritten(s, i + 1, spans) && AllFound(s, i + 1, spans)
    ensures AllWritten(s, i, spans) && AllFound(s, i, spans)
  {
    forall x: Span | Written(s, x) && i <= x.start ensures Overlaps(spans, x) {
      if x.start == i { MentionIsExact(s, i, x.user, x.end); }
    }
  }

  /** `mentions_in` gives the users of the mentions that are written in the text, in order: all but those that start
      within the label of one before. */
  lemma {:induction false} MentionsAreFound(s: string, i: nat) returns (spans: seq<Span>)
    requires i <= |s|
    ensures AllWritten(s, i, spans) && Apart(spans) && AllFound(s, i, spans) && UsersOf(spans, MentionsIn(s, i))
    decreases |s| - i
  {
    if i == |s| {
      spans := [];
    } else if MentionAt(s, i).Some? {
      var (user, next) := MentionAt(s, i).value;
      var rest := MentionsAreFound(s, next);
      var first := Span(user, i, next);
      MentionIsExact(s, i, user, next);
      spans := [first] + rest;
      OneMoreApart(first, rest, s);
      OneMoreFound(first, rest, s);
      OneMoreUser(first, rest, MentionsIn(s, next));
    } else {
      spans := MentionsAreFound(s, i + 1);
      NoneAt(s, i, spans);
    }
  }

  // ---- the decision ----

  datatype Soul = Soul(manager: Option<User>, allowedChannels: seq<string>, blocked: seq<User>)

  datatype Reason =
    BlockedUser | DirectMessage | ChannelNotAllowed | Mention | Handoff | OtherMentioned | PartnerFollowup | NotAddressed

  datatype Decision = Decision(handle: bool, partner: Option<User>, reason: Reason)

  /** `soul` is what the soul provider answers while the message is decided. */
  datatype Message = Message(author: Option<User>, text: string, isDm: bool, soul: Soul)

  datatype Place = Place(bot: User, channel: string)

  function Decide(p: Place, m: Message, partner: Option<User>): Decision {
    var taken := if m.author.Some? then m.author else partner;
    if m.author.Some? && m.author.value in m.soul.blocked then Decision(false, partner, BlockedUser)
    else if m.isDm then Decision(true, taken, DirectMessage)
    else if m.soul.allowedChannels != [] && p.channel !in m.soul.allowedChannels
            && !(m.author.Some? && m.soul.manager == m.author) then
      Decision(false, partner, ChannelNotAllowed)
    else if p.bot in MentionsIn(m.text) then Decision(true, taken, Mention)
    else if MentionsIn(m.text) != [] then
      if m.author.Some? && m.author == partner then Decision(false, None, Handoff)
      else Decision(false, partner, OtherMentioned)
    else if m.author.Some? && m.author == partner then Decision(true, partner, PartnerFollowup)
    else Decision(false, partner, NotAddressed)
  }

  /** Slack delivers a bot mention twice, as a message and as a mention: what reaches `_engage`. */
  datatype Event = OnMessage(message: Message) | OnMention(message: Message)

  /** `on_message` leaves bot mentions to `on_mention`, which never sees a direct message. */
  function Reaches(p: Place, e: Event): Option<Message> {
    match e
    case OnMessage(m) => if p.bot in MentionsIn(m.text) then None else Some(m)
    case OnMention(m) => Some(m.(isDm := false))
  }

  datatype Outcome = Outcome(partner: Option<User>, dispatched: seq<Message>, writes: nat)

  function After(p: Place, e: Event, o: Outcome): Outcome {
    match Reaches(p, e)
    case None => o
    case Some(m) =>
      var d := Decide(p, m, o.partner);
      Outcome(d.partner, if d.handle then o.dispatched + [m] else o.dispatched,
              if d.partner != o.partner then o.writes + 1 else o.writes)
  }

  function History(p: Place, es: seq<Event>, o: Outcome): Outcome
    decreases |es|
  {
    if es == [] then o else History(p, es[1..], After(p, es[0], o))
  }

  /** The gateway's per-thread state in the store, and the turns it has started. */
  class Gateway {
    const place: Place
    var partner: Option<User>        // `sessions.engaged_with`
    var dispatched: seq<Message>
    var writes: nat

    constructor (where: Place, stored: Option<User>)
      ensures place == where && View() == Outcome(stored, [], 0)
    {
      place, partner, dispatched, writes := where, stored, [], 0;
    }

    ghost function View(): Outcome
      reads this
    {
      Outcome(partner, dispatched, writes)
    }

    method Engage(m: Message)
      modifies this
      ensures var was := old(View()); var d := Decide(place, m, was.partner);
        && partner == d.partner
        && dispatched == (if d.handle then was.dispatched + [m] else was.dispatched)
        && writes == (if d.partner != was.partner then was.writes + 1 else was.writes)
    {
      var current := partner;
      var decision := Decide(place, m, current);
      if decision.partner != current {
        partner := decision.partner;
        writes := writes + 1;
      }
      if decision.handle {
        dispatched := dispatched + [m];
      }
    }

    method OnMessage(m: Message)
      modifies this
      ensures View() == After(place, Event.OnMessage(m), old(View()))
    {
      if place.bot in MentionsIn(m.text) {
        return;
      }
      Engage(m);
    }

    method OnMention(m: Message)
      modifies this
      ensures View() == After(place, Event.OnMention(m), old(View()))
    {
      Engage(m.(isDm := false));
    }

    method Receive(es: seq<Event>)
      modifies this
      ensures View() == History(place, es, old(View()))
    {
      for i := 0 to |es|
        invariant History(place, es[i..], View()) == History(place, es, old(View()))
      {
        match es[i]
        case OnMessage(m) => OnMessage(m);
        case OnMention(m) => OnMention(m);
        assert es[i..][1..] == es[i + 1..];
      }
    }
  }

  // ---- bystanders do not matter ----

  predicate By(e: Event, who: User) {
    e.message.author == Some(who)
  }

  /** Neither mentions the bot nor writes to it directly. */
  predicate Bystander(p: Place, es: seq<Event>, who: User) {
    forall e <- es :: By(e, who) ==> !e.message.isDm && p.bot !in MentionsIn(e.message.text)
  }

  function Without(es: seq<Event>, who: User): seq<Event> {
    if es == [] then []
    else (if By(es[0], who) then [] else [es[0]]) + Without(es[1..], who)
  }

  /** Deleting every message of someone who is not the partner at the start and never addresses jean
      changes nothing: the same turns are started, in the same order, by the same messages, the
      partner ends the same, and the store is written as often. */
  lemma {:induction false} BystandersDoNotMatter(p: Place, es: seq<Event>, who: User, o: Outcome)
    requires o.partner != Some(who) && Bystander(p, es, who)
    ensures History(p, es, o) == History(p, Without(es, who), o)
    decreases |es|
  {
    if es != [] {
      var next := After(p, es[0], o);
      assert Bystander(p, es[1..], who);
      assert By(es[0], who) ==> next == o;
      assert next.partner != Some(who);
      BystandersDoNotMatter(p, es[1..], who, next);
      if By(es[0], who) {
        assert Without(es, who) == Without(es[1..], who);
      } else {
        assert Without(es, who) == [es[0]] + Without(es[1..], who);
        assert ([es[0]] + Without(es[1..], who))[1..] == Without(es[1..], who);
      }
    }
  }

  // ---- who gets an answer ----

  /** Addresses jean: directly, or by mentioning the bot. */
  predicate Opens(p: Place, m: Message) {
    m.isDm || p.bot in MentionsIn(m.text)
  }

  predicate Unblocked(p: Place, m: Message) {
    m.author.Some? ==> m.author.value !in m.soul.blocked
  }

  /** `who`, not blocked, addressed jean somewhere in `es`. */
  predicate Opener(p: Place, es: seq<Event>, who: User) {
    exists e <- es :: OpenedBy(p, e, who)
  }

  predicate OpenedBy(p: Place, e: Event, who: User) {
    Reaches(p, e).Some? && var m := Reaches(p, e).value; m.author == Some(who) && Opens(p, m) && Unblocked(p, m)
  }

  /** Why a message may start a turn: its author is not blocked, and it addresses jean, or its author was
      the partner at the start or addressed jean in the history. */
  predicate Justified(p: Place, es: seq<Event>, start: Option<User>, m: Message) {
    && Unblocked(p, m)
    && (Opens(p, m) || (m.author.Some? && (m.author == start || Opener(p, es, m.author.value))))
  }

  /** Over every history: turns already started stay, each new one is justified, and whoever ends as the
      partner was so at the start or addressed jean, unblocked. */
  lemma {:induction false} OnlyTheAddressedAreAnswered(p: Place, es: seq<Event>, o: Outcome)
    ensures var h := History(p, es, o);
      && o.dispatched <= h.dispatched
      && (forall k | |o.dispatched| <= k < |h.dispatched| :: Justified(p, es, o.partner, h.dispatched[k]))
      && (h.partner.Some? && h.partner != o.partner ==> Opener(p, es, h.partner.value))
    decreases |es|
  {
    if es != [] {
      var next, h := After(p, es[0], o), History(p, es, o);
      OnlyTheAddressedAreAnswered(p, es[1..], next);
      assert next.partner.Some? && next.partner != o.partner ==> OpenedBy(p, es[0], next.partner.value);
      forall who | Opener(p, es[1..], who) ensures Opener(p, es, who) {
        var e :| e in es[1..] && OpenedBy(p, e, who);
        assert e in es;
      }
      forall k | |o.dispatched| <= k < |h.dispatched| ensures Justified(p, es, o.partner, h.dispatched[k]) {
        if k >= |next.dispatched| { assert Justified(p, es[1..], next.partner, h.dispatched[k]); }
        else { assert h.dispatched[k] == next.dispatched[k]; }
      }
    }
  }

  /** A message that mentions the bot and is delivered both ways starts at most one turn, and nothing
      else the plain delivery could do happens. */
  lemma OneTurnPerMention(p: Place, m: Message, o: Outcome)
    requires p.bot in MentionsIn(m.text)
    ensures History(p, [OnMessage(m), OnMention(m)], o) == After(p, OnMention(m), o)
    ensures History(p, [OnMention(m), OnMessage(m)], o) == After(p, OnMention(m), o)
  {
    var one := After(p, OnMention(m), o);
    assert [OnMention(m), OnMessage(m)][1..] == [OnMessage(m)];
    assert History(p, [OnMessage(m)], one) == one;
  }

  // ---- and that they are answered ----

  /** Nobody is kept out of the channel, or the author is let in or the manager. */
  predicate LetIn(p: Place, m: Message) {
    || m.soul.allowedChannels == [] || p.channel in m.soul.allowedChannels
    || (m.author.Some? && m.soul.manager == m.author)
  }

  /** The partner goes on talking, and mentions nobody. */
  predicate GoesOn(p: Place, m: Message, partner: Option<User>) {
    m.author.Some? && m.author == partner && MentionsIn(m.text) == []
  }

  /** The partner turns to somebody else. */
  predicate TurnsAway(p: Place, m: Message, partner: Option<User>) {
    m.author.Some? && m.author == partner && MentionsIn(m.text) != [] && p.bot !in MentionsIn(m.text)
  }

  lemma {:induction false} HistoryOn(p: Place, a: seq<Event>, b: seq<Event>, o: Outcome)
    ensures History(p, a + b, o) == History(p, b, History(p, a, o))
    decreases |a|
  {
    if a == [] {
      assert a + b == b;
    } else {
      HistoryOn(p, a[1..], b, After(p, a[0], o));
      assert (a + b)[1..] == a[1..] + b;
    }
  }

  /** At every point of every history: a message that reaches jean starts a turn, at once, if and only if its author
      is not blocked and it is direct, or in a channel its author is let in it mentions the bot or is the
      partner's and mentions nobody. Whoever addresses jean so becomes the partner; a partner who turns to
      somebody else in such a channel stops being it; and in all other cases the partner stays. */
  lemma AnsweredIff(p: Place, es: seq<Event>, i: nat, o: Outcome)
    requires i < |es| && Reaches(p, es[i]).Some?
    ensures var before := History(p, es[..i], o); var after := History(p, es[..i + 1], o); var m := Reaches(p, es[i]).value;
      && (if Unblocked(p, m) && (m.isDm || (LetIn(p, m) && (Opens(p, m) || GoesOn(p, m, before.partner))))
          then after.dispatched == before.dispatched + [m] else after.dispatched == before.dispatched)
      && after.partner == (if !Unblocked(p, m) || (!m.isDm && !LetIn(p, m)) then before.partner
                           else if Opens(p, m) then if m.author.Some? then m.author else before.partner
                           else if TurnsAway(p, m, before.partner) then None else before.partner)
      && after.dispatched <= History(p, es, o).dispatched
  {
    var before, after := History(p, es[..i], o), History(p, es[..i + 1], o);
    assert es[..i + 1] == es[..i] + [es[i]];
    HistoryOn(p, es[..i], [es[i]], o);
    assert [es[i]][1..] == [];
    assert after == After(p, es[i], before);
    assert es == es[..i + 1] + es[i + 1..];
    HistoryOn(p, es[..i + 1], es[i + 1..], o);
    OnlyTheAddressedAreAnswered(p, es[i + 1..], after);
  }
}
