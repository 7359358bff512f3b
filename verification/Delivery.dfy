/** How a turn's answer reaches the thread: the fold over the response stream, and `_deliver`. */
module Delivery {
  import opened Wrappers

  const SPEAKING_TOOLS := {"mcp__jean_slack__reply", "mcp__jean_slack__edit", "mcp__jean_slack__upload"}

  const MUTE_TURN_NOTICE :=
    "I finished working on that but produced no reply -- nothing to show for it. "
    + "Worth asking again, and worth a look at my logs if it keeps happening."

  const RATE_LIMIT_STATUSES: set<int> := {429, 529}

  datatype Block = TextBlock(text: string) | ToolUse(name: string) | OtherBlock

  datatype Message =
    | Assistant(blocks: seq<Block>)
    | ResultMessage(isError: bool, status: Option<int>)
    | OtherMessage

  datatype Outcome = Answered | Notice | Undelivered | RateLimited

  /** Python's `str.strip`, for whichever characters count as white space. */
  function Strip(s: string, space: char -> bool): string {
    if s == "" then ""
    else if space(s[0]) then Strip(s[1..], space)
    else if space(s[|s| - 1]) then Strip(s[..|s| - 1], space)
    else s
  }

  /** The stripped texts of the blocks that have any. */
  function Texts(blocks: seq<Block>, space: char -> bool): seq<string> {
    if blocks == [] then []
    else
      (if blocks[0].TextBlock? && Strip(blocks[0].text, space) != "" then [Strip(blocks[0].text, space)] else [])
      + Texts(blocks[1..], space)
  }

  function Join(parts: seq<string>): string {
    if parts == [] then "" else if |parts| == 1 then parts[0] else parts[0] + "\n\n" + Join(parts[1..])
  }

  /** `_text_of`: `None` when there is nothing but white space. */
  function TextOf(m: Message, space: char -> bool): Option<string> {
    if !m.Assistant? || Texts(m.blocks, space) == [] then None else Some(Join(Texts(m.blocks, space)))
  }

  predicate Speaks(m: Message) {
    m.Assistant? && exists b <- m.blocks :: b.ToolUse? && b.name in SPEAKING_TOOLS
  }

  predicate Blank(s: string, space: char -> bool) {
    forall c <- s :: space(c)
  }

  lemma {:induction false} StripBlank(s: string, space: char -> bool)
    ensures Strip(s, space) == "" <==> Blank(s, space)
    decreases |s|
  {
    if s == "" {
    } else if space(s[0]) {
      StripBlank(s[1..], space);
      assert s == [s[0]] + s[1..];
    } else if space(s[|s| - 1]) {
      StripBlank(s[..|s| - 1], space);
      assert s[..|s| - 1][0] == s[0];
    } else {
      assert s[0] in s;
    }
  }

  lemma {:induction false} TextsOfBlanks(blocks: seq<Block>, space: char -> bool)
    ensures Texts(blocks, space) == [] <==> forall b <- blocks :: b.TextBlock? ==> Blank(b.text, space)
    decreases |blocks|
  {
    if blocks != [] {
      TextsOfBlanks(blocks[1..], space);
      if blocks[0].TextBlock? { StripBlank(blocks[0].text, space); }
      assert blocks == [blocks[0]] + blocks[1..];
    }
  }

  /** An assistant message carries no text exactly when every text block in it is blank. */
  lemma NoTextIffBlank(m: Message, space: char -> bool)
    requires m.Assistant?
    ensures TextOf(m, space).None? <==> forall b <- m.blocks :: b.TextBlock? ==> Blank(b.text, space)
  {
    TextsOfBlanks(m.blocks, space);
  }

  // ---- what the text is ----

  /** `r` is `s` without the white space at its ends. */
  predicate IsStripped(s: string, r: string, space: char -> bool) {
    (exists a, b | 0 <= a <= b <= |s| :: r == s[a..b] && Blank(s[..a], space) && Blank(s[b..], space))
    && (r != "" ==> !space(r[0]) && !space(r[|r| - 1]))
  }

  lemma {:induction false} StripIs(s: string, space: char -> bool) returns (a: nat, b: nat)
    ensures a <= b <= |s| && Strip(s, space) == s[a..b] && Blank(s[..a], space) && Blank(s[b..], space)
    ensures IsStripped(s, Strip(s, space), space)
    decreases |s|
  {
    a, b := 0, |s|;
    if s == "" {
      assert s == s[0..0];
    } else if space(s[0]) {
      a, b := StripIs(s[1..], space);
      a, b := CutFront(s, a, b, space);
    } else if space(s[|s| - 1]) {
      a, b := StripIs(s[..|s| - 1], space);
      CutBack(s, a, b, space);
    } else {
      assert s[0..|s|] == s;
    }
  }

  lemma {:induction false} CutFront(s: string, a: nat, b: nat, space: char -> bool) returns (a': nat, b': nat)
    requires s != "" && space(s[0]) && a <= b < |s| && Blank(s[1..][..a], space) && Blank(s[1..][b..], space)
    ensures a' <= b' <= |s| && s[1..][a..b] == s[a'..b'] && Blank(s[..a'], space) && Blank(s[b'..], space)
  {
    a', b' := a + 1, b + 1;
    assert s[..a'] == [s[0]] + s[1..][..a] && s[b'..] == s[1..][b..] && s[1..][a..b] == s[a'..b'];
  }

  lemma {:induction false} CutBack(s: string, a: nat, b: nat, space: char -> bool)
    requires s != "" && space(s[|s| - 1]) && a <= b < |s| && Blank(s[..|s| - 1][..a], space) && Blank(s[..|s| - 1][b..], space)
    ensures s[..|s| - 1][a..b] == s[a..b] && Blank(s[..a], space) && Blank(s[b..], space)
  {
    assert s[..a] == s[..|s| - 1][..a] && s[b..] == s[..|s| - 1][b..] + [s[|s| - 1]];
  }

  /** Parts with a blank line between each and the next. */
  function Spaced(parts: seq<string>): string {
    if parts == [] then ""
    else if |parts| == 1 then parts[0]
    else Spaced(parts[..|parts| - 1]) + "\n\n" + parts[|parts| - 1]
  }

  lemma {:induction false} SpacedFromTheFront(parts: seq<string>)
    requires |parts| > 1
    ensures Spaced(parts) == parts[0] + "\n\n" + Spaced(parts[1..])
  {
    var front := parts[..|parts| - 1];
    if |parts| > 2 {
      SpacedFromTheFront(front);
      assert parts[1..][..|parts| - 2] == front[1..];
      assert parts[0] + "\n\n" + Spaced(front[1..]) + "\n\n" + parts[|parts| - 1]
          == parts[0] + "\n\n" + (Spaced(front[1..]) + "\n\n" + parts[|parts| - 1]);
    }
  }

  lemma {:induction false} JoinIsSpaced(parts: seq<string>)
    ensures Join(parts) == Spaced(parts)
  {
    if |parts| > 1 {
      JoinIsSpaced(parts[1..]);
      SpacedFromTheFront(parts);
    }
  }

  /** The block has text in it that is not white space. */
  predicate HasText(b: Block, space: char -> bool) {
    b.TextBlock? && !Blank(b.text, space)
  }

  /** The blocks with text, in order. */
  function WithText(blocks: seq<Block>, space: char -> bool): seq<Block> {
    if blocks == [] then []
    else WithText(blocks[..|blocks| - 1], space) + if HasText(blocks[|blocks| - 1], space) then [blocks[|blocks| - 1]] else []
  }

  lemma {:induction false} WithTextFromTheFront(blocks: seq<Block>, space: char -> bool)
    requires blocks != []
    ensures WithText(blocks, space) == (if HasText(blocks[0], space) then [blocks[0]] else []) + WithText(blocks[1..], space)
    decreases |blocks|
  {
    var front, last := blocks[..|blocks| - 1], blocks[|blocks| - 1];
    if |blocks| > 1 {
      WithTextFromTheFront(front, space);
      assert blocks[1..] == front[1..] + [last];
      WithTextMore(front[1..], last, space);
    } else {
      assert front == [] && blocks[1..] == [];
    }
  }

  lemma {:induction false} WithTextMore(blocks: seq<Block>, b: Block, space: char -> bool)
    ensures WithText(blocks + [b], space) == WithText(blocks, space) + if HasText(b, space) then [b] else []
  {
    assert (blocks + [b])[..|blocks|] == blocks;
  }

  /** `parts` are the stripped texts of the blocks that have any, all of them and in order. */
  ghost predicate TextParts(blocks: seq<Block>, parts: seq<string>, space: char -> bool) {
    var texts := WithText(blocks, space);
    |parts| == |texts| && forall k | 0 <= k < |texts| :: PartOf(texts[k], parts[k], space)
  }

  ghost predicate PartOf(b: Block, part: string, space: char -> bool) {
    b.TextBlock? && IsStripped(b.text, part, space) && part != ""
  }

  lemma {:induction false} OnePart(b: Block, space: char -> bool)
    requires b.TextBlock?
    ensures HasText(b, space) <==> Strip(b.text, space) != ""
    ensures HasText(b, space) ==> PartOf(b, Strip(b.text, space), space)
  {
    StripBlank(b.text, space);
    var i, j := StripIs(b.text, space);
  }

  lemma {:induction false} TextsAre(blocks: seq<Block>, space: char -> bool)
    ensures TextParts(blocks, Texts(blocks, space), space)
    decreases |blocks|
  {
    if blocks != [] {
      var b, rest := blocks[0], blocks[1..];
      TextsAre(rest, space);
      WithTextFromTheFront(blocks, space);
      if b.TextBlock? { OnePart(b, space); }
      PartsMore(b, WithText(rest, space), Texts(rest, space), space);
    }
  }

  lemma {:induction false} PartsMore(b: Block, texts: seq<Block>, parts: seq<string>, space: char -> bool)
    requires |parts| == |texts| && forall k | 0 <= k < |texts| :: PartOf(texts[k], parts[k], space)
    ensures b.TextBlock? && PartOf(b, Strip(b.text, space), space) ==>
      forall k | 0 <= k < |texts| + 1 :: PartOf(([b] + texts)[k], ([Strip(b.text, space)] + parts)[k], space)
  {
  }

  /** The text of an assistant message is the text of each of its blocks that has any, stripped, all of them and
      in order, with a blank line between. */
  lemma {:induction false} TextIsTheBlocks(m: Message, space: char -> bool) returns (parts: seq<string>)
    requires m.Assistant? && TextOf(m, space).Some?
    ensures TextParts(m.blocks, parts, space) && parts != [] && TextOf(m, space) == Some(Spaced(parts))
  {
    TextsAre(m.blocks, space);
    parts := Texts(m.blocks, space);
    JoinIsSpaced(parts);
  }

  // ---- the last of them ----

  /** `text` is the text of the last message of `msgs` that has any. */
  ghost predicate IsLastText(msgs: seq<Message>, text: Option<string>, space: char -> bool) {
    if text.None? then forall m <- msgs :: TextOf(m, space).None?
    else exists i | 0 <= i < |msgs| :: TextOf(msgs[i], space) == text && forall j | i < j < |msgs| :: TextOf(msgs[j], space).None?
  }

  predicate Throttled(m: Message) {
    m.ResultMessage? && m.isError && m.status.Some? && m.status.value in RATE_LIMIT_STATUSES
  }

  /** `_deliver`: one reply attempt, and what became of it. `named` finds a document the text names. */
  method Deliver(finalText: Option<string>, named: string -> Option<string>, posts: bool)
    returns (outcome: Outcome, reply: string)
    ensures finalText.None? ==> reply == MUTE_TURN_NOTICE
    ensures finalText.Some? ==> finalText.value <= reply && (named(finalText.value).None? ==> reply == finalText.value)
    ensures outcome == if !posts then Undelivered else if finalText.None? then Notice else Answered
  {
    if finalText.None? {
      reply, outcome := MUTE_TURN_NOTICE, Notice;
    } else {
      reply, outcome := finalText.value, Answered;
      var document := named(finalText.value);
      if document.Some? {
        reply := finalText.value + "\n\n_(I named `" + document.value
          + "` above but did not attach it \U{2014} ask and I'll upload it.)_";
      }
    }
    if !posts {
      outcome := Undelivered;
    }
  }

  function Assistants(msgs: seq<Message>): seq<Message> {
    if msgs == [] then []
    else Assistants(msgs[..|msgs| - 1]) + if msgs[|msgs| - 1].Assistant? then [msgs[|msgs| - 1]] else []
  }

  lemma AssistantsStep(msgs: seq<Message>, m: Message)
    ensures Assistants(msgs + [m]) == Assistants(msgs) + if m.Assistant? then [m] else []
  {
    assert (msgs + [m])[..|msgs|] == msgs;
  }

  lemma LastTextStep(msgs: seq<Message>, m: Message, text: Option<string>, space: char -> bool)
    requires IsLastText(msgs, text, space)
    ensures IsLastText(msgs + [m], if TextOf(m, space).Some? then TextOf(m, space) else text, space)
  {
    var all := msgs + [m];
    if TextOf(m, space).Some? {
      assert all[|msgs|] == m;
    } else if text.Some? {
      var i :| 0 <= i < |msgs| && TextOf(msgs[i], space) == text && forall j | i < j < |msgs| :: TextOf(msgs[j], space).None?;
      assert all[i] == msgs[i];
    }
  }

  /** The agent posted, edited or uploaded something itself. */
  predicate Spoke(msgs: seq<Message>) {
    exists m, b | m in msgs && m.Assistant? && b in m.blocks ::
      b == ToolUse("mcp__jean_slack__reply") || b == ToolUse("mcp__jean_slack__edit") || b == ToolUse("mcp__jean_slack__upload")
  }

  predicate Heard(msgs: seq<Message>) {
    exists m <- msgs :: m.Assistant?
  }

  predicate Limited(msgs: seq<Message>) {
    exists m <- msgs :: m.ResultMessage? && m.isError && (m.status == Some(429) || m.status == Some(529))
  }

  lemma FlagsStep(msgs: seq<Message>, m: Message)
    ensures Spoke(msgs + [m]) <==> Spoke(msgs) || Speaks(m)
    ensures Heard(msgs + [m]) <==> Heard(msgs) || m.Assistant?
    ensures Limited(msgs + [m]) <==> Limited(msgs) || Throttled(m)
  {
    assert m in msgs + [m];
    assert forall x <- msgs :: x in msgs + [m];
  }

  lemma TextIsSilence(msgs: seq<Message>, text: Option<string>, space: char -> bool)
    requires IsLastText(msgs, text, space)
    ensures text.None? <==> Silent(msgs, space)
  {
  }

  predicate Silent(msgs: seq<Message>, space: char -> bool) {
    forall m <- msgs :: TextOf(m, space).None?
  }

  /** The label of a turn that ran to its end: an empty thread outranks being throttled, which outranks
      having had nothing to say. */
  function Labelled(spoke: bool, heard: bool, posts: bool, throttled: bool, silent: bool): Outcome {
    if !spoke && (!heard || !posts) then Undelivered
    else if throttled then RateLimited
    else if !spoke && silent then Notice
    else Answered
  }

  /** One message more. */
  lemma {:induction false} ReadOne(msgs: seq<Message>, i: nat, text: Option<string>, space: char -> bool)
    requires i < |msgs| && IsLastText(msgs[..i], text, space)
    ensures IsLastText(msgs[..i + 1], if TextOf(msgs[i], space).Some? then TextOf(msgs[i], space) else text, space)
    ensures |Assistants(msgs[..i + 1])| == |Assistants(msgs[..i])| + if msgs[i].Assistant? then 1 else 0
    ensures Spoke(msgs[..i + 1]) <==> Spoke(msgs[..i]) || Speaks(msgs[i])
    ensures Heard(msgs[..i + 1]) <==> Heard(msgs[..i]) || msgs[i].Assistant?
    ensures Limited(msgs[..i + 1]) <==> Limited(msgs[..i]) || Throttled(msgs[i])
  {
    assert msgs[..i + 1] == msgs[..i] + [msgs[i]];
    LastTextStep(msgs[..i], msgs[i], text, space);
    AssistantsStep(msgs[..i], msgs[i]);
    FlagsStep(msgs[..i], msgs[i]);
  }

  /** The receive loop of `run_turn`, as far as the answer goes. */
  method ReadStream(msgs: seq<Message>, space: char -> bool)
    returns (spoke: bool, rateLimited: bool, rounds: nat, finalText: Option<string>)
    ensures spoke == Spoke(msgs) && rateLimited == Limited(msgs)
    ensures rounds == |Assistants(msgs)| && (rounds > 0 <==> Heard(msgs))
    ensures IsLastText(msgs, finalText, space)
  {
    spoke, rateLimited, rounds, finalText := false, false, 0, None;
    for i := 0 to |msgs|
      invariant spoke == Spoke(msgs[..i]) && rateLimited == Limited(msgs[..i])
      invariant rounds == |Assistants(msgs[..i])| && (rounds > 0 <==> Heard(msgs[..i]))
      invariant IsLastText(msgs[..i], finalText, space)
    {
      var m := msgs[i];
      ReadOne(msgs, i, finalText, space);
      if m.Assistant? {
        rounds := rounds + 1;
        spoke := spoke || Speaks(m);
        var text := TextOf(m, space);
        if text.Some? {
          finalText := text;
        }
      } else if Throttled(m) {
        rateLimited := true;
      }
    }
    assert msgs[..|msgs|] == msgs;
  }

  /** The stream of a turn and the delivery after it. For every stream that ends: jean says nothing if the
      agent used a speaking tool; otherwise it makes exactly one reply attempt if any assistant message
      came, starting with the last text there was, or the notice if there was none; and none if no
      assistant message came. */
  method FinishStream(msgs: seq<Message>, space: char -> bool, named: string -> Option<string>, posts: bool)
    returns (replies: seq<string>, outcome: Outcome)
    ensures |replies| == if !Spoke(msgs) && Heard(msgs) then 1 else 0
    ensures replies != [] ==> if Silent(msgs, space) then replies[0] == MUTE_TURN_NOTICE
                              else exists t: string :: IsLastText(msgs, Some(t), space) && t <= replies[0]
                                     && (named(t).None? ==> replies[0] == t)
    ensures outcome == Labelled(Spoke(msgs), Heard(msgs), posts, Limited(msgs), Silent(msgs, space))
  {
    var spoke, rateLimited, rounds, finalText := ReadStream(msgs, space);
    TextIsSilence(msgs, finalText, space);
    replies := [];
    if spoke {
      outcome := Answered;
    } else if rounds > 0 {
      var reply;
      outcome, reply := Deliver(finalText, named, posts);
      replies := [reply];
    } else {
      outcome := Undelivered;
    }
    if rateLimited && outcome != Undelivered {
      outcome := RateLimited;
    }
  }
}
