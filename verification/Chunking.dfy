/** `chunk_text`: cutting a long message into posts of at most `limit` characters. */
module Chunking {

  function Concat(chunks: seq<string>): string {
    if chunks == [] then "" else chunks[0] + Concat(chunks[1..])
  }

  /** `chunk` is the right cut to make before `rest`: the two do not fit together, and it ends at the
      last newline within the limit (a newline in first position does not count) or, if there is
      none, at the limit. */
  ghost predicate GoodCut(chunk: string, rest: string, limit: nat) {
    && 0 < |chunk| <= limit < |chunk| + |rest|
    && if |chunk| > 1 && chunk[|chunk| - 1] == '\n'
       then '\n' !in (chunk + rest)[|chunk|..limit]
       else |chunk| == limit && '\n' !in chunk[1..]
  }

  /** `chunks` is a right way to cut `text`: nothing lost, nothing reordered, every cut good. */
  ghost predicate Chunked(chunks: seq<string>, text: string, limit: nat)
    decreases |chunks|
  {
    if |text| <= limit then chunks == [text]
    else |chunks| > 1 && chunks[0] <= text && GoodCut(chunks[0], text[|chunks[0]|..], limit)
         && Chunked(chunks[1..], text[|chunks[0]|..], limit)
  }

  /** The index of the last newline before `limit`, or -1: `remaining.rfind("\n", 0, max)`. */
  method LastNewline(s: string, limit: nat) returns (at: int)
    requires limit <= |s|
    ensures -1 <= at < limit
    ensures at >= 0 ==> s[at] == '\n'
    ensures '\n' !in s[at + 1..limit]
  {
    at := limit - 1;
    while at >= 0 && s[at] != '\n'
      invariant -1 <= at < limit
      invariant forall k | at < k < limit :: s[k] != '\n'
      decreases at
    {
      at := at - 1;
    }
  }

  lemma {:induction false} ChunkedSnoc(chunks: seq<string>, text: string, rest: string, tail: seq<string>, limit: nat)
    requires CutSoFar(chunks, text, rest, limit) && Chunked(tail, rest, limit)
    ensures Chunked(chunks + tail, text, limit)
    decreases |chunks|
  {
    if chunks == [] {
      assert chunks + tail == tail;
    } else {
      ChunkedSnoc(chunks[1..], text[|chunks[0]|..], rest, tail, limit);
      assert (chunks + tail)[1..] == chunks[1..] + tail;
      assert tail != [];
    }
  }

  /** Cutting `chunks` off the front of `text`, each cut good, leaves `rest`. */
  ghost predicate CutSoFar(chunks: seq<string>, text: string, rest: string, limit: nat)
    decreases |chunks|
  {
    if chunks == [] then text == rest
    else chunks[0] <= text && GoodCut(chunks[0], text[|chunks[0]|..], limit)
         && CutSoFar(chunks[1..], text[|chunks[0]|..], rest, limit)
  }

  lemma {:induction false} CutAgain(chunks: seq<string>, text: string, rest: string, chunk: string, limit: nat)
    requires CutSoFar(chunks, text, rest, limit) && chunk <= rest && GoodCut(chunk, rest[|chunk|..], limit)
    ensures CutSoFar(chunks + [chunk], text, rest[|chunk|..], limit)
    decreases |chunks|
  {
    if chunks == [] {
      assert chunks + [chunk] == [chunk];
    } else {
      CutAgain(chunks[1..], text[|chunks[0]|..], rest, chunk, limit);
      assert (chunks + [chunk])[1..] == chunks[1..] + [chunk];
    }
  }

  method ChunkText(text: string, limit: nat) returns (chunks: seq<string>)
    requires limit >= 1
    ensures Chunked(chunks, text, limit)
  {
    if |text| <= limit {
      return [text];
    }
    chunks := [];
    var remaining := text;
    while |remaining| > limit
      invariant CutSoFar(chunks, text, remaining, limit)
      invariant remaining != ""
      decreases |remaining|
    {
      var newline := LastNewline(remaining, limit);
      var splitAt := if newline > 0 then newline + 1 else limit;
      var chunk := remaining[..splitAt];
      assert chunk + remaining[splitAt..] == remaining;
      assert GoodCut(chunk, remaining[splitAt..], limit);
      CutAgain(chunks, text, remaining, chunk, limit);
      chunks := chunks + [chunk];
      remaining := remaining[splitAt..];
    }
    ChunkedSnoc(chunks, text, remaining, [remaining], limit);
    if remaining != "" {
      chunks := chunks + [remaining];
    }
  }

  /** What the readers of a chunked message rely on: the chunks spell the text, none is over the limit,
      none is empty unless the text is, and each but the last ends in a newline or is full. */
  lemma {:induction false} ChunksSpellTheText(chunks: seq<string>, text: string, limit: nat)
    requires limit >= 1 && Chunked(chunks, text, limit)
    ensures Concat(chunks) == text
    ensures chunks != [] && forall i | 0 <= i < |chunks| :: |chunks[i]| <= limit && (chunks[i] == "" ==> text == "")
    ensures forall i | 0 <= i < |chunks| - 1 :: |chunks[i]| == limit || chunks[i][|chunks[i]| - 1] == '\n'
    decreases |chunks|
  {
    if |text| <= limit {
      assert Concat([text]) == text + Concat([]);
    } else {
      var rest := text[|chunks[0]|..];
      ChunksSpellTheText(chunks[1..], rest, limit);
      assert chunks[0] + rest == text;
      forall i | 0 < i < |chunks| ensures chunks[i] == chunks[1..][i - 1] {}
    }
  }

  lemma OneGoodCut(a: string, b: string, text: string, limit: nat)
    requires a <= text && b <= text
    requires GoodCut(a, text[|a|..], limit) && GoodCut(b, text[|b|..], limit)
    ensures a == b
  {
    if |a| < |b| { ShorterIsNotGood(a, b, text, limit); }
    if |b| < |a| { ShorterIsNotGood(b, a, text, limit); }
  }

  lemma ShorterIsNotGood(a: string, b: string, text: string, limit: nat)
    requires a <= text && b <= text && |a| < |b|
    requires GoodCut(b, text[|b|..], limit)
    ensures !GoodCut(a, text[|a|..], limit)
  {
    assert a + text[|a|..] == text && b + text[|b|..] == text;
    if |b| > 1 && b[|b| - 1] == '\n' {
      assert text[|a|..limit][|b| - 1 - |a|] == '\n';
    } else if |a| > 1 {
      assert b[1..][|a| - 2] == a[|a| - 1];
    }
  }

  /** `Chunked` leaves nothing open: a text has one such cutting, the one `ChunkText` returns. */
  lemma {:induction false} OneChunking(a: seq<string>, b: seq<string>, text: string, limit: nat)
    requires Chunked(a, text, limit) && Chunked(b, text, limit)
    ensures a == b
    decreases |a|
  {
    if |text| > limit {
      OneGoodCut(a[0], b[0], text, limit);
      OneChunking(a[1..], b[1..], text[|a[0]|..], limit);
      assert a == [a[0]] + a[1..] && b == [b[0]] + b[1..];
    }
  }
}
