/**
 The message builder of sdk/examples/plugins/custom-compaction.ts, which replaces the middle of
 a long history with one summary. A message is its role and its serialised text; the text of
 the summary is a parameter.
 */
module Compaction {
  import opened Prelude

  datatype Message = Message(role: string, serialized: string)

  type Summarizer = (seq<Message>, nat) -> Message

  const TRIGGER_TOKENS := 90000   // MAX_INPUT_TOKENS * COMPACT_AT_RATIO
  const PRESERVE_RECENT_TOKENS := 24000
  const CHARS_PER_TOKEN := 3

  /** The quotient rounded up, and at least one. */
  function EstimateTokens(chars: nat): (tokens: nat)
    ensures tokens >= 1 && chars <= tokens * CHARS_PER_TOKEN
    ensures if chars == 0 then tokens == 1 else (tokens - 1) * CHARS_PER_TOKEN < chars
  {
    if chars == 0 then 1 else (chars + CHARS_PER_TOKEN - 1) / CHARS_PER_TOKEN
  }

  /** The estimate for the messages from place `start` on. */
  function TokensFrom(messages: seq<Message>, start: nat): nat
    requires start <= |messages|
    decreases |messages| - start
  {
    if start == |messages| then 0
    else EstimateTokens(|messages[start].serialized|) + TokensFrom(messages, start + 1)
  }

  function Tokens(messages: seq<Message>): nat {
    TokensFrom(messages, 0)
  }

  predicate FirstUser(messages: seq<Message>, i: int) {
    && 0 <= i < |messages| && messages[i].role == "user"
    && forall j :: 0 <= j < i ==> messages[j].role != "user"
  }

  /** The messages from `start` on are the fewest last ones that reach the preserved amount. */
  predicate ShortestRecent(messages: seq<Message>, start: nat) {
    && start < |messages|
    && TokensFrom(messages, start) >= PRESERVE_RECENT_TOKENS
    && TokensFrom(messages, start + 1) < PRESERVE_RECENT_TOKENS
  }

  lemma {:induction false} TokensShrink(messages: seq<Message>, i: nat, j: nat)
    requires i <= j <= |messages|
    ensures TokensFrom(messages, i) >= TokensFrom(messages, j) + (j - i)
    decreases j - i
  {
    if i < j {
      TokensShrink(messages, i + 1, j);
    }
  }

  lemma {:induction false} TokensOfSuffix(messages: seq<Message>, more: seq<Message>, start: nat)
    requires start <= |messages|
    ensures TokensFrom(more + messages, |more| + start) == TokensFrom(messages, start)
    decreases |messages| - start
  {
    if start < |messages| {
      TokensOfSuffix(messages, more, start + 1);
    }
  }

  method FindFirstUserIndex(messages: seq<Message>) returns (index: int)
    ensures index == -1 || FirstUser(messages, index)
    ensures index == -1 ==> forall j :: 0 <= j < |messages| ==> messages[j].role != "user"
  {
    for i := 0 to |messages|
      invariant forall j :: 0 <= j < i ==> messages[j].role != "user"
    {
      if messages[i].role == "user" {
        return i;
      }
    }
    return -1;
  }

  /** The fallback is taken exactly when the whole history stays below the preserved amount. */
  method FindRecentStartIndex(messages: seq<Message>) returns (index: nat)
    ensures Tokens(messages) >= PRESERVE_RECENT_TOKENS ==> ShortestRecent(messages, index)
    ensures Tokens(messages) < PRESERVE_RECENT_TOKENS ==> index == 0
  {
    var tokens := 0;
    index := |messages|;
    while index > 0
      invariant index <= |messages| && tokens == TokensFrom(messages, index) < PRESERVE_RECENT_TOKENS
    {
      index := index - 1;
      tokens := tokens + EstimateTokens(|messages[index].serialized|);
      if tokens >= PRESERVE_RECENT_TOKENS {
        TokensShrink(messages, 0, index);
        return index;
      }
    }
    return 0;
  }

  lemma ShortestRecentUnique(messages: seq<Message>, a: nat, b: nat)
    requires ShortestRecent(messages, a) && ShortestRecent(messages, b)
    ensures a == b
  {
    if a < b {
      TokensShrink(messages, a + 1, b);
    } else if b < a {
      TokensShrink(messages, b + 1, a);
    }
  }

  /** A suffix that reaches the preserved amount contains the shortest one. */
  lemma RecentStartsLater(messages: seq<Message>, start: nat, k: nat)
    requires ShortestRecent(messages, start) && k <= |messages|
    ensures k <= start <==> TokensFrom(messages, k) >= PRESERVE_RECENT_TOKENS
  {
    if k <= start {
      TokensShrink(messages, k, start);
    } else {
      TokensShrink(messages, start + 1, k);
    }
  }

  /**
   The history is rewritten exactly when it reaches the trigger and the messages after the one
   that follows the first user message already reach the preserved amount.
   */
  predicate MustCompact(messages: seq<Message>, first: int) {
    && FirstUser(messages, first) && Tokens(messages) >= TRIGGER_TOKENS
    && first + 2 <= |messages| && TokensFrom(messages, first + 2) >= PRESERVE_RECENT_TOKENS
  }

  /** The two thresholds on a history of a user message and two replies, by their characters. */
  lemma ThreeMessages(user: string, first: string, second: string)
    ensures (exists k :: MustCompact([Message("user", user), Message("assistant", first), Message("assistant", second)], k))
      <==> Thirds(user) + Thirds(first) + Thirds(second) >= 90000 && Thirds(second) >= 24000
  {
    var messages := [Message("user", user), Message("assistant", first), Message("assistant", second)];
    assert TokensFrom(messages, 3) == 0;
    assert TokensFrom(messages, 2) == Thirds(second);
    assert TokensFrom(messages, 1) == Thirds(first) + Thirds(second);
    assert FirstUser(messages, 0);
    if Thirds(user) + Thirds(first) + Thirds(second) >= 90000 && Thirds(second) >= 24000 {
      assert MustCompact(messages, 0);
    }
  }

  /** A third of the characters, rounded up; one for none. */
  function Thirds(text: string): nat {
    if |text| <= 3 then 1 else (if |text| % 3 == 0 then 0 else 1) + |text| / 3
  }

  method Build(messages: seq<Message>, summarize: Summarizer) returns (output: seq<Message>)
    ensures (exists first :: MustCompact(messages, first)) ==> Compacted(messages, summarize, output)
    ensures !(exists first :: MustCompact(messages, first)) ==> output == messages
  {
    hide TokensFrom;
    var totalTokens := Tokens(messages);
    if totalTokens < TRIGGER_TOKENS {
      return messages;
    }
    var firstUserIndex := FindFirstUserIndex(messages);
    var found := FindRecentStartIndex(messages);
    var recentStartIndex := if firstUserIndex + 1 > found then firstUserIndex + 1 else found;
    if firstUserIndex + 2 <= |messages| {
      RecentStartsLater(messages, found, firstUserIndex + 2);
    }
    if firstUserIndex < 0 || recentStartIndex <= firstUserIndex + 1 {
      return messages;
    }
    assert MustCompact(messages, firstUserIndex);
    var prefix := messages[..firstUserIndex + 1];
    var compacted := messages[firstUserIndex + 1..recentStartIndex];
    var recent := messages[recentStartIndex..];
    if |compacted| == 0 {
      return messages;
    }
    output := prefix + [summarize(compacted, totalTokens)] + recent;
    assert Splits(messages, summarize, output, firstUserIndex, recentStartIndex);
  }

  /** What a rewrite keeps, and what it replaces. */
  predicate Splits(messages: seq<Message>, summarize: Summarizer, output: seq<Message>, first: int, start: int) {
    && FirstUser(messages, first) && first + 1 < start && ShortestRecent(messages, start)
    && output == messages[..first + 1] + [summarize(messages[first + 1..start], Tokens(messages))] + messages[start..]
  }

  ghost predicate Compacted(messages: seq<Message>, summarize: Summarizer, output: seq<Message>) {
    exists first, start :: Splits(messages, summarize, output, first, start)
  }

  /** A rewrite is determined by the history. */
  lemma CompactedOnce(messages: seq<Message>, summarize: Summarizer, a: seq<Message>, b: seq<Message>)
    requires Compacted(messages, summarize, a) && Compacted(messages, summarize, b)
    ensures a == b
  {
    var i, m :| Splits(messages, summarize, a, i, m);
    var j, n :| Splits(messages, summarize, b, j, n);
    ShortestRecentUnique(messages, m, n);
  }

  lemma {:induction false} TokensConcat(a: seq<Message>, b: seq<Message>)
    ensures Tokens(a + b) == Tokens(a) + Tokens(b)
  {
    TokensOfSuffix(b, a, 0);
    TokensOfPrefix(a, b, 0);
  }

  lemma {:induction false} TokensOfPrefix(a: seq<Message>, b: seq<Message>, start: nat)
    requires start <= |a|
    ensures TokensFrom(a + b, start) == TokensFrom(a, start) + TokensFrom(a + b, |a|)
    decreases |a| - start
  {
    if start < |a| {
      TokensOfPrefix(a, b, start + 1);
    }
  }

  lemma ReplaceMiddle(prefix: seq<Message>, middle: seq<Message>, summary: Message, recent: seq<Message>)
    ensures Tokens(prefix + [summary] + recent)
         == Tokens(prefix + middle + recent) - Tokens(middle) + EstimateTokens(|summary.serialized|)
  {
    TokensConcat(prefix + middle, recent);
    TokensConcat(prefix, middle);
    TokensConcat(prefix + [summary], recent);
    TokensConcat(prefix, [summary]);
    assert TokensFrom([summary], 1) == 0;
  }

  /** A rewrite is never longer and keeps the estimate of everything but the middle. */
  lemma TokensKept(messages: seq<Message>, summarize: Summarizer, output: seq<Message>, first: int, start: int)
    requires Splits(messages, summarize, output, first, start)
    ensures |output| == |messages| - (start - first - 2) <= |messages|
    ensures Tokens(output) == Tokens(messages) - Tokens(messages[first + 1..start])
                              + EstimateTokens(|output[first + 1].serialized|)
    ensures output[first + 2..] == messages[start..]
  {
    var prefix, middle, recent := messages[..first + 1], messages[first + 1..start], messages[start..];
    ReplaceMiddle(prefix, middle, output[first + 1], recent);
    assert messages == prefix + middle + recent by {
      assert prefix + middle == messages[..start];
    }
  }

  /** The estimate from a place on depends only on the messages from there on. */
  lemma TokensFromSuffix(messages: seq<Message>, start: nat)
    requires start <= |messages|
    ensures TokensFrom(messages, start) == Tokens(messages[start..])
  {
    assert messages == messages[..start] + messages[start..];
    TokensOfSuffix(messages[start..], messages[..start], 0);
  }

  /** What follows a rewrite's summary is the shortest recent suffix of the rewrite too. */
  lemma RecentStays(messages: seq<Message>, summarize: Summarizer, once: seq<Message>, first: int, start: int)
    requires Splits(messages, summarize, once, first, start)
    ensures FirstUser(once, first) && ShortestRecent(once, first + 2)
  {
    hide TokensFrom;
    TokensKept(messages, summarize, once, first, start);
    TokensFromSuffix(once, first + 2);
    TokensFromSuffix(once, first + 3);
    TokensFromSuffix(messages, start);
    TokensFromSuffix(messages, start + 1);
    assert once[first + 3..] == once[first + 2..][1..];
    assert messages[start + 1..] == messages[start..][1..];
  }

  /**
   Rewriting a rewritten history replaces nothing but the summary, however large the summary:
   the first user message and the recent messages stay, so repeated passes never reach further.
   */
  lemma SecondPassOnlyResummarizes(messages: seq<Message>, summarize: Summarizer, once: seq<Message>, twice: seq<Message>,
                                   first: int, start: int)
    requires Splits(messages, summarize, once, first, start) && Compacted(once, summarize, twice)
    ensures twice == once[first + 1 := summarize([once[first + 1]], Tokens(once))]
  {
    hide TokensFrom, ShortestRecent;
    RecentStays(messages, summarize, once, first, start);
    var j, n :| Splits(once, summarize, twice, j, n);
    ShortestRecentUnique(once, first + 2, n);
    assert j == first;
    var summary := summarize([once[first + 1]], Tokens(once));
    assert once[first + 1..first + 2] == [once[first + 1]];
    assert twice == once[..first + 1] + [summary] + once[first + 2..];
  }
}
