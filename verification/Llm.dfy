/** The provider-neutral view of a model with tool calling (internal/llm). */
module Llm {
  import opened Evidence
  import opened JsonString
  import opened Wrappers

  datatype ToolCall = ToolCall(id: string, name: string, arguments: string)

  // What a tool call reads back.
  datatype Reply =
    | SchemaError
    | Accepted
    | NotOffered
    | Unavailable(ref: Ref)
    | Data(ref: Ref, data: Text)

  datatype Message =
    | System
    | User(text: string)
    | Assistant(text: string, toolCalls: seq<ToolCall>)
    | Tool(toolCallId: string, reply: Reply)

  datatype Response = Response(model: string, text: string, toolCalls: seq<ToolCall>, inputTokens: int, outputTokens: int)

  datatype Completion = Answered(response: Response) | Failed(deadline: bool)

  // ---- Well-formed conversations ----

  // Whether a reply is of the kind that a tool call has to read back.
  type Fits = (ToolCall, Reply) -> bool

  // One fitting Tool message per call, in order and under its id.
  predicate Replies(fits: Fits, calls: seq<ToolCall>, ms: seq<Message>) {
    && |ms| == |calls|
    && forall i :: 0 <= i < |ms| ==> ms[i].Tool? && ms[i].toolCallId == calls[i].id && fits(calls[i], ms[i].reply)
  }

  // How long the round is that `ms` starts with, 0 when it starts with none: an
  // assistant message with its replies, or with one user nudge when it calls
  // nothing.
  function FirstRound(fits: Fits, ms: seq<Message>): (n: nat)
    ensures n <= |ms|
  {
    if ms == [] || !ms[0].Assistant? then 0
    else if ms[0].toolCalls == [] then if |ms| >= 2 && ms[1].User? then 2 else 0
    else
      var k := |ms[0].toolCalls|;
      if |ms| > k && Replies(fits, ms[0].toolCalls, ms[1..k + 1]) then k + 1 else 0
  }

  predicate Rounds(fits: Fits, ms: seq<Message>)
    decreases |ms|
  {
    ms == [] || (FirstRound(fits, ms) > 0 && Rounds(fits, ms[FirstRound(fits, ms)..]))
  }

  // The briefing, then rounds.
  predicate Conversation(fits: Fits, ms: seq<Message>) {
    |ms| >= 2 && ms[0].System? && ms[1].User? && Rounds(fits, ms[2..])
  }

  lemma FirstRoundStays(fits: Fits, a: seq<Message>, b: seq<Message>)
    requires FirstRound(fits, a) > 0
    ensures FirstRound(fits, a + b) == FirstRound(fits, a)
  {
    assert (a + b)[0] == a[0];
    if a[0].toolCalls != [] {
      assert (a + b)[1..|a[0].toolCalls| + 1] == a[1..|a[0].toolCalls| + 1];
    }
  }

  lemma {:induction false} RoundsAppend(fits: Fits, a: seq<Message>, b: seq<Message>)
    requires Rounds(fits, a) && Rounds(fits, b)
    ensures Rounds(fits, a + b)
    decreases |a|
  {
    if a == [] {
      assert a + b == b;
    } else {
      FirstRoundStays(fits, a, b);
      RoundsAppend(fits, a[FirstRound(fits, a)..], b);
      assert (a + b)[FirstRound(fits, a)..] == a[FirstRound(fits, a)..] + b;
    }
  }

  // A whole round keeps a conversation well formed.
  lemma ConversationGrows(fits: Fits, ms: seq<Message>, round: seq<Message>)
    requires Conversation(fits, ms) && Rounds(fits, round)
    ensures Conversation(fits, ms + round)
  {
    hide Rounds;
    var tail := ms[2..];
    assert (ms + round)[2..] == tail + round;
    RoundsAppend(fits, tail, round);
  }

  lemma AnsweredRound(fits: Fits, text: string, calls: seq<ToolCall>, replies: seq<Message>)
    requires calls != [] && Replies(fits, calls, replies)
    ensures Rounds(fits, [Assistant(text, calls)] + replies)
  {
    var ms := [Assistant(text, calls)] + replies;
    assert ms[1..|calls| + 1] == replies;
    assert FirstRound(fits, ms) == |ms|;
  }

  lemma NudgedRound(fits: Fits, text: string, nudge: string)
    ensures Rounds(fits, [Assistant(text, []), User(nudge)])
  {
    assert FirstRound(fits, [Assistant(text, []), User(nudge)]) == 2;
  }

  // ---- The evidence in a conversation ----

  // The replies that carry a ref, in order.
  function EvidenceIn(ms: seq<Message>): seq<Reply> {
    if ms == [] then [] else
    var last := ms[|ms| - 1];
    EvidenceIn(ms[..|ms| - 1]) + if last.Tool? && (last.reply.Data? || last.reply.Unavailable?) then [last.reply] else []
  }

  lemma {:induction false} EvidenceAppend(a: seq<Message>, b: seq<Message>)
    ensures EvidenceIn(a + b) == EvidenceIn(a) + EvidenceIn(b)
    decreases |b|
  {
    if b == [] {
      assert a + b == a;
    } else {
      assert (a + b)[..|a + b| - 1] == a + b[..|b| - 1];
      EvidenceAppend(a, b[..|b| - 1]);
    }
  }

  lemma EvidenceNext(ms: seq<Message>, m: Message)
    ensures EvidenceIn(ms + [m]) == EvidenceIn(ms) + if m.Tool? && (m.reply.Data? || m.reply.Unavailable?) then [m.reply] else []
  {
    assert (ms + [m])[..|ms|] == ms;
  }

  // Every such reply is among them.
  lemma {:induction false} EvidenceIsIn(ms: seq<Message>, m: Message)
    requires m in ms && m.Tool? && (m.reply.Data? || m.reply.Unavailable?)
    ensures m.reply in EvidenceIn(ms)
  {
    var n := |ms| - 1;
    if ms[n] != m {
      EvidenceIsIn(ms[..n], m);
    }
  }
}
