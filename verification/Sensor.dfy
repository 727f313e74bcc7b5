/** The Sensor's side of a call (internal/sensor/sensor.go), its reply on the wire
    (internal/link/client.go), and the link from end to end. */
module Sensor {
  import opened Evidence
  import opened Hub
  import opened JsonString
  import opened LinkProtocol
  import opened Wrappers

  const MAX_ANSWER := 0x100000
  const MAX_REPLY := MAX_ANSWER + 0x400

  datatype ToolRun = Failed(error: Text) | Ran(data: Text)

  // The tools that a Sensor offers, by name. What one reads depends on the query
  // and on the moment, which is counted in steps of the link.
  type Tools = map<string, (Query, nat) -> ToolRun>

  /** run: the data is within its limit and never stands beside an error. The answer
      carries no error exactly when the tool ran and its data fits, or failed with
      an empty message. */
  function Run(tools: Tools, q: Query, when: nat): (a: Answer)
    ensures |a.data| <= 1_048_576 && (a.data == [] || a.error == [])
    ensures a.error == [] <==>
              && q.tool in tools
              && match tools[q.tool](q, when)
                 case Ran(data) => |data| <= 1_048_576 && a.data == data
                 case Failed(error) => error == []
  {
    if q.tool !in tools then Answer([], NO_SUCH_TOOL)
    else
      match tools[q.tool](q, when)
      case Failed(error) => Answer([], error)
      case Ran(data) => if |data| > MAX_ANSWER then Answer([], ANSWER_TOO_LONG) else Answer(data, [])
  }

  // "no such tool" and "answer over 1 MiB"
  const NO_SUCH_TOOL: Text := [0x6E, 0x6F, 0x20, 0x73, 0x75, 0x63, 0x68, 0x20, 0x74, 0x6F, 0x6F, 0x6C]
  const ANSWER_TOO_LONG: Text :=
    [0x61, 0x6E, 0x73, 0x77, 0x65, 0x72, 0x20, 0x6F, 0x76, 0x65, 0x72, 0x20, 0x31, 0x20, 0x4D, 0x69, 0x42]

  // ---- The reply on the wire ----

  predicate Space(b: byte) { b == 0x20 || b == 0x09 || b == 0x0A || b == 0x0D }

  predicate Html(b: byte) { b == 0x3C || b == 0x3E || b == 0x26 }

  // U+2028 or U+2029
  predicate LineSeparator(s: Text) {
    |s| > 2 && s[0] == 0xE2 && s[1] == 0x80 && (s[2] == 0xA8 || s[2] == 0xA9)
  }

  // json.Marshal of raw JSON: white space between tokens goes, and <, >, & and the
  // line separators are escaped. `quoted` says that `s` starts inside a string.
  function Compacted(s: Text, quoted: bool): (out: Text)
    ensures |out| <= 6 * |s|
  {
    if s == [] then []
    else if quoted && s[0] == BACKSLASH && |s| > 1 then s[..2] + Compacted(s[2..], true)
    else if s[0] == QUOTE then [QUOTE] + Compacted(s[1..], !quoted)
    else if !quoted && Space(s[0]) then Compacted(s[1..], false)
    else if Html(s[0]) then EscapedAscii(s[0]) + Compacted(s[1..], quoted)
    else if LineSeparator(s) then [BACKSLASH, 0x75, 0x32, 0x30, 0x32, HexDigit(s[2] % 16)] + Compacted(s[3..], quoted)
    else [s[0]] + Compacted(s[1..], quoted)
  }

  const DATA: Text := [QUOTE, 0x64, 0x61, 0x74, 0x61, QUOTE, COLON]          // "data":
  const ERROR: Text := [QUOTE, 0x65, 0x72, 0x72, 0x6F, 0x72, QUOTE, COLON]   // "error":

  // The body of a reply; an empty field is left out.
  function Encoded(a: Answer): Text {
    [0x7B]
    + (if a.data == [] then [] else DATA + Compacted(a.data, false))
    + (if a.data != [] && a.error != [] then [COMMA] else [])
    + (if a.error == [] then [] else ERROR + Quoted(a.error))
    + [0x7D]
  }

  // What the hub makes of a reply: it reads bodies up to its limit.
  function Heard(a: Answer): Option<Answer> {
    if |Encoded(a)| > MAX_REPLY then None else Some(Answer(Compacted(a.data, false), Sanitized(a.error)))
  }

  /** Exactly when a Sensor's answer is heard: its data, compacted, leaves room for
      nine bytes of envelope, or its error, escaped, for twelve. */
  lemma WhenHeard(tools: Tools, q: Query, when: nat)
    ensures Heard(Run(tools, q, when)).Some? <==>
            || q.tool !in tools
            || match tools[q.tool](q, when)
               case Failed(error) => error == [] || |Escaped(error)| + 12 <= 1_049_600
               case Ran(data) => data == [] || |data| > 1_048_576 || |Compacted(data, false)| + 9 <= 1_049_600
  {
    hide Escaped, Compacted;
  }

  // No part of `s` has to be escaped in JSON within HTML.
  predicate NothingToEscape(s: Text) {
    forall i :: 0 <= i < |s| ==> !Html(s[i]) && !LineSeparator(s[i..])
  }

  lemma NothingInTheRest(s: Text, k: nat)
    requires NothingToEscape(s) && k <= |s|
    ensures NothingToEscape(s[k..])
  {
    hide LineSeparator;
    forall i | 0 <= i < |s[k..]| ensures !Html(s[k..][i]) && !LineSeparator(s[k..][i..]) {
      assert s[k..][i] == s[k + i] && s[k..][i..] == s[k + i..];
    }
  }

  lemma NothingAtTheFront(s: Text)
    requires NothingToEscape(s) && s != []
    ensures !Html(s[0]) && !LineSeparator(s)
  {
    assert s[0..] == s;
  }

  lemma {:induction false} CompactedShrinks(s: Text, quoted: bool)
    requires NothingToEscape(s)
    ensures |Compacted(s, quoted)| <= |s|
  {
    hide NothingToEscape, LineSeparator, Html, HexDigit, EscapedAscii;
    if s != [] {
      NothingAtTheFront(s);
      var k := if quoted && s[0] == BACKSLASH && |s| > 1 then 2 else 1;
      NothingInTheRest(s, k);
      CompactedShrinks(s[k..], true);
      CompactedShrinks(s[k..], false);
    }
  }

  // `s` without its white space.
  function Squeezed(s: Text): Text {
    if s == [] then [] else (if Space(s[0]) then [] else [s[0]]) + Squeezed(s[1..])
  }

  lemma {:induction false} SqueezedAppend(a: Text, b: Text)
    ensures Squeezed(a + b) == Squeezed(a) + Squeezed(b)
  {
    if a == [] {
      assert a + b == b;
    } else {
      assert (a + b)[1..] == a[1..] + b;
      SqueezedAppend(a[1..], b);
    }
  }

  /** Without anything to escape, compacting takes away white space only. */
  lemma {:induction false} CompactingOnlySqueezes(s: Text, quoted: bool)
    requires NothingToEscape(s)
    ensures Squeezed(Compacted(s, quoted)) == Squeezed(s)
  {
    hide NothingToEscape, LineSeparator, Html, HexDigit, EscapedAscii, Space;
    if s != [] {
      NothingAtTheFront(s);
      var k := if quoted && s[0] == BACKSLASH && |s| > 1 then 2 else 1;
      NothingInTheRest(s, k);
      CompactingOnlySqueezes(s[k..], true);
      CompactingOnlySqueezes(s[k..], false);
      assert s == s[..k] + s[k..];
      SqueezedAppend(s[..k], s[k..]);
      SqueezedAppend(s[..k], Compacted(s[k..], true));
      SqueezedAppend(s[..k], Compacted(s[k..], false));
      SqueezedAppend(s[..k], Compacted(s[k..], !quoted));
      assert s[..k] == if k == 2 then s[..2] else [s[0]];
    }
  }

  /** Data within the limit is heard when nothing in it has to be escaped, as in all
      that json.Marshal writes. */
  lemma MarshalledDataIsHeard(tools: Tools, q: Query, when: nat, data: Text)
    requires q.tool in tools && tools[q.tool](q, when) == Ran(data)
    requires |data| <= MAX_ANSWER && NothingToEscape(data)
    ensures Heard(Run(tools, q, when)) == Some(Answer(Compacted(data, false), []))
  {
    hide Compacted;
    CompactedShrinks(data, false);
    WhenHeard(tools, q, when);
  }

  lemma {:induction false} CompactedHtml(n: nat, tail: Text)
    ensures |Compacted(Repeat(0x3C, n) + tail, true)| == 6 * n + |Compacted(tail, true)|
  {
    if n == 0 {
      assert Repeat(0x3C, 0) + tail == tail;
    } else {
      assert Repeat(0x3C, n)[1..] == Repeat(0x3C, n - 1);
      assert (Repeat(0x3C, n) + tail)[1..] == Repeat(0x3C, n - 1) + tail;
      CompactedHtml(n - 1, tail);
    }
  }

  /** The Sensor's limit is no promise that the hub hears the answer: a JSON string
      of 200002 bytes, all but its quotes `<`, is within it and is refused. */
  lemma DataWithinTheLimitCanBeRefused()
    ensures var data := [QUOTE] + Repeat(0x3C, 200000) + [QUOTE];
            |data| <= MAX_ANSWER && Heard(Answer(data, [])) == None
  {
    var body := Repeat(0x3C, 200000);
    var data := [QUOTE] + body + [QUOTE];
    CompactedHtml(200000, [QUOTE]);
    assert data[1..] == body + [QUOTE];
    assert |Compacted(data, false)| == 1 + |Compacted(data[1..], true)|;
  }

  // ---- From end to end ----

  // A poll of Location `name` was answered with `call` before step `when`.
  ghost predicate HandedBy(s: State, steps: seq<Step>, when: nat, poll: nat, name: Text, call: Call) {
    && when <= |steps|
    && poll in LinkProtocol.Run(s, steps[..when]).polls
    && LinkProtocol.Run(s, steps[..when]).polls[poll] == Gave(name, call)
  }

  // Reply `i` answers call `id`, which a poll had brought, with what the tool then
  // made of that call's query.
  ghost predicate RanFor(s: State, steps: seq<Step>, i: nat, name: Text, tools: Tools, id: string, body: Option<Answer>,
                         when: nat, poll: nat, query: Query) {
    when <= i < |steps| && HandedBy(s, steps, when, poll, name, Call(id, query)) && body == Heard(Run(tools, query, when))
  }

  // Whoever holds the Location's token is a Sensor: it answers only calls that its
  // own polls brought, and only by running them.
  ghost predicate Honest(s: State, steps: seq<Step>, name: Text, token: string, tools: Tools) {
    forall i :: 0 <= i < |steps| && steps[i].ReplyArrives? && steps[i].location == name && steps[i].token == token ==>
      exists when: nat, poll: nat, query ::
        RanFor(s, steps, i, name, tools, steps[i].id, steps[i].body, when, poll, query)
  }

  // What a poll brought is what the caller asked, and it was registered before.
  lemma HandedIsAsked(s: State, steps: seq<Step>, when: nat, poll: nat, name: Text, call: Call)
    requires Initial(s) && HandedBy(s, steps, when, poll, name, call)
    ensures var t := LinkProtocol.Run(s, steps);
            && call.id in t.callers && t.callers[call.id].query == call.query
            && t.callers[call.id].location == name && t.callers[call.id].since < when
  {
    hide Invariant, CallerOk, LinkProtocol.Apply;
    InitiallyKept(s);
    RunKeeps(s, steps[..when]);
    var handed := LinkProtocol.Run(s, steps[..when]);
    assert handed.trace == steps[..when];
    SomePollOk(handed, poll);
    SomeCallerOk(handed, call.id);
    SinceBefore(handed, call.id);
    assert steps == steps[..when] + steps[when..];
    RunInTwo(s, steps[..when], steps[when..]);
    StagesMoveOn(handed, steps[when..], call.id);
  }

  lemma SinceBefore(s: State, id: string)
    requires id in s.callers && CallerOk(s, id, s.callers[id])
    ensures s.callers[id].since < |s.trace|
  {
  }

  /** From end to end: when the holder of a Location's token is its Sensor, an answer
      that a call for that Location returns is what the Sensor's own tool made of
      the query that the caller asked, run after the call was registered, whatever
      the other Locations post. */
  lemma HonestSensorIsHeard(s: State, steps: seq<Step>, id: string, tools: Tools)
    requires Initial(s) && id in LinkProtocol.Run(s, steps).callers
    requires var name := LinkProtocol.Run(s, steps).callers[id].location;
             name in s.locations && Honest(s, steps, name, s.locations[name].token, tools)
    ensures var c := LinkProtocol.Run(s, steps).callers[id];
            && |c.received| <= 1
            && (c.received != [] ==>
                  exists when: nat :: c.since < when <= c.received[0].at
                                      && Heard(Run(tools, c.query, when)) == Some(c.received[0].answer))
  {
    hide LinkProtocol.Run, Heard, Run, HandedBy;
    AnswersAreGenuine(s, steps, id);
    var c := LinkProtocol.Run(s, steps).callers[id];
    if c.received != [] {
      var at := c.received[0].at;
      var when: nat, poll: nat, query :|
        RanFor(s, steps, at, c.location, tools, steps[at].id, steps[at].body, when, poll, query);
      HandedIsAsked(s, steps, when, poll, c.location, Call(id, query));
    }
  }
}
