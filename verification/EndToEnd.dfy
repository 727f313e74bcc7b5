/**
 An investigation's queries over the Sensor link: Query (internal/controlplane/evidence.go)
 at one end, the Sensor's tools (internal/sensor/sensor.go) at the other.
 */
module EndToEnd {
  import opened Evidence
  import opened Gate
  import opened JsonString
  import opened Signals
  import opened Wrappers
  import Investigation
  import LinkProtocol
  import Llm
  import Sensor
  import Trail

  // What Call returned: the answer that its caller took out of its channel, or none.
  predicate Returned(t: LinkProtocol.State, name: Text, call: Call, answer: Option<Answer>) {
    answer.Some? ==>
      && LinkProtocol.Names(t, call, name)
      && t.callers[call.id].received != [] && t.callers[call.id].received[0].answer == answer.value
  }

  // Query `n` went over the link.
  predicate Carried(t: LinkProtocol.State, world: Investigation.Outside, n: nat, e: LedgerEntry) {
    Returned(t, e.ref.target.location, CallOf(e.ref, e.tool), Investigation.AnswerTo(world, n, e.ref, e.tool))
  }

  // Every query of the ledger did.
  ghost predicate Carries(t: LinkProtocol.State, world: Investigation.Outside, ledger: seq<LedgerEntry>) {
    forall n :: 0 <= n < |ledger| ==> Carried(t, world, n, ledger[n])
  }

  // `data` is what the tool made of the query, or the tool failed with no message.
  predicate MadeBy(tools: Sensor.Tools, q: Query, when: nat, data: Text) {
    && q.tool in tools
    && match tools[q.tool](q, when)
       case Ran(d) => |d| <= Sensor.MAX_ANSWER && data == Compacted(d)
       case Failed(error) => error == [] && data == []
  }

  function Compacted(d: Text): Text {
    Sensor.Compacted(d, false)
  }

  lemma NothingSanitizesToNothing(s: Text)
    ensures Sanitized(s) == [] <==> s == []
  {
    if s != [] {
      assert |SanitizedFirst(s)| > 0;
    }
  }

  lemma HeardWithoutError(tools: Sensor.Tools, q: Query, when: nat, data: Text)
    requires Sensor.Heard(Sensor.Run(tools, q, when)) == Some(Answer(data, []))
    ensures MadeBy(tools, q, when, data)
  {
    NothingSanitizesToNothing(Sensor.Run(tools, q, when).error);
  }

  // The entry that a shown reply is about, and the moment its tool ran.
  ghost predicate SensorMade(reply: Llm.Reply, ledger: seq<LedgerEntry>, tools: Sensor.Tools, e: LedgerEntry, when: nat)
    requires reply.Data?
  {
    e in ledger && e.ref == reply.ref && MadeBy(tools, Query(e.tool, e.ref.target, e.ref.window), when, reply.data)
  }

  lemma ShownIsTheSensors(s: LinkProtocol.State, steps: seq<LinkProtocol.Step>, world: Investigation.Outside,
                          ledger: seq<LedgerEntry>, n: nat, tools: Sensor.Tools)
    requires LinkProtocol.Initial(s) && Carries(LinkProtocol.Run(s, steps), world, ledger)
    requires n < |ledger| && Investigation.ShownFor(world, n, ledger[n]).Data?
    requires var name := ledger[n].ref.target.location;
             name in s.locations && Sensor.Honest(s, steps, name, s.locations[name].token, tools)
    ensures exists when: nat :: SensorMade(Investigation.ShownFor(world, n, ledger[n]), ledger, tools, ledger[n], when)
  {
    hide LinkProtocol.Run, Sensor.Honest, Sensor.Heard, Sensor.Run, MadeBy;
    var e := ledger[n];
    var id := e.ref.callId;
    assert Carried(LinkProtocol.Run(s, steps), world, n, e);
    Sensor.HonestSensorIsHeard(s, steps, id, tools);
    var c := LinkProtocol.Run(s, steps).callers[id];
    var when: nat :| c.since < when <= c.received[0].at && Sensor.Heard(Sensor.Run(tools, c.query, when)) == Some(c.received[0].answer);
    HeardWithoutError(tools, c.query, when, c.received[0].answer.data);
    assert SensorMade(Investigation.ShownFor(world, n, e), ledger, tools, e, when);
  }

  /** From the model's context to the cluster: data that any request shows under a
      ref was made by a tool of the Sensor at that ref's Location, for that ref's
      target and window, or a tool failed there with no message. */
  lemma RequestsShowTheSensors(sent: seq<seq<Llm.Message>>, i: nat, m: Llm.Message, ledger: seq<LedgerEntry>,
                               budget: Investigation.Budget, world: Investigation.Outside,
                               s: LinkProtocol.State, steps: seq<LinkProtocol.Step>, tools: Sensor.Tools)
    requires Investigation.InOrder(sent, ledger, budget, world)
    requires i < |sent| && m in sent[i] && m.Tool? && m.reply.Data?
    requires LinkProtocol.Initial(s) && Carries(LinkProtocol.Run(s, steps), world, ledger)
    requires var name := m.reply.ref.target.location;
             name in s.locations && Sensor.Honest(s, steps, name, s.locations[name].token, tools)
    ensures exists e, when: nat :: SensorMade(m.reply, ledger, tools, e, when)
  {
    hide LinkProtocol.Run, Sensor.Honest, Carries, SensorMade, Llm.EvidenceIn, Llm.Conversation, Investigation.Quotes;
    assert Investigation.Told(sent[i], world, ledger);
    Llm.EvidenceIsIn(sent[i], m);
    var shown := Llm.EvidenceIn(sent[i]);
    var n :| 0 <= n < |shown| && shown[n] == m.reply;
    assert Investigation.Shown(world, ledger)[n] == m.reply;
    ShownIsTheSensors(s, steps, world, ledger, n, tools);
  }

  /** The consequence of an empty error: a tool that fails without a message is
      audited as a success, shown to the model as data, and may be cited: an RCA
      that rests on it passes Gate 1. */
  lemma EmptyErrorIsEvidence(tools: Sensor.Tools, world: Investigation.Outside, target: Target, n: nat, tool: string, when: nat)
    requires var e := Investigation.EntryAt(world, target, n, tool);
             var q := CallOf(e.ref, tool).query;
             && tool in tools && tools[tool](q, when) == Sensor.Failed([])
             && Investigation.AnswerTo(world, n, e.ref, tool) == Sensor.Heard(Sensor.Run(tools, q, when))
    ensures var e := Investigation.EntryAt(world, target, n, tool);
            && Investigation.OutcomeOf(Investigation.AnswerTo(world, n, e.ref, tool)) == Trail.QueryOk
            && Investigation.ShownFor(world, n, e) == Llm.Data(e.ref, [])
            && Passes(RCA([Claim("c", "the workload is healthy", OBSERVED, [e.ref.callId])], "high", []), [e])
  {
    var e := Investigation.EntryAt(world, target, n, tool);
    var c := Claim("c", "the workload is healthy", OBSERVED, [e.ref.callId]);
    var r := RCA([c], "high", []);
    assert AllClaims(r) == [c];
    assert Outcome([e], e.ref.callId) == Some(true);
  }
}
