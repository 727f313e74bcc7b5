/**
 The RCA loop (internal/controlplane/investigate.go) and the Evidence query it
 uses (internal/controlplane/evidence.go). The model, the Sensors, the audit
 disk and the ticketing system are arbitrary.
 */
module Investigation {
  import opened Evidence
  import opened Gate
  import opened JsonString
  import opened Llm
  import opened Signals
  import opened Trail
  import opened Wrappers

  const SUBMIT := "submit_rca"
  const NUDGE := "Call submit_rca with your root-cause analysis."
  const HOUR := 3600000000000 // the default window, in nanoseconds

  predicate EvidenceTool(name: string) {
    name == "workload_state" || name == "events"
  }

  // ---- The order of an investigation's audit entries ----

  predicate OwnDetail(d: Detail) {
    match d
    case InvestigationSkipped => true
    case InvestigationStarted => true
    case LlmRequest(_) => true
    case LlmError(_) => true
    case LlmResponse(_, _) => true
    case EvidenceQuery(_, _, _) => true
    case GateVerdict(_, _, _) => true
    case InvestigationFinished(_, _, _) => true
    case TicketCommented(_, rca) => rca
    case _ => false
  }

  predicate Own(incident: int, e: Event) {
    e.incident == incident && OwnDetail(e.detail)
  }

  // What the log says about the investigation of `incident`.
  function Project(log: seq<Event>, incident: int): (ds: seq<Detail>)
    ensures forall d :: d in ds ==> Event(incident, d) in log
  {
    if log == [] then [] else
    var last := log[|log| - 1];
    Project(log[..|log| - 1], incident) + if Own(incident, last) then [last.detail] else []
  }

  lemma {:induction false} ProjectAppend(a: seq<Event>, b: seq<Event>, incident: int)
    ensures Project(a + b, incident) == Project(a, incident) + Project(b, incident)
    decreases |b|
  {
    if b == [] {
      assert a + b == a;
    } else {
      assert (a + b)[..|a + b| - 1] == a + b[..|b| - 1];
      ProjectAppend(a, b[..|b| - 1], incident);
    }
  }

  lemma {:induction false} ProjectOthers(others: seq<Event>, incident: int)
    requires forall e :: e in others ==> !Own(incident, e)
    ensures Project(others, incident) == []
  {
    if others != [] {
      ProjectOthers(others[..|others| - 1], incident);
    }
  }

  // Where an investigation is. `due` are the Evidence tools that the last
  // response called and that have not been queried yet.
  datatype Phase =
    | Fresh
    | Ready(step: int, due: seq<string>)
    | Asking(step: int)
    | Stopped
    | Judged
    | Finished
    | Over

  // The Evidence tools among some tool calls, in order.
  function Offered(calls: seq<ToolCall>): seq<string> {
    if calls == [] then []
    else (if EvidenceTool(calls[0].name) then [calls[0].name] else []) + Offered(calls[1..])
  }

  function After(p: Phase, d: Detail): Option<Phase> {
    match (p, d)
    case (Fresh, InvestigationSkipped) => Some(Over)
    case (Fresh, InvestigationStarted) => Some(Ready(0, []))
    case (Ready(n, due), LlmRequest(k)) => if due == [] && k == n + 1 then Some(Asking(k)) else None
    case (Asking(n), LlmError(k)) => if k == n then Some(Stopped) else None
    case (Asking(n), LlmResponse(k, calls)) => if k == n then Some(Ready(n, Offered(calls))) else None
    case (Ready(n, due), EvidenceQuery(_, tool, _)) =>
      if due != [] && due[0] == tool then Some(Ready(n, due[1..])) else None
    case (Ready(_, due), GateVerdict(_, _, _)) => if due == [] then Some(Judged) else None
    case (Stopped, GateVerdict(_, _, _)) => Some(Judged)
    case (Judged, InvestigationFinished(_, _, _)) => Some(Finished)
    case (Finished, TicketCommented(_, _)) => Some(Over)
    case _ => None
  }

  // Where a trace leads; None when its order is wrong.
  function Walk(trace: seq<Detail>): Option<Phase> {
    if trace == [] then Some(Fresh) else
    match Walk(trace[..|trace| - 1])
    case None => None
    case Some(p) => After(p, trace[|trace| - 1])
  }

  lemma WalkNext(trace: seq<Detail>, d: Detail)
    ensures Walk(trace + [d]) == match Walk(trace) case None => None case Some(p) => After(p, d)
  {
    assert (trace + [d])[..|trace|] == trace;
  }

  // The step numbers of the requests.
  function Requests(trace: seq<Detail>): seq<int> {
    if trace == [] then [] else
    Requests(trace[..|trace| - 1]) +
    match trace[|trace| - 1] case LlmRequest(step) => [step] case _ => []
  }

  // How many requests a phase comes after.
  function RequestsBefore(p: Phase, sent: nat): bool {
    match p
    case Fresh => sent == 0
    case Ready(n, _) => sent == n
    case Asking(n) => sent == n
    case _ => true
  }

  /** In a trace of the right order the requests are numbered 1, 2, 3, ..., and
      every beginning of it is of the right order too. */
  lemma {:induction false} WalkNumbersRequests(trace: seq<Detail>, k: nat)
    requires Walk(trace).Some? && k <= |trace|
    ensures RequestsBefore(Walk(trace).value, |Requests(trace)|)
    ensures forall i :: 0 <= i < |Requests(trace)| ==> Requests(trace)[i] == i + 1
    ensures Walk(trace[..k]).Some?
    decreases |trace|
  {
    if trace != [] {
      var n := |trace| - 1;
      WalkNumbersRequests(trace[..n], if k <= n then k else n);
      assert k <= n ==> trace[..n][..k] == trace[..k];
      assert k == n + 1 ==> trace[..k] == trace;
    } else {
      assert trace[..k] == trace;
    }
  }

  // Before the loop has ended and Gate 1 has judged.
  predicate Early(p: Phase) {
    p.Fresh? || p.Ready? || p.Asking? || p.Stopped?
  }

  lemma EarlyBefore(p: Phase, d: Detail)
    requires After(p, d).Some? && Early(After(p, d).value)
    ensures Early(p) && !d.GateVerdict?
  {
  }

  // No verdict comes early.
  lemma {:induction false} NoVerdictYet(trace: seq<Detail>)
    requires Walk(trace).Some? && Early(Walk(trace).value)
    ensures forall i :: 0 <= i < |trace| ==> !trace[i].GateVerdict?
  {
    hide After, Early;
    if trace != [] {
      var n := |trace| - 1;
      EarlyBefore(Walk(trace[..n]).value, trace[n]);
      NoVerdictYet(trace[..n]);
      assert forall i :: 0 <= i < n ==> trace[i] == trace[..n][i];
    }
  }

  // The ledger that a trace's Evidence queries make.
  function LedgerOf(trace: seq<Detail>): seq<LedgerEntry> {
    if trace == [] then [] else
    var last := trace[|trace| - 1];
    LedgerOf(trace[..|trace| - 1]) +
    match last
    case EvidenceQuery(ref, tool, outcome) => [LedgerEntry(ref, tool, outcome == QueryOk)]
    case _ => []
  }

  lemma WalkNothing()
    ensures Walk([]) == Some(Fresh) && LedgerOf([]) == []
  {
  }

  lemma LedgerOfNext(trace: seq<Detail>, d: Detail)
    ensures LedgerOf(trace + [d]) == LedgerOf(trace) +
            match d case EvidenceQuery(ref, tool, outcome) => [LedgerEntry(ref, tool, outcome == QueryOk)] case _ => []
  {
    assert (trace + [d])[..|trace|] == trace;
  }

  // A ledger entry is an audit entry.
  lemma {:induction false} LedgerIsTraced(trace: seq<Detail>, e: LedgerEntry)
    requires e in LedgerOf(trace)
    ensures exists outcome :: EvidenceQuery(e.ref, e.tool, outcome) in trace && (e.ok <==> outcome == QueryOk)
  {
    var n := |trace| - 1;
    if e in LedgerOf(trace[..n]) {
      LedgerIsTraced(trace[..n], e);
      var outcome :| EvidenceQuery(e.ref, e.tool, outcome) in trace[..n] && (e.ok <==> outcome == QueryOk);
      assert EvidenceQuery(e.ref, e.tool, outcome) in trace;
    } else {
      var outcome := trace[n].outcome;
      assert EvidenceQuery(e.ref, e.tool, outcome) == trace[n];
    }
  }

  lemma {:induction false} SucceededInLedger(ledger: seq<LedgerEntry>, id: string) returns (e: LedgerEntry)
    requires Outcome(ledger, id) == Some(true)
    ensures e in ledger && e.ok && e.ref.callId == id
  {
    var n := |ledger| - 1;
    if ledger[n].ref.callId == id {
      e := ledger[n];
    } else {
      e := SucceededInLedger(ledger[..n], id);
    }
  }

  // `id` is the ref of a successful query about `target`, audited under `incident`.
  ghost predicate AuditedEvidence(log: seq<Event>, incident: int, target: Target, id: string) {
    exists ref, tool ::
      && Event(incident, EvidenceQuery(ref, tool, QueryOk)) in log
      && ref.callId == id && ref.target == target
  }

  /** Gate 1, the ledger and the log together: every ref that an observed claim
      of a passing RCA cites names a successful query about the Incident's own
      target in the audit log, under this Incident, whatever else the log
      holds. */
  lemma CitedEvidenceIsAudited(log: seq<Event>, incident: int, target: Target, trace: seq<Detail>, r: RCA, c: Claim, id: string)
    requires forall d :: d in trace ==> Event(incident, d) in log
    requires forall e :: e in LedgerOf(trace) ==> e.ref.target == target
    requires Passes(r, LedgerOf(trace)) && (c in r.summary || c in r.confidence) && c.kind == "observed" && id in c.cites
    ensures AuditedEvidence(log, incident, target, id)
  {
    assert WellCited(AllClaims(r), LedgerOf(trace), c);
    var e := SucceededInLedger(LedgerOf(trace), id);
    LedgerIsTraced(trace, e);
    assert Event(incident, EvidenceQuery(e.ref, e.tool, QueryOk)) in log;
  }

  // ---- Reading tool calls ----

  function SubmittedBy(decode: string -> Option<RCA>, call: ToolCall): Option<RCA> {
    if call.name == SUBMIT then decode(call.arguments) else None
  }

  // The last readable RCA among some tool calls.
  function Submission(decode: string -> Option<RCA>, calls: seq<ToolCall>): Option<RCA> {
    if calls == [] then None else
    var n := |calls| - 1;
    if SubmittedBy(decode, calls[n]).Some? then SubmittedBy(decode, calls[n])
    else Submission(decode, calls[..n])
  }

  lemma NothingSubmitted(decode: string -> Option<RCA>, calls: seq<ToolCall>)
    requires calls == []
    ensures Submission(decode, calls) == None && Offered(calls) == []
  {
  }

  // What the first `n` responses cost.
  function Used(llm: nat -> Completion, n: nat): int {
    if n == 0 then 0 else
    Used(llm, n - 1) + match llm(n - 1)
                       case Answered(r) => r.inputTokens + r.outputTokens
                       case Failed(_) => 0
  }

  // ---- The environment ----

  datatype Budget = Budget(steps: int, tokens: int)

  function OutcomeOf(answer: Option<Answer>): QueryOutcome {
    match answer
    case None => LinkError
    case Some(a) => if a.error != [] then ToolError else QueryOk
  }

  // Everything outside the Control plane. `link(n, location, call)` is what query
  // `n` (from 0) gets from the Sensor of that Location; None when the link fails.
  datatype Outside = Outside(
    llm: nat -> Completion,
    ids: nat -> string,
    clock: nat -> int,
    link: (nat, Text, Call) -> Option<Answer>,
    decode: string -> Option<RCA>,
    commentOk: bool)

  // ---- What the model is shown ----

  // The ref of query `n`: a fresh call id, the Incident's target, the last hour.
  function RefAt(world: Outside, target: Target, n: nat): Ref {
    Ref(world.ids(n), target, Window(world.clock(n) - HOUR, world.clock(n)))
  }

  // What the Sensor of the ref's Location answered to the call that the ref names.
  function AnswerTo(world: Outside, n: nat, ref: Ref, tool: string): Option<Answer> {
    world.link(n, ref.target.location, CallOf(ref, tool))
  }

  // The ledger entry of query `n`.
  function EntryAt(world: Outside, target: Target, n: nat, tool: string): LedgerEntry {
    var ref := RefAt(world, target, n);
    LedgerEntry(ref, tool, OutcomeOf(AnswerTo(world, n, ref, tool)) == QueryOk)
  }

  // What the model reads about the ledger's entry `n`: its own ref, with the data
  // that its own call was answered with, or none.
  function ShownFor(world: Outside, n: nat, e: LedgerEntry): Reply {
    var answer := AnswerTo(world, n, e.ref, e.tool);
    if OutcomeOf(answer) == QueryOk then Data(e.ref, answer.value.data) else Unavailable(e.ref)
  }

  function Shown(world: Outside, ledger: seq<LedgerEntry>): (rs: seq<Reply>)
    ensures |rs| == |ledger|
  {
    seq(|ledger|, n requires 0 <= n < |ledger| => ShownFor(world, n, ledger[n]))
  }

  lemma ShownNext(world: Outside, ledger: seq<LedgerEntry>, e: LedgerEntry)
    ensures Shown(world, ledger + [e]) == Shown(world, ledger) + [ShownFor(world, |ledger|, e)]
  {
  }

  lemma ShownGrows(world: Outside, a: seq<LedgerEntry>, b: seq<LedgerEntry>)
    requires a <= b
    ensures Shown(world, a) <= Shown(world, b)
  {
  }

  // Entry `n` of the ledger is what query `n` came to.
  ghost predicate Contacted(world: Outside, target: Option<Target>, ledger: seq<LedgerEntry>) {
    && (target == None ==> ledger == [])
    && forall n :: 0 <= n < |ledger| ==> ledger[n] == EntryAt(world, target.value, n, ledger[n].tool)
  }

  // The kind of reply that a tool call reads back.
  predicate FitsCall(decode: string -> Option<RCA>, call: ToolCall, reply: Reply) {
    if call.name == SUBMIT then reply == if decode(call.arguments).Some? then Accepted else SchemaError
    else if !EvidenceTool(call.name) then reply == NotOffered
    else reply.Data? || reply.Unavailable?
  }

  function Fitting(decode: string -> Option<RCA>): Fits {
    (call: ToolCall, reply: Reply) => FitsCall(decode, call, reply)
  }

  // Response `n` (from 0) came, and submitted nothing readable.
  predicate SubmitsNothing(world: Outside, n: nat) {
    world.llm(n).Answered? && Submission(world.decode, world.llm(n).response.toolCalls) == None
  }

  // None of the first `n` responses submitted an RCA.
  ghost predicate Fruitless(world: Outside, n: nat) {
    forall i: nat :: i < n ==> SubmitsNothing(world, i)
  }

  lemma FruitlessNext(world: Outside, n: nat)
    requires Fruitless(world, n) && SubmitsNothing(world, n)
    ensures Fruitless(world, n + 1)
  {
    forall i: nat | i < n + 1 ensures SubmitsNothing(world, i) {
      assert i < n ==> SubmitsNothing(world, i);
    }
  }

  // Response `n` was the first to submit one, and `rca` is its last.
  ghost predicate SubmittedAfter(world: Outside, n: nat, rca: Option<RCA>) {
    && n > 0 && Fruitless(world, n - 1) && world.llm(n - 1).Answered?
    && rca.Some? && rca == Submission(world.decode, world.llm(n - 1).response.toolCalls)
  }

  // ---- The requests of a run ----

  // Request `n` (from 0) is within both budgets.
  predicate Affordable(n: nat, budget: Budget, llm: nat -> Completion) {
    n < budget.steps && Used(llm, n) < budget.tokens
  }

  predicate Begins(a: seq<Message>, b: seq<Message>) { a <= b }

  // The assistant messages of a conversation.
  function Voices(ms: seq<Message>): seq<Message> {
    if ms == [] then [] else
    var last := ms[|ms| - 1];
    Voices(ms[..|ms| - 1]) + if last.Assistant? then [last] else []
  }

  lemma {:induction false} VoicesAppend(a: seq<Message>, b: seq<Message>)
    ensures Voices(a + b) == Voices(a) + Voices(b)
    decreases |b|
  {
    if b == [] {
      assert a + b == a;
    } else {
      assert (a + b)[..|a + b| - 1] == a + b[..|b| - 1];
      VoicesAppend(a, b[..|b| - 1]);
    }
  }

  lemma {:induction false} ToolsAreNotVoices(fits: Fits, calls: seq<ToolCall>, replies: seq<Message>)
    requires Replies(fits, calls, replies)
    ensures Voices(replies) == []
  {
    if replies != [] {
      var n := |replies| - 1;
      assert Replies(fits, calls[..n], replies[..n]);
      ToolsAreNotVoices(fits, calls[..n], replies[..n]);
    }
  }

  // What the model said in its first `n` responses.
  function Said(llm: nat -> Completion, n: nat): seq<Message> {
    if n == 0 then [] else
    Said(llm, n - 1) + match llm(n - 1)
                       case Answered(r) => [Assistant(r.text, r.toolCalls)]
                       case Failed(_) => []
  }

  // The assistant speaks exactly the model's first `n` responses.
  predicate Quotes(ms: seq<Message>, llm: nat -> Completion, n: nat) {
    Voices(ms) == Said(llm, n)
  }

  lemma QuotesRound(ms: seq<Message>, llm: nat -> Completion, n: nat, text: string, calls: seq<ToolCall>, rest: seq<Message>)
    requires Quotes(ms, llm, n) && Voices(rest) == []
    requires llm(n).Answered? && llm(n).response.text == text && llm(n).response.toolCalls == calls
    ensures Quotes(ms + ([Assistant(text, calls)] + rest), llm, n + 1)
  {
    var said := [Assistant(text, calls)];
    VoicesAppend(ms, said + rest);
    VoicesAppend(said, rest);
    assert said[..0] == [] && Voices(said) == said;
  }

  lemma BriefingIsSilent()
    ensures var ms := [System, User("Investigate this Incident:")]; Voices(ms) == [] && EvidenceIn(ms) == []
  {
    var ms := [System, User("Investigate this Incident:")];
    assert ms[..1] == [System] && [System][..0] == [];
  }

  lemma NudgeIsSilent(nudge: string)
    ensures Voices([User(nudge)]) == [] && EvidenceIn([User(nudge)]) == []
  {
    assert [User(nudge)][..0] == [];
  }

  // The model has read exactly what there is to show of the ledger.
  predicate Tells(ms: seq<Message>, world: Outside, ledger: seq<LedgerEntry>) {
    EvidenceIn(ms) == Shown(world, ledger)
  }

  // The model has read a beginning of it.
  predicate Told(ms: seq<Message>, world: Outside, ledger: seq<LedgerEntry>) {
    EvidenceIn(ms) <= Shown(world, ledger)
  }

  // Every request is a well-formed conversation that quotes the model; its tool
  // replies fit their calls, and those about Evidence are the ledger's entries so
  // far, in order, each under its own ref with its own answer. It continues the
  // request before, and was sent within both budgets.
  ghost predicate InOrder(sent: seq<seq<Message>>, ledger: seq<LedgerEntry>, budget: Budget, world: Outside) {
    && (forall i :: 0 <= i < |sent| ==>
          && Conversation(Fitting(world.decode), sent[i]) && Told(sent[i], world, ledger)
          && Quotes(sent[i], world.llm, i))
    && (forall i, j :: 0 <= i < j < |sent| ==> Begins(sent[i], sent[j]))
    && (forall i :: 0 <= i < |sent| ==> Affordable(i, budget, world.llm))
  }

  // Every request is a beginning of `msgs`.
  ghost predicate Continues(sent: seq<seq<Message>>, msgs: seq<Message>) {
    forall i :: 0 <= i < |sent| ==> Begins(sent[i], msgs)
  }

  lemma InOrderNext(sent: seq<seq<Message>>, msgs: seq<Message>, ledger: seq<LedgerEntry>, budget: Budget, world: Outside)
    requires InOrder(sent, ledger, budget, world) && Continues(sent, msgs)
    requires Conversation(Fitting(world.decode), msgs) && Tells(msgs, world, ledger) && Quotes(msgs, world.llm, |sent|)
    requires Affordable(|sent|, budget, world.llm)
    ensures InOrder(sent + [msgs], ledger, budget, world) && Continues(sent + [msgs], msgs)
  {
    hide Conversation, Quotes, Affordable, EvidenceIn, Shown;
    assert Told(msgs, world, ledger);
  }

  lemma NothingSent(budget: Budget, world: Outside, ledger: seq<LedgerEntry>, msgs: seq<Message>)
    ensures InOrder([], ledger, budget, world) && Continues([], msgs)
  {
  }

  lemma InOrderStays(sent: seq<seq<Message>>, a: seq<LedgerEntry>, b: seq<LedgerEntry>, budget: Budget, world: Outside)
    requires InOrder(sent, a, budget, world) && a <= b
    ensures InOrder(sent, b, budget, world)
  {
    hide Conversation, Quotes, Affordable, EvidenceIn, Shown;
    ShownGrows(world, a, b);
    forall i | 0 <= i < |sent| ensures Told(sent[i], world, b) {
      assert Told(sent[i], world, a);
    }
  }

  // A round carries on the conversation, and shows what the ledger gained.
  lemma TalkGrows(sent: seq<seq<Message>>, msgs: seq<Message>, a: seq<LedgerEntry>, b: seq<LedgerEntry>, world: Outside, n: nat,
                  text: string, calls: seq<ToolCall>, rest: seq<Message>)
    requires Conversation(Fitting(world.decode), msgs) && Tells(msgs, world, a)
    requires Continues(sent, msgs) && Quotes(msgs, world.llm, n)
    requires Rounds(Fitting(world.decode), [Assistant(text, calls)] + rest) && Voices(rest) == []
    requires Shown(world, b) == Shown(world, a) + EvidenceIn(rest)
    requires world.llm(n).Answered? && world.llm(n).response.text == text && world.llm(n).response.toolCalls == calls
    ensures var longer := msgs + ([Assistant(text, calls)] + rest);
            && Conversation(Fitting(world.decode), longer) && Tells(longer, world, b)
            && Continues(sent, longer) && Quotes(longer, world.llm, n + 1)
  {
    hide Conversation, Rounds, Voices, Quotes, Continues, Shown, EvidenceIn;
    var said := [Assistant(text, calls)];
    ConversationGrows(Fitting(world.decode), msgs, said + rest);
    QuotesRound(msgs, world.llm, n, text, calls, rest);
    ContinuesLonger(sent, msgs, msgs + (said + rest));
    SayingIsNoEvidence(text, calls);
    EvidenceAppend(said, rest);
    EvidenceAppend(msgs, said + rest);
  }

  lemma SayingIsNoEvidence(text: string, calls: seq<ToolCall>)
    ensures EvidenceIn([Assistant(text, calls)]) == []
  {
    assert [Assistant(text, calls)][..0] == [];
  }

  lemma ContinuesLonger(sent: seq<seq<Message>>, a: seq<Message>, b: seq<Message>)
    requires Continues(sent, a) && a <= b
    ensures Continues(sent, b)
  {
    forall i | 0 <= i < |sent| ensures Begins(sent[i], b) {
      assert Begins(sent[i], a);
    }
  }

  datatype QueryResult = Result(ref: Ref, data: Text) | Error(ref: Ref) | AuditError

  // The window a query reads: the last hour unless it names one.
  function WindowOf(start: Option<int>, end: Option<int>, now: int): Window {
    var e := match end case Some(t) => t case None => now;
    Window(match start case Some(t) => t case None => e - HOUR, e)
  }

  lemma NoRepliesYet(fits: Fits, calls: seq<ToolCall>)
    ensures EvidenceIn([]) == [] && Replies(fits, calls[..0], [])
  {
  }

  // One more reply shows what the ledger gained by its call.
  lemma ReplyShows(world: Outside, target: Target, start: seq<Reply>, a: seq<LedgerEntry>, b: seq<LedgerEntry>,
                   replies: seq<Message>, call: ToolCall, reply: Reply)
    requires FitsCall(world.decode, call, reply) && Shown(world, a) == start + EvidenceIn(replies)
    requires if EvidenceTool(call.name) then
               var e := EntryAt(world, target, |a|, call.name);
               b == a + [e] && reply == ShownFor(world, |a|, e)
             else b == a
    ensures Shown(world, b) == start + EvidenceIn(replies + [Tool(call.id, reply)])
  {
    hide Shown, EvidenceIn, EntryAt;
    EvidenceNext(replies, Tool(call.id, reply));
    if EvidenceTool(call.name) {
      ShownNext(world, a, EntryAt(world, target, |a|, call.name));
    }
  }

  lemma RepliesNext(decode: string -> Option<RCA>, calls: seq<ToolCall>, i: nat, replies: seq<Message>, reply: Reply)
    requires i < |calls| && Replies(Fitting(decode), calls[..i], replies) && FitsCall(decode, calls[i], reply)
    ensures Replies(Fitting(decode), calls[..i + 1], replies + [Tool(calls[i].id, reply)])
  {
    hide FitsCall;
  }

  // ---- The loop ----

  class Investigation {
    const incident: int
    const target: Option<Target>
    const ticket: string
    const budget: Budget
    const world: Outside
    const trail: Trail

    // what the loop leaves behind
    var rca: Option<RCA>
    var ledger: seq<LedgerEntry>
    var stopped: Stop
    var steps: nat
    var tokens: int

    var contacts: nat                    // calls made to Sensors so far
    ghost var earlier: seq<Detail>       // what the log held for this Incident before
    ghost var trace: seq<Detail>         // what this investigation added to it
    ghost var sent: seq<seq<Message>>    // the requests handed to the model

    constructor (incident: int, target: Option<Target>, ticket: string, budget: Budget, world: Outside, trail: Trail)
      requires forall n: nat :: forall e :: e in trail.disk(n).others ==> !Own(incident, e)
      ensures this.incident == incident && this.target == target && this.ticket == ticket
      ensures this.budget == budget && this.world == world && this.trail == trail
      ensures Valid() && IsNew()
      ensures earlier == Project(trail.log, incident)
    {
      this.incident, this.target, this.ticket, this.budget, this.world, this.trail :=
        incident, target, ticket, budget, world, trail;
      rca, ledger, stopped, steps, tokens, contacts := None, [], Running, 0, 0, 0;
      earlier, trace, sent := Project(trail.log, incident), [], [];
    }

    // The audit disk never fails.
    ghost predicate DiskOk() {
      forall n: nat :: trail.disk(n).ok
    }

    ghost predicate IsNew()
      reads this
    {
      rca == None && steps == 0 && tokens == 0 && contacts == 0 && stopped == Running && trace == [] && sent == []
    }

    // Nobody else writes this investigation's entries, and its own are in the
    // log, in the order they were written.
    ghost predicate Logged()
      reads this, trail
    {
      && (forall n: nat :: forall e :: e in trail.disk(n).others ==> !Own(incident, e))
      && Project(trail.log, incident) == earlier + trace
    }

    ghost predicate Valid()
      reads this, trail
    {
      && Logged()
      && Walk(trace).Some?
      && ledger == LedgerOf(trace)
      && Contacted(world, target, ledger)
    }

    // Append one of this investigation's entries.
    method Audit(d: Detail) returns (ok: bool)
      requires Logged() && OwnDetail(d)
      modifies this`trace, trail
      ensures DiskOk() ==> ok
      ensures Logged()
      ensures trace == if ok then old(trace) + [d] else old(trace)
    {
      ok := trail.Append(Event(incident, d));
      ghost var others := trail.disk(old(trail.attempts)).others;
      ProjectAppend(old(trail.log), others, incident);
      ProjectOthers(others, incident);
      ProjectAppend(old(trail.log) + others, if ok then [Event(incident, d)] else [], incident);
      if ok {
        assert [Event(incident, d)][..0] == [];
        trace := trace + [d];
      }
    }

    /** Query: one Evidence query about the Incident's target, audited under its
        ref before its answer can be used. */
    method Query(tool: string) returns (r: QueryResult)
      requires Logged() && target.Some?
      modifies this`contacts, this`trace, trail
      ensures DiskOk() ==> !r.AuditError?
      ensures Logged()
      ensures r.AuditError? ==> trace == old(trace)
      ensures contacts == old(contacts) + 1
      ensures !r.AuditError? ==>
                var e := EntryAt(world, target.value, old(contacts), tool);
                var answer := AnswerTo(world, old(contacts), e.ref, tool);
                && r.ref == e.ref && (r.Result? <==> e.ok)
                && trace == old(trace) + [EvidenceQuery(e.ref, tool, OutcomeOf(answer))]
                && (r.Result? ==> r.data == answer.value.data)
      ensures !r.AuditError? ==>
                var n := old(contacts);
                var end := world.clock(n);
                var window := Window(end - 3_600_000_000_000, end);
                var answer := world.link(n, target.value.location, Call(world.ids(n), Evidence.Query(tool, target.value, window)));
                && r.ref == Ref(world.ids(n), target.value, window)
                && trace == old(trace) + [EvidenceQuery(r.ref, tool,
                     if answer == None then LinkError else if answer.value.error != [] then ToolError else QueryOk)]
                && (r.Result? <==> answer.Some? && answer.value.error == [])
                && (r.Result? ==> r.data == answer.value.data)
    {
      var now := world.clock(contacts);
      var ref := Ref(world.ids(contacts), target.value, WindowOf(None, None, now));
      var answer := world.link(contacts, ref.target.location, CallOf(ref, tool));
      contacts := contacts + 1;
      var outcome;
      if answer == None {
        outcome := LinkError;
      } else if answer.value.error != [] {
        outcome := ToolError;
      } else {
        outcome := QueryOk;
      }
      var ok := Audit(EvidenceQuery(ref, tool, outcome));
      if !ok {
        return AuditError;
      }
      if outcome != QueryOk {
        return Error(ref);
      }
      return Result(ref, answer.value.data);
    }

    /** toolResult: runs one tool call of the response being answered. */
    method ToolResult(call: ToolCall, ghost later: seq<ToolCall>) returns (ok: bool, reply: Reply)
      requires Valid() && target.Some? && contacts == |ledger|
      requires Walk(trace) == Some(Ready(steps, Offered([call] + later)))
      modifies this`rca, this`ledger, this`contacts, this`trace, trail
      ensures DiskOk() ==> ok
      ensures Valid()
      ensures old(ledger) <= ledger
      ensures ok ==> Walk(trace) == Some(Ready(steps, Offered(later)))
      ensures ok ==> rca == if SubmittedBy(world.decode, call).Some? then SubmittedBy(world.decode, call) else old(rca)
      ensures ok ==> FitsCall(world.decode, call, reply)
      ensures ok ==>
                if EvidenceTool(call.name) then
                  var e := EntryAt(world, target.value, old(contacts), call.name);
                  ledger == old(ledger) + [e] && reply == ShownFor(world, old(contacts), e)
                else ledger == old(ledger)
      ensures ok ==> contacts == |ledger|
      ensures ok ==>
                match reply
                case SchemaError => call.name == "submit_rca" && world.decode(call.arguments) == None && rca == old(rca)
                case Accepted => call.name == "submit_rca" && rca.Some? && world.decode(call.arguments) == rca
                case NotOffered => call.name !in ["submit_rca", "workload_state", "events"] && rca == old(rca)
                case _ => (call.name == "workload_state" || call.name == "events") && rca == old(rca)
    {
      hide Walk, LedgerOf, Project;
      assert ([call] + later)[1..] == later;
      assert Offered([call] + later) == if EvidenceTool(call.name) then [call.name] + Offered(later) else Offered(later);
      if call.name == SUBMIT {
        assert !EvidenceTool(call.name);
        var r := world.decode(call.arguments);
        if r.None? {
          return true, SchemaError;
        }
        rca := r;
        return true, Accepted;
      }
      if !EvidenceTool(call.name) {
        return true, NotOffered;
      }
      var res := Query(call.name);
      if res.AuditError? {
        return false, NotOffered;
      }
      ghost var outcome := OutcomeOf(AnswerTo(world, old(contacts), res.ref, call.name));
      WalkNext(old(trace), EvidenceQuery(res.ref, call.name, outcome));
      LedgerOfNext(old(trace), EvidenceQuery(res.ref, call.name, outcome));
      var entry := LedgerEntry(res.ref, call.name, res.Result?);
      ledger := ledger + [entry];
      if res.Error? {
        return true, Unavailable(res.ref);
      }
      return true, Data(res.ref, res.data);
    }

    // Runs every tool call of a response, in order.
    method AnswerCalls(calls: seq<ToolCall>) returns (ok: bool, replies: seq<Message>)
      requires Valid() && target.Some? && rca == None && contacts == |ledger|
      requires Walk(trace) == Some(Ready(steps, Offered(calls)))
      modifies this`rca, this`ledger, this`contacts, this`trace, trail
      ensures DiskOk() ==> ok
      ensures Valid()
      ensures old(ledger) <= ledger
      ensures ok ==> Walk(trace) == Some(Ready(steps, []))
      ensures ok ==> rca == Submission(world.decode, calls)
      ensures ok ==> Replies(Fitting(world.decode), calls, replies)
      ensures ok ==> Shown(world, ledger) == Shown(world, old(ledger)) + EvidenceIn(replies)
      ensures ok ==> contacts == |ledger|
    {
      hide Walk, LedgerOf, Project, Contacted, EntryAt, ShownFor, Shown, EvidenceIn, Replies, Fitting, FitsCall, DiskOk;
      replies := [];
      NoRepliesYet(Fitting(world.decode), calls);
      assert calls[0..] == calls;
      for i := 0 to |calls|
        invariant Valid() && old(ledger) <= ledger
        invariant Walk(trace) == Some(Ready(steps, Offered(calls[i..])))
        invariant rca == Submission(world.decode, calls[..i])
        invariant Replies(Fitting(world.decode), calls[..i], replies)
        invariant Shown(world, ledger) == Shown(world, old(ledger)) + EvidenceIn(replies)
        invariant contacts == |ledger|
      {
        assert calls[i..] == [calls[i]] + calls[i + 1..];
        assert calls[..i + 1][..i] == calls[..i];
        ghost var before := ledger;
        var done, reply := ToolResult(calls[i], calls[i + 1..]);
        if !done {
          return false, replies;
        }
        ReplyShows(world, target.value, Shown(world, old(ledger)), before, ledger, replies, calls[i], reply);
        RepliesNext(world.decode, calls, i, replies, reply);
        replies := replies + [Tool(calls[i].id, reply)];
      }
      assert calls[..|calls|] == calls && calls[|calls|..] == [];
      return true, replies;
    }

    ghost predicate RequestsInOrder()
      reads this
    {
      && InOrder(sent, ledger, budget, world) && |sent| <= steps
      && (sent != [] ==> |sent| <= budget.steps && Used(world.llm, |sent| - 1) < budget.tokens)
    }

    // The conversation so far, which every request sent is a part of.
    // It quotes `quoted` responses.
    ghost predicate Talking(msgs: seq<Message>, quoted: nat)
      reads this
    {
      && RequestsInOrder() && |sent| == steps
      && Conversation(Fitting(world.decode), msgs) && Tells(msgs, world, ledger) && contacts == |ledger|
      && Continues(sent, msgs) && Quotes(msgs, world.llm, quoted)
    }

    // Nothing has failed so far, and only the last response submitted anything.
    ghost predicate NoEndYet()
      reads this
    {
      && tokens == Used(world.llm, steps)
      && if rca == None then Fruitless(world, steps) else SubmittedAfter(world, steps, rca)
    }

    // Why and when the loop may end without an audit failure.
    ghost predicate Ended()
      reads this
    {
      && steps == |sent| && tokens == Used(world.llm, steps)
      && (rca.Some? <==> stopped == RcaSubmitted)
      && match stopped
         case Running => false
         case RcaSubmitted => SubmittedAfter(world, steps, rca)
         case StepBudget => steps >= budget.steps && Fruitless(world, steps)
         case TokenBudget => steps < budget.steps && tokens >= budget.tokens && Fruitless(world, steps)
         case TimeBudget => steps > 0 && Fruitless(world, steps - 1) && world.llm(steps - 1) == Failed(true)
         case RequestFailed => steps > 0 && Fruitless(world, steps - 1) && world.llm(steps - 1) == Failed(false)
    }

    // Append an entry that moves the investigation on.
    method AuditStep(d: Detail) returns (ok: bool)
      requires Valid() && OwnDetail(d) && !d.EvidenceQuery?
      requires After(Walk(trace).value, d).Some?
      modifies this`trace, trail
      ensures DiskOk() ==> ok
      ensures Valid()
      ensures Walk(trace) == if ok then After(old(Walk(trace)).value, d) else old(Walk(trace))
      ensures trace == if ok then old(trace) + [d] else old(trace)
    {
      ok := Audit(d);
      WalkNext(old(trace), d);
      LedgerOfNext(old(trace), d);
    }

    // Sends one request and audits what came of it.
    method Ask(msgs: seq<Message>) returns (ok: bool, completion: Completion)
      requires Valid() && Talking(msgs, steps) && Walk(trace) == Some(Ready(steps, []))
      requires Affordable(steps, budget, world.llm)
      modifies this`steps, this`trace, this`sent, trail
      ensures DiskOk() ==> ok
      ensures Valid() && RequestsInOrder()
      ensures steps == old(steps) + 1 && completion == world.llm(old(steps))
      ensures ok ==> Talking(msgs, steps - 1)
      ensures ok ==> Walk(trace) == if completion.Failed? then Some(Stopped)
                                    else Some(Ready(steps, Offered(completion.response.toolCalls)))
    {
      hide Project, LedgerOf, Submission, Used, Offered, Tells, Conversation, InOrder, Continues, Quotes, DiskOk;
      steps := steps + 1;
      completion := world.llm(steps - 1);
      ok := AuditStep(LlmRequest(steps));
      if !ok {
        return;
      }
      InOrderNext(sent, msgs, ledger, budget, world);
      sent := sent + [msgs];
      if completion.Failed? {
        ok := AuditStep(LlmError(steps));
      } else {
        ok := AuditStep(LlmResponse(steps, completion.response.toolCalls));
      }
    }

    // Carries on the conversation after a response.
    method Continue(msgs: seq<Message>, resp: Response) returns (ok: bool, longer: seq<Message>)
      requires steps > 0 && world.llm(steps - 1) == Answered(resp)
      requires Valid() && Talking(msgs, steps - 1) && target.Some? && rca == None
      requires Walk(trace) == Some(Ready(steps, Offered(resp.toolCalls)))
      modifies this`rca, this`ledger, this`contacts, this`trace, trail
      ensures DiskOk() ==> ok
      ensures Valid() && RequestsInOrder()
      ensures ok ==> Talking(longer, steps) && Walk(trace) == Some(Ready(steps, []))
      ensures ok ==> rca == Submission(world.decode, resp.toolCalls)
    {
      hide Walk, LedgerOf, Project, Submission, Conversation, Rounds, Voices, Quotes, Continues, InOrder, Shown, EvidenceIn, Contacted;
      if |resp.toolCalls| == 0 {
        NudgedRound(Fitting(world.decode), resp.text, NUDGE);
        NudgeIsSilent(NUDGE);
        NothingSubmitted(world.decode, resp.toolCalls);
        assert [Assistant(resp.text, resp.toolCalls)] + [User(NUDGE)] == [Assistant(resp.text, []), User(NUDGE)];
        TalkGrows(sent, msgs, ledger, ledger, world, steps - 1, resp.text, resp.toolCalls, [User(NUDGE)]);
        return true, msgs + ([Assistant(resp.text, resp.toolCalls)] + [User(NUDGE)]);
      }
      var done, replies := AnswerCalls(resp.toolCalls);
      InOrderStays(sent, old(ledger), ledger, budget, world);
      if !done {
        return false, msgs;
      }
      AnsweredRound(Fitting(world.decode), resp.text, resp.toolCalls, replies);
      ToolsAreNotVoices(Fitting(world.decode), resp.toolCalls, replies);
      TalkGrows(sent, msgs, old(ledger), ledger, world, steps - 1, resp.text, resp.toolCalls, replies);
      return true, msgs + ([Assistant(resp.text, resp.toolCalls)] + replies);
    }

    // One turn: a request, and the conversation carried on after its response.
    method Turn(msgs: seq<Message>) returns (ok: bool, longer: seq<Message>)
      requires Valid() && Talking(msgs, steps) && NoEndYet() && rca == None && target.Some? && stopped == Running
      requires Walk(trace) == Some(Ready(steps, [])) && Affordable(steps, budget, world.llm)
      modifies this`rca, this`ledger, this`stopped, this`steps, this`tokens, this`contacts, this`trace, this`sent, trail
      ensures DiskOk() ==> ok
      ensures Valid() && RequestsInOrder() && steps == old(steps) + 1
      ensures ok ==> tokens == old(tokens) + match world.llm(old(steps))
                                             case Answered(r) => r.inputTokens + r.outputTokens
                                             case Failed(_) => 0
      ensures ok && stopped != Running ==> Ended() && Walk(trace) == Some(Stopped)
      ensures ok && stopped == Running ==> Talking(longer, steps) && NoEndYet() && Walk(trace) == Some(Ready(steps, []))
    {
      hide Walk, LedgerOf, Project, Submission, Tells, Conversation, InOrder, Continues, Quotes, DiskOk;
      longer := msgs;
      var completion;
      ok, completion := Ask(msgs);
      if !ok {
        return;
      }
      if completion.Failed? {
        stopped := if completion.deadline then TimeBudget else RequestFailed;
        return;
      }
      var resp := completion.response;
      tokens := tokens + (resp.inputTokens + resp.outputTokens);
      ok, longer := Continue(msgs, resp);
      if ok && rca == None {
        FruitlessNext(world, steps - 1);
      }
    }

    /** loop: terminates for every model, within both budgets, and leaves an RCA
        exactly when the model submitted one. */
    method Loop() returns (ok: bool)
      requires Valid() && target.Some? && stopped == Running
      requires rca == None && steps == 0 && tokens == 0 && sent == [] && contacts == 0 && ledger == []
      requires Walk(trace) == Some(Ready(0, []))
      modifies this`rca, this`ledger, this`stopped, this`steps, this`tokens, this`contacts, this`trace, this`sent, trail
      ensures DiskOk() ==> ok
      ensures Valid() && RequestsInOrder()
      ensures ok ==> Ended()
      ensures ok ==> Walk(trace) == Some(Stopped) || Walk(trace) == Some(Ready(steps, []))
    {
      hide Walk, LedgerOf, Project, Submission, InOrder, DiskOk, Voices;
      var msgs := [System, User("Investigate this Incident:")];
      BriefingIsSilent();
      NothingSent(budget, world, ledger, msgs);
      while rca == None
        invariant Valid() && Talking(msgs, steps) && NoEndYet() && stopped == Running
        invariant Walk(trace) == Some(Ready(steps, []))
        decreases budget.steps - steps
      {
        if steps >= budget.steps {
          stopped := StepBudget;
          return true;
        }
        if tokens >= budget.tokens {
          stopped := TokenBudget;
          return true;
        }
        ok, msgs := Turn(msgs);
        if !ok || stopped != Running {
          return;
        }
      }
      stopped := RcaSubmitted;
      return true;
    }

    // What the gate said, and what it was right about.
    ghost predicate Verdict(failures: seq<GateFailure>)
      reads this
    {
      && Ended() && target.Some?
      && GateVerdict(failures, rca, if rca.Some? && failures == [] then rca.value.level else "low") in trace
      && ConfidenceEarned()
      && (rca == None ==> failures == [])
      && (rca.Some? ==> forall f :: f in failures <==> Fails(rca.value, ledger, f))
      && (rca.Some? ==> (failures == [] <==> Passes(rca.value, ledger)))
      && (rca.Some? ==> (failures == [] <==> Cited(rca.value, ledger)))
    }

    // Any confidence but low that was audited belongs to an RCA that is well cited.
    ghost predicate ConfidenceEarned()
      reads this
    {
      forall d :: d in trace && d.GateVerdict? && d.confidence != "low" ==>
        d.verdictOn == rca && rca.Some? && d.confidence == rca.value.level && Cited(rca.value, ledger)
    }

    // The last entries of an investigation whose audit writes succeeded.
    ghost function Closing(end: RunEnd): seq<Detail>
      reads this
    {
      [InvestigationFinished(stopped, steps, tokens)] + if end == Completed then [TicketCommented(ticket, true)] else []
    }

    // The trace ends with the verdict and the report of it.
    ghost predicate ReportedIn(failures: seq<GateFailure>, end: RunEnd)
      reads this
    {
      var tail := [GateVerdict(failures, rca, if rca.Some? && failures == [] then rca.value.level else "low"),
                   InvestigationFinished(stopped, steps, tokens)]
                  + if end == Completed then [TicketCommented(ticket, true)] else [];
      |tail| <= |trace| && trace[|trace| - |tail|..] == tail
    }

    // Every citation of an observed claim is in the audit log.
    ghost predicate EvidenceAudited()
      reads this, trail
    {
      rca.Some? && target.Some? ==>
        forall c, id :: (c in rca.value.summary || c in rca.value.confidence) && c.kind == "observed" && id in c.cites ==>
          AuditedEvidence(trail.log, incident, target.value, id)
    }

    lemma PassingIsAudited(failures: seq<GateFailure>)
      requires Valid() && Verdict(failures) && failures == []
      ensures EvidenceAudited()
    {
      if rca.Some? {
        forall d | d in trace ensures Event(incident, d) in trail.log {
          assert d in Project(trail.log, incident);
        }
        forall c, id | (c in rca.value.summary || c in rca.value.confidence) && c.kind == "observed" && id in c.cites
          ensures AuditedEvidence(trail.log, incident, target.value, id)
        {
          CitedEvidenceIsAudited(trail.log, incident, target.value, trace, rca.value, c, id);
        }
      }
    }

    /** Run: investigates, runs Gate 1 on the answer and comments it on the
        ticket. Whatever fails on the way, its audit entries are a beginning of
        the expected order, and a clean verdict on an RCA means that every ref an
        observed claim cites is a successful, audited query about the Incident's
        own target. */
    method Run() returns (end: RunEnd, verdict: Option<seq<GateFailure>>)
      requires Valid() && IsNew()
      modifies this, trail
      ensures DiskOk() ==> end == if target.Some? && !world.commentOk then TicketFailed else Completed
      ensures Valid() && RequestsInOrder()
      ensures earlier == old(earlier)
      ensures end == Completed ==> Walk(trace) == Some(Over)
      ensures end == TicketFailed ==> Walk(trace) == Some(Finished)
      ensures end == Completed && target.Some? ==> world.commentOk
      ensures target == None ==> sent == [] && trace == if end == Completed then [InvestigationSkipped] else []
      ensures target.Some? && end != AuditFailed ==> verdict.Some? && ReportedIn(verdict.value, end)
      ensures verdict.Some? ==> Verdict(verdict.value)
      ensures verdict == Some([]) ==> EvidenceAudited()
    {
      hide ReportedIn, Walk, LedgerOf, Project, Verdict, Ended, DiskOk, InOrder, EvidenceAudited;
      NothingSent(budget, world, ledger, []);
      WalkNothing();
      verdict := None;
      var ok;
      if target == None {
        ok := AuditStep(InvestigationSkipped);
        return if ok then Completed else AuditFailed, None;
      }
      ok := AuditStep(InvestigationStarted);
      if !ok {
        return AuditFailed, None;
      }
      ok := Loop();
      if !ok {
        return AuditFailed, None;
      }
      end, verdict := Judge();
    }

    // Gate 1 on what the loop left, and the report of it.
    method Judge() returns (end: RunEnd, verdict: Option<seq<GateFailure>>)
      requires Valid() && Ended() && target.Some?
      requires Walk(trace) == Some(Stopped) || Walk(trace) == Some(Ready(steps, []))
      modifies this`trace, trail
      ensures Valid()
      ensures DiskOk() ==> end == if world.commentOk then Completed else TicketFailed
      ensures end == Completed ==> Walk(trace) == Some(Over)
      ensures end == TicketFailed ==> Walk(trace) == Some(Finished)
      ensures end != AuditFailed ==> verdict.Some? && ReportedIn(verdict.value, end)
      ensures verdict.Some? ==> Verdict(verdict.value)
      ensures verdict == Some([]) ==> EvidenceAudited()
      ensures end == Completed ==> world.commentOk
    {
      hide Walk, LedgerOf, Project, Fails, Passes, Cited, DiskOk, EvidenceAudited, Used, Fruitless, SubmittedAfter, Verdict, ReportedIn;
      NoVerdictYet(trace);
      var failures := Gate1(rca, ledger);
      ghost var before := trace;
      var ok := AuditStep(GateVerdict(failures, rca, Confidence(rca, failures)));
      if !ok {
        return AuditFailed, None;
      }
      ghost var judged := trace;
      verdict := Some(failures);
      end := Report();
      JudgedWell(before, judged, failures);
      if end != AuditFailed {
        ReportedWell(before, judged, failures, end);
      }
      if failures == [] {
        PassingIsAudited(failures);
      }
    }

    // What was judged, and only that, is in the trace.
    lemma JudgedWell(before: seq<Detail>, judged: seq<Detail>, failures: seq<GateFailure>)
      requires Ended() && target.Some?
      requires judged == before + [GateVerdict(failures, rca, Confidence(rca, failures))] && judged <= trace
      requires forall d :: d in before ==> !d.GateVerdict?
      requires forall d :: d in trace && d.GateVerdict? ==> d in judged
      requires rca == None ==> failures == []
      requires rca.Some? ==> forall f :: f in failures <==> Fails(rca.value, ledger, f)
      requires rca.Some? ==> (failures == [] <==> Passes(rca.value, ledger))
      requires rca.Some? ==> (failures == [] <==> Cited(rca.value, ledger))
      ensures Verdict(failures)
    {
      hide Ended, Fails, Passes, Cited;
      var verdict := GateVerdict(failures, rca, Confidence(rca, failures));
      assert judged[|before|] == verdict && trace[|before|] == verdict;
      forall d | d in trace && d.GateVerdict? ensures d == verdict {
        assert d in judged && d !in before;
      }
    }

    lemma ReportedWell(before: seq<Detail>, judged: seq<Detail>, failures: seq<GateFailure>, end: RunEnd)
      requires judged == before + [GateVerdict(failures, rca, Confidence(rca, failures))]
      requires trace == judged + Closing(end)
      ensures ReportedIn(failures, end)
    {
      assert trace[|before|..] == [GateVerdict(failures, rca, Confidence(rca, failures))] + Closing(end);
    }

    // Closes the investigation and comments the RCA on the ticket.
    method Report() returns (end: RunEnd)
      requires Valid() && Walk(trace) == Some(Judged)
      modifies this`trace, trail
      ensures DiskOk() ==> end == if world.commentOk then Completed else TicketFailed
      ensures Valid() && old(trace) <= trace
      ensures end == Completed <==> Walk(trace) == Some(Over)
      ensures end == TicketFailed ==> Walk(trace) == Some(Finished)
      ensures end != AuditFailed ==> trace == old(trace) + Closing(end)
      ensures forall d :: d in trace && d.GateVerdict? ==> d in old(trace)
      ensures end == Completed ==> world.commentOk
    {
      hide Walk, LedgerOf, Project, DiskOk;
      var ok := AuditStep(InvestigationFinished(stopped, steps, tokens));
      if !ok {
        return AuditFailed;
      }
      if !world.commentOk {
        return TicketFailed;
      }
      ok := AuditStep(TicketCommented(ticket, true));
      return if ok then Completed else AuditFailed;
    }
  }

  datatype RunEnd = Completed | AuditFailed | TicketFailed

  // confidence: the RCA's level after Gate 1, low without an answer or when any
  // check fails.
  function Confidence(rca: Option<RCA>, failures: seq<GateFailure>): string {
    if rca == None || failures != [] then "low" else rca.value.level
  }
}
