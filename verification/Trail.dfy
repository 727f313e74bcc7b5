/**
 The audit log as its writers see it: a growing sequence of events, shared with
 everything else that audits. An append either lands or fails; module AuditLog
 has the file behind it.
 */
module Trail {
  import opened Evidence
  import opened Gate
  import opened JsonString
  import opened Llm
  import opened Triage
  import opened Wrappers

  datatype QueryOutcome = QueryOk | ToolError | LinkError

  datatype Stop = Running | StepBudget | TokenBudget | TimeBudget | RequestFailed | RcaSubmitted

  datatype Detail =
    | SignalReceived(key: Text, startsAt: int)
    | TriageDecision(kind: Kind, key: Text, startsAt: int)
    | SignalDropped
    | TicketCreated(ticket: string)
    | TicketCommented(ticket: string, rca: bool)
    | InvestigationSkipped
    | InvestigationStarted
    | LlmRequest(step: int)
    | LlmError(step: int)
    | LlmResponse(step: int, toolCalls: seq<ToolCall>)
    | EvidenceQuery(ref: Ref, tool: string, outcome: QueryOutcome)
    | GateVerdict(failures: seq<GateFailure>, verdictOn: Option<RCA>, confidence: string)
    | InvestigationFinished(stopped: Stop, steps: int, tokens: int)
    | OtherEvent(text: string)

  // `incident` is 0 when the event belongs to no Incident.
  datatype Event = Event(incident: int, detail: Detail)

  // The fate of one append, and what others appended just before it.
  datatype Write = Write(others: seq<Event>, ok: bool)

  class Trail {
    const disk: nat -> Write
    var log: seq<Event>
    var attempts: nat

    // The log so far, which another process may have written.
    constructor (disk: nat -> Write, log: seq<Event>)
      ensures this.disk == disk && this.log == log && attempts == 0
    {
      this.disk, this.log, attempts := disk, log, 0;
    }

    method Append(e: Event) returns (ok: bool)
      modifies this
      ensures attempts == old(attempts) + 1
      ensures ok == disk(old(attempts)).ok
      ensures log == old(log) + disk(old(attempts)).others + (if ok then [e] else [])
    {
      var w := disk(attempts);
      attempts := attempts + 1;
      log := log + w.others;
      ok := w.ok;
      if ok {
        log := log + [e];
      }
    }
  }
}
