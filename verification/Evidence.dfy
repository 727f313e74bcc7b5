/** Evidence queries, refs, and the ledger of an investigation's queries
    (internal/evidence, internal/controlplane/investigate.go). */
module Evidence {
  import opened JsonString
  import opened Signals

  datatype Window = Window(start: int, end: int)

  // One read-only question about a Target.
  datatype Query = Query(tool: string, target: Target, window: Window)

  // A Query on its way to a Sensor.
  datatype Call = Call(id: string, query: Query)

  // What a Sensor answers: the data, unless the error says otherwise.
  datatype Answer = Answer(data: Text, error: Text)

  // An Evidence ref: one call, and what it read. Its location is its target's.
  datatype Ref = Ref(callId: string, target: Target, window: Window)

  // One Evidence query that an investigation made.
  datatype LedgerEntry = LedgerEntry(ref: Ref, tool: string, ok: bool)

  // The call that a ref names.
  function CallOf(ref: Ref, tool: string): Call {
    Call(ref.callId, Query(tool, ref.target, ref.window))
  }
}
