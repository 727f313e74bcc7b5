/** The source-neutral Signal and its Target (internal/signal). */
module Signals {
  import opened JsonString
  import opened Wrappers

  datatype Target = Target(platform: Text, location: Text, namespace: Text, kind: Text, name: Text)

  datatype SourceRef = SourceRef(kind: Text, instance: Text)

  datatype Status = Firing | Resolved

  datatype Signal = Signal(
    source: SourceRef,
    key: Text,
    name: Text,
    status: Status,
    severity: Text,
    startsAt: int,
    labels: map<Text, Text>,
    annotations: map<Text, Text>,
    link: Text,
    target: Option<Target>,
    raw: Text,
    truncated: bool
  )
}
