# Incident Copilot: from Signal to RCA

A Dafny model of the Control plane's path from an incoming alert to a root-cause
analysis, with the Sensor link that carries its Evidence queries and the audit
log that records it. `dafny verify dfyconfig.toml` checks all of it.

| file | what it models |
|---|---|
| `AuditLog.dfy` | the hash-chained log: `Open`, `Append`, `verify`, and the log's health over any run |
| `JsonString.dfy`, `Bounds.dfy` | UTF-8, JSON strings, the ingest bounds on a Signal, and how much they keep |
| `Locations.dfy` | the `IC_LOCATIONS` parser and its inverse |
| `Signals.dfy`, `Triage.dfy`, `Store.dfy`, `Ingest.dfy` | the triage decision, the two tables and their transactions, and the sequencing of store, ticket and audit |
| `Evidence.dfy`, `Llm.dfy`, `Gate.dfy`, `Grounding.dfy`, `Trail.dfy`, `Investigation.dfy` | the RCA loop against an arbitrary model, its audit trace and ledger, Gate 1, and what passing Gate 1 means |
| `Hub.dfy`, `LinkProtocol.dfy`, `Delivery.dfy`, `Link.dfy` | the Sensor link: the hub's locked sections as methods, every interleaving as a transition system with what it never and what it always does, and the running hub that takes each of its steps |
| `Sensor.dfy`, `EndToEnd.dfy` | the Sensor's side and its replies on the wire, and an investigation's queries from the model's context to the Sensor's tools |

Code that changes state is a class or a method proved against a specification
function or predicate; the properties of whole runs are lemmas about those
specifications. Everything outside (model, Sensors, ticketing, audit disk, SQL
failures, JSON decoding, target mapping, digest) is an arbitrary parameter, so a
contract holds for all of its behaviours. Writers other than the one under study
may put any entries of their own into the shared log at any point.

## What the proofs found

- **A failed append can break the audit chain.** If the write lands and the sync
  fails, memory stays one entry behind the file, and the next line that lands
  repeats a sequence number. A short write leaves a line without its newline: an
  unreadable one breaks the file at once, and a whole one breaks it at the next
  append, even after the file was opened again, because both end up on one line.
  A line of 16 MiB or more is written, and cannot be read back.
  `FailedAppendsBreakTheChain` has a run of each kind; `WhenTheChainBreaks` says
  exactly which runs break it.
- **The ingest bound can keep less than fits.** The comment on `Bound` promises as
  much of an oversized raw as fits. `KeptIsBest` says that this holds if and only if
  no step of the proportional shrink overshoots, and `EvenTextFillsTheBound` gives a
  condition without the steps: escapes are no denser after the part that fits than
  within it. `ShrinkCanKeepTooLittle` is an alert for which it fails: 60484 bytes
  are kept where 62798 would fit. What the code always guarantees is a valid JSON
  string of at most 64 KiB that keeps at least 10919 bytes of valid UTF-8.
- **Gate 1 accepts claims that only cite each other.** `PassingIsNotEnough` is an
  RCA of two such claims. `RestsExactlyWhenAcyclic` says that the claims of a
  passing RCA all rest on successful queries if and only if no inferred claim
  cites itself, directly or through others.
- **A Sensor's limit does not guarantee that its answer is heard.** It bounds the
  data before encoding, while the hub bounds the encoded reply, and the error text
  is not bounded at all. `WhenHeard` says exactly when an answer is heard, and
  `MarshalledDataIsHeard` that data is when nothing in it has to be escaped;
  `DataWithinTheLimitCanBeRefused` is data that is not.
- **A tool error with an empty message reads as a success.** `EmptyErrorIsEvidence`
  follows it: it is audited as a success, shown as data, and an RCA that rests on it
  passes Gate 1.

## Model

| member | source | states |
|---|---|---|
| AuditLog.Verify | internal/audit/audit.go:91-115 | accepts exactly the chains, returns their last entry, and otherwise names the first line that does not follow and why |
| AuditLog.AcceptedExtend | internal/audit/audit.go:91-115 | a line may be added to a chain exactly when it follows its last entry and its hash is right |
| AuditLog.PrefixAccepted | internal/audit/audit.go:91-115 | every prefix of an accepted log is accepted |
| AuditLog.Numbered | internal/audit/audit.go:97-110 | the entries of an accepted log are numbered 1, 2, 3 and so on, each names the hash before it, the first none, and carries the digest of the rest of itself |
| AuditLog.OnlyPrefixesSurvive | internal/audit/audit.go:83-115 | an accepted log made only of lines of another accepted log is a prefix of it: removing, repeating or reordering lines is always noticed |
| AuditLog.SameHashSameHistory | internal/audit/audit.go:91-124 | two accepted logs that contain one hash anywhere have it at the same position and agree up to it, or there are two different entries with one digest |
| AuditLog.Log.Open | internal/audit/audit.go:41-52 | opens exactly the files that verify and remembers the number and hash of the last entry |
| AuditLog.Log.Append | internal/audit/audit.go:55-78 | one signed line, as far as it was written, and memory moves on only when all of it is on disk |
| AuditLog.StepKeepsHealth | internal/audit/audit.go:41-78 | each Append or reopening moves the log between sound, ahead and broken, with or without a final newline, as its I/O outcome says |
| AuditLog.OutcomesDecideHealth | internal/audit/audit.go:39-115 | over any sequence of Append, Close and Open the I/O outcomes alone decide whether the file verifies and whether Open recovers what memory holds |
| AuditLog.WhenTheChainBreaks | internal/audit/audit.go:65-114 | the file stops verifying exactly when an append leaves anything unreadable, or writes anything after a line without newline, or after a line whose append failed with no reopening since; memory agrees with the file exactly when no such line is newer than the last reopening |
| AuditLog.FailedAppendsBreakTheChain | internal/audit/audit.go:67-76 | the three kinds of failing run, on an empty log: failed sync, short write of all but the newline, shorter write |
| AuditLog.FileHoldsLandedEvents | internal/audit/audit.go:55-78 | while it verifies, the file holds exactly the events whose line landed, in order, after what was there |
| JsonString.UnquotedQuoted | internal/signal/signal.go:76 | the JSON string of a text is at most six times as long plus two quotes, and reading it back gives the text with each invalid byte replaced, so the text itself when it is valid UTF-8 |
| Bounds.Cut | internal/signal/signal.go:107-114 | the prefix up to the last rune start at or before byte n |
| Bounds.CutKeepsUtf8 | internal/signal/signal.go:107-114 | a cut of valid UTF-8 is valid UTF-8 and loses at most three bytes more than asked |
| Bounds.CutValues | internal/signal/signal.go:88-105 | the keys stay; every value up to 4096 bytes stays and every other keeps its longest prefix of at most 4096 bytes that ends at a rune start, for valid UTF-8 at least 4093 bytes; the flag says exactly whether one was too long |
| Bounds.ShrinkStep | internal/signal/signal.go:81 | the proportional step strictly lowers the cut point and never below 10922 |
| Bounds.BoundRaw | internal/signal/signal.go:73-84 | terminates with at most 64 KiB that decode to a prefix of raw, of valid UTF-8 at least 10919 bytes |
| Bounds.Bound | internal/signal/signal.go:62-86 | the name and every label and annotation are cut in that way and no further, raw is kept or becomes the JSON string of its kept part, nothing else changes, and the flag is set exactly when labels, annotations or raw changed |
| Bounds.BestIsLongest | internal/signal/signal.go:63-64 | `Best` is as much of raw as fits: the longest prefix that ends at a rune start and whose JSON string is within 64 KiB |
| Bounds.KeptIsBest | internal/signal/signal.go:63-83 | the shrink never keeps more than fits, and keeps as much as fits if and only if none of its steps overshoots |
| Bounds.EvenTextFillsTheBound | internal/signal/signal.go:63-83 | it keeps as much as fits whenever escapes are no denser after the part that fits than within it |
| Bounds.UniformTextFillsTheBound | internal/signal/signal.go:63-83 | of text whose bytes all cost the same, such as all plain or all quotes, exactly the bytes that fit are kept |
| Bounds.AlertPrinted | internal/alertmanager/alertmanager.go:45-64 | the failing raw is the JSON text of an alert |
| Bounds.ShrinkCanKeepTooLittle | internal/signal/signal.go:63-83 | an alert of which 60484 bytes are kept while 62798 would fit, because the first step overshoots |
| Locations.ParseLocations | internal/controlplane/config.go:123-144 | accepts exactly the printed lists with distinct names and non-empty fields; the text is then the entries name:environment:token of the result, with commas between; otherwise names the first bad entry or the repeated name |
| Locations.EntryRoundTrip | internal/controlplane/config.go:131-141 | an entry parses to a Location exactly when the Location is well formed and prints as the entry |
| Locations.PrintAllInjective | internal/controlplane/config.go:123-144 | a text describes at most one list |
| Locations.JoinSplit | internal/controlplane/config.go:131 | joining the pieces of a split text gives the text |
| Locations.SplitJoin | internal/controlplane/config.go:131 | splitting joined pieces without separators gives the pieces |
| Triage.Triage | internal/triage/triage.go:52-96 | exactly one decision fits the open Incidents and the Signal, and it is the one returned; field by field, a new member is the Signal's, a repeat changes only last-seen, and the Incident is the one that shares the target, or the key without one |
| Store.Store.OpenIncidents | internal/store/store.go:60-110 | every Incident row in id order, field by field, with exactly its own members and each episode once |
| Store.LoadedEpisodesDistinct | internal/store/store.go:26-38 | the members loaded for one Incident are different episodes |
| Store.UpsertConflict | internal/store/store.go:150-154 | an upsert of a held episode changes only that row's last-seen |
| Store.UpsertNew | internal/store/store.go:150-154 | an upsert of a new episode adds one row |
| Store.Store.Save | internal/store/store.go:130-159 | the transaction holds the saved Incident with every member, under a new id when it had none; without a failing statement it succeeds |
| Store.SavingAJoin | internal/store/store.go:149-157 | writing back all members of a joined Incident adds only the new one |
| Store.SavingARepeat | internal/store/store.go:149-157 | writing back all members after a repeat changes only the touched row's last-seen |
| Ingest.DecisionEffect | internal/controlplane/controlplane.go:134-157 | loading, triage and Save together: a decision has exactly the effect on the tables that its kind promises, in whatever order members are loaded |
| Ingest.KindIsInTheTables | internal/triage/triage.go:70-88 | a repeat exactly when the identity holds the episode, which is exactly when the upsert conflicts; a new Incident exactly when the identity has none |
| Ingest.EffectHolds | internal/store/store.go:130-159 | a decision adds exactly the Signal's episode to the identity-to-episodes relation |
| Ingest.EffectIsStored | internal/store/store.go:130-165 | row by row: the Signal's Incident is there, new only when none shared its target or key; its episode is a member made from the Signal's fields, or the one that was there with a new last-seen; no other row changes |
| Ingest.EffectKeepsOnePerIdentity | internal/triage/triage.go:52-53 | at most one Incident per Target, or per key without one, keys distinct, foreign keys met, no Incident without a member |
| Ingest.Server.AuditDecision | internal/controlplane/controlplane.go:200-205 | the Signal and then the decision on it are audited |
| Ingest.Server.OpenTicket | internal/controlplane/controlplane.go:163-174 | success means that the one ticket created is set in the transaction and audited after the decision |
| Ingest.Server.Transact | internal/controlplane/controlplane.go:147-197 | stored whole or not at all: any failure of a store, ticket or audit call leaves the tables and launches as they were; success commits the decision, audited and ticketed first, and launches one investigation for a new Incident; no transaction stays open |
| Ingest.Server.Ingest | internal/controlplane/controlplane.go:129-198 | whatever fails, the state stays consistent and the tables change only on success, then to exactly what the Signal's fields say, with the created ticket on a new Incident; nothing fails unless something outside does |
| Ingest.IngestKeepsConsistent | internal/controlplane/controlplane.go:129-198 | a call keeps the consistent state and adds its episode exactly when it succeeds on a firing Signal |
| Ingest.RunKeepsConsistent | internal/controlplane/controlplane.go:129-198 | over any run with any failures and restarts: no two Incidents share a target or, without one, a key; each ticket reference created and audited after the decision to open, one investigation per Incident opened since the last start, and exactly the episodes of the successful calls, whatever their order |
| Ingest.RetriesConverge | internal/controlplane/controlplane.go:120-124 | however many attempts at a batch failed part way, once every Signal got through the episodes are those of one clean attempt |
| Ingest.Server.TakeAlert | internal/controlplane/controlplane.go:109-120 | an alert that cannot be mapped is audited as dropped; of a firing one the store keeps its Signal within the bounds, under the Target of its bounded labels |
| Ingest.Server.Intake | internal/controlplane/controlplane.go:108-125 | a batch is worked through until a failure; success means that every alert was audited as dropped or is in the committed store, failure that exactly those before it are |
| Gate.Gate1 | internal/controlplane/rca.go:41-104 | reports exactly the failures there are, and none exactly when the claims under summary and confidence are well cited |
| Gate.NoFailureIsPassing | internal/controlplane/rca.go:64-103 | no failure exactly when claims with equal ids are identical, every claim has a known kind and well-founded citations, and the level is known |
| Gate.PassingIsCited | internal/controlplane/rca.go:44-103 | the same of the RCA itself: over summary and confidence, one id is one claim; every claim cites something and is observed or inferred; observed citations name queries whose last ledger entry succeeded, inferred ones another claim of either list; the level is low, medium or high |
| Gate.VerdictIgnoresOrder | internal/controlplane/rca.go:52-76 | reordering, repeating or moving claims between summary and confidence does not change the verdict |
| Gate.FailsWithinNext | internal/controlplane/rca.go:65-97 | what one more claim adds to the failures |
| Grounding.EveryPathEndsOrRevisits | internal/controlplane/rca.go:78-93 | in a passing RCA a citation path ends at a claim resting on successful queries or continues, and returns to a claim once longer than the number of claims |
| Grounding.UngroundedPath | internal/controlplane/rca.go:78-93 | a claim not grounded within n citations starts a citation path of n + 2 claims |
| Grounding.RestsExactlyWhenAcyclic | internal/controlplane/rca.go:41-104 | in a passing RCA all claims rest on successful queries if and only if the citations of inferred claims are acyclic |
| Grounding.PassingIsNotEnough | internal/controlplane/rca.go:88-92 | two claims that cite each other pass and rest on nothing |
| Llm.ConversationGrows | internal/controlplane/investigate.go:197-210 | a whole round after a well-formed conversation leaves it well formed |
| Investigation.WalkNumbersRequests | internal/controlplane/investigate.go:172-178 | in a trace of the right order requests are numbered from 1, and every beginning of it is of the right order |
| Investigation.CitedEvidenceIsAudited | internal/controlplane/investigate.go:98-105 | trace, ledger and Gate 1 together: a ref cited by an observed claim of a passing RCA names an audited successful query under this Incident about its own target |
| Investigation.Investigation.Query | internal/controlplane/evidence.go:46-82 | the call carries the ref's id, tool, target and last hour to the target's Location; its audit entry says whether the link failed, the tool did, or neither, and its answer is returned only once that entry is written |
| Investigation.Investigation.ToolResult | internal/controlplane/investigate.go:216-244 | one query per Evidence tool call, one new ledger entry for it, and a reply with that entry's own ref and its own answer; the fitting reply to every other call; the last readable RCA wins |
| Investigation.Investigation.AnswerCalls | internal/controlplane/investigate.go:204-210 | one fitting Tool message per call, in order and under its id, and what they show is exactly what the ledger gained, in order |
| Investigation.Investigation.Ask | internal/controlplane/investigate.go:172-194 | one request, sent only after its entry is written, within both budgets, then its response or error audited |
| Investigation.Investigation.Continue | internal/controlplane/investigate.go:197-210 | the conversation goes on with the replies to the calls, or one nudge when there is none, and has then shown exactly the whole ledger |
| Investigation.Investigation.Loop | internal/controlplane/investigate.go:154-214 | terminates for every model; every request is a well-formed continuation that quotes the model, and what it shows of Evidence is the ledger so far, in order, each ref with its own answer; token count is the sum of reported usages; exactly why it ended, and an RCA exactly when the model submitted one |
| Investigation.Investigation.Report | internal/controlplane/investigate.go:142-151 | the last entries, and that the ticket comment is audited only after it was made |
| Investigation.Investigation.PassingIsAudited | internal/controlplane/investigate.go:98-139 | a clean verdict means that every ref an observed claim cites is in the audit log |
| Investigation.Investigation.Run | internal/controlplane/investigate.go:117-152 | the whole investigation: its entries in the shared log are always a beginning of the expected order; the verdict is exact; the confidence audited with it is the RCA's level if nothing fails and low otherwise, so any other level belongs to a well-cited RCA; a clean verdict means audited evidence, and only audit or ticket failures are returned |
| Hub.Hub.Sweep | internal/link/hub.go:90-105 | marks and audits only Locations whose last poll is 30 s old, all of them unless an audit write fails |
| Hub.Hub.Polled | internal/link/hub.go:193-206 | the flag is raised only together with its audit entry, and a poll counts only then |
| Link.Link.Execute | internal/link/hub.go:91-254 | whatever step comes next, the running hub takes it through its own locked sections exactly as the transition system says, and keeps its invariant |
| LinkProtocol.StepKeeps | internal/link/hub.go:116-254 | every atomic step keeps the invariant of calls, queues, replies and polls |
| LinkProtocol.AnswersAreGenuine | internal/link/hub.go:116-147 | in every interleaving a call takes out at most one answer, the first that went in, posted to its Location's endpoint with its token, for this call, after it was registered |
| LinkProtocol.PollsAreAdmitted | internal/link/hub.go:157-165 | every poll that is held, checks a call or was answered with one came in over that Location's endpoint with its token |
| LinkProtocol.HandedOutOnce | internal/link/hub.go:157-191 | a call is handed to at most one poll, which came in with its own Location's token, only while its caller is registered, and what is handed out is what was registered |
| LinkProtocol.CheckGives | internal/link/hub.go:170-175 | a checked call answers the poll exactly while its caller is registered, and otherwise the poll waits on |
| Delivery.RegisteredWhileOnline | internal/link/hub.go:117-129 | a call is registered only while its Location is online |
| Delivery.SixteenAreQueued | internal/link/hub.go:136-140 | a call waits to be queued exactly while 16 others are, and is queued last |
| Delivery.RepliesAreDelivered | internal/link/hub.go:141-146 | a reply with the Location's token while the call is registered, and the first sent on, is the first accepted; the waiting caller that next takes its answer gets exactly that reply, whatever happens in between |
| Delivery.GivingUpReturns | internal/link/hub.go:130-146 | a caller that gives up at either wait returns without an answer and is no longer registered |
| Delivery.ReturnedIsFinal | internal/link/hub.go:130-147 | nothing reaches a caller that has returned |
| Delivery.RefusedRequestsChangeNothing | internal/link/hub.go:235-254 | a poll or reply for an unknown Location or without its token is audited as refused and changes nothing |
| Delivery.LateRepliesAreDropped | internal/link/hub.go:218-227 | a reply to a call that is not registered there is audited as dropped and changes nothing |
| Delivery.EndedPollsStayEnded | internal/link/hub.go:176-182 | a poll whose hold runs out is handed nothing later |
| Delivery.RoundTrip | internal/link/hub.go:115-233 | from any state: poll, call, queue, hand-out, reply and answer together give the caller what the Location replied to the call it was handed, and leave nothing pending or queued |
| LinkProtocol.StagesMoveOn | internal/link/hub.go:136-184 | a call stays the call that was registered, query included, and never goes back from handed out, taken or queued |
| LinkProtocol.PlaceMovesUp | internal/link/hub.go:168-173 | each dequeue moves a queued call one place up, and nothing else moves it |
| LinkProtocol.QueuedCallsAreServed | internal/link/hub.go:128-184 | a queued call has at most 15 before it, keeps its place less the dequeues since, and is taken by the 16th |
| LinkProtocol.FlagIsLastEvent | internal/link/hub.go:91-105 | a Location's audited link events alternate, starting with online, and its flag is the last of them, even when audit writes fail |
| LinkProtocol.TimelyStaysOnline | internal/link/hub.go:25-32 | a Location whose polls and sweeps leave its last poll under 30 s old stays online, and nothing is audited about it |
| LinkProtocol.CompleteSweepMarksStale | internal/link/hub.go:90-105 | a sweep without audit failure leaves online exactly the Locations polled within 30 s, and audits the others once |
| LinkProtocol.ConfigurationStays | internal/link/hub.go:59-70 | no step adds or removes a Location or changes a token |
| Sensor.Run | internal/sensor/sensor.go:89-102 | data is within 1 MiB and never beside an error; the answer carries no error exactly when the tool ran and its data fits, or failed with an empty message |
| Sensor.WhenHeard | internal/link/hub.go:213-217 | exactly when an answer is heard: encoded data leaves room for nine bytes of envelope within 1 MiB + 1 KiB, or the escaped error for twelve |
| Sensor.MarshalledDataIsHeard | internal/link/hub.go:32 | data within the Sensor's limit is heard when nothing in it has to be escaped |
| Sensor.CompactingOnlySqueezes | internal/link/client.go:63-64 | without anything to escape, the wire takes nothing from the data but white space |
| Sensor.DataWithinTheLimitCanBeRefused | internal/sensor/sensor.go:98-101 | data within the Sensor's limit that the hub refuses |
| Sensor.HandedIsAsked | internal/link/hub.go:168-175 | the call that a poll brought is the one its caller registered for this Location, query included, before that |
| Sensor.HonestSensorIsHeard | internal/sensor/sensor.go:81-102 | when the holder of a Location's token is a Sensor that answers what its polls bring by running it, an answer that a call returns is its tool's result on the caller's own query, run after the call was registered |
| EndToEnd.RequestsShowTheSensors | internal/controlplane/evidence.go:58-81 | data that any request shows the model under a ref was made by a tool of the Sensor at that ref's Location for that ref's target and window, or a tool failed there with no message |
| EndToEnd.EmptyErrorIsEvidence | internal/controlplane/evidence.go:66-81 | a tool that fails with an empty message is audited as a success, shown as data, and citable past Gate 1 |

## Left out

Stated weaker than the code, or under an assumption:

- Gate.Gate1: which failures are reported, not their order, how often one is repeated, or their wording.
- AuditLog.Verify: lines arrive parsed, so JSON and time formatting are not modelled, and SHA-256 of an entry is an arbitrary function of it.
- Bounds.BoundRaw: integers are unbounded; `n * MaxRaw` would overflow a 32-bit int.
- Store.Store.OpenIncidents: the text order of `first_seen` is an arbitrary rearrangement, since RFC 3339 text order is not time order; members are compared as episodes, not by position. JSON and time columns are read back as written.
- Ingest.Server.Ingest: a commit that reports failure stores nothing.
- Ingest.RunKeepsConsistent: `Create` may succeed before a later failure, so tickets nobody refers to may exist; claims are about the committed reference.
- Ingest.Server.Transact: an investigator is configured; without one nothing is launched.
- Ingest.Server.Intake: starts after authentication, the body limit, splitting and the entry for truncated alerts; the target mapping is an arbitrary function of the bounded labels.
- Investigation.Investigation.Query: only the query that the loop makes, which names no window; digests in the audit entry are not modelled.
- Investigation.Investigation.Run: no one else writes this Incident's investigation entries, which holds because each Incident is launched once; audit appends land or fail as a whole, and the time budget is a failed request that reports a deadline.
- LinkProtocol.AnswersAreGenuine: call ids are fresh, as `rand.Text` makes them, and authentication is one step with the locked section after it, which is the same because tokens never change.
- LinkProtocol.QueuedCallsAreServed: says how many dequeues it takes, not that a Sensor polls.
- Sensor.WhenHeard: tools return JSON, as `json.Marshal` requires; what the hub decodes is the compacted data and the error with invalid bytes replaced.
- EndToEnd.RequestsShowTheSensors: assumes that what the loop's queries got is what their calls returned in some run of the link.

Not modelled:

- HTTP, TLS, routing, headers and the link client's retries; a request is its outcome.
- Constant-time comparison and the truncation of refused names.
- The Signal's `sourceState`, `severityRaw`, `endsAt` and `receivedAt`, which triage and the store do not read.
- The last-seen times over a run: `now` is read before the lock, so they follow request order only with a clock that does.
- Ticket text, RCA rendering, prompts, `auditMessages` and the list of answering models: formatting.
- The Sensor's polling loop, `Evidence.Locations`, the debug handler and the Kubernetes tools: easy members or calls into client libraries.
- `LoadConfig` beyond the Location list, `cmd`, `internal/demo`, `internal/fault`, `deploy` and `eval`.
- What only the ADRs describe: Executor, Plans, the settle window, resolving Incidents and redaction.
