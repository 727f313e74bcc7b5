/**
 The link protocol: every interleaving of callers, timeouts, polls, replies and
 sweeps over the hub's locked sections (internal/link/hub.go). A step that is not
 enabled does nothing. Call ids are fresh, as `rand.Text` makes them.
 */
module LinkProtocol {
  import opened Evidence
  import opened Hub
  import opened JsonString
  import opened Wrappers

  // One reply request: the endpoint and token it used, the call it names, and
  // the step at which it found that call registered.
  datatype Post = Post(endpoint: Text, token: string, id: string, answer: Answer, at: nat)

  datatype Pc = Sending | Awaiting | Leaving | Returned

  // Where the call itself is.
  datatype Stage = Unsent | Queued | Taken(poll: nat) | Handed(poll: nat) | Skipped

  // One Call and its reply channel, which holds one answer. `accepted` and
  // `received` record what went into the channel and what the caller took out.
  datatype Caller = Caller(
    location: Text,
    query: Query,
    since: nat,
    pc: Pc,
    stage: Stage,
    chan: Option<Post>,
    accepted: seq<Post>,
    received: seq<Post>)

  // `Gave` is a poll that was answered with a call, `Done` one that ended without.
  datatype Poll =
    | Holding(location: Text)
    | Checking(location: Text, call: Call)
    | Gave(location: Text, call: Call)
    | Done

  datatype Step =
    | Register(location: Text, call: Call)
    | Send(id: string)
    | GiveUp(id: string)
    | TakeAnswer(id: string)
    | Deregister(id: string)
    | ReplyArrives(request: nat, location: Text, token: string, id: string, body: Option<Answer>, auditOk: bool)
    | ReplySends(request: nat)
    | PollArrives(poll: nat, location: Text, token: string, now: int, auditOk: bool)
    | Dequeue(poll: nat)
    | Check(poll: nat)
    | PollEnds(poll: nat)
    | Sweep(now: int, marked: seq<Text>, complete: bool)

  datatype State = State(
    locations: Locations,
    callers: map<string, Caller>,
    requests: map<nat, Post>,      // replies between their lookup and their send
    polls: map<nat, Poll>,
    log: seq<LinkEvent>,
    trace: seq<Step>)              // the steps so far

  // ---- The steps ----

  function WithCaller(s: State, id: string, c: Caller): State {
    s.(callers := s.callers[id := c])
  }

  function OnRegister(s: State, name: Text, call: Call): State {
    if name in s.locations && s.locations[name].online && call.id !in s.callers then
      WithCaller(s, call.id, Caller(name, call.query, |s.trace|, Sending, Unsent, None, [], []))
        .(locations := Registered(s.locations, name, call.id))
    else s
  }

  function OnSend(s: State, id: string): State {
    if Sends(s, id) then
      WithCaller(s, id, s.callers[id].(pc := Awaiting, stage := Queued))
        .(locations := Enqueued(s.locations, s.callers[id].location, Call(id, s.callers[id].query)))
    else s
  }

  function OnGiveUp(s: State, id: string): State {
    if id in s.callers && (s.callers[id].pc == Sending || s.callers[id].pc == Awaiting) then
      WithCaller(s, id, s.callers[id].(pc := Leaving))
    else s
  }

  function OnTakeAnswer(s: State, id: string): State {
    if id in s.callers && s.callers[id].pc == Awaiting && s.callers[id].chan.Some? then
      var c := s.callers[id];
      WithCaller(s, id, c.(pc := Leaving, chan := None, received := c.received + [c.chan.value]))
    else s
  }

  function OnDeregister(s: State, id: string): State {
    if id in s.callers && s.callers[id].pc == Leaving && s.callers[id].location in s.locations then
      WithCaller(s, id, s.callers[id].(pc := Returned))
        .(locations := Deregistered(s.locations, s.callers[id].location, id))
    else s
  }

  function OnReplyArrives(s: State, request: nat, name: Text, token: string, id: string, body: Option<Answer>, auditOk: bool): State {
    if request in s.requests then s
    else if !Known(s.locations, name, token) then
      s.(log := if auditOk then s.log + [LinkRefused(name)] else s.log)
    else if body == None then s // over the limit, or no JSON
    else if id !in s.locations[name].pending then
      s.(log := if auditOk then s.log + [ReplyDropped(name, id)] else s.log)
    else
      s.(requests := s.requests[request := Post(name, token, id, body.value, |s.trace|)])
  }

  function OnReplySends(s: State, request: nat): State {
    if request in s.requests then
      var post := s.requests[request];
      var sent := s.(requests := s.requests - {request});
      if post.id in s.callers && s.callers[post.id].chan == None then
        var c := s.callers[post.id];
        WithCaller(sent, post.id, c.(chan := Some(post), accepted := c.accepted + [post]))
      else sent // already answered
    else s
  }

  function OnPollArrives(s: State, poll: nat, name: Text, token: string, now: int, auditOk: bool): State {
    if poll in s.polls then s
    else if !Known(s.locations, name, token) then
      s.(log := if auditOk then s.log + [LinkRefused(name)] else s.log)
    else if s.locations[name].online || auditOk then
      s.(locations := PolledAt(s.locations, name, now),
         log := if s.locations[name].online then s.log else s.log + [WentOnline(name)],
         polls := s.polls[poll := Holding(name)])
    else s
  }

  function OnDequeue(s: State, poll: nat): State {
    if Dequeues(s, poll) then
      var name := s.polls[poll].location;
      var call := s.locations[name].queue[0];
      var t := s.(locations := Dequeued(s.locations, name), polls := s.polls[poll := Checking(name, call)]);
      if call.id in s.callers then WithCaller(t, call.id, s.callers[call.id].(stage := Taken(poll))) else t
    else s
  }

  function OnCheck(s: State, poll: nat): State {
    if poll in s.polls && s.polls[poll].Checking? && s.polls[poll].location in s.locations && s.polls[poll].call.id in s.callers then
      var name, call := s.polls[poll].location, s.polls[poll].call;
      var id := call.id;
      if id in s.locations[name].pending then
        WithCaller(s, id, s.callers[id].(stage := Handed(poll))).(polls := s.polls[poll := Gave(name, call)])
      else // its caller gave up while it was queued
        WithCaller(s, id, s.callers[id].(stage := Skipped)).(polls := s.polls[poll := Holding(name)])
    else s
  }

  function OnPollEnds(s: State, poll: nat): State {
    if poll in s.polls && s.polls[poll].Holding? then s.(polls := s.polls[poll := Done]) else s
  }

  function OnSweep(s: State, now: int, marked: seq<Text>, complete: bool): State {
    if Sweeps(s.locations, now, marked, complete) then
      s.(locations := Marked(s.locations, marked), log := s.log + Offlines(marked))
    else s
  }

  function After(s: State, step: Step): State {
    match step
    case Register(name, call) => OnRegister(s, name, call)
    case Send(id) => OnSend(s, id)
    case GiveUp(id) => OnGiveUp(s, id)
    case TakeAnswer(id) => OnTakeAnswer(s, id)
    case Deregister(id) => OnDeregister(s, id)
    case ReplyArrives(request, name, token, id, body, auditOk) => OnReplyArrives(s, request, name, token, id, body, auditOk)
    case ReplySends(request) => OnReplySends(s, request)
    case PollArrives(poll, name, token, now, auditOk) => OnPollArrives(s, poll, name, token, now, auditOk)
    case Dequeue(poll) => OnDequeue(s, poll)
    case Check(poll) => OnCheck(s, poll)
    case PollEnds(poll) => OnPollEnds(s, poll)
    case Sweep(now, marked, complete) => OnSweep(s, now, marked, complete)
  }

  function Stamped(s: State, t: State, step: Step): State {
    t.(trace := s.trace + [step])
  }

  function Apply(s: State, step: Step): State {
    Stamped(s, After(s, step), step)
  }

  // The call waits to be queued, and there is room.
  predicate Sends(s: State, id: string) {
    && id in s.callers && s.callers[id].pc == Sending && s.callers[id].location in s.locations
    && |s.locations[s.callers[id].location].queue| < MAX_QUEUED
  }

  // The poll waits, and there is a call.
  predicate Dequeues(s: State, poll: nat) {
    && poll in s.polls && s.polls[poll].Holding?
    && s.polls[poll].location in s.locations && s.locations[s.polls[poll].location].queue != []
  }

  function Run(s: State, steps: seq<Step>): State {
    if steps == [] then s else Apply(Run(s, steps[..|steps| - 1]), steps[|steps| - 1])
  }

  // A hub as NewHub makes it.
  predicate Initial(s: State) {
    && (forall n :: n in s.locations ==> !s.locations[n].online && s.locations[n].queue == [] && s.locations[n].pending == {})
    && s.callers == map[] && s.requests == map[] && s.polls == map[] && s.log == [] && s.trace == []
  }

  // ---- What every interleaving keeps ----

  // `post` came in over the Location's own endpoint, with its own token, for this
  // call, after the call was registered.
  predicate Genuine(s: State, id: string, c: Caller, post: Post) {
    && post.endpoint == c.location && c.location in s.locations && post.token == s.locations[c.location].token
    && post.id == id
    && c.since < post.at < |s.trace|
    && s.trace[post.at].ReplyArrives?
    && s.trace[post.at].location == post.endpoint && s.trace[post.at].token == post.token
    && s.trace[post.at].id == post.id && s.trace[post.at].body == Some(post.answer)
  }

  predicate ChannelOk(c: Caller) {
    && |c.accepted| == |c.received| + (if c.chan.Some? then 1 else 0)
    && |c.received| <= 1
    && (c.received != [] ==> c.received[0] == c.accepted[0])
    && (c.chan.Some? ==> c.chan.value == c.accepted[|c.accepted| - 1])
    && (c.pc == Sending || c.pc == Awaiting ==> c.received == [])
  }

  predicate IsPending(s: State, name: Text, id: string) {
    name in s.locations && id in s.locations[name].pending
  }

  predicate CallerOk(s: State, id: string, c: Caller) {
    && c.location in s.locations
    && c.since < |s.trace| && s.trace[c.since] == Register(c.location, Call(id, c.query))
    && (IsPending(s, c.location, id) <==> c.pc != Returned)
    && ChannelOk(c)
    && (forall post :: post in c.accepted ==> Genuine(s, id, c, post))
    && (c.pc == Sending ==> c.stage == Unsent)
    && (c.stage == Unsent ==> c.pc != Awaiting)
  }

  predicate RequestOk(s: State, post: Post) {
    post.id in s.callers && Genuine(s, post.id, s.callers[post.id], post)
  }

  // `call` is what its caller registered for this Location.
  predicate Names(s: State, call: Call, name: Text) {
    call.id in s.callers && s.callers[call.id].location == name && s.callers[call.id].query == call.query
  }

  predicate InQueue(queue: seq<Call>, id: string) {
    exists i :: 0 <= i < |queue| && queue[i].id == id
  }

  predicate LocationOk(s: State, name: Text, l: Location) {
    && |l.queue| <= MAX_QUEUED
    && (forall id :: id in l.pending ==> id in s.callers && s.callers[id].location == name)
    && (forall i :: 0 <= i < |l.queue| ==>
          Names(s, l.queue[i], name) && s.callers[l.queue[i].id].stage == Queued)
    && (forall i, j :: 0 <= i < j < |l.queue| ==> l.queue[i].id != l.queue[j].id)
  }

  predicate PollOk(s: State, poll: nat, p: Poll) {
    match p
    case Holding(name) => name in s.locations
    case Checking(name, call) => name in s.locations && Names(s, call, name) && s.callers[call.id].stage == Taken(poll)
    case Gave(name, call) => name in s.locations && Names(s, call, name)
    case Done => true
  }

  ghost predicate Invariant(s: State) {
    && (forall id :: id in s.callers ==> CallerOk(s, id, s.callers[id]))
    && (forall r :: r in s.requests ==> RequestOk(s, s.requests[r]))
    && (forall n :: n in s.locations ==> LocationOk(s, n, s.locations[n]))
    && (forall p :: p in s.polls ==> PollOk(s, p, s.polls[p]))
  }

  // ---- Framing ----

  // `t` is later than `s`: more steps, the same configuration.
  predicate Later(s: State, t: State) {
    && s.trace <= t.trace && t.locations.Keys == s.locations.Keys
    && forall n :: n in s.locations ==> t.locations[n].token == s.locations[n].token
  }

  // The same call, further on.
  predicate SameCall(c: Caller, d: Caller) {
    d.location == c.location && d.query == c.query && d.since == c.since
  }

  lemma GenuineStays(s: State, t: State, id: string, c: Caller, d: Caller, post: Post)
    requires Genuine(s, id, c, post) && Later(s, t) && SameCall(c, d)
    ensures Genuine(t, id, d, post)
  {
  }

  // Nothing about a caller changes but, perhaps, the world around it.
  lemma CallerStays(s: State, t: State, id: string, c: Caller)
    requires CallerOk(s, id, c) && Later(s, t)
    requires IsPending(t, c.location, id) <==> IsPending(s, c.location, id)
    ensures CallerOk(t, id, c)
  {
    hide Genuine, ChannelOk;
    forall post | post in c.accepted ensures Genuine(t, id, c, post) {
      GenuineStays(s, t, id, c, c, post);
    }
  }

  // A step that moves at most the one call `id`.
  predicate Moves(s: State, t: State, id: string) {
    && Later(s, t)
    && (forall k :: k in s.callers ==> k in t.callers && SameCall(s.callers[k], t.callers[k]))
    && (forall k :: k in t.callers && k != id ==>
          && k in s.callers && t.callers[k] == s.callers[k]
          && (IsPending(t, t.callers[k].location, k) <==> IsPending(s, t.callers[k].location, k)))
  }

  lemma CallersStay(s: State, t: State, id: string)
    requires Invariant(s) && Moves(s, t, id)
    requires id in t.callers ==> CallerOk(t, id, t.callers[id])
    ensures forall k :: k in t.callers ==> CallerOk(t, k, t.callers[k])
  {
    hide LocationOk, PollOk, RequestOk, CallerOk;
    forall k | k in t.callers && k != id ensures CallerOk(t, k, t.callers[k]) {
      CallerStays(s, t, k, s.callers[k]);
    }
  }

  lemma RequestStays(s: State, t: State, id: string, post: Post)
    requires RequestOk(s, post) && Moves(s, t, id)
    ensures RequestOk(t, post)
  {
    GenuineStays(s, t, post.id, s.callers[post.id], t.callers[post.id], post);
  }

  // No call is queued, taken or handed out.
  predicate StagesKept(s: State, t: State) {
    && t.locations.Keys == s.locations.Keys
    && (forall k :: k in s.callers ==>
          k in t.callers && t.callers[k].location == s.callers[k].location && t.callers[k].query == s.callers[k].query
          && t.callers[k].stage == s.callers[k].stage)
    && (forall n :: n in s.locations ==> t.locations[n].queue == s.locations[n].queue)
  }

  // Every id registered with a Location is a call for it.
  ghost predicate PendingOk(t: State) {
    forall n, k :: IsPending(t, n, k) ==> k in t.callers && t.callers[k].location == n
  }

  // Polls may start, go on, and end.
  predicate PollsGoOn(s: State, t: State) {
    forall p :: p in t.polls ==>
      || (p in s.polls && t.polls[p] == s.polls[p])
      || t.polls[p] == Poll.Done
      || (t.polls[p].Holding? && t.polls[p].location in t.locations)
  }

  lemma LocationsStay(s: State, t: State, n: Text)
    requires n in s.locations && LocationOk(s, n, s.locations[n]) && StagesKept(s, t) && PendingOk(t)
    ensures LocationOk(t, n, t.locations[n])
  {
    forall id | id in t.locations[n].pending ensures id in t.callers && t.callers[id].location == n {
      assert IsPending(t, n, id);
    }
  }

  lemma PollsStay(s: State, t: State, p: nat)
    requires p in t.polls && (p in s.polls ==> PollOk(s, p, s.polls[p])) && StagesKept(s, t) && PollsGoOn(s, t)
    ensures PollOk(t, p, t.polls[p])
  {
  }

  lemma RequestsStay(s: State, t: State, id: string)
    requires Invariant(s) && Moves(s, t, id)
    requires forall r :: r in t.requests ==> (r in s.requests && t.requests[r] == s.requests[r]) || RequestOk(t, t.requests[r])
    ensures forall r :: r in t.requests ==> RequestOk(t, t.requests[r])
  {
    hide RequestOk, Moves, CallerOk, LocationOk, PollOk;
    forall r | r in t.requests ensures RequestOk(t, t.requests[r]) {
      if r in s.requests && t.requests[r] == s.requests[r] {
        RequestStays(s, t, id, s.requests[r]);
      }
    }
  }

  // A step that moves at most the call `id`, and not through the queue.
  lemma QuietStep(s: State, t: State, id: string)
    requires Invariant(s) && Moves(s, t, id) && StagesKept(s, t) && PendingOk(t) && PollsGoOn(s, t)
    requires id in t.callers ==> CallerOk(t, id, t.callers[id])
    requires forall r :: r in t.requests ==> (r in s.requests && t.requests[r] == s.requests[r]) || RequestOk(t, t.requests[r])
    ensures Invariant(t)
  {
    hide LocationOk, PollOk, RequestOk, CallerOk, Moves, PendingOk, PollsGoOn;
    CallersStay(s, t, id);
    RequestsStay(s, t, id);
    forall n | n in t.locations ensures LocationOk(t, n, t.locations[n]) {
      LocationsStay(s, t, n);
    }
    forall p | p in t.polls ensures PollOk(t, p, t.polls[p]) {
      PollsStay(s, t, p);
    }
  }

  lemma PendingHolds(s: State)
    requires Invariant(s)
    ensures PendingOk(s)
  {
    hide CallerOk, RequestOk, PollOk;
    forall n, k | IsPending(s, n, k) ensures k in s.callers && s.callers[k].location == n {
      assert LocationOk(s, n, s.locations[n]);
    }
  }

  // ---- The steps keep the invariant ----

  // At most the log, the liveness flags and the polls change.
  predicate IdleFrame(s: State, t: State) {
    && Later(s, t) && t.callers == s.callers && t.requests == s.requests && PollsGoOn(s, t)
    && forall n :: n in s.locations ==>
         t.locations[n].queue == s.locations[n].queue && t.locations[n].pending == s.locations[n].pending
  }

  lemma IdleKeepsCallers(s: State, t: State, id: string)
    requires Invariant(s) && IdleFrame(s, t) && id in s.callers
    ensures CallerOk(t, id, t.callers[id])
  {
    hide Genuine, LocationOk, PollOk, RequestOk, CallerOk, Invariant;
    SomeCallerOk(s, id);
    CallerStays(s, t, id, s.callers[id]);
  }

  lemma IdleKeepsPending(s: State, t: State)
    requires Invariant(s) && IdleFrame(s, t)
    ensures PendingOk(t)
  {
    hide Invariant;
    PendingHolds(s);
    forall n, k | IsPending(t, n, k) ensures k in t.callers && t.callers[k].location == n {
      assert IsPending(s, n, k);
    }
  }

  lemma Idle(s: State, t: State)
    requires Invariant(s) && IdleFrame(s, t)
    ensures Invariant(t)
  {
    hide LocationOk, PollOk, RequestOk, CallerOk, Invariant, PendingOk;
    if "" in s.callers {
      IdleKeepsCallers(s, t, "");
    }
    IdleKeepsPending(s, t);
    QuietStep(s, t, "");
  }

  lemma NothingHappened(s: State, step: Step)
    requires Invariant(s)
    ensures Invariant(Stamped(s, s, step))
  {
    hide Invariant;
    Idle(s, Stamped(s, s, step));
  }

  lemma RegisteredCallerOk(s: State, t: State, name: Text, call: Call)
    requires name in s.locations && s.locations[name].online && call.id !in s.callers
    requires t == Stamped(s, OnRegister(s, name, call), Register(name, call))
    ensures call.id in t.callers && CallerOk(t, call.id, t.callers[call.id])
  {
    assert t.trace[|s.trace|] == Register(name, call);
  }

  lemma RegisterPending(s: State, t: State, name: Text, call: Call)
    requires Invariant(s) && name in s.locations && s.locations[name].online && call.id !in s.callers
    requires t == Stamped(s, OnRegister(s, name, call), Register(name, call))
    ensures PendingOk(t)
  {
    hide Invariant;
    PendingHolds(s);
    forall n, k | IsPending(t, n, k) ensures k in t.callers && t.callers[k].location == n {
      assert (n == name && k == call.id) || IsPending(s, n, k);
    }
  }

  lemma RegisterMoves(s: State, t: State, name: Text, call: Call)
    requires Invariant(s) && name in s.locations && s.locations[name].online && call.id !in s.callers
    requires t == Stamped(s, OnRegister(s, name, call), Register(name, call))
    ensures Moves(s, t, call.id) && StagesKept(s, t)
  {
    hide Invariant;
  }

  lemma RegisterKeeps(s: State, name: Text, call: Call)
    requires Invariant(s)
    ensures Invariant(Stamped(s, OnRegister(s, name, call), Register(name, call)))
  {
    hide LocationOk, PollOk, RequestOk, Invariant, CallerOk, Moves, StagesKept, PendingOk;
    var t := Stamped(s, OnRegister(s, name, call), Register(name, call));
    if name in s.locations && s.locations[name].online && call.id !in s.callers {
      RegisterMoves(s, t, name, call);
      RegisterPending(s, t, name, call);
      RegisteredCallerOk(s, t, name, call);
      QuietStep(s, t, call.id);
    } else {
      NothingHappened(s, Register(name, call));
    }
  }

  lemma SomeCallerOk(s: State, id: string)
    requires Invariant(s) && id in s.callers
    ensures CallerOk(s, id, s.callers[id])
  {
  }

  lemma GiveUpKeeps(s: State, id: string)
    requires Invariant(s)
    ensures Invariant(Stamped(s, OnGiveUp(s, id), GiveUp(id)))
  {
    hide Genuine, LocationOk, PollOk, RequestOk, Invariant;
    var t := Stamped(s, OnGiveUp(s, id), GiveUp(id));
    if id in s.callers {
      SomeCallerOk(s, id);
    }
    OneCallStep(s, t, id);
  }

  // A step of one registered call that touches neither the queue nor pending.
  lemma OneCallStep(s: State, t: State, id: string)
    requires Invariant(s) && Later(s, t) && t.locations == s.locations && t.polls == s.polls
    requires t.callers.Keys == s.callers.Keys && forall k :: k in s.callers && k != id ==> t.callers[k] == s.callers[k]
    requires id in s.callers ==>
               var c, d := s.callers[id], t.callers[id];
               && SameCall(c, d) && d.stage == c.stage && ChannelOk(d)
               && (d.pc == Returned <==> c.pc == Returned)
               && (d.pc == Sending || d.pc == Awaiting ==> d.pc == c.pc)
               && (forall post :: post in d.accepted ==> Genuine(t, id, d, post) || post in c.accepted)
    requires forall r :: r in t.requests ==> r in s.requests && t.requests[r] == s.requests[r]
    ensures Invariant(t)
  {
    hide LocationOk, PollOk, RequestOk, Invariant, Genuine, ChannelOk;
    PendingHolds(s);
    if id in s.callers {
      SomeCallerOk(s, id);
      var c, d := s.callers[id], t.callers[id];
      forall post | post in d.accepted ensures Genuine(t, id, d, post) {
        if post in c.accepted {
          GenuineStays(s, t, id, c, d, post);
        }
      }
    }
    forall n, k | IsPending(t, n, k) ensures k in t.callers && t.callers[k].location == n {
      assert IsPending(s, n, k);
    }
    QuietStep(s, t, id);
  }

  lemma TakeAnswerKeeps(s: State, id: string)
    requires Invariant(s)
    ensures Invariant(Stamped(s, OnTakeAnswer(s, id), TakeAnswer(id)))
  {
    hide Genuine, LocationOk, PollOk, RequestOk, Invariant;
    var t := Stamped(s, OnTakeAnswer(s, id), TakeAnswer(id));
    if id in s.callers {
      SomeCallerOk(s, id);
    }
    OneCallStep(s, t, id);
  }

  lemma DeregisteredCallerOk(s: State, t: State, id: string)
    requires id in s.callers && CallerOk(s, id, s.callers[id]) && Later(s, t)
    requires s.callers[id].pc == Leaving && !IsPending(t, s.callers[id].location, id)
    ensures CallerOk(t, id, s.callers[id].(pc := Returned))
  {
    hide Genuine;
    var c, d := s.callers[id], s.callers[id].(pc := Returned);
    forall post | post in d.accepted ensures Genuine(t, id, d, post) {
      GenuineStays(s, t, id, c, d, post);
    }
  }

  lemma DeregisterKeeps(s: State, id: string)
    requires Invariant(s)
    ensures Invariant(Stamped(s, OnDeregister(s, id), Deregister(id)))
  {
    hide Genuine, LocationOk, PollOk, RequestOk, Invariant, CallerOk;
    var t := Stamped(s, OnDeregister(s, id), Deregister(id));
    if t.callers == s.callers {
      DeregisterIdles(s, id);
    } else {
      PendingHolds(s);
      SomeCallerOk(s, id);
      DeregisteredCallerOk(s, t, id);
      forall n, k | IsPending(t, n, k) ensures k in t.callers && t.callers[k].location == n {
        assert IsPending(s, n, k);
      }
      QuietStep(s, t, id);
    }
  }

  lemma DeregisterIdles(s: State, id: string)
    requires Invariant(s) && Stamped(s, OnDeregister(s, id), Deregister(id)).callers == s.callers
    ensures Invariant(Stamped(s, OnDeregister(s, id), Deregister(id)))
  {
    hide Genuine, LocationOk, PollOk, RequestOk, Invariant, CallerOk;
    if id in s.callers {
      assert Stamped(s, OnDeregister(s, id), Deregister(id)).callers[id] == s.callers[id];
    }
    Idle(s, Stamped(s, OnDeregister(s, id), Deregister(id)));
  }

  lemma ReplyArrivesKeeps(s: State, step: Step)
    requires Invariant(s) && step.ReplyArrives?
    ensures Invariant(Stamped(s, OnReplyArrives(s, step.request, step.location, step.token, step.id, step.body, step.auditOk), step))
  {
    hide Genuine, LocationOk, PollOk, RequestOk, Invariant, ChannelOk;
    var t := Stamped(s, OnReplyArrives(s, step.request, step.location, step.token, step.id, step.body, step.auditOk), step);
    if t.requests == s.requests {
      Idle(s, t);
    } else {
      var id := step.id;
      PendingHolds(s);
      assert IsPending(s, step.location, id);
      SomeCallerOk(s, id);
      var post := Post(step.location, step.token, id, step.body.value, |s.trace|);
      assert t.trace[|s.trace|] == step;
      FreshPostIsGenuine(s, t, step);
      CallerStays(s, t, id, s.callers[id]);
      forall n, k | IsPending(t, n, k) ensures k in t.callers && t.callers[k].location == n {
        assert IsPending(s, n, k);
      }
      QuietStep(s, t, id);
    }
  }

  // A reply that finds its call registered is genuine.
  lemma FreshPostIsGenuine(s: State, t: State, step: Step)
    requires Invariant(s) && step.ReplyArrives? && Known(s.locations, step.location, step.token)
    requires IsPending(s, step.location, step.id) && step.body.Some?
    requires t.callers == s.callers && t.locations == s.locations && t.trace == s.trace + [step]
    ensures RequestOk(t, Post(step.location, step.token, step.id, step.body.value, |s.trace|))
  {
    hide LocationOk, PollOk, Invariant, ChannelOk;
    PendingHolds(s);
    SomeCallerOk(s, step.id);
    assert t.trace[|s.trace|] == step;
  }

  lemma ReplySendsKeeps(s: State, request: nat)
    requires Invariant(s)
    ensures Invariant(Stamped(s, OnReplySends(s, request), ReplySends(request)))
  {
    hide Genuine, LocationOk, PollOk, Invariant;
    var t := Stamped(s, OnReplySends(s, request), ReplySends(request));
    if request !in s.requests {
      Idle(s, t);
    } else {
      var post := s.requests[request];
      SomeRequestOk(s, request);
      SomeCallerOk(s, post.id);
      if t.callers[post.id] != s.callers[post.id] {
        GenuineStays(s, t, post.id, s.callers[post.id], t.callers[post.id], post);
      }
      OneCallStep(s, t, post.id);
    }
  }

  lemma SomeRequestOk(s: State, r: nat)
    requires Invariant(s) && r in s.requests
    ensures RequestOk(s, s.requests[r])
  {
  }

  lemma PolledFrame(s: State, t: State, name: Text, now: int)
    requires name in s.locations && t.locations == PolledAt(s.locations, name, now)
    requires s.trace <= t.trace && t.callers == s.callers && t.requests == s.requests && PollsGoOn(s, t)
    ensures IdleFrame(s, t)
  {
    hide PollsGoOn;
  }

  lemma PollArrivesKeeps(s: State, poll: nat, name: Text, token: string, now: int, auditOk: bool)
    requires Invariant(s)
    ensures Invariant(Stamped(s, OnPollArrives(s, poll, name, token, now, auditOk), PollArrives(poll, name, token, now, auditOk)))
  {
    hide Invariant, IdleFrame;
    var t := Stamped(s, OnPollArrives(s, poll, name, token, now, auditOk), PollArrives(poll, name, token, now, auditOk));
    if poll !in s.polls && Known(s.locations, name, token) && (s.locations[name].online || auditOk) {
      PolledFrame(s, t, name, now);
    } else {
      SameButLog(s, t);
    }
    Idle(s, t);
  }

  lemma SameButLog(s: State, t: State)
    requires s.trace <= t.trace && t.(log := s.log, trace := s.trace) == s
    ensures IdleFrame(s, t)
  {
  }

  lemma PollEndsFrame(s: State, poll: nat)
    ensures IdleFrame(s, Stamped(s, OnPollEnds(s, poll), PollEnds(poll)))
  {
  }

  lemma PollEndsKeeps(s: State, poll: nat)
    requires Invariant(s)
    ensures Invariant(Stamped(s, OnPollEnds(s, poll), PollEnds(poll)))
  {
    hide Invariant, IdleFrame, OnPollEnds;
    PollEndsFrame(s, poll);
    Idle(s, Stamped(s, OnPollEnds(s, poll), PollEnds(poll)));
  }

  lemma SweepFrame(s: State, now: int, marked: seq<Text>, complete: bool)
    ensures IdleFrame(s, Stamped(s, OnSweep(s, now, marked, complete), Sweep(now, marked, complete)))
  {
    hide Sweeps;
  }

  lemma SweepKeeps(s: State, now: int, marked: seq<Text>, complete: bool)
    requires Invariant(s)
    ensures Invariant(Stamped(s, OnSweep(s, now, marked, complete), Sweep(now, marked, complete)))
  {
    hide Invariant, IdleFrame, OnSweep;
    SweepFrame(s, now, marked, complete);
    Idle(s, Stamped(s, OnSweep(s, now, marked, complete), Sweep(now, marked, complete)));
  }

  // ---- Through the queue ----

  // A step that moves the call `id` to another stage, at its Location only.
  lemma StageStep(s: State, t: State, id: string)
    requires Invariant(s) && StageFrame(s, t, id)
    requires forall n :: n in t.locations ==> LocationOk(t, n, t.locations[n])
    requires forall p :: p in t.polls ==> PollOk(t, p, t.polls[p])
    ensures Invariant(t)
  {
    hide LocationOk, PollOk, RequestOk, CallerOk, StageFrame, Moves;
    StagedCallerOk(s, t, id);
    StageMoves(s, t, id);
    CallersStay(s, t, id);
    RequestsStay(s, t, id);
  }

  predicate StageFrame(s: State, t: State, id: string) {
    && id in s.callers && Later(s, t) && t.requests == s.requests
    && t.callers.Keys == s.callers.Keys && (forall k :: k in s.callers && k != id ==> t.callers[k] == s.callers[k])
    && (var c, d := s.callers[id], t.callers[id];
        && SameCall(c, d) && d.accepted == c.accepted && ChannelOk(d)
        && (d.pc == Returned <==> c.pc == Returned)
        && (d.pc == Sending ==> d.stage == Unsent) && (d.stage == Unsent ==> d.pc != Awaiting))
    && (forall n :: n in s.locations ==> t.locations[n].pending == s.locations[n].pending)
  }

  lemma StageMoves(s: State, t: State, id: string)
    requires StageFrame(s, t, id)
    ensures Moves(s, t, id) && t.requests == s.requests && id in t.callers
  {
    hide ChannelOk;
    assert forall n, k :: IsPending(t, n, k) <==> IsPending(s, n, k);
  }

  lemma StagedCallerOk(s: State, t: State, id: string)
    requires Invariant(s) && StageFrame(s, t, id)
    ensures CallerOk(t, id, t.callers[id])
  {
    hide LocationOk, PollOk, RequestOk, Genuine, ChannelOk, Invariant;
    SomeCallerOk(s, id);
    var c, d := s.callers[id], t.callers[id];
    forall post | post in d.accepted ensures Genuine(t, id, d, post) {
      GenuineStays(s, t, id, c, d, post);
    }
    assert IsPending(t, c.location, id) <==> IsPending(s, c.location, id);
  }

  // A Location whose queue stays, and holds other calls than `id`.
  predicate Untouched(s: State, t: State, n: Text, id: string)
    requires n in s.locations && n in t.locations
  {
    && t.locations[n].queue == s.locations[n].queue && !InQueue(s.locations[n].queue, id)
    && t.locations[n].pending == s.locations[n].pending
  }

  // The Locations and polls that call `id` is not at.
  lemma OthersStay(s: State, t: State, id: string)
    requires Invariant(s) && Later(s, t)
    requires t.callers.Keys == s.callers.Keys && forall k :: k in s.callers && k != id ==> t.callers[k] == s.callers[k]
    requires id in s.callers ==> t.callers[id].location == s.callers[id].location && t.callers[id].query == s.callers[id].query
    ensures forall n :: n in s.locations && Untouched(s, t, n, id) ==> LocationOk(t, n, t.locations[n])
    ensures forall p :: p in s.polls && p in t.polls && t.polls[p] == s.polls[p] ==>
              (s.polls[p].Checking? && s.polls[p].call.id == id) || PollOk(t, p, t.polls[p])
  {
    hide Genuine, ChannelOk, RequestOk, CallerOk;
    forall n | n in s.locations && Untouched(s, t, n, id) ensures LocationOk(t, n, t.locations[n]) {
      assert LocationOk(s, n, s.locations[n]);
    }
    forall p | p in s.polls && p in t.polls && t.polls[p] == s.polls[p] && (s.polls[p].Checking? ==> s.polls[p].call.id != id)
      ensures PollOk(t, p, t.polls[p])
    {
      assert PollOk(s, p, s.polls[p]);
    }
  }

  // A queued call is in its own Location's queue, and nowhere else.
  lemma QueuedOnlyThere(s: State, n: Text, i: nat)
    requires Invariant(s) && n in s.locations && i < |s.locations[n].queue|
    ensures var id := s.locations[n].queue[i].id;
            && Names(s, s.locations[n].queue[i], n) && id in s.callers && s.callers[id].location == n && s.callers[id].stage == Queued
            && (forall m :: m in s.locations && m != n ==> !InQueue(s.locations[m].queue, id))
            && (forall p :: p in s.polls && s.polls[p].Checking? ==> s.polls[p].call.id != id)
  {
    hide Genuine, ChannelOk, RequestOk, CallerOk;
    assert LocationOk(s, n, s.locations[n]);
    var id := s.locations[n].queue[i].id;
    forall m | m in s.locations && m != n ensures !InQueue(s.locations[m].queue, id) {
      assert LocationOk(s, m, s.locations[m]);
    }
    forall p | p in s.polls && s.polls[p].Checking? ensures s.polls[p].call.id != id {
      assert PollOk(s, p, s.polls[p]);
    }
  }

  // A call in another stage is in no queue.
  lemma NotQueued(s: State, id: string)
    requires Invariant(s) && id in s.callers && s.callers[id].stage != Queued
    ensures forall n :: n in s.locations ==> !InQueue(s.locations[n].queue, id)
  {
    forall n | n in s.locations ensures !InQueue(s.locations[n].queue, id) {
      assert LocationOk(s, n, s.locations[n]);
    }
  }

  // A call being checked by one poll is not being checked by another.
  lemma CheckedByOne(s: State, poll: nat)
    requires Invariant(s) && poll in s.polls && s.polls[poll].Checking?
    ensures forall p :: p in s.polls && p != poll && s.polls[p].Checking? ==> s.polls[p].call.id != s.polls[poll].call.id
  {
    forall p | p in s.polls && p != poll && s.polls[p].Checking? ensures s.polls[p].call.id != s.polls[poll].call.id {
      assert PollOk(s, p, s.polls[p]) && PollOk(s, poll, s.polls[poll]);
    }
  }

  // A call that no poll has taken is being checked by none.
  lemma NotChecked(s: State, id: string)
    requires Invariant(s) && id in s.callers && !s.callers[id].stage.Taken?
    ensures forall p :: p in s.polls && s.polls[p].Checking? ==> s.polls[p].call.id != id
  {
    forall p | p in s.polls && s.polls[p].Checking? ensures s.polls[p].call.id != id {
      assert PollOk(s, p, s.polls[p]);
    }
  }

  lemma LongerQueueOk(s: State, t: State, id: string, name: Text)
    requires Invariant(s) && name in s.locations && name in t.locations && id in s.callers && !InQueue(s.locations[name].queue, id)
    requires t.callers.Keys == s.callers.Keys && forall k :: k in s.callers && k != id ==> t.callers[k] == s.callers[k]
    requires t.callers[id].location == s.callers[id].location == name && t.callers[id].stage == Queued
    requires t.callers[id].query == s.callers[id].query
    requires |s.locations[name].queue| < MAX_QUEUED
    requires t.locations[name].queue == s.locations[name].queue + [Call(id, s.callers[id].query)] && t.locations[name].pending == s.locations[name].pending
    ensures LocationOk(t, name, t.locations[name])
  {
    hide Genuine, ChannelOk, RequestOk, CallerOk, PollOk;
    assert LocationOk(s, name, s.locations[name]);
    var queue := s.locations[name].queue;
  }

  lemma ShorterQueueOk(s: State, t: State, id: string, name: Text)
    requires Invariant(s) && name in s.locations && name in t.locations && id in s.callers
    requires s.locations[name].queue != [] && s.locations[name].queue[0].id == id
    requires t.callers.Keys == s.callers.Keys && forall k :: k in s.callers && k != id ==> t.callers[k] == s.callers[k]
    requires t.callers[id].location == s.callers[id].location && t.callers[id].query == s.callers[id].query
    requires t.locations[name].queue == s.locations[name].queue[1..] && t.locations[name].pending == s.locations[name].pending
    ensures LocationOk(t, name, t.locations[name])
  {
    hide Genuine, ChannelOk, RequestOk, CallerOk, PollOk;
    assert LocationOk(s, name, s.locations[name]);
    var queue := s.locations[name].queue;
    forall i | 0 <= i < |queue| - 1 ensures queue[1..][i] == queue[i + 1] && queue[i + 1].id != id {}
  }

  lemma SendFrame(s: State, t: State, id: string)
    requires Invariant(s) && Sends(s, id) && t == Stamped(s, OnSend(s, id), Send(id))
    ensures StageFrame(s, t, id) && s.callers[id].stage == Unsent
  {
    hide Genuine, RequestOk, PollOk, LocationOk, Invariant;
    SomeCallerOk(s, id);
  }

  lemma SendLocations(s: State, t: State, id: string)
    requires Invariant(s) && Sends(s, id) && t == Stamped(s, OnSend(s, id), Send(id))
    requires StageFrame(s, t, id) && s.callers[id].stage == Unsent
    ensures forall n :: n in t.locations ==> LocationOk(t, n, t.locations[n])
    ensures forall p :: p in t.polls ==> PollOk(t, p, t.polls[p])
  {
    hide LocationOk, PollOk, Invariant, ChannelOk;
    NotQueued(s, id);
    NotChecked(s, id);
    OthersStay(s, t, id);
    LongerQueueOk(s, t, id, s.callers[id].location);
  }

  lemma SendKeeps(s: State, id: string)
    requires Invariant(s)
    ensures Invariant(Stamped(s, OnSend(s, id), Send(id)))
  {
    hide PollOk, LocationOk, Invariant, StageFrame;
    var t := Stamped(s, OnSend(s, id), Send(id));
    if Sends(s, id) {
      SendFrame(s, t, id);
      SendLocations(s, t, id);
      StageStep(s, t, id);
    } else {
      NothingHappened(s, Send(id));
    }
  }

  lemma DequeueFrame(s: State, poll: nat, t: State, id: string)
    requires Invariant(s) && Dequeues(s, poll) && t == Stamped(s, OnDequeue(s, poll), Dequeue(poll))
    requires id == s.locations[s.polls[poll].location].queue[0].id
    ensures StageFrame(s, t, id)
  {
    hide Genuine, RequestOk, LocationOk, Invariant, PollOk;
    QueuedOnlyThere(s, s.polls[poll].location, 0);
    SomeCallerOk(s, id);
  }

  lemma DequeueLocations(s: State, poll: nat, t: State, id: string)
    requires Invariant(s) && Dequeues(s, poll) && t == Stamped(s, OnDequeue(s, poll), Dequeue(poll))
    requires id == s.locations[s.polls[poll].location].queue[0].id
    requires StageFrame(s, t, id)
    ensures forall n :: n in t.locations ==> LocationOk(t, n, t.locations[n])
  {
    hide LocationOk, Invariant;
    var name := s.polls[poll].location;
    QueuedOnlyThere(s, name, 0);
    OthersStay(s, t, id);
    ShorterQueueOk(s, t, id, name);
  }

  lemma DequeuePolls(s: State, poll: nat, t: State, id: string)
    requires Invariant(s) && Dequeues(s, poll) && t == Stamped(s, OnDequeue(s, poll), Dequeue(poll))
    requires id == s.locations[s.polls[poll].location].queue[0].id
    requires StageFrame(s, t, id)
    ensures forall p :: p in t.polls ==> PollOk(t, p, t.polls[p])
  {
    hide LocationOk, Invariant;
    QueuedOnlyThere(s, s.polls[poll].location, 0);
    OthersStay(s, t, id);
  }

  lemma DequeueKeeps(s: State, poll: nat)
    requires Invariant(s)
    ensures Invariant(Stamped(s, OnDequeue(s, poll), Dequeue(poll)))
  {
    hide LocationOk, PollOk, Invariant, StageFrame;
    var t := Stamped(s, OnDequeue(s, poll), Dequeue(poll));
    if Dequeues(s, poll) {
      var id := s.locations[s.polls[poll].location].queue[0].id;
      DequeueFrame(s, poll, t, id);
      DequeueLocations(s, poll, t, id);
      DequeuePolls(s, poll, t, id);
      StageStep(s, t, id);
    } else {
      NothingHappened(s, Dequeue(poll));
    }
  }

  // The poll holds a call to check.
  predicate Checks(s: State, poll: nat) {
    poll in s.polls && s.polls[poll].Checking?
  }

  lemma CheckFrame(s: State, poll: nat, t: State, id: string)
    requires Invariant(s) && Checks(s, poll) && t == Stamped(s, OnCheck(s, poll), Check(poll)) && id == s.polls[poll].call.id
    ensures StageFrame(s, t, id)
  {
    hide Genuine, RequestOk, LocationOk, Invariant;
    SomePollOk(s, poll);
    SomeCallerOk(s, id);
  }

  lemma CheckPoll(s: State, poll: nat, t: State, id: string)
    requires Invariant(s) && Checks(s, poll) && t == Stamped(s, OnCheck(s, poll), Check(poll)) && id == s.polls[poll].call.id
    ensures t.locations == s.locations && id in s.callers && s.callers[id].stage == Taken(poll)
    ensures t.polls.Keys == s.polls.Keys && (forall p :: p in s.polls && p != poll ==> t.polls[p] == s.polls[p])
    ensures PollOk(t, poll, t.polls[poll])
  {
    hide Genuine, RequestOk, LocationOk, Invariant, CallerOk;
    SomePollOk(s, poll);
  }

  lemma CheckKeeps(s: State, poll: nat)
    requires Invariant(s)
    ensures Invariant(Stamped(s, OnCheck(s, poll), Check(poll)))
  {
    hide LocationOk, PollOk, Invariant;
    var t := Stamped(s, OnCheck(s, poll), Check(poll));
    if Checks(s, poll) {
      CheckedKeeps(s, poll, t, s.polls[poll].call.id);
    } else {
      NothingHappened(s, Check(poll));
    }
  }

  lemma CheckedKeeps(s: State, poll: nat, t: State, id: string)
    requires Invariant(s) && Checks(s, poll) && t == Stamped(s, OnCheck(s, poll), Check(poll)) && id == s.polls[poll].call.id
    ensures Invariant(t)
  {
    hide LocationOk, PollOk, Invariant, OnCheck, ChannelOk;
    CheckFrame(s, poll, t, id);
    CheckPoll(s, poll, t, id);
    NotQueued(s, id);
    CheckedByOne(s, poll);
    OthersStay(s, t, id);
    StageStep(s, t, id);
  }

  lemma SomePollOk(s: State, p: nat)
    requires Invariant(s) && p in s.polls
    ensures PollOk(s, p, s.polls[p])
  {
  }

  // ---- Every interleaving ----

  lemma StepKeeps(s: State, step: Step)
    requires Invariant(s)
    ensures Invariant(Apply(s, step))
  {
    hide Invariant, OnRegister, OnSend, OnGiveUp, OnTakeAnswer, OnDeregister, OnReplyArrives, OnReplySends,
      OnPollArrives, OnDequeue, OnCheck, OnPollEnds, OnSweep;
    match step {
      case Register(name, call) => RegisterKeeps(s, name, call);
      case Send(id) => SendKeeps(s, id);
      case GiveUp(id) => GiveUpKeeps(s, id);
      case TakeAnswer(id) => TakeAnswerKeeps(s, id);
      case Deregister(id) => DeregisterKeeps(s, id);
      case ReplyArrives(_, _, _, _, _, _) => ReplyArrivesKeeps(s, step);
      case ReplySends(request) => ReplySendsKeeps(s, request);
      case PollArrives(poll, name, token, now, auditOk) => PollArrivesKeeps(s, poll, name, token, now, auditOk);
      case Dequeue(poll) => DequeueKeeps(s, poll);
      case Check(poll) => CheckKeeps(s, poll);
      case PollEnds(poll) => PollEndsKeeps(s, poll);
      case Sweep(now, marked, complete) => SweepKeeps(s, now, marked, complete);
    }
  }

  lemma {:induction false} RunKeeps(s: State, steps: seq<Step>)
    requires Invariant(s)
    ensures Invariant(Run(s, steps))
    ensures Run(s, steps).trace == s.trace + steps
    decreases |steps|
  {
    hide Invariant, After;
    if steps != [] {
      var n := |steps| - 1;
      RunKeeps(s, steps[..n]);
      StepKeeps(Run(s, steps[..n]), steps[n]);
      assert steps == steps[..n] + [steps[n]];
    } else {
      assert s.trace + [] == s.trace;
    }
  }

  lemma InitiallyKept(s: State)
    requires Initial(s)
    ensures Invariant(s)
  {
  }

  /** Whatever the interleaving, a call takes out at most one answer, it is the
      first that went in, and it was posted to the call's own Location's endpoint,
      with that Location's token, for that call, after the call was registered. */
  lemma AnswersAreGenuine(s: State, steps: seq<Step>, id: string)
    requires Initial(s) && id in Run(s, steps).callers
    ensures var c := Run(s, steps).callers[id];
            && |c.received| <= 1
            && (c.received != [] ==>
                  var post := c.received[0];
                  && c.accepted != [] && post == c.accepted[0]
                  && c.location in s.locations
                  && c.since < post.at < |steps|
                  && steps[c.since] == Register(c.location, Call(id, c.query))
                  && exists request, auditOk ::
                       steps[post.at] == ReplyArrives(request, c.location, s.locations[c.location].token, id, Some(post.answer), auditOk))
  {
    hide Genuine, LocationOk, PollOk, RequestOk, Invariant, After, CallerOk;
    var t := Run(s, steps);
    InitiallyKept(s);
    RunKeeps(s, steps);
    ConfigurationStays(s, steps);
    assert t.trace == steps;
    SomeCallerOk(t, id);
    ReceivedIsGenuine(t, id);
  }

  lemma ReceivedIsGenuine(t: State, id: string)
    requires id in t.callers && CallerOk(t, id, t.callers[id])
    ensures var c := t.callers[id];
            && |c.received| <= 1 && c.location in t.locations
            && c.since < |t.trace| && t.trace[c.since] == Register(c.location, Call(id, c.query))
            && (c.received != [] ==> c.accepted != [] && c.received[0] == c.accepted[0] && Genuine(t, id, c, c.received[0]))
            && (c.received != [] ==>
                  var post := c.received[0];
                  && c.since < post.at < |t.trace|
                  && exists request, auditOk ::
                       t.trace[post.at] == ReplyArrives(request, c.location, t.locations[c.location].token, id, Some(post.answer), auditOk))
  {
    var c := t.callers[id];
    if c.received != [] {
      var post := c.received[0];
      assert post in c.accepted && Genuine(t, id, c, post);
      var step := t.trace[post.at];
      assert step == ReplyArrives(step.request, c.location, t.locations[c.location].token, id, Some(post.answer), step.auditOk);
    }
  }

  lemma StepConfiguration(s: State, step: Step)
    ensures SameConfiguration(s, Apply(s, step))
  {
    hide Sweeps, Dequeues, Known, OnRegister, OnSend, OnDeregister, OnPollArrives, OnSweep, OnDequeue;
    match step {
      case Register(_, _) => CallConfiguration(s, step);
      case Send(_) => CallConfiguration(s, step);
      case Deregister(_) => CallConfiguration(s, step);
      case PollArrives(_, _, _, _, _) => PollConfiguration(s, step);
      case Dequeue(poll) => DequeueConfiguration(s, poll);
      case Sweep(now, marked, complete) => SweepConfiguration(s, now, marked, complete);
      case _ =>
    }
  }

  lemma CallConfiguration(s: State, step: Step)
    requires step.Register? || step.Send? || step.Deregister?
    ensures SameConfiguration(s, Apply(s, step))
  {
    hide OnGiveUp, OnTakeAnswer, OnReplyArrives, OnReplySends, OnPollArrives, OnDequeue, OnCheck, OnPollEnds, OnSweep;
  }

  predicate SameConfiguration(s: State, t: State) {
    && (forall n :: n in t.locations ==> n in s.locations)
    && (forall n :: n in s.locations ==> n in t.locations && t.locations[n].token == s.locations[n].token)
  }

  lemma PollConfiguration(s: State, step: Step)
    requires step.PollArrives?
    ensures SameConfiguration(s, OnPollArrives(s, step.poll, step.location, step.token, step.now, step.auditOk))
  {
  }

  lemma DequeueConfiguration(s: State, poll: nat)
    ensures SameConfiguration(s, OnDequeue(s, poll))
  {
  }

  lemma SweepConfiguration(s: State, now: int, marked: seq<Text>, complete: bool)
    ensures SameConfiguration(s, OnSweep(s, now, marked, complete))
  {
    hide Sweeps;
  }

  lemma {:induction false} ConfigurationStays(s: State, steps: seq<Step>)
    ensures SameConfiguration(s, Run(s, steps))
    decreases |steps|
  {
    hide Apply;
    if steps != [] {
      ConfigurationStays(s, steps[..|steps| - 1]);
      StepConfiguration(Run(s, steps[..|steps| - 1]), steps[|steps| - 1]);
    }
  }

  // ---- Handing calls out ----

  // This step writes the call `id` to a poll.
  predicate HandsOut(s: State, step: Step, id: string) {
    && step.Check? && step.poll in s.polls && s.polls[step.poll].Checking? && s.polls[step.poll].call.id == id
    && IsPending(s, s.polls[step.poll].location, id)
  }

  function Rank(stage: Stage): nat {
    match stage
    case Unsent => 0
    case Queued => 1
    case Taken(_) => 2
    case Handed(_) => 3
    case Skipped => 3
  }

  // The same call, no less far.
  predicate MovesOn(s: State, t: State, id: string)
    requires id in s.callers
  {
    id in t.callers && SameCall(s.callers[id], t.callers[id]) && Rank(t.callers[id].stage) >= Rank(s.callers[id].stage)
  }

  // Only a send, a dequeue and a check move a call on.
  lemma StageMovesOn(s: State, step: Step, id: string)
    requires Invariant(s) && id in s.callers
    ensures MovesOn(s, Apply(s, step), id)
  {
    hide Invariant, Apply, MovesOn;
    match step {
      case Send(k) => SendMovesOn(s, k, id);
      case Dequeue(poll) => DequeueMovesOn(s, poll, id);
      case Check(poll) => CheckMovesOn(s, poll, id);
      case _ => OtherMovesOn(s, step, id);
    }
  }

  lemma OtherMovesOn(s: State, step: Step, id: string)
    requires id in s.callers && !step.Send? && !step.Dequeue? && !step.Check?
    ensures MovesOn(s, Apply(s, step), id)
  {
    hide Known, Sweeps, OnSend, OnDequeue, OnCheck;
  }

  lemma SendMovesOn(s: State, k: string, id: string)
    requires Invariant(s) && id in s.callers
    ensures MovesOn(s, Apply(s, Send(k)), id)
  {
    hide Genuine, RequestOk, ChannelOk, LocationOk, PollOk, Invariant;
    SomeCallerOk(s, id);
  }

  lemma DequeueMovesOn(s: State, poll: nat, id: string)
    requires Invariant(s) && id in s.callers
    ensures MovesOn(s, Apply(s, Dequeue(poll)), id)
  {
    hide Genuine, RequestOk, ChannelOk, CallerOk, LocationOk, PollOk, Invariant;
    if Dequeues(s, poll) {
      QueuedOnlyThere(s, s.polls[poll].location, 0);
    }
  }

  lemma CheckMovesOn(s: State, poll: nat, id: string)
    requires Invariant(s) && id in s.callers
    ensures MovesOn(s, Apply(s, Check(poll)), id)
  {
    hide Genuine, RequestOk, ChannelOk, CallerOk, LocationOk, Invariant;
    if poll in s.polls {
      SomePollOk(s, poll);
    }
  }

  lemma {:induction false} StagesMoveOn(s: State, steps: seq<Step>, id: string)
    requires Invariant(s) && id in s.callers
    ensures MovesOn(s, Run(s, steps), id)
    decreases |steps|
  {
    hide Invariant, Apply;
    if steps != [] {
      var n := |steps| - 1;
      RunKeeps(s, steps[..n]);
      StagesMoveOn(s, steps[..n], id);
      StageMovesOn(Run(s, steps[..n]), steps[n], id);
    }
  }

  lemma HandingOut(s: State, step: Step, id: string)
    requires Invariant(s) && HandsOut(s, step, id)
    ensures id in s.callers && s.callers[id].pc != Returned && s.polls[step.poll].location == s.callers[id].location
    ensures Rank(s.callers[id].stage) == 2
    ensures id in Apply(s, step).callers && Rank(Apply(s, step).callers[id].stage) == 3
  {
    hide Invariant, LocationOk, RequestOk, ChannelOk, Genuine;
    SomePollOk(s, step.poll);
    SomeCallerOk(s, id);
  }

  lemma {:induction false} RunInTwo(s: State, a: seq<Step>, b: seq<Step>)
    ensures Run(s, a + b) == Run(Run(s, a), b)
    decreases |b|
  {
    if b == [] {
      assert a + b == a;
    } else {
      assert (a + b)[..|a + b| - 1] == a + b[..|b| - 1];
      RunInTwo(s, a, b[..|b| - 1]);
    }
  }

  // Step `i` was a poll of `name` with this token.
  predicate PollOf(steps: seq<Step>, i: int, poll: nat, name: Text, token: string) {
    && 0 <= i < |steps| && steps[i].PollArrives? && steps[i].poll == poll
    && steps[i].location == name && steps[i].token == token
  }

  // An open or answered poll came with its Location's token.
  ghost predicate Admitted(s: State, poll: nat) {
    poll in s.polls && !s.polls[poll].Done? ==>
      && var name := s.polls[poll].location;
      && name in s.locations && s.locations[name].token != ""
      && exists i :: PollOf(s.trace, i, poll, name, s.locations[name].token)
  }

  lemma AdmissionStays(s: State, t: State, poll: nat)
    requires Admitted(s, poll) && poll in s.polls && poll in t.polls && !s.polls[poll].Done? && !t.polls[poll].Done?
    requires s.polls[poll].location == t.polls[poll].location && s.trace <= t.trace && SameConfiguration(s, t)
    ensures Admitted(t, poll)
  {
    var name := s.polls[poll].location;
    var i :| PollOf(s.trace, i, poll, name, s.locations[name].token);
    assert PollOf(t.trace, i, poll, name, t.locations[name].token);
  }

  // What a step does to a poll: only its arrival opens one, for a known token.
  lemma PollAfter(s: State, step: Step, poll: nat)
    requires poll in Apply(s, step).polls && !Apply(s, step).polls[poll].Done?
    ensures if poll in s.polls then !s.polls[poll].Done? && s.polls[poll].location == Apply(s, step).polls[poll].location
            else
              && step.PollArrives? && step.poll == poll && step.location in s.locations && step.token != ""
              && step.token == s.locations[step.location].token && step.location == Apply(s, step).polls[poll].location
  {
    hide OnRegister, OnSend, OnGiveUp, OnTakeAnswer, OnDeregister, OnReplyArrives, OnReplySends, OnSweep;
    if !step.PollArrives? && !step.Dequeue? && !step.Check? && !step.PollEnds? {
      PollsUntouched(s, step);
    }
  }

  lemma PollsUntouched(s: State, step: Step)
    requires !step.PollArrives? && !step.Dequeue? && !step.Check? && !step.PollEnds?
    ensures Apply(s, step).polls == s.polls
  {
    hide Known, Sweeps, Sends;
  }

  lemma StepAdmits(s: State, step: Step, poll: nat)
    requires Admitted(s, poll)
    ensures Admitted(Apply(s, step), poll)
  {
    hide Admitted, After;
    var t := Apply(s, step);
    if poll in t.polls && !t.polls[poll].Done? {
      PollAfter(s, step, poll);
      StepConfiguration(s, step);
      if poll in s.polls {
        AdmissionStays(s, t, poll);
      } else {
        assert PollOf(t.trace, |s.trace|, poll, step.location, step.token);
        NewlyAdmitted(t, poll, |s.trace|);
      }
    } else {
      NothingToAdmit(t, poll);
    }
  }

  lemma NewlyAdmitted(t: State, poll: nat, i: nat)
    requires poll in t.polls && !t.polls[poll].Done? && t.polls[poll].location in t.locations
    requires t.locations[t.polls[poll].location].token != ""
    requires PollOf(t.trace, i, poll, t.polls[poll].location, t.locations[t.polls[poll].location].token)
    ensures Admitted(t, poll)
  {
  }

  lemma NothingToAdmit(t: State, poll: nat)
    requires poll !in t.polls || t.polls[poll].Done?
    ensures Admitted(t, poll)
  {
  }

  lemma {:induction false} RunAdmits(s: State, steps: seq<Step>, poll: nat)
    requires Initial(s)
    ensures Admitted(Run(s, steps), poll)
    decreases |steps|
  {
    hide Admitted, Apply;
    if steps != [] {
      var n := |steps| - 1;
      RunAdmits(s, steps[..n], poll);
      StepAdmits(Run(s, steps[..n]), steps[n], poll);
    } else {
      NothingToAdmit(s, poll);
    }
  }

  /** Every poll that is held, checks a call or was answered with one came in earlier
      over that Location's endpoint, with its token. */
  lemma PollsAreAdmitted(s: State, steps: seq<Step>, poll: nat)
    requires Initial(s) && poll in Run(s, steps).polls && !Run(s, steps).polls[poll].Done?
    ensures var name := Run(s, steps).polls[poll].location;
            && name in s.locations && s.locations[name].token != ""
            && exists i :: PollOf(steps, i, poll, name, s.locations[name].token)
  {
    hide Invariant, After;
    InitiallyKept(s);
    RunKeeps(s, steps);
    RunAdmits(s, steps, poll);
    ConfigurationStays(s, steps);
    assert Run(s, steps).trace == steps;
  }

  // A registered call that is checked becomes the poll's answer.
  lemma CheckGives(s: State, poll: nat)
    requires Invariant(s) && poll in s.polls && s.polls[poll].Checking?
    ensures var name, call := s.polls[poll].location, s.polls[poll].call;
            && call.id in s.callers && poll in Apply(s, Check(poll)).polls
            && Apply(s, Check(poll)).polls[poll] ==
               if s.callers[call.id].pc != Returned then Gave(name, call) else Holding(name)
  {
    hide Invariant, LocationOk, RequestOk, ChannelOk, Genuine;
    SomePollOk(s, poll);
    SomeCallerOk(s, s.polls[poll].call.id);
  }

  /** A call is handed to at most one poll, which came in over its own Location's
      endpoint with its token; only while its caller is registered; and what the
      poll is answered with is the call that its caller registered. */
  lemma HandedOutOnce(s: State, steps: seq<Step>, i: nat, j: nat, id: string)
    requires Initial(s) && i <= j < |steps|
    requires HandsOut(Run(s, steps[..i]), steps[i], id) && HandsOut(Run(s, steps[..j]), steps[j], id)
    ensures i == j
    ensures var at := Run(s, steps[..i]);
            && id in at.callers && at.callers[id].pc != Returned
            && var c := at.callers[id];
            && c.location in s.locations && s.locations[c.location].token != ""
            && (exists k :: k < i && PollOf(steps, k, steps[i].poll, c.location, s.locations[c.location].token))
            && steps[i].poll in Apply(at, steps[i]).polls
            && Apply(at, steps[i]).polls[steps[i].poll] == Gave(c.location, Call(id, c.query))
  {
    hide Invariant, Apply, HandsOut;
    InitiallyKept(s);
    RunKeeps(s, steps[..i]);
    HandingOut(Run(s, steps[..i]), steps[i], id);
    HandsToItsPoll(s, steps, i, id);
    if i < j {
      assert steps[..j] == steps[..i + 1] + steps[i + 1..j];
      assert steps[..i + 1][..i] == steps[..i];
      RunInTwo(s, steps[..i + 1], steps[i + 1..j]);
      RunKeeps(s, steps[..i + 1]);
      RunKeeps(s, steps[..j]);
      StagesMoveOn(Run(s, steps[..i + 1]), steps[i + 1..j], id);
      HandingOut(Run(s, steps[..j]), steps[j], id);
    }
  }

  lemma HandsToItsPoll(s: State, steps: seq<Step>, i: nat, id: string)
    requires Initial(s) && i < |steps| && HandsOut(Run(s, steps[..i]), steps[i], id)
    ensures var at := Run(s, steps[..i]);
            && id in at.callers
            && var c := at.callers[id];
            && c.location in s.locations && s.locations[c.location].token != ""
            && (exists k :: k < i && PollOf(steps, k, steps[i].poll, c.location, s.locations[c.location].token))
            && steps[i].poll in Apply(at, steps[i]).polls
            && Apply(at, steps[i]).polls[steps[i].poll] == Gave(c.location, Call(id, c.query))
  {
    hide Invariant, Apply, LocationOk, CallerOk, RequestOk;
    var at, poll := Run(s, steps[..i]), steps[i].poll;
    InitiallyKept(s);
    RunKeeps(s, steps[..i]);
    HandingOut(at, steps[i], id);
    SomePollOk(at, poll);
    CheckGives(at, poll);
    PollsAreAdmitted(s, steps[..i], poll);
    var name := at.polls[poll].location;
    var k :| PollOf(steps[..i], k, poll, name, s.locations[name].token);
    assert PollOf(steps, k, poll, name, s.locations[name].token);
    assert steps[i] == Check(poll) && at.polls[poll].call == Call(id, at.callers[id].query);
  }

  // ---- How long a call is queued ----

  // This step takes a call off the queue of `name`.
  predicate Serves(s: State, step: Step, name: Text) {
    step.Dequeue? && Dequeues(s, step.poll) && s.polls[step.poll].location == name
  }

  function Served(s: State, steps: seq<Step>, name: Text): nat {
    if steps == [] then 0 else
    var n := |steps| - 1;
    Served(s, steps[..n], name) + if Serves(Run(s, steps[..n]), steps[n], name) then 1 else 0
  }

  // Call `id` is at place `i` of the queue of `name`.
  predicate At(s: State, name: Text, i: int, id: string) {
    name in s.locations && 0 <= i < |s.locations[name].queue| && s.locations[name].queue[i].id == id
  }

  // What a step does to a queue: a dequeue takes the head, a send adds at the
  // end, and nothing else touches it.
  predicate QueueMoves(s: State, t: State, step: Step, name: Text) {
    && name in s.locations && name in t.locations
    && var before, after := s.locations[name].queue, t.locations[name].queue;
       if Serves(s, step, name) then after == before[1..]
       else after == before || (step.Send? && |after| == |before| + 1 && before == after[..|before|] && after[|before|].id == step.id)
  }

  lemma QueueAfterOther(s: State, step: Step, name: Text)
    requires name in s.locations && !step.Dequeue? && !step.Send?
    ensures QueueMoves(s, Apply(s, step), step, name)
  {
    hide Known, Sweeps, OnDequeue, OnSend;
  }

  lemma QueueAfter(s: State, step: Step, name: Text)
    requires name in s.locations
    ensures QueueMoves(s, Apply(s, step), step, name)
  {
    if !step.Dequeue? && !step.Send? {
      QueueAfterOther(s, step, name);
    } else {
      hide OnRegister, OnGiveUp, OnTakeAnswer, OnDeregister, OnReplyArrives, OnReplySends, OnPollArrives, OnCheck, OnPollEnds, OnSweep;
    }
  }

  lemma ServedIsTaken(s: State, step: Step, name: Text, id: string)
    requires Invariant(s) && At(s, name, 0, id) && Serves(s, step, name)
    ensures id in Apply(s, step).callers && Rank(Apply(s, step).callers[id].stage) == 2
  {
    hide Invariant;
    QueuedOnlyThere(s, name, 0);
  }

  lemma PlaceMovesUp(s: State, step: Step, name: Text, i: nat, id: string)
    requires Invariant(s) && At(s, name, i, id)
    ensures !Serves(s, step, name) ==> At(Apply(s, step), name, i, id)
    ensures Serves(s, step, name) && i > 0 ==> At(Apply(s, step), name, i - 1, id)
    ensures Serves(s, step, name) && i == 0 ==>
              id in Apply(s, step).callers && Rank(Apply(s, step).callers[id].stage) == 2
  {
    hide Invariant, Apply, Serves;
    QueueAfter(s, step, name);
    if Serves(s, step, name) && i == 0 {
      ServedIsTaken(s, step, name, id);
    }
  }

  /** The queue holds at most 16 calls and every dequeue moves a queued call one
      place up, so a queued call is taken by the 16th dequeue after it. */
  lemma {:induction false} QueuedCallsAreServed(s: State, steps: seq<Step>, name: Text, i: nat, id: string)
    requires Invariant(s) && At(s, name, i, id)
    ensures i < 16
    ensures Served(s, steps, name) <= i ==> At(Run(s, steps), name, i - Served(s, steps, name), id)
    ensures Served(s, steps, name) > i ==>
              id in Run(s, steps).callers && Rank(Run(s, steps).callers[id].stage) >= 2
    decreases |steps|
  {
    hide Invariant, Apply, Serves;
    QueueBound(s, name);
    if steps != [] {
      var n := |steps| - 1;
      var before := Run(s, steps[..n]);
      RunKeeps(s, steps[..n]);
      QueuedCallsAreServed(s, steps[..n], name, i, id);
      var served := Served(s, steps[..n], name);
      if served <= i {
        PlaceMovesUp(before, steps[n], name, i - served, id);
      } else {
        StageMovesOn(before, steps[n], id);
      }
    }
  }

  lemma QueueBound(s: State, name: Text)
    requires Invariant(s) && name in s.locations
    ensures |s.locations[name].queue| <= MAX_QUEUED
  {
    assert LocationOk(s, name, s.locations[name]);
  }

  // ---- Liveness ----

  // What the log says about a Location: true for online, false for offline.
  function LinkEvents(log: seq<LinkEvent>, name: Text): seq<bool> {
    if log == [] then [] else
    LinkEvents(log[..|log| - 1], name) +
    match log[|log| - 1]
    case WentOnline(n) => if n == name then [true] else []
    case WentOffline(n) => if n == name then [false] else []
    case _ => []
  }

  lemma LinkEventsNext(log: seq<LinkEvent>, e: LinkEvent, name: Text)
    ensures LinkEvents(log + [e], name) == LinkEvents(log, name) +
            match e
            case WentOnline(n) => if n == name then [true] else []
            case WentOffline(n) => if n == name then [false] else []
            case _ => []
  {
    assert (log + [e])[..|log|] == log;
  }

  lemma {:induction false} LinkEventsOfSweep(log: seq<LinkEvent>, marked: seq<Text>, name: Text)
    requires forall i, j :: 0 <= i < j < |marked| ==> marked[i] != marked[j]
    ensures LinkEvents(log + Offlines(marked), name) == LinkEvents(log, name) + if name in marked then [false] else []
    decreases |marked|
  {
    hide LinkEvents;
    if marked == [] {
      assert log + Offlines(marked) == log;
    } else {
      var n := |marked| - 1;
      var head := marked[..n];
      LinkEventsOfSweep(log, head, name);
      assert log + Offlines(marked) == (log + Offlines(head)) + [WentOffline(marked[n])];
      LinkEventsNext(log + Offlines(head), WentOffline(marked[n]), name);
      assert marked == head + [marked[n]];
      assert name == marked[n] ==> name !in head;
      assert LinkEvents(log, name) + [] == LinkEvents(log, name);
    }
  }

  // Events alternate, starting with online, and the flag is the last of them.
  predicate Alternates(events: seq<bool>, online: bool) {
    && (forall i :: 0 <= i < |events| ==> (events[i] <==> i % 2 == 0))
    && (online <==> events != [] && events[|events| - 1])
  }

  predicate FlagOk(s: State, name: Text) {
    name in s.locations ==> Alternates(LinkEvents(s.log, name), s.locations[name].online)
  }

  lemma ReplyKeepsFlag(s: State, step: Step, name: Text)
    requires FlagOk(s, name) && step.ReplyArrives?
    ensures FlagOk(Apply(s, step), name)
  {
    hide LinkEvents, Alternates;
    LinkEventsNext(s.log, LinkRefused(step.location), name);
    LinkEventsNext(s.log, ReplyDropped(step.location, step.id), name);
    assert LinkEvents(s.log, name) + [] == LinkEvents(s.log, name);
  }

  lemma PollKeepsFlag(s: State, step: Step, name: Text)
    requires FlagOk(s, name) && step.PollArrives?
    ensures FlagOk(Apply(s, step), name)
  {
    hide LinkEvents;
    LinkEventsNext(s.log, LinkRefused(step.location), name);
    LinkEventsNext(s.log, WentOnline(step.location), name);
    assert LinkEvents(s.log, name) + [] == LinkEvents(s.log, name);
  }

  lemma SweepKeepsFlag(s: State, now: int, marked: seq<Text>, complete: bool, name: Text)
    requires FlagOk(s, name)
    ensures FlagOk(Apply(s, Sweep(now, marked, complete)), name)
  {
    hide LinkEvents;
    if Sweeps(s.locations, now, marked, complete) {
      LinkEventsOfSweep(s.log, marked, name);
      assert LinkEvents(s.log, name) + [] == LinkEvents(s.log, name);
    }
  }

  lemma StepKeepsFlag(s: State, step: Step, name: Text)
    requires FlagOk(s, name)
    ensures FlagOk(Apply(s, step), name)
  {
    hide LinkEvents, Alternates, Known, Sweeps;
    if step.ReplyArrives? {
      ReplyKeepsFlag(s, step, name);
    } else if step.PollArrives? {
      PollKeepsFlag(s, step, name);
    } else if step.Sweep? {
      SweepKeepsFlag(s, step.now, step.marked, step.complete, name);
    }
  }

  /** Within one hub's lifetime a Location's audited link events alternate,
      starting with online, and its flag is the last event, even when audit
      writes fail. */
  lemma {:induction false} FlagIsLastEvent(s: State, steps: seq<Step>, name: Text)
    requires Initial(s)
    ensures FlagOk(Run(s, steps), name)
    decreases |steps|
  {
    hide Apply;
    if steps != [] {
      var n := |steps| - 1;
      FlagIsLastEvent(s, steps[..n], name);
      StepKeepsFlag(Run(s, steps[..n]), steps[n], name);
    }
  }

  // No sweep finds the last poll of the Location, at `last` to begin with, 30 s
  // old.
  predicate Timely(steps: seq<Step>, name: Text, token: string, last: int)
    decreases |steps|
  {
    if steps == [] then true else
    match steps[0]
    case PollArrives(_, n, presented, now, _) =>
      Timely(steps[1..], name, token, if n == name && presented == token then now else last)
    case Sweep(now, _, _) => now - last < OFFLINE_AFTER && Timely(steps[1..], name, token, last)
    case _ => Timely(steps[1..], name, token, last)
  }

  ghost predicate OnlineSince(s: State, name: Text, token: string, last: int) {
    && name in s.locations && s.locations[name].online && s.locations[name].lastPoll == last
    && s.locations[name].token == token && token != ""
  }

  lemma TimelyReply(s: State, step: Step, name: Text, token: string, last: int)
    requires OnlineSince(s, name, token, last) && step.ReplyArrives?
    ensures var t := Apply(s, step);
            OnlineSince(t, name, token, last) && LinkEvents(t.log, name) == LinkEvents(s.log, name)
  {
    hide LinkEvents;
    assert LinkEvents(s.log, name) + [] == LinkEvents(s.log, name);
    LinkEventsNext(s.log, LinkRefused(step.location), name);
    LinkEventsNext(s.log, ReplyDropped(step.location, step.id), name);
  }

  lemma TimelyPoll(s: State, step: Step, name: Text, token: string, last: int)
    requires OnlineSince(s, name, token, last) && step.PollArrives? && step.poll !in s.polls
    ensures var t := Apply(s, step);
            && OnlineSince(t, name, token, if step.location == name && step.token == token then step.now else last)
            && LinkEvents(t.log, name) == LinkEvents(s.log, name)
  {
    hide LinkEvents;
    assert LinkEvents(s.log, name) + [] == LinkEvents(s.log, name);
    LinkEventsNext(s.log, LinkRefused(step.location), name);
    LinkEventsNext(s.log, WentOnline(step.location), name);
  }

  lemma TimelySweep(s: State, step: Step, name: Text, token: string, last: int)
    requires OnlineSince(s, name, token, last) && step.Sweep? && step.now - last < OFFLINE_AFTER
    ensures var t := Apply(s, step);
            OnlineSince(t, name, token, last) && LinkEvents(t.log, name) == LinkEvents(s.log, name)
  {
    hide LinkEvents;
    if Sweeps(s.locations, step.now, step.marked, step.complete) {
      LinkEventsOfSweep(s.log, step.marked, name);
      assert LinkEvents(s.log, name) + [] == LinkEvents(s.log, name);
    }
  }

  lemma TimelyOther(s: State, step: Step, name: Text, token: string, last: int)
    requires OnlineSince(s, name, token, last) && !step.ReplyArrives? && !step.PollArrives? && !step.Sweep?
    ensures var t := Apply(s, step);
            OnlineSince(t, name, token, last) && LinkEvents(t.log, name) == LinkEvents(s.log, name)
  {
    hide LinkEvents;
  }

  lemma TimelyStep(s: State, step: Step, name: Text, token: string, last: int)
    requires OnlineSince(s, name, token, last) && Timely([step], name, token, last)
    requires step.PollArrives? ==> step.poll !in s.polls
    ensures var t := Apply(s, step);
            && OnlineSince(t, name, token,
                 if step.PollArrives? && step.location == name && step.token == token then step.now else last)
            && LinkEvents(t.log, name) == LinkEvents(s.log, name)
  {
    hide LinkEvents, Apply, OnlineSince;
    match step {
      case ReplyArrives(_, _, _, _, _, _) => TimelyReply(s, step, name, token, last);
      case PollArrives(_, _, _, _, _) => TimelyPoll(s, step, name, token, last);
      case Sweep(_, _, _) => TimelySweep(s, step, name, token, last);
      case _ => TimelyOther(s, step, name, token, last);
    }
  }

  // Poll requests are numbered apart.
  predicate PollsNumbered(s: State, steps: seq<Step>) {
    && (forall i :: 0 <= i < |steps| && steps[i].PollArrives? ==> steps[i].poll !in s.polls)
    && (forall i, j :: 0 <= i < j < |steps| && steps[i].PollArrives? && steps[j].PollArrives? ==> steps[i].poll != steps[j].poll)
  }

  /** A Location whose polls and sweeps leave its last poll under 30 s old stays
      online, and nothing is audited about it. */
  lemma {:induction false} TimelyStaysOnline(s: State, steps: seq<Step>, name: Text, token: string, last: int)
    requires OnlineSince(s, name, token, last) && Timely(steps, name, token, last) && PollsNumbered(s, steps)
    ensures name in Run(s, steps).locations && Run(s, steps).locations[name].online
    ensures LinkEvents(Run(s, steps).log, name) == LinkEvents(s.log, name)
    decreases |steps|
  {
    hide Apply, LinkEvents;
    if steps != [] {
      var first, rest := steps[0], steps[1..];
      assert steps == [first] + rest;
      RunInTwo(s, [first], rest);
      RunOne(s, first);
      var t := Apply(s, first);
      TimelyStep(s, first, name, token, last);
      StepPolls(s, first);
      TimelyStaysOnline(t, rest, name, token,
        if first.PollArrives? && first.location == name && first.token == token then first.now else last);
    }
  }

  lemma RunOne(s: State, step: Step)
    ensures Run(s, [step]) == Apply(s, step)
  {
    assert [step][..0] == [];
  }

  lemma StepPolls(s: State, step: Step)
    ensures forall p :: p in Apply(s, step).polls ==> p in s.polls || (step.PollArrives? && p == step.poll)
  {
  }

  /** A complete sweep marks exactly the Locations whose last poll is 30 s old. */
  lemma CompleteSweepMarksStale(s: State, now: int, marked: seq<Text>, name: Text)
    requires Sweeps(s.locations, now, marked, true) && name in s.locations
    ensures var t := Apply(s, Sweep(now, marked, true));
            && name in t.locations
            && (t.locations[name].online <==> s.locations[name].online && now - s.locations[name].lastPoll < 30_000_000_000)
            && LinkEvents(t.log, name) == LinkEvents(s.log, name) +
               if s.locations[name].online && now - s.locations[name].lastPoll >= 30_000_000_000 then [false] else []
  {
    hide LinkEvents;
    LinkEventsOfSweep(s.log, marked, name);
  }
}
