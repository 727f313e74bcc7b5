/**
 What the link does deliver (internal/link/hub.go): a call is registered only while
 its Location is online, the first reply sent for it reaches its waiting caller, a
 late or refused request changes nothing, and a whole round trip works from any
 state.
 */
module Delivery {
  import opened Evidence
  import opened Hub
  import opened JsonString
  import opened LinkProtocol
  import opened Wrappers

  // ---- Registration ----

  lemma NewCaller(s: State, step: Step, id: string)
    requires id !in s.callers && id in Apply(s, step).callers
    ensures step.Register? && step.call.id == id
    ensures step.location in s.locations && s.locations[step.location].online
    ensures Apply(s, step).callers[id].since == |s.trace| && Apply(s, step).callers[id].location == step.location
  {
    hide Known, Sweeps;
  }

  // The Location of call `id` was online when the call was registered.
  ghost predicate OnlineThen(s: State, steps: seq<Step>, since: nat, name: Text) {
    since < |steps| && name in Run(s, steps[..since]).locations && Run(s, steps[..since]).locations[name].online
  }

  /** A call is registered only while its Location is online. */
  lemma {:induction false} RegisteredWhileOnline(s: State, steps: seq<Step>, id: string)
    requires Initial(s) && id in Run(s, steps).callers
    ensures OnlineThen(s, steps, Run(s, steps).callers[id].since, Run(s, steps).callers[id].location)
    decreases |steps|
  {
    hide Apply, Invariant;
    assert steps != [];
    var n := |steps| - 1;
    var before := Run(s, steps[..n]);
    if id in before.callers {
      RegisteredWhileOnline(s, steps[..n], id);
      InitiallyKept(s);
      RunKeeps(s, steps[..n]);
      StageMovesOn(before, steps[n], id);
      assert steps[..n][..before.callers[id].since] == steps[..before.callers[id].since];
    } else {
      NewCaller(before, steps[n], id);
      InitiallyKept(s);
      RunKeeps(s, steps[..n]);
    }
  }

  // ---- Replies reach their callers ----

  lemma RequestWaits(s: State, step: Step, request: nat)
    requires request in s.requests && step != ReplySends(request)
    ensures request in Apply(s, step).requests && Apply(s, step).requests[request] == s.requests[request]
  {
    hide Known, Sweeps, Sends, Dequeues;
  }

  lemma {:induction false} RequestWaitsOn(s: State, steps: seq<Step>, request: nat)
    requires request in s.requests && ReplySends(request) !in steps
    ensures request in Run(s, steps).requests && Run(s, steps).requests[request] == s.requests[request]
    decreases |steps|
  {
    hide Apply;
    if steps != [] {
      var n := |steps| - 1;
      RequestWaitsOn(s, steps[..n], request);
      assert steps[n] in steps;
      RequestWaits(Run(s, steps[..n]), steps[n], request);
    }
  }

  // `post` waits in the channel of call `id`, whose caller waits for it.
  predicate Waits(s: State, id: string, post: Post) {
    && id in s.callers && s.callers[id].pc == Awaiting
    && s.callers[id].chan == Some(post) && s.callers[id].received == []
  }

  lemma AnswerWaits(s: State, step: Step, id: string, post: Post)
    requires Waits(s, id, post) && step != TakeAnswer(id) && step != GiveUp(id)
    ensures Waits(Apply(s, step), id, post)
  {
    hide Known, Sweeps, Dequeues;
  }

  lemma {:induction false} AnswerWaitsOn(s: State, steps: seq<Step>, id: string, post: Post)
    requires Waits(s, id, post) && TakeAnswer(id) !in steps && GiveUp(id) !in steps
    ensures Waits(Run(s, steps), id, post)
    decreases |steps|
  {
    hide Apply, Waits;
    if steps != [] {
      var n := |steps| - 1;
      AnswerWaitsOn(s, steps[..n], id, post);
      assert steps[n] in steps;
      AnswerWaits(Run(s, steps[..n]), steps[n], id, post);
    }
  }

  // Step `i` is a reply to call `id` that the hub has to take up: with the
  // Location's token, while the call is registered there.
  predicate GoodReply(s: State, step: Step, id: string) {
    && step.ReplyArrives? && step.request !in s.requests && step.id == id && step.body.Some?
    && step.location in s.locations && step.token != "" && step.token == s.locations[step.location].token
    && id in s.callers && s.callers[id].location == step.location && s.callers[id].pc != Returned
  }

  lemma GoodReplyIsTaken(s: State, step: Step, id: string)
    requires Invariant(s) && GoodReply(s, step, id)
    ensures var t := Apply(s, step);
            && step.request in t.requests
            && t.requests[step.request] == Post(step.location, step.token, id, step.body.value, |s.trace|)
  {
    hide Invariant, LocationOk, PollOk, RequestOk, ChannelOk, Genuine;
    SomeCallerOk(s, id);
  }

  // The first post that is sent for a call goes into its channel.
  lemma FirstPostIsAccepted(s: State, request: nat)
    requires Invariant(s) && request in s.requests && s.callers[s.requests[request].id].accepted == []
    requires s.requests[request].id in s.callers
    ensures var t, post := Apply(s, ReplySends(request)), s.requests[request];
            && post.id in t.callers && t.callers[post.id].accepted == [post]
            && (s.callers[post.id].pc == Awaiting ==> Waits(t, post.id, post))
  {
    hide Invariant, LocationOk, PollOk, RequestOk, Genuine;
    SomeCallerOk(s, s.requests[request].id);
  }

  lemma AnswerIsTaken(s: State, id: string, post: Post)
    requires Waits(s, id, post)
    ensures id in Apply(s, TakeAnswer(id)).callers && Apply(s, TakeAnswer(id)).callers[id].received == [post]
  {
  }

  /** Delivery: a reply that arrives with its Location's token while its call is
      registered (step i), and is the first to be sent on (step k), is the first
      accepted; and the caller that waits for it then and next takes its answer
      (step m) gets exactly that reply, whatever happens in between. */
  lemma RepliesAreDelivered(s: State, steps: seq<Step>, i: nat, k: nat, m: nat, id: string)
    requires Initial(s) && i < k < m < |steps|
    requires GoodReply(Run(s, steps[..i]), steps[i], id)
    requires steps[k] == ReplySends(steps[i].request) && steps[k] !in steps[i + 1..k]
    requires id in Run(s, steps[..k]).callers && Run(s, steps[..k]).callers[id].accepted == []
    ensures var post := Post(steps[i].location, steps[i].token, id, steps[i].body.value, i);
            && id in Run(s, steps[..k + 1]).callers && Run(s, steps[..k + 1]).callers[id].accepted == [post]
            && (Run(s, steps[..k]).callers[id].pc == Awaiting
                && TakeAnswer(id) !in steps[k + 1..m] && GiveUp(id) !in steps[k + 1..m] && steps[m] == TakeAnswer(id) ==>
                  && id in Run(s, steps[..m + 1]).callers && Run(s, steps[..m + 1]).callers[id].received == [post])
  {
    hide Invariant, Apply, Waits;
    var request := steps[i].request;
    var post := Post(steps[i].location, steps[i].token, id, steps[i].body.value, i);
    InitiallyKept(s);
    RunKeeps(s, steps[..i]);
    GoodReplyIsTaken(Run(s, steps[..i]), steps[i], id);
    RunNext(s, steps, i);
    RunOn(s, steps, i + 1, k);
    RequestWaitsOn(Run(s, steps[..i + 1]), steps[i + 1..k], request);
    RunKeeps(s, steps[..k]);
    FirstPostIsAccepted(Run(s, steps[..k]), request);
    RunNext(s, steps, k);
    if Run(s, steps[..k]).callers[id].pc == Awaiting
       && TakeAnswer(id) !in steps[k + 1..m] && GiveUp(id) !in steps[k + 1..m] && steps[m] == TakeAnswer(id) {
      RunOn(s, steps, k + 1, m);
      AnswerWaitsOn(Run(s, steps[..k + 1]), steps[k + 1..m], id, post);
      AnswerIsTaken(Run(s, steps[..m]), id, post);
      RunNext(s, steps, m);
    }
  }

  lemma RunNext(s: State, steps: seq<Step>, n: nat)
    requires n < |steps|
    ensures Run(s, steps[..n + 1]) == Apply(Run(s, steps[..n]), steps[n])
  {
    assert steps[..n + 1][..n] == steps[..n];
  }

  lemma RunOn(s: State, steps: seq<Step>, i: nat, k: nat)
    requires i <= k <= |steps|
    ensures Run(s, steps[..k]) == Run(Run(s, steps[..i]), steps[i..k])
  {
    assert steps[..k] == steps[..i] + steps[i..k];
    RunInTwo(s, steps[..i], steps[i..k]);
  }

  // ---- Requests that change nothing ----

  // Only the log and the trace may differ, by this.
  predicate OnlyLogs(s: State, t: State, events: seq<LinkEvent>) {
    && t.locations == s.locations && t.callers == s.callers && t.requests == s.requests && t.polls == s.polls
    && t.log == s.log + events
  }

  /** A poll or a reply for an unknown Location, or without its token, is audited as
      refused and changes nothing. */
  lemma RefusedRequestsChangeNothing(s: State, step: Step)
    requires (step.PollArrives? && step.poll !in s.polls) || (step.ReplyArrives? && step.request !in s.requests)
    requires step.location !in s.locations || step.token == "" || step.token != s.locations[step.location].token
    ensures OnlyLogs(s, Apply(s, step), if step.auditOk then [LinkRefused(step.location)] else [])
  {
  }

  /** A reply to a call that is not registered there, because its caller has left or
      it was never this Location's, is audited as dropped and changes nothing. */
  lemma LateRepliesAreDropped(s: State, step: Step)
    requires Invariant(s) && step.ReplyArrives? && step.request !in s.requests && step.body.Some?
    requires step.location in s.locations && step.token != "" && step.token == s.locations[step.location].token
    requires step.id in s.callers ==> s.callers[step.id].location != step.location || s.callers[step.id].pc == Returned
    ensures OnlyLogs(s, Apply(s, step), if step.auditOk then [ReplyDropped(step.location, step.id)] else [])
  {
    hide Invariant, RequestOk, PollOk, ChannelOk, Genuine;
    PendingHolds(s);
    assert IsPending(s, step.location, step.id) <==> step.id in s.locations[step.location].pending;
    if step.id in s.callers {
      SomeCallerOk(s, step.id);
    }
  }

  /** A caller that has returned got its answer before or never will. */
  lemma {:induction false} ReturnedIsFinal(s: State, steps: seq<Step>, id: string)
    requires id in s.callers && s.callers[id].pc == Returned
    ensures id in Run(s, steps).callers && Run(s, steps).callers[id].pc == Returned
    ensures Run(s, steps).callers[id].received == s.callers[id].received
    decreases |steps|
  {
    hide Apply;
    if steps != [] {
      var n := |steps| - 1;
      ReturnedIsFinal(s, steps[..n], id);
      ReturnedStays(Run(s, steps[..n]), steps[n], id);
    }
  }

  lemma ReturnedStays(s: State, step: Step, id: string)
    requires id in s.callers && s.callers[id].pc == Returned
    ensures var t := Apply(s, step);
            id in t.callers && t.callers[id].pc == Returned && t.callers[id].received == s.callers[id].received
  {
    hide Known, Sweeps, Dequeues;
  }

  /** A call waits to be queued exactly while 16 others are, and is queued last. */
  lemma SixteenAreQueued(s: State, id: string)
    requires Invariant(s) && id in s.callers && s.callers[id].pc == Pc.Sending
    ensures var name, t := s.callers[id].location, Apply(s, Send(id));
            && name in s.locations && name in t.locations && id in t.callers
            && var queue := s.locations[name].queue;
            && (|queue| < 16 ==>
                  t.locations[name].queue == queue + [Call(id, s.callers[id].query)] && t.callers[id].pc == Awaiting)
            && (|queue| >= 16 ==> |queue| == 16 && t.locations == s.locations && t.callers == s.callers)
  {
    hide Invariant, PollOk, RequestOk, ChannelOk, Genuine;
    SomeCallerOk(s, id);
    QueueBound(s, s.callers[id].location);
  }

  /** A caller that gives up, at either wait, returns without an answer and is no
      longer registered. */
  lemma GivingUpReturns(s: State, id: string)
    requires Invariant(s) && id in s.callers && (s.callers[id].pc == Pc.Sending || s.callers[id].pc == Awaiting)
    ensures var name, t := s.callers[id].location, Apply(Apply(s, GiveUp(id)), Deregister(id));
            && id in t.callers && t.callers[id].pc == Returned && t.callers[id].received == []
            && name in t.locations && id !in t.locations[name].pending
  {
    hide Invariant, LocationOk, PollOk, RequestOk, Genuine;
    SomeCallerOk(s, id);
  }

  /** A poll whose hold runs out is over: it is handed nothing later. */
  lemma {:induction false} EndedPollsStayEnded(s: State, steps: seq<Step>, poll: nat)
    requires poll in s.polls && s.polls[poll].Holding?
    ensures poll in Run(Apply(s, PollEnds(poll)), steps).polls && Run(Apply(s, PollEnds(poll)), steps).polls[poll] == Poll.Done
    decreases |steps|
  {
    if steps != [] {
      var n := |steps| - 1;
      EndedPollsStayEnded(s, steps[..n], poll);
      DoneStays(Run(Apply(s, PollEnds(poll)), steps[..n]), steps[n], poll);
    }
  }

  lemma DoneStays(s: State, step: Step, poll: nat)
    requires poll in s.polls && s.polls[poll].Done?
    ensures poll in Apply(s, step).polls && Apply(s, step).polls[poll] == Poll.Done
  {
    hide Known, Sweeps, Sends;
  }

  // ---- A round trip ----

  // Call `call` is registered for `name`, which is online; nothing was answered yet.
  predicate Open(s: State, name: Text, token: string, call: Call, pc: Pc) {
    && name in s.locations && s.locations[name].online && s.locations[name].token == token
    && call.id in s.locations[name].pending && call.id in s.callers
    && var c := s.callers[call.id];
    && c.location == name && c.query == call.query && c.pc == pc
    && c.chan == None && c.accepted == [] && c.received == []
  }

  lemma PollAndAsk(s: State, poll: nat, name: Text, token: string, now: int, call: Call)
    requires name in s.locations && token != "" && token == s.locations[name].token
    requires s.locations[name].queue == [] && poll !in s.polls && call.id !in s.callers
    ensures var t := Apply(Apply(s, PollArrives(poll, name, token, now, true)), Register(name, call));
            && Open(t, name, token, call, Pc.Sending)
            && t.locations[name].lastPoll == now && t.locations[name].queue == []
            && t.locations[name].pending == s.locations[name].pending + {call.id}
            && poll in t.polls && t.polls[poll] == Holding(name) && t.requests == s.requests && |t.trace| == |s.trace| + 2
  {
  }

  lemma SendAndDequeue(s: State, poll: nat, name: Text, token: string, call: Call)
    requires Open(s, name, token, call, Pc.Sending) && s.locations[name].queue == []
    requires poll in s.polls && s.polls[poll] == Holding(name)
    ensures var t := Apply(Apply(s, Send(call.id)), Dequeue(poll));
            && Open(t, name, token, call, Awaiting)
            && t.locations[name] == s.locations[name]
            && poll in t.polls && t.polls[poll] == Checking(name, call) && t.requests == s.requests && |t.trace| == |s.trace| + 2
  {
    var u := Apply(s, Send(call.id));
    assert u.locations[name].queue == [call];
    assert Dequeues(u, poll);
  }

  lemma CheckAndReply(s: State, poll: nat, request: nat, name: Text, token: string, call: Call, answer: Answer)
    requires Open(s, name, token, call, Awaiting) && token != ""
    requires poll in s.polls && s.polls[poll] == Checking(name, call) && request !in s.requests
    ensures var t := Apply(Apply(s, Check(poll)), ReplyArrives(request, name, token, call.id, Some(answer), true));
            && Open(t, name, token, call, Awaiting)
            && t.locations == s.locations && poll in t.polls && t.polls[poll] == Gave(name, call)
            && request in t.requests && t.requests[request] == Post(name, token, call.id, answer, |s.trace| + 1)
            && |t.trace| == |s.trace| + 2
  {
  }

  lemma AnswerAndReturn(s: State, poll: nat, request: nat, name: Text, token: string, call: Call, post: Post)
    requires Open(s, name, token, call, Awaiting) && post.id == call.id
    requires request in s.requests && s.requests[request] == post
    ensures var t := Apply(Apply(Apply(s, ReplySends(request)), TakeAnswer(call.id)), Deregister(call.id));
            && call.id in t.callers && t.callers[call.id].received == [post] && t.callers[call.id].pc == Returned
            && t.polls == s.polls && name in t.locations
            && t.locations[name] == s.locations[name].(pending := s.locations[name].pending - {call.id})
  {
    var u := Apply(s, ReplySends(request));
    assert u.callers[call.id].chan == Some(post);
    var v := Apply(u, TakeAnswer(call.id));
    assert v.callers[call.id].received == [post] && v.callers[call.id].pc == Leaving;
  }

  // Poll, call, hand out, reply, answer, return.
  function Trip(poll: nat, request: nat, name: Text, token: string, now: int, call: Call, answer: Answer): seq<Step> {
    [PollArrives(poll, name, token, now, true), Register(name, call), Send(call.id), Dequeue(poll), Check(poll),
     ReplyArrives(request, name, token, call.id, Some(answer), true), ReplySends(request), TakeAnswer(call.id),
     Deregister(call.id)]
  }

  /** The whole protocol works, from any state that keeps the invariant: a Location
      that polls with its token is handed the call that was registered, and the
      caller gets what the Location replied; afterwards nothing of the call is left
      pending or queued, and the Location is online as of that poll. */
  lemma RoundTrip(s: State, poll: nat, request: nat, name: Text, token: string, now: int, call: Call, answer: Answer)
    requires Invariant(s) && name in s.locations && token != "" && token == s.locations[name].token
    requires s.locations[name].queue == []
    requires poll !in s.polls && request !in s.requests && call.id !in s.callers
    ensures var t := Run(s, Trip(poll, request, name, token, now, call, answer));
            && call.id in t.callers && t.callers[call.id].pc == Returned
            && t.callers[call.id].received == [Post(name, token, call.id, answer, |s.trace| + 5)]
            && poll in t.polls && t.polls[poll] == Gave(name, call)
            && name in t.locations
            && t.locations[name] == Location(token, true, now, [], s.locations[name].pending)
  {
    hide Apply, Open, Invariant;
    var steps := Trip(poll, request, name, token, now, call, answer);
    NotYetPending(s, name, call.id);
    assert steps[..0] == [];
    PollAndAsk(s, poll, name, token, now, call);
    RunPair(s, steps, 0);
    SendAndDequeue(Run(s, steps[..2]), poll, name, token, call);
    RunPair(s, steps, 2);
    CheckAndReply(Run(s, steps[..4]), poll, request, name, token, call, answer);
    RunPair(s, steps, 4);
    AnswerAndReturn(Run(s, steps[..6]), poll, request, name, token, call, Post(name, token, call.id, answer, |s.trace| + 5));
    RunPair(s, steps, 6);
    RunNext(s, steps, 8);
    assert steps[..9] == steps;
  }

  lemma RunPair(s: State, steps: seq<Step>, n: nat)
    requires n + 2 <= |steps|
    ensures Run(s, steps[..n + 2]) == Apply(Apply(Run(s, steps[..n]), steps[n]), steps[n + 1])
  {
    hide Apply;
    RunNext(s, steps, n);
    RunNext(s, steps, n + 1);
  }

  lemma NotYetPending(s: State, name: Text, id: string)
    requires Invariant(s) && name in s.locations && id !in s.callers
    ensures id !in s.locations[name].pending
  {
    hide Invariant;
    PendingHolds(s);
    assert IsPending(s, name, id) <==> id in s.locations[name].pending;
  }
}
