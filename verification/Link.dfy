/**
 The Control plane's end of the Sensor links, running: the hub, its callers, its
 reply requests and its held polls (internal/link/hub.go). Each method is one
 atomic step, taken through the hub's own methods, so whatever module LinkProtocol
 proves of its transition system holds of the hub.
 */
module Link {
  import opened Evidence
  import opened Hub
  import opened JsonString
  import opened LinkProtocol
  import opened Wrappers

  class Link {
    const hub: Hub
    var callers: map<string, Caller>
    var requests: map<nat, Post>
    var polls: map<nat, Poll>
    var trace: seq<Step>         // the steps so far

    constructor (tokens: map<Text, string>)
      ensures fresh(hub) && Initial(Now()) && Invariant(Now())
      ensures hub.locations.Keys == tokens.Keys && forall n :: n in tokens ==> hub.locations[n].token == tokens[n]
    {
      hub := new Hub(tokens);
      callers, requests, polls, trace := map[], map[], map[], [];
    }

    ghost function Now(): State
      reads this, hub
    {
      State(hub.locations, callers, requests, polls, hub.log, trace)
    }

    // Call, hub.go:117-129. A fresh id has no caller yet.
    method Register(name: Text, call: Call)
      modifies this, hub
      ensures Now() == LinkProtocol.Apply(old(Now()), Step.Register(name, call))
    {
      if call.id !in callers {
        var err := hub.Register(name, call.id);
        if err == None {
          callers := callers[call.id := Caller(name, call.query, |trace|, Sending, Unsent, None, [], [])];
        }
      }
      trace := trace + [Step.Register(name, call)];
    }

    // Call, hub.go:136-137.
    method Send(id: string)
      modifies this, hub
      ensures Now() == LinkProtocol.Apply(old(Now()), Step.Send(id))
    {
      if id in callers && callers[id].pc == Sending && callers[id].location in hub.locations {
        var c := callers[id];
        var ok := hub.Send(c.location, Call(id, c.query));
        if ok {
          callers := callers[id := c.(pc := Awaiting, stage := Queued)];
        }
      }
      trace := trace + [Step.Send(id)];
    }

    // Call, hub.go:138 and 144.
    method GiveUp(id: string)
      modifies this
      ensures Now() == LinkProtocol.Apply(old(Now()), Step.GiveUp(id))
    {
      if id in callers && (callers[id].pc == Sending || callers[id].pc == Awaiting) {
        callers := callers[id := callers[id].(pc := Leaving)];
      }
      trace := trace + [Step.GiveUp(id)];
    }

    // Call, hub.go:142.
    method TakeAnswer(id: string)
      modifies this
      ensures Now() == LinkProtocol.Apply(old(Now()), Step.TakeAnswer(id))
    {
      if id in callers && callers[id].pc == Awaiting && callers[id].chan.Some? {
        var c := callers[id];
        callers := callers[id := c.(pc := Leaving, chan := None, received := c.received + [c.chan.value])];
      }
      trace := trace + [Step.TakeAnswer(id)];
    }

    // Call, hub.go:130-134.
    method Deregister(id: string)
      modifies this, hub
      ensures Now() == LinkProtocol.Apply(old(Now()), Step.Deregister(id))
    {
      if id in callers && callers[id].pc == Leaving && callers[id].location in hub.locations {
        hub.Deregister(callers[id].location, id);
        callers := callers[id := callers[id].(pc := Returned)];
      }
      trace := trace + [Step.Deregister(id)];
    }

    // reply, up to its lookup.
    method ReplyArrives(request: nat, name: Text, token: string, id: string, body: Option<Answer>, auditOk: bool)
      modifies this, hub
      ensures Now() == LinkProtocol.Apply(old(Now()), Step.ReplyArrives(request, name, token, id, body, auditOk))
    {
      if request !in requests {
        var ok := hub.Authenticate(name, token, auditOk);
        if ok && body.Some? {
          var found := hub.LookUp(name, id, auditOk);
          if found {
            requests := requests[request := Post(name, token, id, body.value, |trace|)];
          }
        }
      }
      trace := trace + [Step.ReplyArrives(request, name, token, id, body, auditOk)];
    }

    // reply, its send to the caller's channel.
    method ReplySends(request: nat)
      modifies this
      ensures Now() == LinkProtocol.Apply(old(Now()), Step.ReplySends(request))
    {
      if request in requests {
        var post := requests[request];
        requests := requests - {request};
        if post.id in callers && callers[post.id].chan == None {
          var c := callers[post.id];
          callers := callers[post.id := c.(chan := Some(post), accepted := c.accepted + [post])];
        }
      }
      trace := trace + [Step.ReplySends(request)];
    }

    // next, up to its loop.
    method PollArrives(poll: nat, name: Text, token: string, now: int, auditOk: bool)
      modifies this, hub
      ensures Now() == LinkProtocol.Apply(old(Now()), Step.PollArrives(poll, name, token, now, auditOk))
    {
      if poll !in polls {
        var ok := hub.Authenticate(name, token, auditOk);
        if ok {
          ok := hub.Polled(name, now, auditOk);
          if ok {
            polls := polls[poll := Holding(name)];
          }
        }
      }
      trace := trace + [Step.PollArrives(poll, name, token, now, auditOk)];
    }

    // next, its receive.
    method Dequeue(poll: nat)
      modifies this, hub
      ensures Now() == LinkProtocol.Apply(old(Now()), Step.Dequeue(poll))
    {
      if poll in polls && polls[poll].Holding? && polls[poll].location in hub.locations
         && hub.locations[polls[poll].location].queue != [] {
        var name := polls[poll].location;
        var call := hub.Receive(name);
        polls := polls[poll := Checking(name, call)];
        if call.id in callers {
          callers := callers[call.id := callers[call.id].(stage := Taken(poll))];
        }
      }
      trace := trace + [Step.Dequeue(poll)];
    }

    // next, its check.
    method Check(poll: nat)
      modifies this
      ensures Now() == LinkProtocol.Apply(old(Now()), Step.Check(poll))
    {
      if poll in polls && polls[poll].Checking? && polls[poll].location in hub.locations && polls[poll].call.id in callers {
        var name, call := polls[poll].location, polls[poll].call;
        var waiting := hub.Waiting(name, call.id);
        callers := callers[call.id := callers[call.id].(stage := if waiting then Handed(poll) else Skipped)];
        polls := polls[poll := if waiting then Gave(name, call) else Holding(name)];
      }
      trace := trace + [Step.Check(poll)];
    }

    // next, without a call.
    method PollEnds(poll: nat)
      modifies this
      ensures Now() == LinkProtocol.Apply(old(Now()), Step.PollEnds(poll))
    {
      if poll in polls && polls[poll].Holding? {
        polls := polls[poll := Poll.Done];
      }
      trace := trace + [Step.PollEnds(poll)];
    }

    // The step that is taken says what the sweep marked.
    method Sweep(now: int, auditOk: nat -> bool) returns (step: Step)
      modifies this, hub
      ensures step.Sweep? && step.now == now && Sweeps(old(hub.locations), now, step.marked, step.complete)
      ensures !step.complete ==> exists n :: n !in step.marked && Stale(old(hub.locations), n, now)
      ensures Now() == LinkProtocol.Apply(old(Now()), step)
    {
      var ok, marked := hub.Sweep(now, auditOk);
      step := Step.Sweep(now, marked, ok);
      trace := trace + [step];
    }

    /** Whatever step comes next, the hub takes it as the protocol says, so every
        state it reaches keeps the protocol's invariant. Only a sweep chooses
        something itself: the order in which it marks Locations. */
    method Execute(step: Step, auditOk: nat -> bool) returns (taken: Step)
      modifies this, hub
      ensures Now() == LinkProtocol.Apply(old(Now()), taken)
      ensures if step.Sweep? then taken.Sweep? && taken.now == step.now && Sweeps(old(hub.locations), taken.now, taken.marked, taken.complete)
              else taken == step
      ensures old(Invariant(Now())) ==> Invariant(Now())
    {
      hide LinkProtocol.Apply, Invariant, Sweeps;
      taken := step;
      match step {
        case Register(name, call) => Register(name, call);
        case Send(id) => Send(id);
        case GiveUp(id) => GiveUp(id);
        case TakeAnswer(id) => TakeAnswer(id);
        case Deregister(id) => Deregister(id);
        case ReplyArrives(request, name, token, id, body, ok) => ReplyArrives(request, name, token, id, body, ok);
        case ReplySends(request) => ReplySends(request);
        case PollArrives(poll, name, token, now, ok) => PollArrives(poll, name, token, now, ok);
        case Dequeue(poll) => Dequeue(poll);
        case Check(poll) => Check(poll);
        case PollEnds(poll) => PollEnds(poll);
        case Sweep(now, _, _) => taken := Sweep(now, auditOk);
      }
      if old(Invariant(Now())) {
        StepKeeps(old(Now()), taken);
      }
    }
  }
}
