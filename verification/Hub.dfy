/**
 The Control plane's end of the Sensor links (internal/link/hub.go). The hub's
 locked sections are methods here; module LinkProtocol interleaves them.
 */
module Hub {
  import opened Evidence
  import opened JsonString
  import opened Wrappers

  const OFFLINE_AFTER := 30000000000 // nanoseconds
  const MAX_QUEUED := 16

  // One Location: its credential, its liveness, its bounded channel of calls, and
  // the ids of the calls whose callers are registered.
  datatype Location = Location(token: string, online: bool, lastPoll: int, queue: seq<Call>, pending: set<string>)

  type Locations = map<Text, Location>

  datatype LinkEvent =
    | WentOnline(location: Text)
    | WentOffline(location: Text)
    | ReplyDropped(location: Text, call: string)
    | LinkRefused(location: Text)

  // ---- The locked sections ----

  function Registered(ls: Locations, name: Text, id: string): Locations
    requires name in ls
  {
    ls[name := ls[name].(pending := ls[name].pending + {id})]
  }

  function Deregistered(ls: Locations, name: Text, id: string): Locations
    requires name in ls
  {
    ls[name := ls[name].(pending := ls[name].pending - {id})]
  }

  function Enqueued(ls: Locations, name: Text, call: Call): Locations
    requires name in ls
  {
    ls[name := ls[name].(queue := ls[name].queue + [call])]
  }

  function Dequeued(ls: Locations, name: Text): Locations
    requires name in ls && ls[name].queue != []
  {
    ls[name := ls[name].(queue := ls[name].queue[1..])]
  }

  function PolledAt(ls: Locations, name: Text, now: int): Locations
    requires name in ls
  {
    ls[name := ls[name].(online := true, lastPoll := now)]
  }

  predicate Known(ls: Locations, name: Text, token: string) {
    name in ls && token != "" && token == ls[name].token
  }

  predicate Stale(ls: Locations, name: Text, now: int) {
    name in ls && ls[name].online && now - ls[name].lastPoll >= OFFLINE_AFTER
  }

  function Marked(ls: Locations, names: seq<Text>): Locations {
    map n | n in ls :: if n in names then ls[n].(online := false) else ls[n]
  }

  function Offlines(names: seq<Text>): (es: seq<LinkEvent>)
    ensures |es| == |names| && forall i :: 0 <= i < |names| ==> es[i] == WentOffline(names[i])
  {
    seq(|names|, i requires 0 <= i < |names| => WentOffline(names[i]))
  }

  // A sweep at `now` may mark `names`, in some order, and has marked everything
  // it should when it is complete.
  predicate Sweeps(ls: Locations, now: int, names: seq<Text>, complete: bool) {
    && (forall i :: 0 <= i < |names| ==> Stale(ls, names[i], now))
    && (forall i, j :: 0 <= i < j < |names| ==> names[i] != names[j])
    && (complete ==> forall n :: n in ls && Stale(ls, n, now) ==> n in names)
  }

  lemma MarkedNothing(ls: Locations)
    ensures Marked(ls, []) == ls && Offlines([]) == []
  {
  }

  // Marking one more.
  lemma MarkedNext(ls: Locations, names: seq<Text>, name: Text)
    requires name in ls
    ensures Marked(ls, names + [name]) == Marked(ls, names)[name := ls[name].(online := false)]
    ensures Offlines(names + [name]) == Offlines(names) + [WentOffline(name)]
  {
  }

  datatype CallError = UnknownLocation | OfflineLocation

  class Hub {
    var locations: Locations
    var log: seq<LinkEvent>

    // Configured Locations start offline, with nothing queued or pending.
    constructor (tokens: map<Text, string>)
      ensures locations == map n | n in tokens :: Location(tokens[n], false, 0, [], {})
      ensures log == []
    {
      locations := map n | n in tokens :: Location(tokens[n], false, 0, [], {});
      log := [];
    }

    /** Sweep: marks stale Locations until an audit write fails, and all of them
        unless one does. */
    method Sweep(now: int, auditOk: nat -> bool) returns (ok: bool, marked: seq<Text>)
      modifies this
      ensures Sweeps(old(locations), now, marked, ok)
      ensures !ok ==> exists n :: n !in marked && Stale(old(locations), n, now)
      ensures locations == Marked(old(locations), marked)
      ensures log == old(log) + Offlines(marked)
    {
      hide Marked, Offlines;
      marked := [];
      MarkedNothing(locations);
      var left := locations.Keys;
      while left != {}
        invariant left <= old(locations).Keys && locations.Keys == old(locations).Keys
        invariant forall n :: n in left ==> locations[n] == old(locations)[n]
        invariant Sweeps(old(locations), now, marked, false)
        invariant forall n :: n in marked ==> n !in left
        invariant forall n :: n in old(locations) && n !in left && Stale(old(locations), n, now) ==> n in marked
        invariant locations == Marked(old(locations), marked)
        invariant log == old(log) + Offlines(marked)
        decreases |left|
      {
        var name :| name in left;
        left := left - {name};
        var l := locations[name];
        if l.online && now - l.lastPoll >= OFFLINE_AFTER {
          if !auditOk(|log|) {
            assert Stale(old(locations), name, now) && name !in marked;
            return false, marked;
          }
          log := log + [WentOffline(name)];
          locations := locations[name := l.(online := false)];
          MarkedNext(old(locations), marked, name);
          assert log == old(log) + (Offlines(marked) + [WentOffline(name)]);
          marked := marked + [name];
        }
      }
      return true, marked;
    }

    // The first locked section of Call.
    method Register(name: Text, id: string) returns (err: Option<CallError>)
      modifies this`locations
      ensures err == if name !in old(locations) then Some(UnknownLocation)
                     else if !old(locations)[name].online then Some(OfflineLocation)
                     else None
      ensures locations == if err == None then Registered(old(locations), name, id) else old(locations)
    {
      if name !in locations {
        return Some(UnknownLocation);
      }
      var l := locations[name];
      if !l.online {
        return Some(OfflineLocation);
      }
      locations := locations[name := l.(pending := l.pending + {id})];
      return None;
    }

    // The last one, deferred.
    method Deregister(name: Text, id: string)
      requires name in locations
      modifies this`locations
      ensures locations == Deregistered(old(locations), name, id)
    {
      locations := locations[name := locations[name].(pending := locations[name].pending - {id})];
    }

    // The channel of calls, which holds 16.
    method Send(name: Text, call: Call) returns (ok: bool)
      requires name in locations
      modifies this`locations
      ensures ok <==> |old(locations)[name].queue| < MAX_QUEUED
      ensures locations == if ok then Enqueued(old(locations), name, call) else old(locations)
    {
      ok := |locations[name].queue| < MAX_QUEUED;
      if ok {
        locations := Enqueued(locations, name, call);
      }
    }

    method Receive(name: Text) returns (call: Call)
      requires name in locations && locations[name].queue != []
      modifies this`locations
      ensures call == old(locations)[name].queue[0]
      ensures locations == Dequeued(old(locations), name)
    {
      call := locations[name].queue[0];
      locations := Dequeued(locations, name);
    }

    method Waiting(name: Text, id: string) returns (waiting: bool)
      requires name in locations
      ensures waiting <==> id in locations[name].pending
    {
      return id in locations[name].pending;
    }

    /** polled: the flag is raised only together with its audit entry. */
    method Polled(name: Text, now: int, auditOk: bool) returns (ok: bool)
      requires name in locations
      modifies this
      ensures ok <==> old(locations)[name].online || auditOk
      ensures locations == if ok then PolledAt(old(locations), name, now) else old(locations)
      ensures log == if ok && !old(locations)[name].online then old(log) + [WentOnline(name)] else old(log)
    {
      var l := locations[name];
      if !l.online {
        if !auditOk {
          return false;
        }
        log := log + [WentOnline(name)];
        l := l.(online := true);
      }
      locations := locations[name := l.(lastPoll := now)];
      return true;
    }

    // Both refusals look the same to the caller.
    method Authenticate(name: Text, token: string, auditOk: bool) returns (ok: bool)
      modifies this`log
      ensures ok <==> Known(locations, name, token)
      ensures log == if !ok && auditOk then old(log) + [LinkRefused(name)] else old(log)
    {
      if name in locations && token != "" && token == locations[name].token {
        return true;
      }
      if auditOk {
        log := log + [LinkRefused(name)];
      }
      return false;
    }

    // The locked lookup of reply.
    method LookUp(name: Text, id: string, auditOk: bool) returns (found: bool)
      requires name in locations
      modifies this`log
      ensures found <==> id in locations[name].pending
      ensures log == if !found && auditOk then old(log) + [ReplyDropped(name, id)] else old(log)
    {
      found := id in locations[name].pending;
      if !found && auditOk {
        log := log + [ReplyDropped(name, id)];
      }
    }
  }
}
