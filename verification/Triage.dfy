/** Triage, the decision on an incoming Signal (internal/triage/triage.go). */
module Triage {
  import opened JsonString
  import opened Signals
  import opened Wrappers

  // One Signal episode (key plus startsAt) in an Incident.
  datatype Member = Member(
    key: Text, source: SourceRef, name: Text, severity: Text, startsAt: int, link: Text,
    firstSeen: int, lastSeen: int)

  datatype Incident = Incident(
    id: int,                  // 0 until stored
    target: Option<Target>,
    key: Text,                // the opening Signal's key; set only without a target
    openedAt: int,
    members: seq<Member>,
    ticketRef: string)        // empty until the ticket exists

  datatype Kind = Open | Join | Repeat | Drop

  datatype Reason = Nothing | UnknownKey | NotHandledYet

  // `incident` is the Incident after the decision, `member` the one it added or
  // touched.
  datatype Decision = Decision(kind: Kind, incident: Option<Incident>, member: Option<Member>, reason: Reason)

  predicate SameIncident(inc: Incident, s: Signal) {
    match s.target
    case None => inc.target == None && inc.key == s.key
    case Some(_) => inc.target == s.target
  }

  predicate SameEpisode(m: Member, s: Signal) {
    m.key == s.key && m.startsAt == s.startsAt
  }

  function NewMember(s: Signal, now: int): Member {
    Member(s.key, s.source, s.name, s.severity, s.startsAt, s.link, now, now)
  }

  function NewIncident(s: Signal, now: int): Incident {
    Incident(0, s.target, if s.target == None then s.key else [], now, [NewMember(s, now)], "")
  }

  predicate KnownKey(open: seq<Incident>, key: Text) {
    exists inc, m :: inc in open && m in inc.members && m.key == key
  }

  // `i` is the first open Incident that `s` belongs to.
  predicate Home(open: seq<Incident>, s: Signal, i: int) {
    && 0 <= i < |open| && SameIncident(open[i], s)
    && forall j :: 0 <= j < i ==> !SameIncident(open[j], s)
  }

  // `j` is the first member that is the episode of `s`.
  predicate Notice(members: seq<Member>, s: Signal, j: int) {
    && 0 <= j < |members| && SameEpisode(members[j], s)
    && forall k :: 0 <= k < j ==> !SameEpisode(members[k], s)
  }

  // What each kind of decision says.
  ghost predicate Decided(open: seq<Incident>, s: Signal, now: int, d: Decision) {
    match d.kind
    case Drop =>
      && s.status != Firing && d.incident == None && d.member == None
      && d.reason == if KnownKey(open, s.key) then NotHandledYet else UnknownKey
    case Open =>
      && s.status == Firing && d.reason == Nothing
      && (forall inc :: inc in open ==> !SameIncident(inc, s))
      && d.incident == Some(NewIncident(s, now)) && d.member == Some(NewMember(s, now))
    case Join =>
      && s.status == Firing && d.reason == Nothing
      && exists i :: Home(open, s, i)
                     && (forall m :: m in open[i].members ==> !SameEpisode(m, s))
                     && d.incident == Some(open[i].(members := open[i].members + [NewMember(s, now)]))
                     && d.member == Some(NewMember(s, now))
    case Repeat =>
      && s.status == Firing && d.reason == Nothing
      && exists i, j :: Home(open, s, i) && Notice(open[i].members, s, j)
                        && var touched := open[i].members[j].(lastSeen := now);
                           && d.incident == Some(open[i].(members := open[i].members[j := touched]))
                           && d.member == Some(touched)
  }

  // ---- The same in the terms of the Signal and the Incidents ----

  // The Signal is about this Incident: they share the Target, or the key when there
  // is none.
  predicate About(inc: Incident, s: Signal) {
    inc.target == s.target && (s.target == None ==> inc.key == s.key)
  }

  predicate Episode(m: Member, s: Signal) {
    m.key == s.key && m.startsAt == s.startsAt
  }

  predicate MadeFrom(m: Member, s: Signal, now: int) {
    && m.key == s.key && m.source == s.source && m.name == s.name && m.severity == s.severity
    && m.startsAt == s.startsAt && m.link == s.link && m.firstSeen == now && m.lastSeen == now
  }

  predicate SameButLastSeen(m: Member, was: Member, now: int) {
    && m.key == was.key && m.source == was.source && m.name == was.name && m.severity == was.severity
    && m.startsAt == was.startsAt && m.link == was.link && m.firstSeen == was.firstSeen && m.lastSeen == now
  }

  predicate SameButMembers(inc: Incident, was: Incident) {
    && inc.id == was.id && inc.target == was.target && inc.key == was.key
    && inc.openedAt == was.openedAt && inc.ticketRef == was.ticketRef
  }

  ghost predicate DropsIt(open: seq<Incident>, s: Signal, d: Decision) {
    && d.incident == None && d.member == None
    && (d.reason == NotHandledYet <==> exists inc, m :: inc in open && m in inc.members && m.key == s.key)
    && (d.reason == UnknownKey || d.reason == NotHandledYet)
  }

  ghost predicate OpensIt(open: seq<Incident>, s: Signal, now: int, d: Decision) {
    && (forall inc :: inc in open ==> !About(inc, s))
    && d.incident.Some? && d.member.Some? && MadeFrom(d.member.value, s, now)
    && var inc := d.incident.value;
       && inc.id == 0 && About(inc, s) && (s.target.Some? ==> inc.key == []) && inc.openedAt == now
       && inc.members == [d.member.value] && inc.ticketRef == ""
  }

  ghost predicate JoinsIt(open: seq<Incident>, s: Signal, now: int, d: Decision) {
    && d.incident.Some? && d.member.Some? && MadeFrom(d.member.value, s, now)
    && exists i :: 0 <= i < |open| && About(open[i], s)
                   && (forall m :: m in open[i].members ==> !Episode(m, s))
                   && SameButMembers(d.incident.value, open[i])
                   && d.incident.value.members == open[i].members + [d.member.value]
  }

  ghost predicate RepeatsIt(open: seq<Incident>, s: Signal, now: int, d: Decision) {
    && d.incident.Some? && d.member.Some?
    && exists i, j :: 0 <= i < |open| && 0 <= j < |open[i].members| && About(open[i], s)
                      && Episode(open[i].members[j], s)
                      && SameButLastSeen(d.member.value, open[i].members[j], now)
                      && SameButMembers(d.incident.value, open[i])
                      && d.incident.value.members == open[i].members[j := d.member.value]
  }

  ghost predicate Handles(open: seq<Incident>, s: Signal, now: int, d: Decision) {
    && (d.kind == Drop <==> s.status != Firing)
    && match d.kind
       case Drop => DropsIt(open, s, d)
       case Open => OpensIt(open, s, now, d)
       case Join => JoinsIt(open, s, now, d)
       case Repeat => RepeatsIt(open, s, now, d)
  }

  lemma DecidedHandles(open: seq<Incident>, s: Signal, now: int, d: Decision)
    requires Decided(open, s, now, d)
    ensures Handles(open, s, now, d)
  {
    assert forall inc :: SameIncident(inc, s) <==> About(inc, s);
    assert forall m :: SameEpisode(m, s) <==> Episode(m, s);
  }

  /** Triage: exactly one decision fits any open Incidents and Signal, and it is
      the one returned. */
  method Triage(open: seq<Incident>, s: Signal, now: int) returns (d: Decision)
    ensures Decided(open, s, now, d)
    ensures forall other :: Decided(open, s, now, other) ==> other == d
    ensures Handles(open, s, now, d)
  {
    hide Handles;
    if s.status != Firing {
      if !KnownKey(open, s.key) {
        d := Decision(Drop, None, None, UnknownKey);
        DecidedHandles(open, s, now, d);
        return;
      }
      d := Decision(Drop, None, None, NotHandledYet);
      DecidedHandles(open, s, now, d);
      return;
    }
    var m := NewMember(s, now);
    var i := 0;
    while i < |open| && !SameIncident(open[i], s)
      invariant 0 <= i <= |open|
      invariant forall k :: 0 <= k < i ==> !SameIncident(open[k], s)
    {
      i := i + 1;
    }
    if i == |open| {
      d := Decision(Open, Some(NewIncident(s, now)), Some(m), Nothing);
      DecidedHandles(open, s, now, d);
      return;
    }
    assert Home(open, s, i);
    var inc := open[i];
    for j := 0 to |inc.members|
      invariant forall k :: 0 <= k < j ==> !SameEpisode(inc.members[k], s)
    {
      if SameEpisode(inc.members[j], s) {
        assert Notice(open[i].members, s, j);
        inc := inc.(members := inc.members[j := inc.members[j].(lastSeen := now)]);
        d := Decision(Repeat, Some(inc), Some(inc.members[j]), Nothing);
        DecidedHandles(open, s, now, d);
        return;
      }
    }
    inc := inc.(members := inc.members + [m]);
    d := Decision(Join, Some(inc), Some(m), Nothing);
    DecidedHandles(open, s, now, d);
    return;
  }
}
