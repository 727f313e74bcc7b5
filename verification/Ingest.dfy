/**
 The Signal path: one transaction, one ticket and two or three audit entries per
 Signal, sequenced so that a failure anywhere is safe to retry
 (internal/controlplane/controlplane.go).
 */
module Ingest {
  import opened Bounds
  import opened JsonString
  import opened Signals
  import opened Store
  import opened Trail
  import opened Triage
  import opened Wrappers

  // ---- What the tables say ----

  datatype Identity = OfTarget(target: Target) | OfKey(key: Text)

  datatype Episode = Episode(key: Text, startsAt: int)

  function RowIdentity(row: IncidentRow): Identity {
    match row.target case Some(t) => OfTarget(t) case None => OfKey(row.key)
  }

  function SignalIdentity(s: Signal): Identity {
    match s.target case Some(t) => OfTarget(t) case None => OfKey(s.key)
  }

  function SignalEpisode(s: Signal): Episode {
    Episode(s.key, s.startsAt)
  }

  function MemberEpisode(m: Member): Episode {
    Episode(m.key, m.startsAt)
  }

  type Pair = (Identity, Episode)

  function SignalPair(s: Signal): Pair {
    (SignalIdentity(s), SignalEpisode(s))
  }

  // Row `m` is an episode of row `r`, and together they say `p`.
  predicate Says(r: IncidentRow, m: MemberRow, p: Pair) {
    m.incident == r.id && p == (RowIdentity(r), MemberEpisode(m.member))
  }

  // The abstract store: which episodes each identity has.
  ghost predicate Holds(t: Tables, p: Pair) {
    exists r, m :: r in t.incidents && m in t.members && Says(r, m, p)
  }

  ghost predicate HasIncident(t: Tables, x: Identity) {
    exists r :: r in t.incidents && RowIdentity(r) == x
  }

  ghost predicate HasMember(t: Tables, r: IncidentRow) {
    exists m :: m in t.members && m.incident == r.id
  }

  // At most one Incident per target, or per key without a target, and none
  // without an episode.
  ghost predicate OnePerIdentity(t: Tables) {
    && WellFormed(t)
    && (forall i, j :: 0 <= i < j < |t.incidents| ==> RowIdentity(t.incidents[i]) != RowIdentity(t.incidents[j]))
    && (forall r :: r in t.incidents ==> HasMember(t, r))
  }

  // ---- What one firing Signal does to the tables ----

  function Opened(t: Tables, s: Signal, now: int, ref: string): Tables {
    var id := t.lastId + 1;
    var row := IncidentRow(id, s.target, if s.target == None then s.key else [], now, ref);
    Tables(t.incidents + [row], t.members + [MemberRow(id, NewMember(s, now))], id)
  }

  function Joined(t: Tables, id: int, s: Signal, now: int): Tables {
    t.(members := t.members + [MemberRow(id, NewMember(s, now))])
  }

  function Touched(t: Tables, k: nat, now: int): Tables
    requires k < |t.members|
  {
    var row := t.members[k];
    t.(members := t.members[k := row.(member := row.member.(lastSeen := now))])
  }

  // The row that `s` belongs to.
  predicate HomeRow(t: Tables, s: Signal, id: int) {
    exists r :: r in t.incidents && r.id == id && RowIdentity(r) == SignalIdentity(s)
  }

  // The row of the episode of `s` in Incident `id`.
  predicate EpisodeRow(t: Tables, s: Signal, id: int, k: int) {
    0 <= k < |t.members| && t.members[k].incident == id && MemberEpisode(t.members[k].member) == SignalEpisode(s)
  }

  ghost predicate Effect(t: Tables, u: Tables, s: Signal, now: int, kind: Kind, id: int, ref: string) {
    match kind
    case Open => id == t.lastId + 1 && !HasIncident(t, SignalIdentity(s)) && u == Opened(t, s, now, ref)
    case Join => HomeRow(t, s, id) && !Holds(t, SignalPair(s)) && u == Joined(t, id, s, now)
    case Repeat => HomeRow(t, s, id) && exists k :: EpisodeRow(t, s, id, k) && u == Touched(t, k, now)
    case Drop => false
  }

  // What committing decision `d` leaves, when its ticket is `ref`.
  function Final(t: Tables, d: Decision, ref: string): Tables
    requires d.incident.Some?
  {
    var u := Saved(t, d.incident.value);
    if d.kind == Open then u.(incidents := Ticketed(u.incidents, t.lastId + 1, ref)) else u
  }

  lemma SameIncidentIsIdentity(row: IncidentRow, rows: seq<MemberRow>, s: Signal)
    ensures SameIncident(Loaded(row, rows), s) <==> RowIdentity(row) == SignalIdentity(s)
  {
  }

  // The SELECT and triage speak of the same rows.
  lemma HomeIsARow(t: Tables, rows: seq<MemberRow>, s: Signal, i: int)
    requires Home(LoadAll(t.incidents, rows), s, i)
    ensures i < |t.incidents| && HomeRow(t, s, t.incidents[i].id)
    ensures LoadAll(t.incidents, rows)[i] == Loaded(t.incidents[i], rows)
  {
    SameIncidentIsIdentity(t.incidents[i], rows, s);
  }

  // With one Incident per identity, an episode is held exactly by its home row.
  lemma HeldAtHome(t: Tables, s: Signal, id: int)
    requires OnePerIdentity(t) && HomeRow(t, s, id)
    ensures Holds(t, SignalPair(s)) <==> exists k :: EpisodeRow(t, s, id, k)
  {
    hide HasMember, HasRow;
    var home :| home in t.incidents && home.id == id && RowIdentity(home) == SignalIdentity(s);
    if Holds(t, SignalPair(s)) {
      var r, m :| r in t.incidents && m in t.members && Says(r, m, SignalPair(s));
      var i :| 0 <= i < |t.incidents| && t.incidents[i] == r;
      var j :| 0 <= j < |t.incidents| && t.incidents[j] == home;
      assert i == j;
      var k :| 0 <= k < |t.members| && t.members[k] == m;
      assert EpisodeRow(t, s, id, k);
    }
    if k :| EpisodeRow(t, s, id, k) {
      assert t.members[k] in t.members && Says(home, t.members[k], SignalPair(s));
    }
  }

  lemma MemberIds(t: Tables)
    requires WellFormed(t)
    ensures forall m :: m in t.members ==> 0 < m.incident <= t.lastId
  {
    forall m | m in t.members ensures 0 < m.incident <= t.lastId {
      assert HasRow(t, m);
    }
  }

  lemma OpenEffect(t: Tables, rows: seq<MemberRow>, s: Signal, now: int, d: Decision, ref: string)
    requires OnePerIdentity(t)
    requires Decided(LoadAll(t.incidents, rows), s, now, d) && d.kind == Open
    ensures Effect(t, Final(t, d, ref), s, now, Open, t.lastId + 1, ref)
  {
    hide HasMember, HasRow;
    var open := LoadAll(t.incidents, rows);
    if r :| r in t.incidents && RowIdentity(r) == SignalIdentity(s) {
      var i :| 0 <= i < |t.incidents| && t.incidents[i] == r;
      SameIncidentIsIdentity(r, rows, s);
    }
    var id := t.lastId + 1;
    MemberIds(t);
    assert !HasKey(t.members, MemberRow(id, NewMember(s, now)));
    UpsertNew(t.members, id, NewMember(s, now));
    assert UpsertAll(t.members, id, [NewMember(s, now)]) == Upsert(UpsertAll(t.members, id, []), id, NewMember(s, now));
    assert Final(t, d, ref).incidents == Opened(t, s, now, ref).incidents;
  }

  // The stored members of an Incident, as triage saw them.
  lemma StoredMembers(t: Tables, rows: seq<MemberRow>, row: IncidentRow)
    requires Rearranged(t.members, rows)
    ensures forall m :: m in Loaded(row, rows).members <==> MemberRow(row.id, m) in t.members
    ensures EpisodesDistinct(Loaded(row, rows).members)
  {
    LoadedEpisodesDistinct(rows, row.id);
  }

  lemma JoinEffect(t: Tables, rows: seq<MemberRow>, s: Signal, now: int, d: Decision)
    requires OnePerIdentity(t) && Rearranged(t.members, rows)
    requires Decided(LoadAll(t.incidents, rows), s, now, d) && d.kind == Join
    ensures d.incident.value.id != 0
    ensures Effect(t, Final(t, d, ""), s, now, Join, d.incident.value.id, "")
  {
    hide HasMember, HasRow;
    var open := LoadAll(t.incidents, rows);
    var i :| Home(open, s, i) && (forall m :: m in open[i].members ==> !SameEpisode(m, s))
             && d.incident == Some(open[i].(members := open[i].members + [NewMember(s, now)]));
    HomeIsARow(t, rows, s, i);
    var row := t.incidents[i];
    StoredMembers(t, rows, row);
    var added := MemberRow(row.id, NewMember(s, now));
    forall m | m in t.members ensures !SameKey(m, added) && !(m.incident == row.id && MemberEpisode(m.member) == SignalEpisode(s)) {
      if m.incident == row.id {
        assert m == MemberRow(row.id, m.member);
        assert m.member in open[i].members;
      }
    }
    HeldAtHome(t, s, row.id);
    SavingAJoin(t.members, row.id, open[i].members, NewMember(s, now));
  }

  lemma RepeatEffect(t: Tables, rows: seq<MemberRow>, s: Signal, now: int, d: Decision)
    requires OnePerIdentity(t) && Rearranged(t.members, rows)
    requires Decided(LoadAll(t.incidents, rows), s, now, d) && d.kind == Repeat
    ensures d.incident.value.id != 0
    ensures Effect(t, Final(t, d, ""), s, now, Repeat, d.incident.value.id, "")
  {
    hide HasMember, HasRow;
    var open := LoadAll(t.incidents, rows);
    var i, j :| Home(open, s, i) && Notice(open[i].members, s, j)
                && d.incident == Some(open[i].(members := open[i].members[j := open[i].members[j].(lastSeen := now)]));
    HomeIsARow(t, rows, s, i);
    StoredMembers(t, rows, t.incidents[i]);
    var k := SavingARepeat(t.members, t.incidents[i].id, open[i].members, j, now);
    assert EpisodeRow(t, s, t.incidents[i].id, k);
  }

  /** Triage followed by Save, as SQL and as rows: each decision has exactly the
      effect its kind promises. */
  lemma DecisionEffect(t: Tables, rows: seq<MemberRow>, s: Signal, now: int, d: Decision, ref: string)
    requires OnePerIdentity(t) && Rearranged(t.members, rows)
    requires Decided(LoadAll(t.incidents, rows), s, now, d) && d.kind != Drop
    ensures d.incident.value.id == 0 <==> d.kind == Open
    ensures Effect(t, Final(t, d, ref), s, now, d.kind, if d.kind == Open then t.lastId + 1 else d.incident.value.id, ref)
  {
    match d.kind {
      case Open => OpenEffect(t, rows, s, now, d, ref);
      case Join => JoinEffect(t, rows, s, now, d);
      case Repeat => RepeatEffect(t, rows, s, now, d);
    }
  }

  // ---- What the effects add up to ----

  lemma EffectHolds(t: Tables, u: Tables, s: Signal, now: int, kind: Kind, id: int, ref: string, p: Pair)
    requires OnePerIdentity(t) && Effect(t, u, s, now, kind, id, ref)
    ensures Holds(u, p) <==> Holds(t, p) || p == SignalPair(s)
  {
    hide HasMember, HasRow;
    if Holds(t, p) {
      var r, m :| r in t.incidents && m in t.members && Says(r, m, p);
      var k :| 0 <= k < |t.members| && t.members[k] == m;
      assert r in u.incidents && u.members[k] in u.members && Says(r, u.members[k], p);
    }
    assert Holds(u, SignalPair(s)) by {
      if kind == Open {
        assert Says(u.incidents[|t.incidents|], u.members[|t.members|], SignalPair(s));
      } else {
        var home :| home in t.incidents && home.id == id && RowIdentity(home) == SignalIdentity(s);
        assert home in u.incidents;
        if kind == Join {
          assert Says(home, u.members[|t.members|], SignalPair(s));
        } else {
          var k :| EpisodeRow(t, s, id, k) && u == Touched(t, k, now);
          assert Says(home, u.members[k], SignalPair(s));
        }
      }
    }
    if Holds(u, p) {
      var r, m :| r in u.incidents && m in u.members && Says(r, m, p);
      OldOrNew(t, u, s, now, kind, id, ref, r, m);
    }
  }

  // Rows that say something after an effect said it before, or are the Signal's.
  lemma OldOrNew(t: Tables, u: Tables, s: Signal, now: int, kind: Kind, id: int, ref: string, r: IncidentRow, m: MemberRow)
    requires OnePerIdentity(t) && Effect(t, u, s, now, kind, id, ref)
    requires r in u.incidents && m in u.members && m.incident == r.id
    ensures var p := (RowIdentity(r), MemberEpisode(m.member)); Holds(t, p) || p == SignalPair(s)
  {
    hide HasMember, HasRow;
    var p := (RowIdentity(r), MemberEpisode(m.member));
    if r in t.incidents {
      if m in t.members {
        assert Says(r, m, p);
      } else if kind == Repeat {
        var k :| EpisodeRow(t, s, id, k) && u == Touched(t, k, now);
        assert t.members[k] in t.members && Says(r, t.members[k], p);
      } else if kind == Join {
        var home :| home in t.incidents && home.id == id && RowIdentity(home) == SignalIdentity(s);
        SameIdSameRow(t, r, home);
      }
    } else {
      MemberIds(t);
    }
  }

  lemma SameIdSameRow(t: Tables, a: IncidentRow, b: IncidentRow)
    requires WellFormed(t) && a in t.incidents && b in t.incidents && a.id == b.id
    ensures a == b
  {
    var i :| 0 <= i < |t.incidents| && t.incidents[i] == a;
    var j :| 0 <= j < |t.incidents| && t.incidents[j] == b;
  }

  lemma HeldHasIncident(t: Tables, p: Pair)
    ensures Holds(t, p) ==> HasIncident(t, p.0)
  {
  }

  /** The kind of a decision is what the tables say: a repeat exactly when the
      episode is held, which is exactly when the upsert finds a conflict, and a
      new Incident exactly when the identity has none. */
  lemma KindIsInTheTables(t: Tables, u: Tables, s: Signal, now: int, kind: Kind, id: int, ref: string)
    requires OnePerIdentity(t) && Effect(t, u, s, now, kind, id, ref)
    ensures kind == Repeat <==> Holds(t, SignalPair(s))
    ensures kind == Open <==> !HasIncident(t, SignalIdentity(s))
    ensures kind == Repeat <==> HasKey(t.members, MemberRow(id, NewMember(s, now)))
  {
    hide HasMember, HasRow;
    if kind == Open {
      MemberIds(t);
      HeldHasIncident(t, SignalPair(s));
    } else {
      HeldAtHome(t, s, id);
      var home :| home in t.incidents && home.id == id && RowIdentity(home) == SignalIdentity(s);
      if k :| EpisodeRow(t, s, id, k) {
        assert t.members[k] in t.members && SameKey(t.members[k], MemberRow(id, NewMember(s, now)));
      }
      if m :| m in t.members && SameKey(m, MemberRow(id, NewMember(s, now))) {
        assert Says(home, m, SignalPair(s));
      }
    }
  }

  // Every Incident keeps an episode, and the new one has its own.
  lemma EffectKeepsMembers(t: Tables, u: Tables, s: Signal, now: int, kind: Kind, id: int, ref: string, r: IncidentRow)
    requires OnePerIdentity(t) && Effect(t, u, s, now, kind, id, ref) && r in u.incidents
    ensures HasMember(u, r)
  {
    hide HasRow;
    if r in t.incidents {
      assert HasMember(t, r);
      var m :| m in t.members && m.incident == r.id;
      var k :| 0 <= k < |t.members| && t.members[k] == m;
      assert u.members[k] in u.members && u.members[k].incident == r.id;
    } else {
      assert u.members[|t.members|] in u.members;
    }
  }

  lemma EffectKeepsForeignKeys(t: Tables, u: Tables, s: Signal, now: int, kind: Kind, id: int, ref: string, m: MemberRow)
    requires OnePerIdentity(t) && Effect(t, u, s, now, kind, id, ref) && m in u.members
    ensures HasRow(u, m)
  {
    hide HasMember;
    if m in t.members {
      assert HasRow(t, m);
      var r :| r in t.incidents && r.id == m.incident;
      assert r in u.incidents;
    } else if kind == Open {
      assert u.incidents[|t.incidents|] in u.incidents;
    } else {
      var home :| home in t.incidents && home.id == id && RowIdentity(home) == SignalIdentity(s);
      assert home in u.incidents;
    }
  }

  lemma EffectKeepsKeys(t: Tables, u: Tables, s: Signal, now: int, kind: Kind, id: int, ref: string)
    requires OnePerIdentity(t) && Effect(t, u, s, now, kind, id, ref)
    ensures KeysDistinct(u.members)
  {
    hide HasMember, HasRow;
    KindIsInTheTables(t, u, s, now, kind, id, ref);
    if kind == Join || kind == Open {
      forall i | 0 <= i < |t.members| ensures !SameKey(t.members[i], MemberRow(id, NewMember(s, now))) {
        assert t.members[i] in t.members;
      }
    }
  }

  /** One Incident per identity, whatever happens. */
  lemma EffectKeepsOnePerIdentity(t: Tables, u: Tables, s: Signal, now: int, kind: Kind, id: int, ref: string)
    requires OnePerIdentity(t) && Effect(t, u, s, now, kind, id, ref)
    ensures OnePerIdentity(u)
  {
    hide HasMember, HasRow, HomeRow, EpisodeRow;
    EffectKeepsKeys(t, u, s, now, kind, id, ref);
    forall m | m in u.members ensures HasRow(u, m) {
      EffectKeepsForeignKeys(t, u, s, now, kind, id, ref, m);
    }
    forall r | r in u.incidents ensures HasMember(u, r) {
      EffectKeepsMembers(t, u, s, now, kind, id, ref, r);
    }
    if kind == Open {
      forall i | 0 <= i < |t.incidents| ensures t.incidents[i].id < id && RowIdentity(t.incidents[i]) != SignalIdentity(s) {
        assert t.incidents[i] in t.incidents;
      }
    }
  }

  // ---- The same, row by row ----

  predicate RowAbout(r: IncidentRow, s: Signal) {
    r.target == s.target && (s.target == None ==> r.key == s.key)
  }

  predicate RowEpisode(m: MemberRow, r: IncidentRow, s: Signal) {
    m.incident == r.id && m.member.key == s.key && m.member.startsAt == s.startsAt
  }

  // Incident `r` is the Signal's own: one that was there, or a new one when none was.
  ghost predicate KeptIncidents(t: Tables, u: Tables, s: Signal, now: int, r: IncidentRow, ref: string) {
    && r in u.incidents && RowAbout(r, s)
    && (forall x :: x in t.incidents ==> x in u.incidents)
    && (forall x :: x in u.incidents ==> x == r || x in t.incidents)
    && (r !in t.incidents ==>
          && r.openedAt == now && r.ticketRef == ref && (s.target.Some? ==> r.key == [])
          && forall x :: x in t.incidents ==> !RowAbout(x, s) && x.id < r.id)
  }

  // Member `m` is the Signal's episode in it: made from the Signal, or the one that
  // was there with a new last-seen. No other member is touched.
  ghost predicate KeptMembers(t: Tables, u: Tables, s: Signal, now: int, r: IncidentRow, m: MemberRow) {
    && m in u.members && RowEpisode(m, r, s)
    && (forall x :: x in t.members && RowEpisode(x, r, s) ==> SameButLastSeen(m.member, x.member, now))
    && ((forall x :: x in t.members ==> !RowEpisode(x, r, s)) ==> MadeFrom(m.member, s, now))
    && (forall x :: x in t.members && !RowEpisode(x, r, s) ==> x in u.members)
    && (forall x :: x in u.members ==> x == m || (x in t.members && !RowEpisode(x, r, s)))
  }

  ghost predicate StoredAs(t: Tables, u: Tables, s: Signal, now: int, ref: string) {
    exists r, m :: KeptIncidents(t, u, s, now, r, ref) && KeptMembers(t, u, s, now, r, m)
  }

  lemma AddedIsKept(t: Tables, u: Tables, s: Signal, now: int, r: IncidentRow)
    requires u.members == t.members + [MemberRow(r.id, NewMember(s, now))]
    requires forall x :: x in t.members ==> !RowEpisode(x, r, s)
    ensures KeptMembers(t, u, s, now, r, MemberRow(r.id, NewMember(s, now)))
  {
    var m := MemberRow(r.id, NewMember(s, now));
    assert u.members[|t.members|] == m;
    assert RowEpisode(m, r, s) && MadeFrom(m.member, s, now);
    assert forall x :: x in u.members <==> x in t.members || x == m;
  }

  lemma OpenedIsStored(t: Tables, u: Tables, s: Signal, now: int, id: int, ref: string)
    requires OnePerIdentity(t) && Effect(t, u, s, now, Open, id, ref)
    ensures StoredAs(t, u, s, now, ref)
  {
    hide HasMember, HasRow;
    var r, m := u.incidents[|t.incidents|], MemberRow(id, NewMember(s, now));
    MemberIds(t);
    AddedIsKept(t, u, s, now, r);
    forall x | x in t.incidents ensures !RowAbout(x, s) && x.id < r.id {
      assert RowAbout(x, s) ==> RowIdentity(x) == SignalIdentity(s);
    }
    assert KeptIncidents(t, u, s, now, r, ref) && KeptMembers(t, u, s, now, r, m);
  }

  lemma JoinedIsStored(t: Tables, u: Tables, s: Signal, now: int, id: int, ref: string)
    requires OnePerIdentity(t) && Effect(t, u, s, now, Join, id, ref)
    ensures StoredAs(t, u, s, now, ref)
  {
    hide HasMember, HasRow;
    var r :| r in t.incidents && r.id == id && RowIdentity(r) == SignalIdentity(s);
    var m := MemberRow(id, NewMember(s, now));
    forall x | x in t.members ensures !RowEpisode(x, r, s) {
      assert RowEpisode(x, r, s) ==> Says(r, x, SignalPair(s));
    }
    AddedIsKept(t, u, s, now, r);
    assert KeptIncidents(t, u, s, now, r, ref) && KeptMembers(t, u, s, now, r, m);
  }

  lemma RepeatedIsStored(t: Tables, u: Tables, s: Signal, now: int, id: int, ref: string)
    requires OnePerIdentity(t) && Effect(t, u, s, now, Repeat, id, ref)
    ensures StoredAs(t, u, s, now, ref)
  {
    hide HasMember, HasRow;
    var r :| r in t.incidents && r.id == id && RowIdentity(r) == SignalIdentity(s);
    var k :| EpisodeRow(t, s, id, k) && u == Touched(t, k, now);
    var was, m := t.members[k], u.members[k];
    forall x | x in t.members && RowEpisode(x, r, s) ensures x == was {
      var i :| 0 <= i < |t.members| && t.members[i] == x;
      assert SameKey(t.members[i], t.members[k]);
    }
    assert KeptIncidents(t, u, s, now, r, ref);
    TouchedMembers(t, k, now, was, m);
    assert KeptMembers(t, u, s, now, r, m);
  }

  // Touching one row leaves every other.
  lemma TouchedMembers(t: Tables, k: nat, now: int, was: MemberRow, m: MemberRow)
    requires KeysDistinct(t.members) && k < |t.members| && was == t.members[k] && m == Touched(t, k, now).members[k]
    ensures forall x :: x in t.members && x != was ==> x in Touched(t, k, now).members
    ensures forall x :: x in Touched(t, k, now).members ==> x == m || (x in t.members && x != was)
    ensures m in Touched(t, k, now).members
  {
    var u := Touched(t, k, now);
    forall x | x in t.members && x != was ensures x in u.members {
      var i :| 0 <= i < |t.members| && t.members[i] == x;
      assert u.members[i] == x;
    }
    forall x | x in u.members && x != m ensures x in t.members && x != was {
      var i :| 0 <= i < |u.members| && u.members[i] == x;
      assert i != k && t.members[i] == x;
      assert i < k ==> !SameKey(t.members[i], t.members[k]);
      assert k < i ==> !SameKey(t.members[k], t.members[i]);
    }
  }

  /** What a committed Signal leaves in the tables, row by row and field by field. */
  lemma EffectIsStored(t: Tables, u: Tables, s: Signal, now: int, kind: Kind, id: int, ref: string)
    requires OnePerIdentity(t) && Effect(t, u, s, now, kind, id, ref)
    ensures StoredAs(t, u, s, now, ref)
  {
    hide OnePerIdentity, Effect, StoredAs;
    match kind {
      case Open => OpenedIsStored(t, u, s, now, id, ref);
      case Join => JoinedIsStored(t, u, s, now, id, ref);
      case Repeat => RepeatedIsStored(t, u, s, now, id, ref);
      case Drop => NoDropEffect(t, u, s, now, id, ref);
    }
  }

  lemma NoDropEffect(t: Tables, u: Tables, s: Signal, now: int, id: int, ref: string)
    ensures !Effect(t, u, s, now, Drop, id, ref)
  {
  }

  // No two Incidents share a target, or have no target and share a key.
  ghost predicate OnePerTargetOrKey(t: Tables) {
    forall i, j :: 0 <= i < j < |t.incidents| ==>
      var a, b := t.incidents[i], t.incidents[j];
      a.target != b.target || (a.target == None && a.key != b.key)
  }

  lemma IdentitiesAreTargetsOrKeys(t: Tables)
    requires OnePerIdentity(t)
    ensures OnePerTargetOrKey(t)
  {
    hide HasMember, HasRow;
    forall i, j | 0 <= i < j < |t.incidents|
      ensures var a, b := t.incidents[i], t.incidents[j]; a.target != b.target || (a.target == None && a.key != b.key)
    {
      assert RowIdentity(t.incidents[i]) != RowIdentity(t.incidents[j]);
    }
  }

  // ---- The whole state ----

  datatype Ticket = Ticket(incident: int, ref: string)

  // An investigation started for a committed Incident.
  datatype Launch = Launch(incident: int, target: Option<Target>, ticket: string)

  // `created` are the tickets that exist outside, wanted or not; `launched` are the
  // investigations started since the process was, which found `inherited` Incidents.
  datatype State = State(tables: Tables, log: seq<Event>, created: seq<Ticket>, launched: seq<Launch>, inherited: nat)

  // The log holds `x` and later `y`, both at or after position `from`.
  ghost predicate InOrder(log: seq<Event>, from: int, x: Event, y: Event) {
    exists i, j :: from <= i < j < |log| && 0 <= i && log[i] == x && log[j] == y
  }

  lemma InOrderStays(a: seq<Event>, b: seq<Event>, from: int, x: Event, y: Event)
    requires a <= b && InOrder(a, from, x, y)
    ensures InOrder(b, from, x, y)
  {
    var i, j :| from <= i < j < |a| && 0 <= i && a[i] == x && a[j] == y;
    assert b[i] == x && b[j] == y;
  }

  lemma InOrderSince(log: seq<Event>, from: int, earlier: int, x: Event, y: Event)
    requires earlier <= from && InOrder(log, from, x, y)
    ensures InOrder(log, earlier, x, y)
  {
  }

  // The decision to open Incident `row` and the ticket it names were audited, in
  // that order, and the ticket is one that was created for it.
  ghost predicate Recorded(row: IncidentRow, log: seq<Event>, created: seq<Ticket>) {
    && Ticket(row.id, row.ticketRef) in created
    && exists key, startsAt ::
         InOrder(log, 0, Event(row.id, TriageDecision(Open, key, startsAt)), Event(row.id, TicketCreated(row.ticketRef)))
  }

  function Launches(rows: seq<IncidentRow>): (out: seq<Launch>)
    ensures |out| == |rows|
    ensures forall i :: 0 <= i < |rows| ==> out[i] == Launch(rows[i].id, rows[i].target, rows[i].ticketRef)
  {
    seq(|rows|, i requires 0 <= i < |rows| => Launch(rows[i].id, rows[i].target, rows[i].ticketRef))
  }

  /** What holds in every committed state: one Incident per identity, distinct
      episodes, every ticket reference created and audited, and one
      investigation per Incident that this process opened. */
  ghost predicate Consistent(s: State) {
    && OnePerIdentity(s.tables)
    && (forall row :: row in s.tables.incidents ==> Recorded(row, s.log, s.created))
    && s.inherited <= |s.tables.incidents|
    && s.launched == Launches(s.tables.incidents[s.inherited..])
  }

  lemma ConsistentIsWellFormed(s: State)
    requires Consistent(s)
    ensures WellFormed(s.tables) && OnePerIdentity(s.tables) && KeysDistinct(s.tables.members)
  {
  }

  // What one call of ingest may do.
  ghost predicate Ingested(a: State, b: State, s: Signal, now: int, ok: bool) {
    && a.log <= b.log && a.created <= b.created && b.inherited == a.inherited
    && (!ok ==> b.tables == a.tables && b.launched == a.launched)
    && (ok && s.status != Firing ==>
          && b.tables == a.tables && b.launched == a.launched && b.created == a.created
          && Audited(a, b, s, Drop, 0))
    && (ok && s.status == Firing ==>
          exists kind, id, ref ::
            && Effect(a.tables, b.tables, s, now, kind, id, ref)
            && Audited(a, b, s, kind, id)
            && (kind == Open ==> Recorded(IncidentRow(id, s.target, if s.target == None then s.key else [], now, ref), b.log, b.created))
            && (kind == Join ==> CommentAudited(a, b, s, id))
            && b.launched == if kind == Open then a.launched + [Launch(id, s.target, ref)] else a.launched)
  }

  // This call audited the Signal and then the decision on it.
  ghost predicate Audited(a: State, b: State, s: Signal, kind: Kind, id: int) {
    InOrder(b.log, |a.log|, Event(id, SignalReceived(s.key, s.startsAt)), Event(id, TriageDecision(kind, s.key, s.startsAt)))
  }

  // This call commented the joined Incident's own ticket, after its decision.
  ghost predicate CommentAudited(a: State, b: State, s: Signal, id: int) {
    exists r :: r in a.tables.incidents && r.id == id
                && InOrder(b.log, |a.log|, Event(id, TriageDecision(Join, s.key, s.startsAt)), Event(id, TicketCommented(r.ticketRef, false)))
  }

  lemma RecordedStays(row: IncidentRow, a: State, b: State)
    requires a.log <= b.log && a.created <= b.created && Recorded(row, a.log, a.created)
    ensures Recorded(row, b.log, b.created)
  {
    var key, startsAt :|
      InOrder(a.log, 0, Event(row.id, TriageDecision(Open, key, startsAt)), Event(row.id, TicketCreated(row.ticketRef)));
    InOrderStays(a.log, b.log, 0, Event(row.id, TriageDecision(Open, key, startsAt)), Event(row.id, TicketCreated(row.ticketRef)));
  }

  /** Whatever fails inside it, a call of ingest keeps the state consistent, and
      adds its episode exactly when it succeeds on a firing Signal. */
  lemma IngestKeepsConsistent(a: State, b: State, s: Signal, now: int, ok: bool)
    requires Consistent(a) && Ingested(a, b, s, now, ok)
    ensures Consistent(b)
    ensures forall p :: Holds(b.tables, p) <==> Holds(a.tables, p) || (ok && s.status == Firing && p == SignalPair(s))
  {
    hide OnePerIdentity, WellFormed, HasRow, HasMember, HomeRow, EpisodeRow, Recorded, Holds, HasIncident;
    if ok && s.status == Firing {
      var kind, id, ref :| Effect(a.tables, b.tables, s, now, kind, id, ref)
        && (kind == Open ==> Recorded(IncidentRow(id, s.target, if s.target == None then s.key else [], now, ref), b.log, b.created))
        && b.launched == if kind == Open then a.launched + [Launch(id, s.target, ref)] else a.launched;
      EffectKeepsOnePerIdentity(a.tables, b.tables, s, now, kind, id, ref);
      forall p {
        EffectHolds(a.tables, b.tables, s, now, kind, id, ref, p);
      }
    }
    forall row | row in b.tables.incidents ensures Recorded(row, b.log, b.created) {
      if row in a.tables.incidents {
        RecordedStays(row, a, b);
      }
    }
    if |b.tables.incidents| == |a.tables.incidents| + 1 {
      assert b.tables.incidents[b.inherited..] == a.tables.incidents[a.inherited..] + b.tables.incidents[|a.tables.incidents|..];
    }
    assert b.launched == Launches(b.tables.incidents[b.inherited..]);
  }

  // ---- Whole runs ----

  // One call of ingest, anything else that writes to the audit log, or the end of
  // the process and a new one on the same store and log. A process that dies right
  // after a commit is a successful call and a restart.
  datatype Act = Attempt(s: Signal, now: int, ok: bool) | Elsewhere | Restart

  ghost predicate Does(a: State, b: State, act: Act) {
    match act
    case Attempt(s, now, ok) => Ingested(a, b, s, now, ok)
    case Elsewhere => a.log <= b.log && b == a.(log := b.log)
    case Restart => b == a.(launched := [], inherited := |a.tables.incidents|)
  }

  ghost predicate Run(states: seq<State>, acts: seq<Act>) {
    |states| == |acts| + 1 && forall i :: 0 <= i < |acts| ==> Does(states[i], states[i + 1], acts[i])
  }

  predicate Adds(act: Act, p: Pair) {
    act.Attempt? && act.ok && act.s.status == Firing && SignalPair(act.s) == p
  }

  lemma {:induction false} RunHolds(states: seq<State>, acts: seq<Act>)
    requires Run(states, acts) && Consistent(states[0])
    ensures Consistent(states[|acts|])
    ensures forall p :: Holds(states[|acts|].tables, p) <==>
                        Holds(states[0].tables, p) || exists act :: act in acts && Adds(act, p)
    decreases |acts|
  {
    hide Consistent, Holds, Ingested, Does, Adds;
    if acts != [] {
      var n := |acts| - 1;
      RunHolds(states[..n + 1], acts[..n]);
      assert acts == acts[..n] + [acts[n]];
      assert Does(states[n], states[n + 1], acts[n]);
      ActKeepsConsistent(states[n], states[n + 1], acts[n]);
    }
  }

  /** Over any run of ingests in which any store, ticket or audit call may fail,
      the committed state stays consistent, no two Incidents share a target or,
      without one, a key, and it holds exactly the episodes it started with and
      those of the successful calls. Their order, and how often each was tried, make
      no difference. */
  lemma RunKeepsConsistent(states: seq<State>, acts: seq<Act>)
    requires Run(states, acts) && Consistent(states[0])
    ensures Consistent(states[|acts|]) && OnePerTargetOrKey(states[|acts|].tables)
    ensures forall p :: Holds(states[|acts|].tables, p) <==>
                        Holds(states[0].tables, p) || exists act :: act in acts && Adds(act, p)
  {
    hide Consistent, Holds, Does, Adds, OnePerTargetOrKey;
    RunHolds(states, acts);
    ConsistentIsOnePer(states[|acts|]);
  }

  lemma ConsistentIsOnePer(s: State)
    requires Consistent(s)
    ensures OnePerTargetOrKey(s.tables)
  {
    IdentitiesAreTargetsOrKeys(s.tables);
  }

  lemma ActKeepsConsistent(a: State, b: State, act: Act)
    requires Consistent(a) && Does(a, b, act)
    ensures Consistent(b) && a.log <= b.log
    ensures forall p :: Holds(b.tables, p) <==> Holds(a.tables, p) || Adds(act, p)
  {
    hide OnePerIdentity, Holds, Recorded;
    match act {
      case Attempt(s, now, ok) => IngestKeepsConsistent(a, b, s, now, ok);
      case Elsewhere =>
        forall row | row in b.tables.incidents ensures Recorded(row, b.log, b.created) {
          RecordedStays(row, a, b);
        }
      case Restart =>
        forall row | row in b.tables.incidents ensures Recorded(row, b.log, b.created) {
          RecordedStays(row, a, b);
        }
    }
  }

  // `p` is the episode of a firing Signal of the batch.
  ghost predicate InBatch(batch: seq<Signal>, p: Pair) {
    exists s :: s in batch && s.status == Firing && SignalPair(s) == p
  }

  ghost predicate Delivered(acts: seq<Act>, s: Signal) {
    exists act :: act in acts && act.Attempt? && act.ok && act.s == s
  }

  /** Retries are safe: however many attempts at a batch failed part way, once
      every Signal of it got through, the store holds what it held before and the
      batch, which is what a single clean attempt leaves. */
  lemma RetriesConverge(states: seq<State>, acts: seq<Act>, batch: seq<Signal>)
    requires Run(states, acts) && Consistent(states[0])
    requires forall act :: act in acts && act.Attempt? ==> act.s in batch
    requires forall s :: s in batch ==> Delivered(acts, s)
    ensures forall p :: Holds(states[|acts|].tables, p) <==> Holds(states[0].tables, p) || InBatch(batch, p)
  {
    hide Consistent, Holds, Does;
    RunKeepsConsistent(states, acts);
    forall p ensures InBatch(batch, p) <==> exists act :: act in acts && Adds(act, p) {
      if InBatch(batch, p) {
        var s :| s in batch && s.status == Firing && SignalPair(s) == p;
        assert Delivered(acts, s);
        var act :| act in acts && act.Attempt? && act.ok && act.s == s;
        assert Adds(act, p);
      }
    }
  }

  lemma DecidedKind(open: seq<Incident>, s: Signal, now: int, d: Decision)
    requires Decided(open, s, now, d)
    ensures d.kind == Drop <==> s.status != Firing
    ensures d.kind != Drop ==> d.incident.Some? && d.incident.value.target == s.target
  {
    if i :| Home(open, s, i) {
      assert SameIncident(open[i], s);
    }
  }

  lemma DecisionIds(t: Tables, rows: seq<MemberRow>, s: Signal, now: int, d: Decision)
    requires OnePerIdentity(t) && Rearranged(t.members, rows)
    requires Decided(LoadAll(t.incidents, rows), s, now, d) && d.kind != Drop
    ensures d.incident.Some? && (d.incident.value.id == 0 <==> d.kind == Open)
  {
    DecisionEffect(t, rows, s, now, d, "");
  }

  // A call that fails changes no table.
  lemma FailureIngests(a: State, b: State, s: Signal, now: int)
    requires a.log <= b.log && a.created <= b.created && b.inherited == a.inherited
    requires b.tables == a.tables && b.launched == a.launched
    ensures Ingested(a, b, s, now, false)
  {
  }

  // An audited drop is a successful call.
  lemma DropIngests(a: State, b: State, s: Signal, now: int)
    requires a.log <= b.log && b == a.(log := b.log) && s.status != Firing
    requires InOrder(b.log, |a.log|, Event(0, SignalReceived(s.key, s.startsAt)), Event(0, TriageDecision(Drop, s.key, s.startsAt)))
    ensures Ingested(a, b, s, now, true)
  {
  }

  // A committed transaction is a successful call of ingest.
  lemma TransactionIngests(a: State, b: State, s: Signal, now: int, d: Decision, rows: seq<MemberRow>)
    requires OnePerIdentity(a.tables) && Rearranged(a.tables.members, rows)
    requires Decided(LoadAll(a.tables.incidents, rows), s, now, d) && d.kind != Drop && s.status == Firing
    requires d.incident.Some? && d.incident.value.target == s.target
    requires a.log <= b.log && a.created <= b.created && b.inherited == a.inherited
    requires d.kind == Join ==>
               InOrder(b.log, |a.log|, Event(d.incident.value.id, TriageDecision(Join, s.key, s.startsAt)),
                       Event(d.incident.value.id, TicketCommented(d.incident.value.ticketRef, false)))
    requires exists ref ::
               && var id := if d.kind == Open then a.tables.lastId + 1 else d.incident.value.id;
               && b.tables == Final(a.tables, d, ref)
               && Audited(a, b, s, d.kind, id)
               && (d.kind == Open ==>
                     && Ticket(id, ref) in b.created
                     && InOrder(b.log, 0, Event(id, TriageDecision(Open, s.key, s.startsAt)), Event(id, TicketCreated(ref))))
               && b.launched == if d.kind == Open then a.launched + [Launch(id, d.incident.value.target, ref)] else a.launched
    ensures Ingested(a, b, s, now, true)
  {
    hide InOrder, Effect, Final, OnePerIdentity, Decided, Rearranged, LoadAll;
    var ref :|
      && var id := if d.kind == Open then a.tables.lastId + 1 else d.incident.value.id;
      && b.tables == Final(a.tables, d, ref)
      && Audited(a, b, s, d.kind, id)
      && (d.kind == Open ==>
            && Ticket(id, ref) in b.created
            && InOrder(b.log, 0, Event(id, TriageDecision(Open, s.key, s.startsAt)), Event(id, TicketCreated(ref))))
      && b.launched == if d.kind == Open then a.launched + [Launch(id, d.incident.value.target, ref)] else a.launched;
    DecisionEffect(a.tables, rows, s, now, d, ref);
    if d.kind == Join {
      JoinedRow(a.tables, rows, s, now, d);
    }
  }

  lemma CommittedIsStored(t: Tables, rows: seq<MemberRow>, s: Signal, now: int, d: Decision, ref: string)
    requires OnePerIdentity(t) && Rearranged(t.members, rows)
    requires Decided(LoadAll(t.incidents, rows), s, now, d) && d.kind != Drop && d.incident.Some?
    ensures StoredAs(t, Final(t, d, ref), s, now, ref)
    ensures |Final(t, d, ref).incidents| > |t.incidents| ==> d.kind == Open
  {
    hide OnePerIdentity, Rearranged, Decided, LoadAll, StoredAs;
    DecisionEffect(t, rows, s, now, d, ref);
    EffectIsStored(t, Final(t, d, ref), s, now, d.kind, if d.kind == Open then t.lastId + 1 else d.incident.value.id, ref);
  }

  lemma JoinedRow(t: Tables, rows: seq<MemberRow>, s: Signal, now: int, d: Decision)
    requires Decided(LoadAll(t.incidents, rows), s, now, d) && d.kind == Join
    ensures exists r :: r in t.incidents && r.id == d.incident.value.id && r.ticketRef == d.incident.value.ticketRef
  {
    var i :| Home(LoadAll(t.incidents, rows), s, i) && d.incident.value.id == LoadAll(t.incidents, rows)[i].id
             && d.incident.value.ticketRef == LoadAll(t.incidents, rows)[i].ticketRef;
    assert t.incidents[i] in t.incidents;
  }

  // ---- The server ----

  // What the store and the ticketing system do during one call.
  datatype Faults = Faults(
    openOk: bool,
    beginOk: bool,
    saveFailsAt: Option<nat>,
    create: Option<string>,
    setTicketOk: bool,
    commentOk: bool,
    commitOk: bool)

  // Nothing fails outside the audit log.
  predicate Clean(f: Faults) {
    f.openOk && f.beginOk && f.saveFailsAt == None && f.create.Some? && f.setTicketOk && f.commentOk && f.commitOk
  }

  ghost predicate DiskOk(disk: nat -> Write) {
    forall n: nat :: disk(n).ok
  }

  // One alert of a webhook, after the Source adapter.
  datatype Alert = Unmappable | Mapped(signal: Signal)

  // The Signal that an alert becomes, as far as its identity goes.
  function Arriving(signal: Signal, resolve: map<Text, Text> -> Option<Target>): Signal {
    signal.(target := resolve(BoundValues(signal.labels)))
  }

  // `s` is the Signal `signal` within the bounds, with the Target of its bounded labels.
  predicate ArrivesAs(signal: Signal, s: Signal, resolve: map<Text, Text> -> Option<Target>) {
    && s.key == signal.key && s.startsAt == signal.startsAt && s.status == signal.status
    && s.source == signal.source && s.severity == signal.severity && s.link == signal.link
    && CutTo4096(signal.name, s.name) && AllCutTo4096(signal.labels, s.labels)
    && s.target == resolve(s.labels)
  }

  ghost predicate Fires(alerts: seq<Alert>, resolve: map<Text, Text> -> Option<Target>, p: Pair) {
    exists a :: a in alerts && FiresAs(a, resolve, p)
  }

  predicate FiresAs(a: Alert, resolve: map<Text, Text> -> Option<Target>, p: Pair) {
    a.Mapped? && a.signal.status == Firing && SignalPair(Arriving(a.signal, resolve)) == p
  }

  // The alert was audited as dropped since state `a`, or is stored in `b`.
  ghost predicate Settled(a: State, b: State, alert: Alert, resolve: map<Text, Text> -> Option<Target>) {
    match alert
    case Unmappable => exists i :: |a.log| <= i < |b.log| && b.log[i] == Event(0, SignalDropped)
    case Mapped(s) =>
      if s.status == Firing then Holds(b.tables, SignalPair(Arriving(s, resolve)))
      else exists i :: |a.log| <= i < |b.log| && b.log[i] == Event(0, TriageDecision(Drop, s.key, s.startsAt))
  }

  lemma SettledStays(a: State, b: State, c: State, alert: Alert, resolve: map<Text, Text> -> Option<Target>)
    requires Settled(a, b, alert, resolve) && b.log <= c.log
    requires forall p :: Holds(b.tables, p) ==> Holds(c.tables, p)
    ensures Settled(a, c, alert, resolve)
  {
    hide Holds;
    if alert.Unmappable? {
      var i :| |a.log| <= i < |b.log| && b.log[i] == Event(0, SignalDropped);
      assert c.log[i] == b.log[i];
    } else if alert.signal.status != Firing {
      var s := alert.signal;
      var i :| |a.log| <= i < |b.log| && b.log[i] == Event(0, TriageDecision(Drop, s.key, s.startsAt));
      assert c.log[i] == b.log[i];
    }
  }

  lemma DropSettles(a: State, b: State, alert: Alert, resolve: map<Text, Text> -> Option<Target>)
    requires alert.Unmappable? && |a.log| < |b.log| && b.log[|b.log| - 1] == Event(0, SignalDropped)
    ensures Settled(a, b, alert, resolve)
  {
  }

  // Settled since a later state is settled since an earlier one.
  lemma IsSettled(a: State, b: State, c: State, alert: Alert, resolve: map<Text, Text> -> Option<Target>)
    requires |a.log| <= |b.log| && Settled(b, c, alert, resolve)
    ensures Settled(a, c, alert, resolve)
  {
  }

  // A successful call of ingest settles its alert.
  lemma IngestSettles(a: State, b: State, c: State, alert: Alert, resolve: map<Text, Text> -> Option<Target>, s: Signal, now: int)
    requires Consistent(b) && |a.log| <= |b.log| && Ingested(b, c, s, now, true)
    requires alert.Mapped? && SignalPair(s) == SignalPair(Arriving(alert.signal, resolve))
    requires s.key == alert.signal.key && s.startsAt == alert.signal.startsAt && s.status == alert.signal.status
    ensures Settled(a, c, alert, resolve)
  {
    hide Holds, OnePerIdentity, Recorded, Effect;
    IngestKeepsConsistent(b, c, s, now, true);
    if s.status != Firing {
      var i, j :| |b.log| <= i < j < |c.log| && 0 <= i && c.log[j] == Event(0, TriageDecision(Drop, s.key, s.startsAt));
      assert |a.log| <= j;
    }
  }

  class Server {
    const store: Store
    const trail: Trail
    var created: seq<Ticket>
    var launched: seq<Launch>
    const inherited: nat

    // A process on any store whose Incidents are on record, new or not.
    constructor (store: Store, trail: Trail, created: seq<Ticket>)
      requires store.Valid() && OnePerIdentity(store.tables)
      requires forall row :: row in store.tables.incidents ==> Recorded(row, trail.log, created)
      ensures this.store == store && this.trail == trail && this.created == created
      ensures Consistent(Now()) && launched == []
    {
      this.store, this.trail, this.created, launched, inherited := store, trail, created, [], |store.tables.incidents|;
    }

    ghost function Now(): State
      reads this, store, trail
    {
      State(store.tables, trail.log, created, launched, inherited)
    }

    method AuditDecision(s: Signal, kind: Kind, incident: int) returns (ok: bool)
      modifies trail
      ensures DiskOk(trail.disk) ==> ok
      ensures old(trail.log) <= trail.log && (ok ==> |trail.log| > |old(trail.log)|)
      ensures ok ==>
                && InOrder(trail.log, |old(trail.log)|, Event(incident, SignalReceived(s.key, s.startsAt)),
                           Event(incident, TriageDecision(kind, s.key, s.startsAt)))
                && trail.log[|trail.log| - 1] == Event(incident, TriageDecision(kind, s.key, s.startsAt))
    {
      ok := trail.Append(Event(incident, SignalReceived(s.key, s.startsAt)));
      if ok {
        ghost var i := |trail.log| - 1;
        ok := trail.Append(Event(incident, TriageDecision(kind, s.key, s.startsAt)));
        if ok {
          ghost var j := |trail.log| - 1;
          assert trail.log[i] == Event(incident, SignalReceived(s.key, s.startsAt));
          assert trail.log[j] == Event(incident, TriageDecision(kind, s.key, s.startsAt));
        }
      }
    }

    // Creates the ticket of a new Incident and audits it.
    method OpenTicket(id: int, ghost key: Text, ghost startsAt: int, f: Faults) returns (ok: bool, ref: string)
      requires store.work.Some?
      requires trail.log != [] && trail.log[|trail.log| - 1] == Event(id, TriageDecision(Open, key, startsAt))
      modifies this`created, store`work, trail
      ensures store.work.Some? && old(trail.log) <= trail.log && old(created) <= created
      ensures DiskOk(trail.disk) && Clean(f) ==> ok
      ensures ok ==> store.work == Some(old(store.work).value.(incidents := Ticketed(old(store.work).value.incidents, id, ref)))
      ensures ok ==> Ticket(id, ref) in created
      ensures created == old(created) + if f.create.Some? then [Ticket(id, f.create.value)] else []
      ensures ok ==> f.create == Some(ref) && f.setTicketOk
      ensures ok ==> InOrder(trail.log, 0, Event(id, TriageDecision(Open, key, startsAt)), Event(id, TicketCreated(ref)))
    {
      if f.create == None {
        return false, "";
      }
      ref := f.create.value;
      created := created + [Ticket(id, ref)];
      store.SetTicket(id, ref, f.setTicketOk);
      if !f.setTicketOk {
        return false, ref;
      }
      ghost var i := |trail.log| - 1;
      ok := trail.Append(Event(id, TicketCreated(ref)));
      assert ok ==> trail.log[i] == Event(id, TriageDecision(Open, key, startsAt)) && trail.log[|trail.log| - 1] == Event(id, TicketCreated(ref));
    }

    // The ticket of a decision that is not a drop, and what the transaction
    // then holds.
    method UpdateTicket(d: Decision, id: int, ghost key: Text, ghost startsAt: int, f: Faults) returns (ok: bool, ref: string)
      requires d.incident.Some? && store.work.Some?
      requires trail.log != [] && trail.log[|trail.log| - 1] == Event(id, TriageDecision(d.kind, key, startsAt))
      modifies this`created, store`work, trail
      ensures store.work.Some? && old(trail.log) <= trail.log && old(created) <= created
      ensures DiskOk(trail.disk) && Clean(f) ==> ok
      ensures d.kind != Open ==> created == old(created)
      ensures ok && d.kind == Open ==> f.create == Some(ref) && f.setTicketOk && created == old(created) + [Ticket(id, ref)]
      ensures ok && d.kind == Join ==> f.commentOk
      ensures ok && d.kind == Join ==>
                InOrder(trail.log, |old(trail.log)| - 1, Event(id, TriageDecision(Join, key, startsAt)),
                        Event(id, TicketCommented(d.incident.value.ticketRef, false)))
      ensures ok && d.kind == Open ==>
                && store.work == Some(old(store.work).value.(incidents := Ticketed(old(store.work).value.incidents, id, ref)))
                && Ticket(id, ref) in created
                && InOrder(trail.log, 0, Event(id, TriageDecision(Open, key, startsAt)), Event(id, TicketCreated(ref)))
      ensures ok && d.kind != Open ==> store.work == old(store.work)
    {
      ref := d.incident.value.ticketRef;
      if d.kind == Open {
        ok, ref := OpenTicket(id, key, startsAt, f);
        return;
      }
      if d.kind == Join {
        if !f.commentOk {
          return false, ref;
        }
        ghost var i := |trail.log| - 1;
        ok := trail.Append(Event(id, TicketCommented(ref, false)));
        assert ok ==> trail.log[i] == Event(id, TriageDecision(Join, key, startsAt)) && trail.log[|trail.log| - 1] == Event(id, TicketCommented(ref, false));
        return;
      }
      return true, ref;
    }

    // One transaction for a decision that is not a drop.
    method Transact(s: Signal, now: int, d: Decision, f: Faults) returns (ok: bool)
      requires d.kind != Drop && d.incident.Some?
      requires d.incident.value.id == 0 <==> d.kind == Open
      modifies this, store, trail
      ensures old(trail.log) <= trail.log && old(created) <= created
      ensures !ok ==> store.tables == old(store.tables) && launched == old(launched)
      ensures DiskOk(trail.disk) && Clean(f) ==> ok
      ensures store.work == None
      ensures ok ==> f.beginOk && f.commitOk && (d.kind == Open ==> f.create.Some? && f.setTicketOk) && (d.kind == Join ==> f.commentOk)
      ensures d.kind != Open ==> created == old(created)
      ensures ok && d.kind == Join ==>
                InOrder(trail.log, |old(trail.log)|, Event(d.incident.value.id, TriageDecision(Join, s.key, s.startsAt)),
                        Event(d.incident.value.id, TicketCommented(d.incident.value.ticketRef, false)))
      ensures ok ==>
                exists ref ::
                  && var id := if d.kind == Open then old(store.tables).lastId + 1 else d.incident.value.id;
                  && store.tables == Final(old(store.tables), d, ref)
                  && Audited(old(Now()), Now(), s, d.kind, id)
                  && (d.kind == Open ==>
                        && f.create == Some(ref) && created == old(created) + [Ticket(id, ref)]
                        && InOrder(trail.log, 0, Event(id, TriageDecision(Open, s.key, s.startsAt)), Event(id, TicketCreated(ref))))
                  && launched == if d.kind == Open then old(launched) + [Launch(id, d.incident.value.target, ref)] else old(launched)
    {
      hide InOrder, Ticketed, UpsertAll;
      store.Begin(f.beginOk);
      if !f.beginOk {
        return false;
      }
      var inc := d.incident.value;
      var id := store.Save(inc, f.saveFailsAt);
      if id == None {
        store.Rollback();
        return false;
      }
      inc := inc.(id := id.value);
      ok := AuditDecision(s, d.kind, inc.id);
      if !ok {
        store.Rollback();
        return;
      }
      ghost var decided := trail.log;
      var ref;
      ok, ref := UpdateTicket(d, inc.id, s.key, s.startsAt, f);
      if !ok {
        store.Rollback();
        return;
      }
      if d.kind == Join {
        InOrderSince(trail.log, |decided| - 1, |old(trail.log)|, Event(inc.id, TriageDecision(Join, s.key, s.startsAt)),
                     Event(inc.id, TicketCommented(d.incident.value.ticketRef, false)));
      }
      InOrderStays(decided, trail.log, |old(trail.log)|, Event(inc.id, SignalReceived(s.key, s.startsAt)),
                   Event(inc.id, TriageDecision(d.kind, s.key, s.startsAt)));
      store.Commit(f.commitOk);
      if !f.commitOk {
        return false;
      }
      if d.kind == Open {
        launched := launched + [Launch(inc.id, inc.target, ref)];
      }
      assert store.tables == Final(old(store.tables), d, ref);
    }

    /** ingest: every failure leaves the tables as they were, and a success has
        exactly the effect of the decision, audited and ticketed first. */
    method Ingest(s: Signal, now: int, f: Faults) returns (ok: bool)
      requires store.Valid() && Consistent(Now())
      modifies this, store, trail
      ensures store.Valid() && Ingested(old(Now()), Now(), s, now, ok) && Consistent(Now())
      ensures DiskOk(trail.disk) && Clean(f) ==> ok
      ensures ok && s.status == Firing ==>
                exists ref :: StoredAs(old(store.tables), store.tables, s, now, ref)
                              && (|store.tables.incidents| > |old(store.tables).incidents| ==> f.create == Some(ref))
      ensures OnePerTargetOrKey(store.tables)
    {
      hide Consistent, Ingested, Audited, Decided, Handles, LoadAll, MembersOf, StoredAs, OnePerTargetOrKey, OnePerIdentity, WellFormed, KeysDistinct, Rearranged, Holds, InOrder, Recorded, Effect, Final;
      ghost var t := store.tables;
      ConsistentIsWellFormed(Now());
      IdentitiesAreTargetsOrKeys(t);
      var open := store.OpenIncidents(f.openOk);
      if open == None {
        FailureIngests(old(Now()), Now(), s, now);
        return false;
      }
      ghost var rows := store.order(t.members);
      var d := Triage.Triage(open.value, s, now);
      DecidedKind(open.value, s, now, d);
      if d.kind == Drop {
        ok := AuditDecision(s, Drop, 0);
        if ok {
          DropIngests(old(Now()), Now(), s, now);
        }
      } else {
        DecisionIds(t, rows, s, now, d);
        ok := Transact(s, now, d, f);
        if ok {
          ghost var ref :|
            && store.tables == Final(t, d, ref)
            && (d.kind == Open ==> f.create == Some(ref));
          CommittedIsStored(t, rows, s, now, d, ref);
          TransactionIngests(old(Now()), Now(), s, now, d, rows);
        }
      }
      if !ok {
        FailureIngests(old(Now()), Now(), s, now);
      }
      IngestKeepsConsistent(old(Now()), Now(), s, now, ok);
      ConsistentIsWellFormed(Now());
      IdentitiesAreTargetsOrKeys(store.tables);
    }

    /** One alert of a batch: what is stored of a firing one is its Signal, bounded,
        with the Target of its bounded labels. */
    method TakeAlert(alert: Alert, now: int, resolve: map<Text, Text> -> Option<Target>, f: Faults) returns (ok: bool)
      requires store.Valid() && Consistent(Now())
      modifies this, store, trail
      ensures store.Valid() && Consistent(Now())
      ensures old(trail.log) <= trail.log
      ensures forall p :: Holds(store.tables, p) <==> Holds(old(store.tables), p) || (ok && FiresAs(alert, resolve, p))
      ensures ok ==> Settled(old(Now()), Now(), alert, resolve)
      ensures ok && alert.Mapped? && alert.signal.status == Firing ==>
                exists s, ref :: ArrivesAs(alert.signal, s, resolve) && StoredAs(old(store.tables), store.tables, s, now, ref)
      ensures DiskOk(trail.disk) && Clean(f) ==> ok
    {
      hide Consistent, Holds, Ingested, Settled, WellFormed, StoredAs, CutTo4096, AllCutTo4096, OnePerTargetOrKey;
      match alert {
        case Unmappable =>
          ok := trail.Append(Event(0, SignalDropped));
          ActKeepsConsistent(old(Now()), Now(), Elsewhere);
          if ok {
            DropSettles(old(Now()), Now(), alert, resolve);
          }
        case Mapped(signal) =>
          var s := Bound(signal);
          s := s.(target := resolve(s.labels));
          assert ArrivesAs(signal, s, resolve);
          ok := Ingest(s, now, f);
          ActKeepsConsistent(old(Now()), Now(), Attempt(s, now, ok));
          if ok {
            IngestSettles(old(Now()), old(Now()), Now(), alert, resolve, s, now);
          }
      }
    }

    /** intake: works through a batch of alerts until one fails. Answering 200
        means that every alert was audited as dropped or is in the committed
        store; any other answer leaves the alerts before the failure stored and
        the state consistent, so the batch may be sent again. */
    method Intake(alerts: seq<Alert>, now: int, resolve: map<Text, Text> -> Option<Target>, faults: nat -> Faults)
      returns (ok: bool, ghost done: nat)
      requires store.Valid() && Consistent(Now())
      modifies this, store, trail
      ensures store.Valid() && Consistent(Now())
      ensures old(trail.log) <= trail.log
      ensures done <= |alerts| && (ok <==> done == |alerts|)
      ensures DiskOk(trail.disk) && (forall i :: Clean(faults(i))) ==> ok
      ensures forall p :: Holds(store.tables, p) <==> Holds(old(store.tables), p) || Fires(alerts[..done], resolve, p)
      ensures forall i :: 0 <= i < done ==> Settled(old(Now()), Now(), alerts[i], resolve)
    {
      hide Consistent, Holds, Settled, WellFormed, FiresAs;
      ok := true;
      done := 0;
      for i := 0 to |alerts|
        invariant store.Valid() && Consistent(Now()) && done == i
        invariant old(trail.log) <= trail.log
        invariant forall p :: Holds(store.tables, p) <==> Holds(old(store.tables), p) || Fires(alerts[..i], resolve, p)
        invariant forall k :: 0 <= k < i ==> Settled(old(Now()), Now(), alerts[k], resolve)
      {
        ghost var before := Now();
        assert alerts[..i + 1] == alerts[..i] + [alerts[i]];
        ok := TakeAlert(alerts[i], now, resolve, faults(i));
        forall k | 0 <= k < i ensures Settled(old(Now()), Now(), alerts[k], resolve) {
          SettledStays(old(Now()), before, Now(), alerts[k], resolve);
        }
        if !ok {
          return;
        }
        IsSettled(old(Now()), before, Now(), alerts[i], resolve);
        done := i + 1;
      }
      ok := true;
    }
  }
}
