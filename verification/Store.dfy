/**
 The store's two tables and its transactions (internal/store/store.go). Rows are
 kept in rowid order. The text order in which SQL returns members is an
 arbitrary rearrangement.
 */
module Store {
  import opened JsonString
  import opened Signals
  import opened Triage
  import opened Wrappers

  datatype IncidentRow = IncidentRow(id: int, target: Option<Target>, key: Text, openedAt: int, ticketRef: string)

  datatype MemberRow = MemberRow(incident: int, member: Member)

  // `lastId` is the AUTOINCREMENT counter.
  datatype Tables = Tables(incidents: seq<IncidentRow>, members: seq<MemberRow>, lastId: int)

  // PRIMARY KEY (incident_id, key, starts_at)
  predicate SameKey(a: MemberRow, b: MemberRow) {
    a.incident == b.incident && a.member.key == b.member.key && a.member.startsAt == b.member.startsAt
  }

  predicate KeysDistinct(rows: seq<MemberRow>) {
    forall i, j :: 0 <= i < j < |rows| ==> !SameKey(rows[i], rows[j])
  }

  // FOREIGN KEY incident_id
  ghost predicate HasRow(t: Tables, m: MemberRow) {
    exists r :: r in t.incidents && r.id == m.incident
  }

  // What the schema enforces.
  ghost predicate WellFormed(t: Tables) {
    && KeysDistinct(t.members)
    && (forall i, j :: 0 <= i < j < |t.incidents| ==> t.incidents[i].id < t.incidents[j].id)
    && (forall r :: r in t.incidents ==> 0 < r.id <= t.lastId)
    && (forall m :: m in t.members ==> HasRow(t, m))
    && t.lastId >= 0
  }

  // ---- Loading ----

  // A SELECT with some ORDER BY.
  ghost predicate Rearranged(rows: seq<MemberRow>, result: seq<MemberRow>) {
    KeysDistinct(result) && forall r :: r in result <==> r in rows
  }

  function MembersOf(rows: seq<MemberRow>, id: int): (ms: seq<Member>)
    ensures forall m :: m in ms <==> MemberRow(id, m) in rows
  {
    if rows == [] then [] else
    var last := rows[|rows| - 1];
    assert rows == rows[..|rows| - 1] + [last];
    MembersOf(rows[..|rows| - 1], id) + if last.incident == id then [last.member] else []
  }

  function Loaded(row: IncidentRow, rows: seq<MemberRow>): Incident {
    Incident(row.id, row.target, row.key, row.openedAt, MembersOf(rows, row.id), row.ticketRef)
  }

  // A row read adds its member to its Incident only.
  lemma LoadedNext(row: IncidentRow, rows: seq<MemberRow>, j: nat)
    requires j < |rows|
    ensures var was := Loaded(row, rows[..j]);
            Loaded(row, rows[..j + 1]) ==
            if row.id == rows[j].incident then was.(members := was.members + [rows[j].member]) else was
  {
    assert rows[..j + 1][..j] == rows[..j];
  }

  // Members of one Incident are different episodes.
  predicate EpisodesDistinct(ms: seq<Member>) {
    forall i, j :: 0 <= i < j < |ms| ==> !(ms[i].key == ms[j].key && ms[i].startsAt == ms[j].startsAt)
  }

  lemma {:induction false} LoadedEpisodesDistinct(rows: seq<MemberRow>, id: int)
    requires KeysDistinct(rows)
    ensures EpisodesDistinct(MembersOf(rows, id))
  {
    if rows != [] {
      var n := |rows| - 1;
      LoadedEpisodesDistinct(rows[..n], id);
      if rows[n].incident == id {
        var ms := MembersOf(rows[..n], id);
        forall i | 0 <= i < |ms|
          ensures !(ms[i].key == rows[n].member.key && ms[i].startsAt == rows[n].member.startsAt)
        {
          assert MemberRow(id, ms[i]) in rows[..n];
          var k :| 0 <= k < n && rows[k] == MemberRow(id, ms[i]);
          assert !SameKey(rows[k], rows[n]);
        }
      }
    }
  }

  lemma LoadedNothing(incidents: seq<IncidentRow>, rows: seq<MemberRow>)
    ensures forall i :: 0 <= i < |incidents| ==>
              var row := incidents[i];
              Loaded(row, rows[..0]) == Incident(row.id, row.target, row.key, row.openedAt, [], row.ticketRef)
  {
  }

  // ---- Saving ----

  // INSERT ... ON CONFLICT DO UPDATE SET last_seen
  function Upsert(rows: seq<MemberRow>, id: int, m: Member): (out: seq<MemberRow>) {
    if rows == [] then [MemberRow(id, m)]
    else if SameKey(rows[0], MemberRow(id, m)) then
      [rows[0].(member := rows[0].member.(lastSeen := m.lastSeen))] + rows[1..]
    else
      [rows[0]] + Upsert(rows[1..], id, m)
  }

  function UpsertAll(rows: seq<MemberRow>, id: int, ms: seq<Member>): seq<MemberRow> {
    if ms == [] then rows else Upsert(UpsertAll(rows, id, ms[..|ms| - 1]), id, ms[|ms| - 1])
  }

  predicate HasKey(rows: seq<MemberRow>, key: MemberRow) {
    exists r :: r in rows && SameKey(r, key)
  }

  lemma {:induction false} UpsertNew(rows: seq<MemberRow>, id: int, m: Member)
    requires !HasKey(rows, MemberRow(id, m))
    ensures Upsert(rows, id, m) == rows + [MemberRow(id, m)]
  {
    if rows != [] {
      assert rows[0] in rows;
      forall r | r in rows[1..] ensures !SameKey(r, MemberRow(id, m)) {
        assert r in rows;
      }
      UpsertNew(rows[1..], id, m);
      assert rows == [rows[0]] + rows[1..];
    }
  }

  lemma {:induction false} UpsertConflict(rows: seq<MemberRow>, id: int, m: Member, k: nat)
    requires KeysDistinct(rows) && k < |rows| && SameKey(rows[k], MemberRow(id, m))
    ensures Upsert(rows, id, m) == rows[k := rows[k].(member := rows[k].member.(lastSeen := m.lastSeen))]
  {
    if k > 0 {
      assert !SameKey(rows[0], rows[k]);
      UpsertConflict(rows[1..], id, m, k - 1);
    }
  }

  // Writing back a stored member changes nothing.
  lemma UpsertStored(rows: seq<MemberRow>, id: int, m: Member)
    requires KeysDistinct(rows) && MemberRow(id, m) in rows
    ensures Upsert(rows, id, m) == rows
  {
    var k :| 0 <= k < |rows| && rows[k] == MemberRow(id, m);
    UpsertConflict(rows, id, m, k);
  }

  lemma {:induction false} UpsertAllStored(rows: seq<MemberRow>, id: int, ms: seq<Member>)
    requires KeysDistinct(rows) && forall m :: m in ms ==> MemberRow(id, m) in rows
    ensures UpsertAll(rows, id, ms) == rows
  {
    if ms != [] {
      UpsertAllStored(rows, id, ms[..|ms| - 1]);
      UpsertStored(rows, id, ms[|ms| - 1]);
    }
  }

  lemma {:induction false} UpsertAllAppend(rows: seq<MemberRow>, id: int, a: seq<Member>, b: seq<Member>)
    ensures UpsertAll(rows, id, a + b) == UpsertAll(UpsertAll(rows, id, a), id, b)
    decreases |b|
  {
    if b == [] {
      assert a + b == a;
    } else {
      assert (a + b)[..|a + b| - 1] == a + b[..|b| - 1];
      UpsertAllAppend(rows, id, a, b[..|b| - 1]);
    }
  }

  /** Join writes every member and adds only the new one. */
  lemma SavingAJoin(rows: seq<MemberRow>, id: int, stored: seq<Member>, m: Member)
    requires KeysDistinct(rows) && !HasKey(rows, MemberRow(id, m))
    requires forall x :: x in stored ==> MemberRow(id, x) in rows
    ensures UpsertAll(rows, id, stored + [m]) == rows + [MemberRow(id, m)]
  {
    UpsertAllStored(rows, id, stored);
    assert (stored + [m])[..|stored|] == stored;
    UpsertNew(rows, id, m);
  }

  /** Repeat rewrites every member and changes only the touched one's last-seen. */
  lemma SavingARepeat(rows: seq<MemberRow>, id: int, stored: seq<Member>, j: nat, now: int) returns (k: nat)
    requires KeysDistinct(rows) && EpisodesDistinct(stored) && j < |stored|
    requires forall x :: x in stored ==> MemberRow(id, x) in rows
    ensures k < |rows| && rows[k] == MemberRow(id, stored[j])
    ensures var touched := stored[j].(lastSeen := now);
            UpsertAll(rows, id, stored[j := touched]) == rows[k := MemberRow(id, touched)]
  {
    var touched := stored[j].(lastSeen := now);
    var before, after := stored[..j], stored[j + 1..];
    assert stored[j := touched] == (before + [touched]) + after;
    assert stored[j] in stored;
    k :| 0 <= k < |rows| && rows[k] == MemberRow(id, stored[j]);

    UpsertAllStored(rows, id, before);
    assert (before + [touched])[..|before|] == before;
    UpsertConflict(rows, id, touched, k);
    var mid := rows[k := MemberRow(id, touched)];
    forall x | x in after ensures MemberRow(id, x) in mid {
      var i :| 0 <= i < |after| && after[i] == x;
      assert stored[i + j + 1] == x && x in stored;
      var r :| 0 <= r < |rows| && rows[r] == MemberRow(id, x);
      assert r != k;
      assert mid[r] == MemberRow(id, x);
    }
    UpsertAllStored(mid, id, after);
    UpsertAllAppend(rows, id, before + [touched], after);
  }

  function Saved(t: Tables, inc: Incident): Tables {
    if inc.id == 0 then
      var id := t.lastId + 1;
      Tables(t.incidents + [IncidentRow(id, inc.target, inc.key, inc.openedAt, "")],
             UpsertAll(t.members, id, inc.members), id)
    else
      t.(members := UpsertAll(t.members, inc.id, inc.members))
  }

  // UPDATE incidents SET ticket_ref
  function Ticketed(rows: seq<IncidentRow>, id: int, ref: string): (out: seq<IncidentRow>)
    ensures |out| == |rows|
    ensures forall i :: 0 <= i < |rows| ==> out[i] == if rows[i].id == id then rows[i].(ticketRef := ref) else rows[i]
  {
    seq(|rows|, i requires 0 <= i < |rows| => if rows[i].id == id then rows[i].(ticketRef := ref) else rows[i])
  }

  function LoadAll(incidents: seq<IncidentRow>, rows: seq<MemberRow>): (out: seq<Incident>)
    ensures |out| == |incidents|
    ensures forall i :: 0 <= i < |incidents| ==> out[i] == Loaded(incidents[i], rows)
  {
    seq(|incidents|, i requires 0 <= i < |incidents| => Loaded(incidents[i], rows))
  }

  // Incident `inc` is row `row` with all of its members, each episode once.
  ghost predicate ReadsBack(row: IncidentRow, rows: seq<MemberRow>, inc: Incident) {
    && inc.id == row.id && inc.target == row.target && inc.key == row.key
    && inc.openedAt == row.openedAt && inc.ticketRef == row.ticketRef
    && (forall m :: m in inc.members <==> MemberRow(row.id, m) in rows)
    && (forall i, j :: 0 <= i < j < |inc.members| ==>
          inc.members[i].key != inc.members[j].key || inc.members[i].startsAt != inc.members[j].startsAt)
  }

  // What is loaded is what is stored.
  ghost predicate Reloaded(t: Tables, incidents: seq<Incident>) {
    |incidents| == |t.incidents| && forall i :: 0 <= i < |incidents| ==> ReadsBack(t.incidents[i], t.members, incidents[i])
  }

  lemma LoadAllReloads(t: Tables, rows: seq<MemberRow>)
    requires KeysDistinct(t.members) && Rearranged(t.members, rows)
    ensures Reloaded(t, LoadAll(t.incidents, rows))
  {
    forall i | 0 <= i < |t.incidents| ensures ReadsBack(t.incidents[i], t.members, Loaded(t.incidents[i], rows)) {
      LoadedEpisodesDistinct(rows, t.incidents[i].id);
    }
  }

  // ---- The store ----

  class Store {
    var tables: Tables            // committed
    var work: Option<Tables>      // what the open transaction sees
    const order: seq<MemberRow> -> seq<MemberRow>

    // A database as it was left; a new one has no rows.
    constructor (tables: Tables, order: seq<MemberRow> -> seq<MemberRow>)
      requires WellFormed(tables)
      requires forall rows :: KeysDistinct(rows) ==> Rearranged(rows, order(rows))
      ensures Valid() && this.order == order && this.tables == tables && work == None
    {
      this.order, this.tables, work := order, tables, None;
    }

    ghost predicate Valid()
      reads this
    {
      WellFormed(tables) && forall rows :: KeysDistinct(rows) ==> Rearranged(rows, order(rows))
    }

    /** OpenIncidents: every Incident, by id, with all its members. */
    method OpenIncidents(ok: bool) returns (r: Option<seq<Incident>>)
      requires Valid()
      ensures r == if ok then Some(LoadAll(tables.incidents, order(tables.members))) else None
      ensures ok ==> Reloaded(tables, r.value)
    {
      hide Loaded, LoadAll, MembersOf, KeysDistinct, SameKey, Reloaded;
      if !ok {
        return None;
      }
      LoadedNothing(tables.incidents, order(tables.members));
      var incidents := tables.incidents;
      var rows := order(tables.members);
      var out: seq<Incident> := [];
      var byId: map<int, nat> := map[];
      for i := 0 to |incidents|
        invariant |out| == i && forall k :: 0 <= k < i ==> out[k] == Loaded(incidents[k], rows[..0])
        invariant forall id :: id in byId ==> byId[id] < i && incidents[byId[id]].id == id
        invariant forall k :: 0 <= k < i ==> incidents[k].id in byId
      {
        var row := incidents[i];
        byId := byId[row.id := |out|];
        out := out + [Incident(row.id, row.target, row.key, row.openedAt, [], row.ticketRef)];
      }
      hide ReadsBack, EpisodesDistinct;
      for j := 0 to |rows|
        invariant |out| == |incidents| && forall k :: 0 <= k < |out| ==> out[k] == Loaded(incidents[k], rows[..j])
      {
        assert HasRow(tables, rows[j]);
        var i := byId[rows[j].incident];
        forall k | 0 <= k < |incidents|
          ensures Loaded(incidents[k], rows[..j + 1]) ==
                  if k == i then out[i].(members := out[i].members + [rows[j].member]) else out[k]
        {
          LoadedNext(incidents[k], rows, j);
        }
        out := out[i := out[i].(members := out[i].members + [rows[j].member])];
      }
      assert rows[..|rows|] == rows;
      assert out == LoadAll(incidents, rows);
      LoadAllReloads(tables, rows);
      return Some(out);
    }

    method Begin(ok: bool)
      modifies this`work
      ensures work == if ok then Some(tables) else None
    {
      work := if ok then Some(tables) else None;
    }

    /** Save: inserts a new Incident, upserts every member, and returns the id.
        Statement `failsAt` fails, if there is one. */
    method Save(inc: Incident, failsAt: Option<nat>) returns (id: Option<int>)
      requires work.Some?
      modifies this`work
      ensures work.Some?
      ensures id.Some? ==> work == Some(Saved(old(work).value, inc))
      ensures id.Some? ==> id.value == if inc.id == 0 then old(work).value.lastId + 1 else inc.id
      ensures failsAt == None ==> id.Some?
    {
      var newId := inc.id;
      if newId == 0 {
        if failsAt == Some(0) {
          return None;
        }
        newId := work.value.lastId + 1;
        var row := IncidentRow(newId, inc.target, inc.key, inc.openedAt, "");
        work := Some(work.value.(incidents := work.value.incidents + [row], lastId := newId));
      }
      ghost var t := work.value;
      for i := 0 to |inc.members|
        invariant work == Some(t.(members := UpsertAll(t.members, newId, inc.members[..i])))
      {
        if failsAt == Some(i + 1) {
          return None;
        }
        assert inc.members[..i + 1][..i] == inc.members[..i];
        work := Some(work.value.(members := Upsert(work.value.members, newId, inc.members[i])));
      }
      assert inc.members[..|inc.members|] == inc.members;
      return Some(newId);
    }

    method SetTicket(id: int, ref: string, ok: bool)
      requires work.Some?
      modifies this`work
      ensures work == if ok then Some(old(work).value.(incidents := Ticketed(old(work).value.incidents, id, ref))) else old(work)
    {
      if ok {
        work := Some(work.value.(incidents := Ticketed(work.value.incidents, id, ref)));
      }
    }

    // Committed whole or not at all.
    method Commit(ok: bool)
      requires work.Some?
      modifies this`tables, this`work
      ensures tables == if ok then old(work).value else old(tables)
      ensures work == None
    {
      if ok {
        tables := work.value;
      }
      work := None;
    }

    method Rollback()
      modifies this`work
      ensures work == None
    {
      work := None;
    }
  }
}
