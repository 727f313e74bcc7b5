/**
 Gate 1, the citation check on an RCA (internal/controlplane/rca.go), and what
 passing it means for the claims.
 */
module Gate {
  import opened Evidence
  import opened Wrappers

  datatype Claim = Claim(id: string, statement: string, kind: string, cites: seq<string>)

  datatype RCA = RCA(summary: seq<Claim>, level: string, confidence: seq<Claim>)

  const OBSERVED := "observed"
  const INFERRED := "inferred"

  predicate KnownKind(kind: string) { kind == OBSERVED || kind == INFERRED }
  predicate KnownLevel(level: string) { level == "low" || level == "medium" || level == "high" }

  datatype Reason =
    | TwoClaims
    | CitesNothing
    | NotAQuery(ref: string)
    | QueryFailed(ref: string)
    | NotAnotherClaim(id: string)
    | BadKind(kind: string)
    | BadLevel(level: string)

  // `claim` is empty when the reason belongs to the RCA as a whole.
  datatype GateFailure = GateFailure(claim: string, reason: Reason)

  // ---- What the check looks at ----

  function AllClaims(r: RCA): seq<Claim> {
    r.summary + r.confidence
  }

  // What became of the query `id`: the last ledger entry decides.
  function Outcome(ledger: seq<LedgerEntry>, id: string): Option<bool> {
    if ledger == [] then None else
    var last := ledger[|ledger| - 1];
    if last.ref.callId == id then Some(last.ok) else Outcome(ledger[..|ledger| - 1], id)
  }

  // The first claim called `id`.
  function First(claims: seq<Claim>, id: string): (c: Option<Claim>)
    ensures c.Some? ==> c.value in claims && c.value.id == id
    ensures c.None? <==> forall d :: d in claims ==> d.id != id
  {
    if claims == [] then None else
    var n := |claims| - 1;
    assert claims == claims[..n] + [claims[n]];
    var earlier := First(claims[..n], id);
    if earlier.Some? then earlier
    else if claims[n].id == id then Some(claims[n])
    else None
  }

  lemma {:induction false} FirstInPrefix(claims: seq<Claim>, n: nat, id: string)
    requires n <= |claims| && First(claims[..n], id).Some?
    ensures First(claims, id) == First(claims[..n], id)
  {
    if n == |claims| {
      assert claims[..n] == claims;
    } else {
      assert claims[..|claims| - 1][..n] == claims[..n];
      FirstInPrefix(claims[..|claims| - 1], n, id);
    }
  }

  // What is wrong with one citation of claim `c`.
  function CiteReason(claims: seq<Claim>, ledger: seq<LedgerEntry>, c: Claim, id: string): Option<Reason> {
    if c.kind == OBSERVED then
      match Outcome(ledger, id)
      case None => Some(NotAQuery(id))
      case Some(ok) => if ok then None else Some(QueryFailed(id))
    else if c.kind == INFERRED && (id == c.id || First(claims, id).None?) then Some(NotAnotherClaim(id))
    else None
  }

  // What is wrong with claim `c` on its own, looking at its first `n` citations.
  ghost predicate ClaimFails(claims: seq<Claim>, ledger: seq<LedgerEntry>, c: Claim, n: nat, f: GateFailure)
    requires n <= |c.cites|
  {
    && f.claim == c.id
    && match f.reason
       case CitesNothing => c.cites == []
       case _ => exists i :: 0 <= i < n && CiteReason(claims, ledger, c, c.cites[i]) == Some(f.reason)
  }

  ghost predicate KindFails(c: Claim, f: GateFailure) {
    f == GateFailure(c.id, BadKind(c.kind)) && !KnownKind(c.kind)
  }

  // What is wrong with the first `n` claims: the first claim of each id is
  // checked, and the others have to be that claim again.
  ghost predicate FailsWithin(claims: seq<Claim>, ledger: seq<LedgerEntry>, n: nat, f: GateFailure)
    requires n <= |claims|
  {
    var first := First(claims[..n], f.claim);
    && first.Some?
    && if f.reason.TwoClaims? then
         exists c :: c in claims[..n] && c.id == f.claim && c != first.value
       else
         ClaimFails(claims, ledger, first.value, |first.value.cites|, f) || KindFails(first.value, f)
  }

  ghost predicate Fails(r: RCA, ledger: seq<LedgerEntry>, f: GateFailure) {
    || FailsWithin(AllClaims(r), ledger, |AllClaims(r)|, f)
    || (f == GateFailure("", BadLevel(r.level)) && !KnownLevel(r.level))
  }

  lemma FailsWithinNext(claims: seq<Claim>, ledger: seq<LedgerEntry>, n: nat, f: GateFailure)
    requires n < |claims|
    ensures var c := claims[n];
            var seen := First(claims[..n], c.id);
            FailsWithin(claims, ledger, n + 1, f) <==>
            FailsWithin(claims, ledger, n, f) ||
            (if seen.Some? then f == GateFailure(c.id, TwoClaims) && c != seen.value
             else ClaimFails(claims, ledger, c, |c.cites|, f) || KindFails(c, f))
  {
    assert claims[..n + 1][..n] == claims[..n];
    assert claims[..n + 1] == claims[..n] + [claims[n]];
    assert First(claims[..n + 1], f.claim) ==
           if First(claims[..n], f.claim).Some? then First(claims[..n], f.claim)
           else if claims[n].id == f.claim then Some(claims[n]) else None;
    assert f.reason.TwoClaims? ==> !ClaimFails(claims, ledger, claims[n], |claims[n].cites|, f);
  }

  lemma NothingFailsYet(claims: seq<Claim>, ledger: seq<LedgerEntry>)
    ensures forall f :: !FailsWithin(claims, ledger, 0, f)
  {
  }

  // Which ledger refs succeeded.
  method Outcomes(ledger: seq<LedgerEntry>) returns (ok: map<string, bool>)
    ensures forall id :: id in ok <==> Outcome(ledger, id).Some?
    ensures forall id :: id in ok ==> Outcome(ledger, id) == Some(ok[id])
  {
    ok := map[];
    for i := 0 to |ledger|
      invariant forall id :: id in ok <==> Outcome(ledger[..i], id).Some?
      invariant forall id :: id in ok ==> Outcome(ledger[..i], id) == Some(ok[id])
    {
      assert ledger[..i + 1][..i] == ledger[..i];
      ok := ok[ledger[i].ref.callId := ledger[i].ok];
    }
    assert ledger[..|ledger|] == ledger;
  }

  // The claim that each id names: its first.
  method FirstClaims(all: seq<Claim>) returns (ids: map<string, Claim>)
    ensures forall id :: id in ids <==> First(all, id).Some?
    ensures forall id :: id in ids ==> First(all, id) == Some(ids[id])
  {
    ids := map[];
    for i := 0 to |all|
      invariant forall id :: id in ids <==> First(all[..i], id).Some?
      invariant forall id :: id in ids ==> First(all[..i], id) == Some(ids[id])
    {
      assert all[..i + 1][..i] == all[..i];
      if all[i].id !in ids {
        ids := ids[all[i].id := all[i]];
      }
    }
    assert all[..|all|] == all;
  }

  // The checks on a claim seen for the first time.
  method CheckClaim(ghost all: seq<Claim>, ghost ledger: seq<LedgerEntry>, ok: map<string, bool>,
                    ids: map<string, Claim>, c: Claim) returns (out: seq<GateFailure>)
    requires forall id :: id in ok <==> Outcome(ledger, id).Some?
    requires forall id :: id in ok ==> Outcome(ledger, id) == Some(ok[id])
    requires forall id :: id in ids <==> First(all, id).Some?
    ensures forall f :: f in out <==> ClaimFails(all, ledger, c, |c.cites|, f) || KindFails(c, f)
  {
    hide Outcome, First;
    out := [];
    if |c.cites| == 0 {
      out := out + [GateFailure(c.id, CitesNothing)];
    }
    for j := 0 to |c.cites|
      invariant forall f :: f in out <==> ClaimFails(all, ledger, c, j, f)
    {
      var id := c.cites[j];
      if c.kind == OBSERVED {
        if id !in ok {
          out := out + [GateFailure(c.id, NotAQuery(id))];
        } else if !ok[id] {
          out := out + [GateFailure(c.id, QueryFailed(id))];
        }
      } else if c.kind == INFERRED {
        if id !in ids || id == c.id {
          out := out + [GateFailure(c.id, NotAnotherClaim(id))];
        }
      }
    }
    if c.kind != OBSERVED && c.kind != INFERRED {
      out := out + [GateFailure(c.id, BadKind(c.kind))];
    }
  }

  // What claim `i` adds to the failures of the claims before it.
  method CheckNext(all: seq<Claim>, ghost ledger: seq<LedgerEntry>, ok: map<string, bool>,
                   ids: map<string, Claim>, checked: set<string>, i: nat) returns (found: seq<GateFailure>)
    requires forall id :: id in ok <==> Outcome(ledger, id).Some?
    requires forall id :: id in ok ==> Outcome(ledger, id) == Some(ok[id])
    requires forall id :: id in ids <==> First(all, id).Some?
    requires forall id :: id in ids ==> First(all, id) == Some(ids[id])
    requires i < |all| && forall id :: id in checked <==> First(all[..i], id).Some?
    ensures forall f :: FailsWithin(all, ledger, i + 1, f) <==> FailsWithin(all, ledger, i, f) || f in found
  {
    hide Outcome, FailsWithin, First, CiteReason;
    var c := all[i];
    if c.id in checked {
      // A claim repeated as is is one claim, checked once.
      FirstInPrefix(all, i, c.id);
      var first := ids[c.id];
      if first.statement != c.statement || first.kind != c.kind || first.cites != c.cites {
        found := [GateFailure(c.id, TwoClaims)];
      } else {
        found := [];
      }
    } else {
      found := CheckClaim(all, ledger, ok, ids, c);
    }
    forall f ensures FailsWithin(all, ledger, i + 1, f) <==> FailsWithin(all, ledger, i, f) || f in found {
      FailsWithinNext(all, ledger, i, f);
    }
  }

  /** gate1: reports exactly what is wrong, and nothing else. */
  method Gate1(r: Option<RCA>, ledger: seq<LedgerEntry>) returns (out: seq<GateFailure>)
    ensures r.None? ==> out == []
    ensures r.Some? ==> forall f :: f in out <==> Fails(r.value, ledger, f)
    ensures r.Some? ==> (out == [] <==> Passes(r.value, ledger))
    ensures r.Some? ==> (out == [] <==> Cited(r.value, ledger))
  {
    hide Outcome, FailsWithin, Passes, Cited;
    if r.None? {
      return [];
    }
    var ok := Outcomes(ledger);
    var all := r.value.summary + r.value.confidence;
    var ids := FirstClaims(all);

    out := [];
    NothingFailsYet(all, ledger);
    var checked: set<string> := {};
    for i := 0 to |all|
      invariant forall id :: id in checked <==> First(all[..i], id).Some?
      invariant forall f :: f in out <==> FailsWithin(all, ledger, i, f)
    {
      var found := CheckNext(all, ledger, ok, ids, checked, i);
      out := out + found;
      assert all[..i + 1][..i] == all[..i];
      checked := checked + {all[i].id};
    }
    if !KnownLevel(r.value.level) {
      out := out + [GateFailure("", BadLevel(r.value.level))];
    }
    NoFailureIsPassing(r.value, ledger);
    PassingIsCited(r.value, ledger);
    assert out != [] ==> out[0] in out;
  }

  // ---- What passing means ----

  predicate Named(claims: seq<Claim>, id: string) {
    exists c :: c in claims && c.id == id
  }

  predicate WellCited(claims: seq<Claim>, ledger: seq<LedgerEntry>, c: Claim) {
    && c.cites != []
    && (|| (c.kind == OBSERVED && forall id :: id in c.cites ==> Outcome(ledger, id) == Some(true))
        || (c.kind == INFERRED && forall id :: id in c.cites ==> id != c.id && Named(claims, id)))
  }

  predicate Passes(r: RCA, ledger: seq<LedgerEntry>) {
    var claims := AllClaims(r);
    && (forall c, d :: c in claims && d in claims && c.id == d.id ==> c == d)
    && (forall c :: c in claims ==> WellCited(claims, ledger, c))
    && KnownLevel(r.level)
  }

  // ---- The same in the terms of the RCA itself ----

  // Under the summary or under the confidence.
  predicate Claims(r: RCA, c: Claim) {
    c in r.summary || c in r.confidence
  }

  // The last query of this ref in the ledger succeeded.
  predicate Succeeded(ledger: seq<LedgerEntry>, id: string) {
    exists i :: 0 <= i < |ledger| && ledger[i].ref.callId == id && ledger[i].ok
                && forall j :: i < j < |ledger| ==> ledger[j].ref.callId != id
  }

  ghost predicate NamesAnother(r: RCA, c: Claim, id: string) {
    id != c.id && exists d :: Claims(r, d) && d.id == id
  }

  ghost predicate CitedWell(r: RCA, ledger: seq<LedgerEntry>, c: Claim) {
    && c.cites != []
    && (c.kind == "observed" || c.kind == "inferred")
    && (c.kind == "observed" ==> forall id :: id in c.cites ==> Succeeded(ledger, id))
    && (c.kind == "inferred" ==> forall id :: id in c.cites ==> NamesAnother(r, c, id))
  }

  // What Gate 1 is for.
  ghost predicate Cited(r: RCA, ledger: seq<LedgerEntry>) {
    && (forall c, d :: Claims(r, c) && Claims(r, d) && c.id == d.id ==> c == d)
    && (forall c :: Claims(r, c) ==> CitedWell(r, ledger, c))
    && (r.level == "low" || r.level == "medium" || r.level == "high")
  }

  lemma {:induction false} OutcomeSucceeded(ledger: seq<LedgerEntry>, id: string)
    ensures Outcome(ledger, id) == Some(true) <==> Succeeded(ledger, id)
  {
    if ledger != [] {
      var n := |ledger| - 1;
      OutcomeSucceeded(ledger[..n], id);
      if ledger[n].ref.callId != id {
        if Succeeded(ledger, id) {
          var i :| 0 <= i < |ledger| && ledger[i].ref.callId == id && ledger[i].ok
                   && forall j :: i < j < |ledger| ==> ledger[j].ref.callId != id;
          assert ledger[..n][i] == ledger[i];
        }
        if Succeeded(ledger[..n], id) {
          var i :| 0 <= i < n && ledger[..n][i].ref.callId == id && ledger[..n][i].ok
                   && forall j :: i < j < n ==> ledger[..n][j].ref.callId != id;
          forall j | i < j < |ledger| ensures ledger[j].ref.callId != id {
            assert j < n ==> ledger[..n][j] == ledger[j];
          }
          assert ledger[i].ref.callId == id;
        }
      }
    }
  }

  lemma ClaimsOf(r: RCA, c: Claim)
    ensures c in AllClaims(r) <==> Claims(r, c)
  {
  }

  lemma WellCitedIsCitedWell(r: RCA, ledger: seq<LedgerEntry>, c: Claim)
    ensures WellCited(AllClaims(r), ledger, c) <==> CitedWell(r, ledger, c)
  {
    hide Outcome, AllClaims, Succeeded, Claims;
    forall id ensures Outcome(ledger, id) == Some(true) <==> Succeeded(ledger, id) {
      OutcomeSucceeded(ledger, id);
    }
    forall id ensures Named(AllClaims(r), id) <==> exists d :: Claims(r, d) && d.id == id {
      if d :| Claims(r, d) && d.id == id {
        ClaimsOf(r, d);
      }
      if d :| d in AllClaims(r) && d.id == id {
        ClaimsOf(r, d);
      }
    }
  }

  /** Passing, in the terms of the RCA: claims under summary or confidence with one id
      are one claim, every one has a citation and a known kind, observed citations
      name successful queries and inferred ones another claim of either list, and the
      level is known. */
  lemma PassingIsCited(r: RCA, ledger: seq<LedgerEntry>)
    ensures Passes(r, ledger) <==> Cited(r, ledger)
  {
    hide Outcome, AllClaims, Claims, WellCited, CitedWell;
    forall c ensures (c in AllClaims(r) <==> Claims(r, c)) && (WellCited(AllClaims(r), ledger, c) <==> CitedWell(r, ledger, c)) {
      ClaimsOf(r, c);
      WellCitedIsCitedWell(r, ledger, c);
    }
  }

  // The failure that an ill-cited claim causes.
  lemma IllCitedFails(claims: seq<Claim>, ledger: seq<LedgerEntry>, c: Claim) returns (f: GateFailure)
    requires !WellCited(claims, ledger, c)
    ensures ClaimFails(claims, ledger, c, |c.cites|, f) || KindFails(c, f)
    ensures !f.reason.TwoClaims? && f.claim == c.id
  {
    if c.cites == [] {
      f := GateFailure(c.id, CitesNothing);
    } else if !KnownKind(c.kind) {
      f := GateFailure(c.id, BadKind(c.kind));
    } else {
      var id :| id in c.cites && CiteReason(claims, ledger, c, id).Some?;
      f := GateFailure(c.id, CiteReason(claims, ledger, c, id).value);
    }
  }

  /** Gate 1 reports no failure exactly when claims with equal ids are identical,
      every claim is well cited and the level is known. */
  lemma NoFailureIsPassing(r: RCA, ledger: seq<LedgerEntry>)
    ensures Passes(r, ledger) <==> forall f :: !Fails(r, ledger, f)
  {
    var claims := AllClaims(r);
    assert claims[..|claims|] == claims;
    if forall f :: !Fails(r, ledger, f) {
      assert !Fails(r, ledger, GateFailure("", BadLevel(r.level)));
      forall c | c in claims ensures First(claims, c.id) == Some(c) {
        assert !Fails(r, ledger, GateFailure(c.id, TwoClaims));
      }
      forall c | c in claims ensures WellCited(claims, ledger, c) {
        if !WellCited(claims, ledger, c) {
          var f := IllCitedFails(claims, ledger, c);
          assert Fails(r, ledger, f);
        }
      }
    }
    if Passes(r, ledger) {
      forall f ensures !Fails(r, ledger, f) {
        var first := First(claims, f.claim);
        if first.Some? {
          var c := first.value;
          assert WellCited(claims, ledger, c);
          forall i | 0 <= i < |c.cites| ensures CiteReason(claims, ledger, c, c.cites[i]) == None {
            assert c.cites[i] in c.cites;
          }
        }
      }
    }
  }

  /** The verdict depends only on which claims there are: reordering claims,
      repeating them, or moving them between summary and confidence changes
      nothing. */
  lemma VerdictIgnoresOrder(a: RCA, b: RCA, ledger: seq<LedgerEntry>)
    requires a.level == b.level
    requires forall c :: c in a.summary || c in a.confidence <==> c in b.summary || c in b.confidence
    ensures (forall f :: !Fails(a, ledger, f)) <==> (forall f :: !Fails(b, ledger, f))
    ensures Cited(a, ledger) <==> Cited(b, ledger)
  {
    hide Fails, Passes, Succeeded;
    PassingIsCited(a, ledger);
    PassingIsCited(b, ledger);
    NoFailureIsPassing(a, ledger);
    NoFailureIsPassing(b, ledger);
    assert forall c :: Claims(a, c) <==> Claims(b, c);
    assert forall c, id :: NamesAnother(a, c, id) <==> NamesAnother(b, c, id);
    assert forall c :: CitedWell(a, ledger, c) <==> CitedWell(b, ledger, c);
  }
}
