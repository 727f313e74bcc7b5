/**
 What Gate 1 does and does not guarantee: whether the claims of an RCA that
 passes rest, through finitely many citations, on successful Evidence queries.
 Claims are followed by id; in a passing RCA an id names one claim.
 */
module Grounding {
  import opened Evidence
  import opened Gate
  import opened Wrappers

  // `id` rests on successful queries within `n` citations of other claims.
  ghost predicate Grounded(claims: seq<Claim>, ledger: seq<LedgerEntry>, id: string, n: nat)
    decreases n
  {
    match First(claims, id)
    case None => false
    case Some(c) =>
      || (c.kind == OBSERVED && c.cites != [] && forall x :: x in c.cites ==> Outcome(ledger, x) == Some(true))
      || (c.kind == INFERRED && c.cites != [] && n > 0
          && forall x :: x in c.cites ==> Grounded(claims, ledger, x, n - 1))
  }

  ghost predicate Rests(claims: seq<Claim>, ledger: seq<LedgerEntry>, id: string) {
    exists n: nat :: Grounded(claims, ledger, id, n)
  }

  // The inferred claim `from` cites the claim `to`.
  predicate Cites(claims: seq<Claim>, from: string, to: string) {
    match First(claims, from)
    case None => false
    case Some(c) => c.kind == INFERRED && to in c.cites
  }

  // A path of claims, each citing the next.
  predicate Path(claims: seq<Claim>, p: seq<string>) {
    && p != []
    && Named(claims, p[0])
    && forall i :: 0 <= i < |p| - 1 ==> Cites(claims, p[i], p[i + 1])
  }

  ghost predicate Acyclic(claims: seq<Claim>) {
    forall p :: Path(claims, p) && |p| > 1 ==> p[0] != p[|p| - 1]
  }

  predicate Revisits(p: seq<string>) {
    exists i, j :: 0 <= i < j < |p| && p[i] == p[j]
  }

  function Ids(claims: seq<Claim>): set<string> {
    set c | c in claims :: c.id
  }

  // ---- Paths ----

  lemma {:induction false} Pigeonhole(p: seq<string>, pool: set<string>)
    requires forall x :: x in p ==> x in pool
    requires |p| > |pool|
    ensures Revisits(p)
  {
    if p[0] in p[1..] {
      var j :| 0 <= j < |p[1..]| && p[1..][j] == p[0];
      assert p[0] == p[j + 1];
    } else {
      Pigeonhole(p[1..], pool - {p[0]});
      var i, j :| 0 <= i < j < |p[1..]| && p[1..][i] == p[1..][j];
      assert p[i + 1] == p[j + 1];
    }
  }

  // In a passing RCA a path never leaves the claims.
  lemma {:induction false} PathStaysNamed(r: RCA, ledger: seq<LedgerEntry>, p: seq<string>, i: nat)
    requires Passes(r, ledger) && Path(AllClaims(r), p) && i < |p|
    ensures Named(AllClaims(r), p[i]) && p[i] in Ids(AllClaims(r))
  {
    if i > 0 {
      PathStaysNamed(r, ledger, p, i - 1);
      assert Cites(AllClaims(r), p[i - 1], p[i - 1 + 1]);
      var c := First(AllClaims(r), p[i - 1]).value;
      assert WellCited(AllClaims(r), ledger, c);
    }
  }

  /** Without any hypothesis on cycles: a citation path of a passing RCA either
      ends at a claim all of whose citations are successful queries of this
      investigation, or can be continued; and once it is longer than the number
      of claims it has come back to a claim. */
  lemma EveryPathEndsOrRevisits(r: RCA, ledger: seq<LedgerEntry>, p: seq<string>)
    requires Passes(r, ledger) && Path(AllClaims(r), p)
    ensures Grounded(AllClaims(r), ledger, p[|p| - 1], 0) || exists x :: Path(AllClaims(r), p + [x])
    ensures |p| > |Ids(AllClaims(r))| ==> Revisits(p)
  {
    var claims := AllClaims(r);
    forall i | 0 <= i < |p| ensures p[i] in Ids(claims) {
      PathStaysNamed(r, ledger, p, i);
    }
    if |p| > |Ids(claims)| {
      Pigeonhole(p, Ids(claims));
    }
    var last := p[|p| - 1];
    PathStaysNamed(r, ledger, p, |p| - 1);
    var c := First(claims, last).value;
    assert WellCited(claims, ledger, c);
    if c.kind == INFERRED {
      var q := p + [c.cites[0]];
      forall i | 0 <= i < |q| - 1 ensures Cites(claims, q[i], q[i + 1]) {
        assert i < |p| - 1 ==> Cites(claims, p[i], p[i + 1]);
      }
      assert Path(claims, q);
    }
  }

  // A part of a path is a path.
  lemma PathPart(r: RCA, ledger: seq<LedgerEntry>, p: seq<string>, i: nat, j: nat)
    requires Passes(r, ledger) && Path(AllClaims(r), p) && i < j <= |p|
    ensures Path(AllClaims(r), p[i..j])
  {
    var q := p[i..j];
    PathStaysNamed(r, ledger, p, i);
    forall k | 0 <= k < |q| - 1 ensures Cites(AllClaims(r), q[k], q[k + 1]) {
      assert Cites(AllClaims(r), p[i + k], p[i + k + 1]);
    }
  }

  // ---- Grounded claims ----

  // A claim not grounded within n citations starts a path of n + 2 claims.
  lemma {:induction false} UngroundedPath(r: RCA, ledger: seq<LedgerEntry>, id: string, n: nat) returns (p: seq<string>)
    requires Passes(r, ledger) && Named(AllClaims(r), id)
    requires !Grounded(AllClaims(r), ledger, id, n)
    ensures Path(AllClaims(r), p) && |p| == n + 2 && p[0] == id
    decreases n
  {
    var claims := AllClaims(r);
    var c := First(claims, id).value;
    assert WellCited(claims, ledger, c);
    if n == 0 {
      p := [id, c.cites[0]];
      assert Cites(claims, p[0], p[1]);
    } else {
      var x :| x in c.cites && !Grounded(claims, ledger, x, n - 1);
      var q := UngroundedPath(r, ledger, x, n - 1);
      p := [id] + q;
      forall i | 0 <= i < |p| - 1 ensures Cites(claims, p[i], p[i + 1]) {
        assert i > 0 ==> Cites(claims, q[i - 1], q[i - 1 + 1]);
      }
    }
  }

  // Along a path the number of citations left goes down by one a step.
  lemma {:induction false} GroundedDescends(r: RCA, ledger: seq<LedgerEntry>, p: seq<string>, n: nat)
    requires Passes(r, ledger) && Path(AllClaims(r), p) && Grounded(AllClaims(r), ledger, p[0], n)
    ensures n >= |p| - 1 && Grounded(AllClaims(r), ledger, p[|p| - 1], n - (|p| - 1))
    decreases |p|
  {
    if |p| > 1 {
      assert Cites(AllClaims(r), p[0], p[0 + 1]);
      PathPart(r, ledger, p, 1, |p|);
      GroundedDescends(r, ledger, p[1..], n - 1);
    }
  }

  lemma {:induction false} CyclesAreNotGrounded(r: RCA, ledger: seq<LedgerEntry>, p: seq<string>, n: nat)
    requires Passes(r, ledger) && Path(AllClaims(r), p) && |p| > 1 && p[0] == p[|p| - 1]
    ensures !Grounded(AllClaims(r), ledger, p[0], n)
  {
    if Grounded(AllClaims(r), ledger, p[0], n) {
      GroundedDescends(r, ledger, p, n);
      CyclesAreNotGrounded(r, ledger, p, n - (|p| - 1));
    }
  }

  lemma CycleIn(r: RCA, ledger: seq<LedgerEntry>, p: seq<string>) returns (q: seq<string>)
    requires Passes(r, ledger) && Path(AllClaims(r), p) && Revisits(p)
    ensures Path(AllClaims(r), q) && |q| > 1 && q[0] == q[|q| - 1]
  {
    var i, j :| 0 <= i < j < |p| && p[i] == p[j];
    PathPart(r, ledger, p, i, j + 1);
    q := p[i..j + 1];
  }

  lemma AcyclicGrounds(r: RCA, ledger: seq<LedgerEntry>, id: string)
    requires Passes(r, ledger) && Acyclic(AllClaims(r)) && Named(AllClaims(r), id)
    ensures Grounded(AllClaims(r), ledger, id, |Ids(AllClaims(r))|)
  {
    var claims := AllClaims(r);
    if !Grounded(claims, ledger, id, |Ids(claims)|) {
      var p := UngroundedPath(r, ledger, id, |Ids(claims)|);
      EveryPathEndsOrRevisits(r, ledger, p);
      var cycle := CycleIn(r, ledger, p);
      assert false;
    }
  }

  /** Every claim of an RCA that passes Gate 1 rests on successful Evidence
      queries if and only if no inferred claim cites itself, directly or
      through others. */
  lemma RestsExactlyWhenAcyclic(r: RCA, ledger: seq<LedgerEntry>)
    requires Passes(r, ledger)
    ensures (forall c :: c in r.summary || c in r.confidence ==> Rests(AllClaims(r), ledger, c.id)) <==> Acyclic(AllClaims(r))
  {
    var claims := AllClaims(r);
    if Acyclic(claims) {
      forall c | c in r.summary || c in r.confidence ensures Rests(claims, ledger, c.id) {
        AcyclicGrounds(r, ledger, c.id);
      }
    }
    if forall c :: c in r.summary || c in r.confidence ==> Rests(claims, ledger, c.id) {
      forall p | Path(claims, p) && |p| > 1 ensures p[0] != p[|p| - 1] {
        if p[0] == p[|p| - 1] {
          assert Rests(claims, ledger, p[0]);
          var n: nat :| Grounded(claims, ledger, p[0], n);
          CyclesAreNotGrounded(r, ledger, p, n);
        }
      }
    }
  }

  /** Gate 1 lets two claims vouch for each other with no evidence at all. */
  lemma PassingIsNotEnough(ledger: seq<LedgerEntry>)
    ensures var a := Claim("a", "", INFERRED, ["b"]);
            var b := Claim("b", "", INFERRED, ["a"]);
            var r := RCA([a, b], "high", []);
            Passes(r, ledger) && !Rests(AllClaims(r), ledger, "a")
  {
    var a := Claim("a", "", INFERRED, ["b"]);
    var b := Claim("b", "", INFERRED, ["a"]);
    var r := RCA([a, b], "high", []);
    var claims := AllClaims(r);
    assert claims == [a, b];
    assert a in claims && b in claims;
    assert First(claims, "a") == Some(a) && First(claims, "b") == Some(b);
    var p := ["a", "b", "a"];
    assert Path(claims, p);
    forall n: nat ensures !Grounded(claims, ledger, "a", n) {
      CyclesAreNotGrounded(r, ledger, p, n);
    }
  }
}
