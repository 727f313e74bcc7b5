/** The ingest bounds (internal/signal/signal.go). */
module Bounds {
  import opened JsonString
  import opened Signals
  import opened Wrappers

  const MAX_VALUE := 0x1000
  const MAX_RAW := 0x10000

  // The proportional shrink never goes below this cut point.
  const FLOOR := 10922

  // ---- Cutting text ----

  function CutAt(s: Text, n: nat): (m: nat)
    requires n < |s|
    ensures m <= n && (m == 0 || RuneStart(s[m]))
    ensures forall k :: m < k <= n ==> Continuation(s[k])
  {
    if n == 0 || RuneStart(s[n]) then n else CutAt(s, n - 1)
  }

  /** cut: at most the first n bytes, ending at the last rune start. */
  method Cut(s: Text, n: nat) returns (r: Text)
    requires n < |s|
    ensures r == s[..CutAt(s, n)]
  {
    var m := n;
    while m > 0 && !RuneStart(s[m])
      invariant 0 <= m <= n && CutAt(s, n) == CutAt(s, m)
    {
      m := m - 1;
    }
    return s[..m];
  }

  lemma CutAtUnique(s: Text, n: nat, m: nat)
    requires n < |s| && m <= n && (m == 0 || RuneStart(s[m]))
    requires forall k :: m < k <= n ==> Continuation(s[k])
    ensures CutAt(s, n) == m
  {
  }

  // Past the first rune, cutting is cutting the rest.
  lemma CutAtSkipsRune(s: Text, n: nat)
    requires s != [] && RuneSize(s) > 0 && RuneSize(s) <= n < |s| && RuneStart(s[RuneSize(s)])
    ensures CutAt(s, n) == RuneSize(s) + CutAt(s[RuneSize(s)..], n - RuneSize(s))
  {
    var w := RuneSize(s);
    var rest := s[w..];
    var c := CutAt(rest, n - w);
    forall k | w + c < k <= n ensures Continuation(s[k]) {
      assert s[k] == rest[k - w];
    }
    CutAtUnique(s, n, w + c);
  }

  lemma PrefixFromRune(s: Text, m: nat)
    requires s != [] && RuneSize(s) > 0 && RuneSize(s) <= m <= |s| && ValidUtf8(s[RuneSize(s)..][..m - RuneSize(s)])
    ensures ValidUtf8(s[..m])
  {
    assert RuneSize(s[..m]) == RuneSize(s);
    assert s[..m][RuneSize(s)..] == s[RuneSize(s)..][..m - RuneSize(s)];
  }

  /** A cut never splits a UTF-8 sequence: valid text stays valid, and loses at
      most three bytes more than asked. */
  lemma {:induction false} CutKeepsUtf8(s: Text, n: nat)
    requires n < |s| && ValidUtf8(s)
    ensures ValidUtf8(s[..CutAt(s, n)])
    ensures CutAt(s, n) + 3 >= n
    decreases |s|
  {
    var w := RuneSize(s);
    if n < w {
      CutAtUnique(s, n, 0);
    } else {
      assert RuneStart(s[w..][0]);
      CutAtSkipsRune(s, n);
      CutKeepsUtf8(s[w..], n - w);
      PrefixFromRune(s, CutAt(s, n));
    }
  }

  // ---- Labels and annotations ----

  function BoundValue(v: Text): Text {
    if |v| <= MAX_VALUE then v else v[..CutAt(v, MAX_VALUE)]
  }

  function BoundValues(m: map<Text, Text>): map<Text, Text> {
    map k | k in m :: BoundValue(m[k])
  }

  // `w` is what is kept of `v`: all of it up to 4096 bytes, and otherwise the longest
  // prefix of at most 4096 bytes that ends where a rune starts.
  predicate CutTo4096(v: Text, w: Text) {
    && w <= v
    && (|v| <= 4096 ==> w == v)
    && (|v| > 4096 ==>
          && |w| <= 4096
          && (w != [] ==> !(0x80 <= v[|w|] < 0xC0))
          && (forall k :: |w| < k <= 4096 ==> 0x80 <= v[k] < 0xC0)
          && (ValidUtf8(v) ==> ValidUtf8(w) && |w| >= 4093))
  }

  predicate AllCutTo4096(m: map<Text, Text>, r: map<Text, Text>) {
    m.Keys == r.Keys && forall k :: k in m ==> CutTo4096(m[k], r[k])
  }

  lemma BoundValueIsCut(v: Text)
    ensures CutTo4096(v, BoundValue(v))
  {
    if |v| > MAX_VALUE && ValidUtf8(v) {
      CutKeepsUtf8(v, MAX_VALUE);
    }
  }

  lemma BoundValuesAreCut(m: map<Text, Text>)
    ensures AllCutTo4096(m, BoundValues(m))
  {
    hide CutTo4096, BoundValue;
    forall k | k in m ensures CutTo4096(m[k], BoundValues(m)[k]) {
      BoundValueIsCut(m[k]);
    }
  }

  predicate Fits(m: map<Text, Text>) {
    forall k :: k in m ==> |m[k]| <= MAX_VALUE
  }

  lemma FittingValuesStay(m: map<Text, Text>)
    ensures Fits(BoundValues(m))
    ensures BoundValues(m) == m <==> Fits(m)
  {
    if BoundValues(m) == m {
      forall k | k in m ensures |m[k]| <= MAX_VALUE {
        assert m[k] == BoundValues(m)[k];
      }
    }
  }

  /** cutValues: every value cut to size, copied only if one is. */
  method CutValues(m: map<Text, Text>) returns (r: map<Text, Text>, cut: bool)
    ensures r == BoundValues(m) && AllCutTo4096(m, r)
    ensures cut <==> exists k :: k in m && |m[k]| > 4096
  {
    hide AllCutTo4096, CutAt;
    var out: Option<map<Text, Text>> := None;
    var left := m.Keys;
    while left != {}
      invariant left <= m.Keys
      invariant out.None? ==> forall k :: k in m.Keys - left ==> |m[k]| <= MAX_VALUE
      invariant out.Some? ==> !Fits(m) && out.value.Keys == m.Keys
      invariant out.Some? ==>
                  forall k :: k in m ==> out.value[k] == if k in left then m[k] else BoundValue(m[k])
      decreases |left|
    {
      var k :| k in left;
      left := left - {k};
      if |m[k]| > MAX_VALUE {
        if out.None? {
          out := Some(m);
        }
        var v := Cut(m[k], MAX_VALUE);
        out := Some(out.value[k := v]);
      }
    }
    FittingValuesStay(m);
    BoundValuesAreCut(m);
    if out.None? {
      return m, false;
    }
    return out.value, true;
  }

  // ---- Raw ----

  lemma DivisionBounds(a: nat, b: nat, q: nat)
    requires b > 0
    ensures a >= q * b ==> a / b >= q
    ensures a < q * b ==> a / b < q
  {
    var d := a / b;
    assert a == d * b + a % b;
    if d < q {
      assert (d + 1) * b <= q * b;
    } else {
      assert q * b <= d * b;
    }
  }

  // Escaping costs at most six bytes a byte and two quotes, so the cut point
  // moves strictly down and stays at or above the floor.
  lemma ShrinkStep(n: nat, len: nat)
    requires FLOOR <= n <= MAX_RAW && MAX_RAW < len <= 6 * n + 2
    ensures FLOOR <= n * MAX_RAW / len < n
  {
    assert n * MAX_RAW >= FLOOR * len;
    assert n * MAX_RAW < n * len;
    DivisionBounds(n * MAX_RAW, len, FLOOR);
    DivisionBounds(n * MAX_RAW, len, n);
  }

  lemma CutCosts(raw: Text, n: nat)
    requires n < |raw|
    ensures |Quoted(raw[..CutAt(raw, n)])| <= 6 * n + 2
  {
    UnquotedQuoted(raw[..CutAt(raw, n)]);
  }

  // Where the proportional shrink comes to rest from cut point `n`.
  function Shrunk(raw: Text, n: nat): (m: nat)
    requires FLOOR <= n <= MAX_RAW < |raw|
    ensures FLOOR <= m <= n
    ensures |Quoted(raw[..CutAt(raw, m)])| <= MAX_RAW
    decreases n
  {
    var len := |Quoted(raw[..CutAt(raw, n)])|;
    if len <= MAX_RAW then n
    else
      CutCosts(raw, n);
      ShrinkStep(n, len);
      Shrunk(raw, n * MAX_RAW / len)
  }

  // How much of an oversized raw is kept.
  function Kept(raw: Text): nat
    requires MAX_RAW < |raw|
  {
    CutAt(raw, Shrunk(raw, MAX_RAW))
  }

  /** The raw part of Bound: an oversized raw becomes a JSON string of at most
      64 KiB that encodes a prefix of it, and of valid UTF-8 at least 10919
      bytes are kept. */
  method BoundRaw(raw: Text) returns (r: Text)
    ensures |r| <= MAX_RAW
    ensures |raw| <= MAX_RAW ==> r == raw
    ensures |raw| > MAX_RAW ==>
              && r == Quoted(raw[..Kept(raw)])
              && Unquoted(r) == Some(Sanitized(raw[..Kept(raw)]))
    ensures |raw| > MAX_RAW && ValidUtf8(raw) ==>
              && Kept(raw) >= FLOOR - 3
              && ValidUtf8(raw[..Kept(raw)])
              && Unquoted(r) == Some(raw[..Kept(raw)])
  {
    if |raw| <= MAX_RAW {
      return raw;
    }
    var n := MAX_RAW;
    while true
      invariant FLOOR <= n <= MAX_RAW && Shrunk(raw, MAX_RAW) == Shrunk(raw, n)
      decreases n
    {
      var kept := Cut(raw, n);
      var b := Quoted(kept);
      CutCosts(raw, n);
      if |b| <= MAX_RAW {
        UnquotedQuoted(kept);
        if ValidUtf8(raw) {
          CutKeepsUtf8(raw, n);
        }
        return b;
      }
      ShrinkStep(n, |b|);
      n := n * MAX_RAW / |b|;
    }
  }

  /** Bound: what changes, and that `truncated` says exactly whether a label,
      an annotation or raw did. Key, start and target never change. */
  method Bound(s: Signal) returns (r: Signal)
    ensures r == s.(name := r.name, labels := r.labels, annotations := r.annotations,
                    raw := r.raw, truncated := r.truncated)
    ensures CutTo4096(s.name, r.name)
    ensures AllCutTo4096(s.labels, r.labels) && AllCutTo4096(s.annotations, r.annotations)
    ensures r.labels == BoundValues(s.labels)
    ensures Fits(r.labels) && Fits(r.annotations) && |r.raw| <= 65536
    ensures r.raw == if |s.raw| > MAX_RAW then Quoted(s.raw[..Kept(s.raw)]) else s.raw
    ensures r.truncated <==> r.labels != s.labels || r.annotations != s.annotations || r.raw != s.raw
  {
    hide CutTo4096, AllCutTo4096;
    r := s;
    BoundValueIsCut(s.name);
    var labels, cutL := CutValues(r.labels);
    var annotations, cutA := CutValues(r.annotations);
    r := r.(labels := labels, annotations := annotations, truncated := cutL || cutA);
    if |r.name| > MAX_VALUE {
      var name := Cut(r.name, MAX_VALUE);
      r := r.(name := name);
    }
    if |r.raw| > MAX_RAW {
      var raw := BoundRaw(r.raw);
      r := r.(raw := raw, truncated := true);
    }
    FittingValuesStay(s.labels);
    FittingValuesStay(s.annotations);
  }

  // ---- How much the shrink keeps ----

  // What a cut at byte n costs as a JSON string.
  function Cost(raw: Text, n: nat): nat
    requires n < |raw|
  {
    |Quoted(raw[..CutAt(raw, n)])|
  }

  // A prefix that ends at a rune start and fits the bound.
  predicate FittingCut(raw: Text, m: nat) {
    m < |raw| && CutAt(raw, m) == m && Cost(raw, m) <= MAX_RAW
  }

  function BestFrom(raw: Text, n: nat): (m: nat)
    requires n < |raw|
    ensures m <= n
  {
    if n == 0 || Cost(raw, n) <= MAX_RAW then CutAt(raw, n) else BestFrom(raw, n - 1)
  }

  // As much of an oversized raw as fits.
  function Best(raw: Text): nat
    requires MAX_RAW < |raw|
  {
    BestFrom(raw, MAX_RAW)
  }

  lemma CutIsCut(s: Text, n: nat)
    requires n < |s|
    ensures CutAt(s, CutAt(s, n)) == CutAt(s, n)
  {
    CutAtUnique(s, CutAt(s, n), CutAt(s, n));
  }

  // A rune start at or before n is at or before the cut.
  lemma CutIsLast(s: Text, n: nat, m: nat)
    requires m <= n < |s| && CutAt(s, m) == m
    ensures m <= CutAt(s, n)
  {
  }

  lemma {:induction false} BestFromIsLongest(raw: Text, n: nat, m: nat)
    requires n < |raw|
    ensures FittingCut(raw, BestFrom(raw, n))
    ensures m <= n && FittingCut(raw, m) ==> m <= BestFrom(raw, n)
  {
    hide CutAt, Quoted;
    CutIsCut(raw, n);
    CutCosts(raw, n);
    if n == 0 || Cost(raw, n) <= MAX_RAW {
      if m <= n && FittingCut(raw, m) {
        CutIsLast(raw, n, m);
      }
    } else {
      BestFromIsLongest(raw, n - 1, m);
    }
  }

  /** Best is the longest prefix that ends at a rune start and fits. */
  lemma BestIsLongest(raw: Text, m: nat)
    requires MAX_RAW < |raw|
    ensures FittingCut(raw, Best(raw))
    ensures FittingCut(raw, m) ==> m <= Best(raw)
  {
    BestFromIsLongest(raw, MAX_RAW, m);
  }

  // No step of the shrink is more than the best cut allows: while the cut at n is
  // too long, its mean cost per byte is at most the bound over the best cut.
  predicate NoOvershoot(raw: Text, n: nat)
    requires FLOOR <= n <= MAX_RAW < |raw|
    decreases n
  {
    var len := Cost(raw, n);
    || len <= MAX_RAW
    || (&& Best(raw) * len <= n * MAX_RAW
        && (CutCosts(raw, n); ShrinkStep(n, len); NoOvershoot(raw, n * MAX_RAW / len)))
  }

  lemma {:induction false} ShrunkIsBest(raw: Text, n: nat)
    requires FLOOR <= n <= MAX_RAW < |raw| && Best(raw) <= n
    ensures CutAt(raw, Shrunk(raw, n)) <= Best(raw)
    ensures CutAt(raw, Shrunk(raw, n)) == Best(raw) <==> NoOvershoot(raw, n)
    decreases n
  {
    hide Best, Quoted;
    var len := Cost(raw, n);
    if len <= MAX_RAW {
      CutIsCut(raw, n);
      BestIsLongest(raw, CutAt(raw, n));
      CutIsLast(raw, n, Best(raw));
    } else {
      CutCosts(raw, n);
      ShrinkStep(n, len);
      DivisionBounds(n * MAX_RAW, len, Best(raw));
      if Best(raw) * len <= n * MAX_RAW {
        ShrunkIsBest(raw, n * MAX_RAW / len);
      }
    }
  }

  /** What Bound's comment promises, as much of raw as fits, holds if and only if
      no step of the shrink overshoots; it never keeps more. */
  lemma KeptIsBest(raw: Text)
    requires MAX_RAW < |raw|
    ensures Kept(raw) <= Best(raw)
    ensures Kept(raw) == Best(raw) <==> NoOvershoot(raw, MAX_RAW)
  {
    ShrunkIsBest(raw, MAX_RAW);
  }

  // What follows the part that fits needs no more escapes per byte than that part.
  predicate NoDenserLater(raw: Text)
    requires MAX_RAW < |raw|
  {
    forall n :: Best(raw) <= n <= MAX_RAW ==> (Cost(raw, n) - 2) * Best(raw) <= (Cost(raw, Best(raw)) - 2) * n
  }

  lemma MeanCost(best: nat, fit: nat, n: nat, len: nat)
    requires best <= n && 2 <= fit <= MAX_RAW && (len - 2) * best <= (fit - 2) * n
    ensures best * len <= n * MAX_RAW
  {
    assert (fit - 2) * n <= (MAX_RAW - 2) * n;
    assert best * len == (len - 2) * best + 2 * best;
  }

  lemma {:induction false} EvenRunsDoNotOvershoot(raw: Text, n: nat)
    requires FLOOR <= n <= MAX_RAW < |raw| && Best(raw) <= n && NoDenserLater(raw)
    ensures NoOvershoot(raw, n)
    decreases n
  {
    hide Best, Quoted;
    var len := Cost(raw, n);
    if len > MAX_RAW {
      BestIsLongest(raw, 0);
      MeanCost(Best(raw), Cost(raw, Best(raw)), n, len);
      CutCosts(raw, n);
      ShrinkStep(n, len);
      DivisionBounds(n * MAX_RAW, len, Best(raw));
      EvenRunsDoNotOvershoot(raw, n * MAX_RAW / len);
    }
  }

  /** Without a look at the steps: when escapes are no denser after the part that
      fits than within it, all of that part is kept. */
  lemma EvenTextFillsTheBound(raw: Text)
    requires MAX_RAW < |raw| && NoDenserLater(raw)
    ensures Kept(raw) == Best(raw)
  {
    EvenRunsDoNotOvershoot(raw, MAX_RAW);
    KeptIsBest(raw);
  }

  // ---- Text of known cost ----

  predicate Costs(b: byte, c: nat) {
    b < 0x80 && |EscapedAscii(b)| == c
  }

  predicate Each(s: Text, c: nat) {
    forall i :: 0 <= i < |s| ==> Costs(s[i], c)
  }

  predicate Ascii(s: Text) {
    forall i :: 0 <= i < |s| ==> s[i] < 0x80
  }

  lemma {:induction false} EscapedAppend(s: Text, tail: Text)
    requires Ascii(s)
    ensures Escaped(s + tail) == Escaped(s) + Escaped(tail)
  {
    if s == [] {
      assert s + tail == tail;
    } else {
      assert RuneSize(s + tail) == 1 && RuneSize(s) == 1;
      assert (s + tail)[1..] == s[1..] + tail;
      EscapedAppend(s[1..], tail);
    }
  }

  lemma {:induction false} EscapedPlain(s: Text)
    requires Each(s, 1)
    ensures Escaped(s) == s
  {
    if s != [] {
      assert Costs(s[0], 1) && RuneSize(s) == 1;
      EscapedPlain(s[1..]);
      assert s == [s[0]] + s[1..];
    }
  }

  lemma {:induction false} EachCost(s: Text, c: nat)
    requires Each(s, c)
    ensures |Escaped(s)| == c * |s|
  {
    if s != [] {
      assert Costs(s[0], c) && RuneSize(s) == 1;
      EachCost(s[1..], c);
    }
  }

  lemma AsciiCut(raw: Text, n: nat)
    requires n < |raw| && raw[n] < 0x80
    ensures CutAt(raw, n) == n
  {
    CutAtUnique(raw, n, n);
  }

  lemma EachCutCosts(raw: Text, c: nat, n: nat)
    requires n < |raw| && Each(raw, c)
    ensures CutAt(raw, n) == n && Cost(raw, n) == c * n + 2
  {
    assert Costs(raw[n], c);
    AsciiCut(raw, n);
    EachCost(raw[..n], c);
  }

  lemma {:induction false} ProductGrows(q: nat, m: nat, c: nat)
    requires q <= m && c >= 1
    ensures q * c + (m - q) <= m * c
    decreases m
  {
    if q < m {
      ProductGrows(q, m - 1, c);
      assert m * c == (m - 1) * c + c;
    }
  }

  // The most bytes of cost c that `a` pays for.
  lemma Quotient(a: nat, c: nat, q: nat)
    requires c >= 1 && q == a / c
    ensures q <= q * c <= a
    ensures forall m: nat :: m > q ==> m * c > a
  {
    assert a == q * c + a % c;
    ProductGrows(0, q, c);
    forall m: nat | m > q ensures m * c > a {
      ProductGrows(q + 1, m, c);
      assert (q + 1) * c == q * c + c;
    }
  }

  lemma EachFits(raw: Text, c: nat, m: nat)
    requires Each(raw, c)
    ensures FittingCut(raw, m) <==> m < |raw| && m * c <= MAX_RAW - 2
  {
    hide Cost, CutAt, Each;
    if m < |raw| {
      EachCutCosts(raw, c, m);
    }
  }

  lemma UniformBest(raw: Text, c: nat)
    requires MAX_RAW < |raw| && 1 <= c && Each(raw, c)
    ensures Best(raw) == (MAX_RAW - 2) / c
  {
    hide Best, FittingCut, Each;
    var best := (MAX_RAW - 2) / c;
    Quotient(MAX_RAW - 2, c, best);
    EachFits(raw, c, best);
    BestIsLongest(raw, best);
    EachFits(raw, c, Best(raw));
    assert Best(raw) <= best;
  }

  lemma Swap(a: nat, b: nat, c: nat)
    ensures (a * b) * c == (a * c) * b
  {
  }

  /** Text of which every byte costs the same fills the bound to the last byte that
      fits: all plain, all quotes, all control characters. */
  lemma UniformTextFillsTheBound(raw: Text, c: nat)
    requires MAX_RAW < |raw| && 1 <= c && Each(raw, c)
    ensures Kept(raw) == Best(raw) == (MAX_RAW - 2) / c
  {
    hide Best, Cost, CutAt, Each, Kept;
    UniformBest(raw, c);
    EachCutCosts(raw, c, Best(raw));
    forall n | Best(raw) <= n <= MAX_RAW ensures (Cost(raw, n) - 2) * Best(raw) <= (Cost(raw, Best(raw)) - 2) * n {
      EachCutCosts(raw, c, n);
      Swap(c, n, Best(raw));
    }
    EvenTextFillsTheBound(raw);
  }

  predicate Plain(b: byte) { Costs(b, 1) }

  /** Text that needs no escapes is kept as far as it fits. */
  lemma PlainTextFillsTheBound(raw: Text)
    requires |raw| > MAX_RAW && forall i :: 0 <= i < |raw| ==> Plain(raw[i])
    ensures Kept(raw) == Best(raw) == MAX_RAW - 2
  {
    forall i | 0 <= i < |raw| ensures Costs(raw[i], 1) {
      assert Plain(raw[i]);
    }
    UniformTextFillsTheBound(raw, 1);
  }

  // ---- An alert of which too little is kept ----

  function AsciiByte(c: char): byte {
    c as int % 0x80
  }

  function Bytes(s: string): (t: Text)
    ensures |t| == |s| && forall i :: 0 <= i < |s| ==> t[i] == AsciiByte(s[i])
  {
    seq(|s|, i requires 0 <= i < |s| => AsciiByte(s[i]))
  }

  // A firing alert as Alertmanager sends it, with one annotation.
  function AlertWith(annotation: Text): Json {
    Obj(Cons(Bytes("status"), Str(Bytes("firing")),
        Cons(Bytes("labels"), Obj(Cons(Bytes("alertname"), Str(Bytes("A")), Nil)),
        Cons(Bytes("fingerprint"), Str(Bytes("f")),
        Cons(Bytes("annotations"), Obj(Cons(Bytes("a"), Str(annotation), Nil)), Nil)))))
  }

  function Field(name: string, value: Text): Text {
    Quoted(Bytes(name)) + [COLON] + value
  }

  // The alert up to its annotation.
  function Head(): Text {
    [0x7B] + (Field("status", Quoted(Bytes("firing"))) + [COMMA]
    + (Field("labels", [0x7B] + Field("alertname", Quoted(Bytes("A"))) + [0x7D]) + [COMMA]
    + (Field("fingerprint", Quoted(Bytes("f"))) + [COMMA]
    + Field("annotations", [0x7B] + Field("a", [QUOTE])))))
  }

  const TAIL: Text := [QUOTE, 0x7D, 0x7D]

  lemma OnlyMember(name: string, value: Json)
    ensures PrintedMembers(Cons(Bytes(name), value, Nil)) == Field(name, Printed(value))
  {
  }

  lemma MoreMembers(name: string, value: Json, rest: Members)
    requires rest.Cons?
    ensures PrintedMembers(Cons(Bytes(name), value, rest)) == Field(name, Printed(value)) + [COMMA] + PrintedMembers(rest)
  {
  }

  lemma InBraces(members: Members)
    ensures Printed(Obj(members)) == [0x7B] + PrintedMembers(members) + [0x7D]
  {
  }

  lemma AlertPrinted(annotation: Text)
    ensures Printed(AlertWith(annotation)) == Head() + Escaped(annotation) + TAIL
  {
    hide Quoted, Escaped, Bytes, Printed, PrintedMembers;
    var inner := Cons(Bytes("a"), Str(annotation), Nil);
    OnlyMember("a", Str(annotation));
    StringPrinted(annotation);
    InBraces(inner);
    var m4 := Cons(Bytes("annotations"), Obj(inner), Nil);
    OnlyMember("annotations", Obj(inner));
    var m3 := Cons(Bytes("fingerprint"), Str(Bytes("f")), m4);
    MoreMembers("fingerprint", Str(Bytes("f")), m4);
    StringPrinted(Bytes("f"));
    var one := Cons(Bytes("alertname"), Str(Bytes("A")), Nil);
    OnlyMember("alertname", Str(Bytes("A")));
    StringPrinted(Bytes("A"));
    InBraces(one);
    var m2 := Cons(Bytes("labels"), Obj(one), m3);
    MoreMembers("labels", Obj(one), m3);
    MoreMembers("status", Str(Bytes("firing")), m2);
    StringPrinted(Bytes("firing"));
    InBraces(Cons(Bytes("status"), Str(Bytes("firing")), m2));
  }

  lemma StringPrinted(s: Text)
    ensures Printed(Str(s)) == Quoted(s) == [QUOTE] + Escaped(s) + [QUOTE]
  {
  }

  // ASCII text of this length, and what quoting it costs.
  ghost predicate Priced(s: Text, len: nat, cost: nat) {
    Ascii(s) && |s| == len && |Escaped(s)| == cost
  }

  lemma PricedAppend(s: Text, len: nat, cost: nat, t: Text, len': nat, cost': nat)
    requires Priced(s, len, cost) && Priced(t, len', cost')
    ensures Priced(s + t, len + len', cost + cost')
  {
    EscapedAppend(s, t);
  }

  lemma PlainPriced(s: Text)
    requires Each(s, 1)
    ensures Priced(s, |s|, |s|)
  {
    EscapedPlain(s);
    forall i | 0 <= i < |s| ensures s[i] < 0x80 {
      assert Costs(s[i], 1);
    }
  }

  predicate Letters(w: string) {
    forall i :: 0 <= i < |w| ==> 'A' <= w[i] <= 'Z' || 'a' <= w[i] <= 'z'
  }

  lemma LetterCosts(b: byte)
    requires 'A' as int <= b <= 'Z' as int || 'a' as int <= b <= 'z' as int
    ensures Costs(b, 1)
  {
  }

  lemma LettersCost(w: string)
    requires Letters(w)
    ensures Each(Bytes(w), 1)
  {
    hide Costs;
    forall i | 0 <= i < |w| ensures Costs(Bytes(w)[i], 1) {
      LetterCosts(Bytes(w)[i]);
    }
  }

  lemma WordPriced(w: string)
    requires Letters(w)
    ensures Priced(Quoted(Bytes(w)), |w| + 2, |w| + 4)
  {
    hide Priced, Escaped, Letters, Each;
    LettersCost(w);
    EscapedPlain(Bytes(w));
    PlainPriced(Bytes(w));
    QuotePriced();
    PricedAppend([QUOTE], 1, 2, Bytes(w), |w|, |w|);
    PricedAppend([QUOTE] + Bytes(w), |w| + 1, |w| + 2, [QUOTE], 1, 2);
  }

  lemma BytePriced(b: byte)
    requires Costs(b, 1)
    ensures Priced([b], 1, 1)
  {
  }

  lemma FieldPriced(name: string, value: Text, len: nat, cost: nat)
    requires Letters(name) && Priced(value, len, cost)
    ensures Priced(Field(name, value), |name| + 3 + len, |name| + 5 + cost)
  {
    hide Priced, Quoted, Letters;
    WordPriced(name);
    BytePriced(COLON);
    PricedAppend(Quoted(Bytes(name)), |name| + 2, |name| + 4, [COLON], 1, 1);
    PricedAppend(Quoted(Bytes(name)) + [COLON], |name| + 3, |name| + 5, value, len, cost);
  }

  // `head` then a comma then the rest.
  lemma ListPriced(head: Text, len: nat, cost: nat, rest: Text, len': nat, cost': nat)
    requires Priced(head, len, cost) && Priced(rest, len', cost')
    ensures Priced(head + [COMMA] + rest, len + 1 + len', cost + 1 + cost')
  {
    hide Priced;
    BytePriced(COMMA);
    PricedAppend(head, len, cost, [COMMA], 1, 1);
    PricedAppend(head + [COMMA], len + 1, cost + 1, rest, len', cost');
  }

  lemma HeadPriced()
    ensures Priced(Head(), 84, 103)
  {
    hide Priced, Bytes, Quoted;
    WordPriced("firing");
    FieldPriced("status", Quoted(Bytes("firing")), 8, 10);
    WordPriced("A");
    FieldPriced("alertname", Quoted(Bytes("A")), 3, 5);
    var alert := Field("alertname", Quoted(Bytes("A")));
    BytePriced(0x7B);
    BytePriced(0x7D);
    PricedAppend([0x7B], 1, 1, alert, 15, 19);
    PricedAppend([0x7B] + alert, 16, 20, [0x7D], 1, 1);
    FieldPriced("labels", [0x7B] + alert + [0x7D], 17, 21);
    WordPriced("f");
    FieldPriced("fingerprint", Quoted(Bytes("f")), 3, 5);
    QuotePriced();
    FieldPriced("a", [QUOTE], 1, 2);
    PricedAppend([0x7B], 1, 1, Field("a", [QUOTE]), 5, 8);
    FieldPriced("annotations", [0x7B] + Field("a", [QUOTE]), 6, 9);

    var annotations := Field("annotations", [0x7B] + Field("a", [QUOTE]));
    var fingerprint := Field("fingerprint", Quoted(Bytes("f"))) + [COMMA] + annotations;
    ListPriced(Field("fingerprint", Quoted(Bytes("f"))), 17, 21, annotations, 20, 25);
    var labels := Field("labels", [0x7B] + alert + [0x7D]) + [COMMA] + fingerprint;
    ListPriced(Field("labels", [0x7B] + alert + [0x7D]), 26, 32, fingerprint, 38, 47);
    var status := Field("status", Quoted(Bytes("firing"))) + [COMMA] + labels;
    ListPriced(Field("status", Quoted(Bytes("firing"))), 17, 21, labels, 65, 80);
    PricedAppend([0x7B], 1, 1, status, 83, 102);
    assert Head() == [0x7B] + status;
  }

  lemma QuotePriced()
    ensures Priced([QUOTE], 1, 2)
  {
  }

  // A long plain annotation that ends in quotes.
  function Report(quotes: nat): Text {
    Repeat(0x61, 60000) + Repeat(QUOTE, quotes)
  }

  lemma {:induction false} QuotesPriced(n: nat)
    ensures Priced(Escaped(Repeat(QUOTE, n)), 2 * n, 4 * n)
  {
    if n > 0 {
      var rest := Repeat(QUOTE, n - 1);
      QuotesPriced(n - 1);
      assert Repeat(QUOTE, n) == [QUOTE] + rest;
      EscapedAppend([QUOTE], rest);
      assert Escaped([QUOTE]) == [BACKSLASH, QUOTE];
      EscapedPair();
      PricedAppend([BACKSLASH, QUOTE], 2, 4, Escaped(rest), 2 * (n - 1), 4 * (n - 1));
    }
  }

  lemma EscapedPair()
    ensures Priced([BACKSLASH, QUOTE], 2, 4)
  {
    EscapedAppend([BACKSLASH], [QUOTE]);
    assert [BACKSLASH, QUOTE] == [BACKSLASH] + [QUOTE];
  }

  lemma RepeatCosts(b: byte, c: nat, n: nat)
    requires Costs(b, c)
    ensures Each(Repeat(b, n), c)
  {
  }

  lemma PlainThenQuotesPriced(plain: Text, n: nat)
    requires Each(plain, 1)
    ensures Priced(Escaped(plain + Repeat(QUOTE, n)), |plain| + 2 * n, |plain| + 4 * n)
  {
    hide Priced, Repeat, Escaped, Each, Ascii;
    PlainPriced(plain);
    EscapedPlain(plain);
    PricedIsAscii(plain, |plain|, |plain|);
    EscapedAppend(plain, Repeat(QUOTE, n));
    QuotesPriced(n);
    PricedAppend(plain, |plain|, |plain|, Escaped(Repeat(QUOTE, n)), 2 * n, 4 * n);
  }

  lemma ReportPriced(n: nat)
    ensures Priced(Escaped(Report(n)), 60000 + 2 * n, 60000 + 4 * n)
  {
    hide Priced, Escaped, Each;
    RepeatCosts(0x61, 1, 60000);
    PlainThenQuotesPriced(Repeat(0x61, 60000), n);
  }

  lemma PricedIsAscii(s: Text, len: nat, cost: nat)
    requires Priced(s, len, cost)
    ensures Ascii(s)
  {
  }

  // The alert with n quotes, cut after k of them.
  lemma AlertCut(n: nat, k: nat)
    requires k < n
    ensures var raw, at := Printed(AlertWith(Report(n))), 60084 + 2 * k;
            at < |raw| && CutAt(raw, at) == at && Cost(raw, at) == 60105 + 4 * k
  {
    hide Priced, Report, Printed, Head, Escaped, Repeat, CutAt, Cost;
    var raw, at := Printed(AlertWith(Report(n))), 60084 + 2 * k;
    var rest := Repeat(QUOTE, n - k);
    ReportSplits(n, k);
    AlertPrinted(Report(n));
    ReportPriced(k);
    HeadPriced();
    PricedAppend(Head(), 84, 103, Escaped(Report(k)), 60000 + 2 * k, 60000 + 4 * k);
    var front := Head() + Escaped(Report(k));
    assert raw == front + (Escaped(rest) + TAIL);
    QuotesPriced(n - k);
    AtFront(raw, front, Escaped(rest) + TAIL, at, 60103 + 4 * k);
  }

  lemma ReportSplits(n: nat, k: nat)
    requires k < n
    ensures Escaped(Report(n)) == Escaped(Report(k)) + Escaped(Repeat(QUOTE, n - k))
    ensures Escaped(Repeat(QUOTE, n - k)) != [] && Escaped(Repeat(QUOTE, n - k))[0] == BACKSLASH
  {
    assert Report(n) == Report(k) + Repeat(QUOTE, n - k);
    EscapedAppend(Report(k), Repeat(QUOTE, n - k));
    assert Repeat(QUOTE, n - k)[0] == QUOTE;
  }

  lemma AtFront(raw: Text, front: Text, rest: Text, len: nat, cost: nat)
    requires raw == front + rest && rest != [] && rest[0] < 0x80 && Priced(front, len, cost)
    ensures len < |raw| && CutAt(raw, len) == len && Cost(raw, len) == cost + 2
  {
    AsciiCut(raw, len);
    assert raw[..len] == front;
  }

  lemma KeptAfterOneStep(raw: Text, len: nat, n: nat)
    requires |raw| > MAX_RAW && Cost(raw, MAX_RAW) == len > MAX_RAW && FLOOR <= n == MAX_RAW * MAX_RAW / len < MAX_RAW
    requires Cost(raw, n) <= MAX_RAW && CutAt(raw, n) == n
    ensures Kept(raw) == n
  {
    hide CutAt, Quoted;
  }

  /** An alert that Alertmanager may send of which the shrink keeps 60484 bytes
      although 62798 would fit: the first step overshoots. */
  lemma ShrinkCanKeepTooLittle()
    ensures var raw := Printed(AlertWith(Report(3000)));
            && |raw| > MAX_RAW && Kept(raw) == 60484 && FittingCut(raw, 62798)
            && !NoOvershoot(raw, MAX_RAW)
  {
    hide Printed, AlertWith, Report, Best, CutAt, Cost, Shrunk, Kept, NoOvershoot;
    var raw := Printed(AlertWith(Report(3000)));
    AlertCut(3000, 2726);
    AlertCut(3000, 200);
    AlertCut(3000, 1357);
    KeptAfterOneStep(raw, 71009, 60484);
    BestIsLongest(raw, 62798);
    KeptIsBest(raw);
  }
}
