/** The Location list of the configuration (parseLocations in
    internal/controlplane/config.go). */
module Locations {
  import opened Wrappers

  datatype Location = Location(name: string, environment: string, token: string)

  // What the error tells the operator: an entry's position, or a name, and
  // never a token.
  datatype ParseError = Malformed(entry: nat) | NamedTwice(name: string)

  // ---- strings.Split and strings.SplitN ----

  function IndexOf(s: string, c: char): (i: nat)
    requires c in s
    ensures i < |s| && s[i] == c && c !in s[..i]
  {
    if s[0] == c then 0 else
    var i := 1 + IndexOf(s[1..], c);
    assert s[..i] == [s[0]] + s[1..][..i - 1];
    i
  }

  function Split(s: string, c: char): (pieces: seq<string>)
    ensures pieces != []
    ensures forall p :: p in pieces ==> c !in p
  {
    if c !in s then [s] else
    var i := IndexOf(s, c);
    [s[..i]] + Split(s[i + 1..], c)
  }

  function SplitN(s: string, c: char, n: nat): seq<string>
    requires n > 0
  {
    if n == 1 || c !in s then [s] else
    var i := IndexOf(s, c);
    [s[..i]] + SplitN(s[i + 1..], c, n - 1)
  }

  function Join(pieces: seq<string>, c: char): string {
    if pieces == [] then ""
    else if |pieces| == 1 then pieces[0]
    else pieces[0] + [c] + Join(pieces[1..], c)
  }

  lemma SplitFirst(s: string, c: char) returns (i: nat)
    requires c in s
    ensures i < |s| && s == s[..i] + [c] + s[i + 1..]
    ensures Split(s, c) == [s[..i]] + Split(s[i + 1..], c)
  {
    i := IndexOf(s, c);
    assert s == s[..i] + [c] + s[i + 1..];
  }

  lemma {:induction false} JoinSplit(s: string, c: char)
    ensures Join(Split(s, c), c) == s
    decreases |s|
  {
    hide Split;
    if c in s {
      var i := SplitFirst(s, c);
      var rest := Split(s[i + 1..], c);
      JoinSplit(s[i + 1..], c);
      assert ([s[..i]] + rest)[1..] == rest;
    } else {
      SplitOne(s, c);
    }
  }

  // A separator right after text without it is the first one.
  lemma FirstSeparator(head: string, c: char, tail: string)
    requires c !in head
    ensures var s := head + [c] + tail; c in s && IndexOf(s, c) == |head| && s[..|head|] == head && s[|head| + 1..] == tail
  {
    var s := head + [c] + tail;
    assert s[|head|] == c;
    var i := IndexOf(s, c);
    forall k | 0 <= k < |head| ensures s[k] != c {
      assert head[k] in head;
    }
  }

  lemma SplitHead(head: string, c: char, tail: string)
    requires c !in head
    ensures Split(head + [c] + tail, c) == [head] + Split(tail, c)
  {
    FirstSeparator(head, c, tail);
  }

  lemma SplitNHead(head: string, c: char, tail: string, n: nat)
    requires c !in head && n > 1
    ensures SplitN(head + [c] + tail, c, n) == [head] + SplitN(tail, c, n - 1)
  {
    FirstSeparator(head, c, tail);
  }

  lemma {:induction false} SplitJoin(pieces: seq<string>, c: char)
    requires pieces != [] && forall i :: 0 <= i < |pieces| ==> c !in pieces[i]
    ensures Split(Join(pieces, c), c) == pieces
  {
    hide Split;
    if |pieces| > 1 {
      SplitJoin(pieces[1..], c);
      SplitHead(pieces[0], c, Join(pieces[1..], c));
      assert pieces == [pieces[0]] + pieces[1..];
    } else {
      SplitOne(pieces[0], c);
    }
  }

  lemma SplitOne(s: string, c: char)
    requires c !in s
    ensures Split(s, c) == [s]
  {
  }

  // ---- Printing ----

  function Print(l: Location): string {
    l.name + [':'] + (l.environment + [':'] + l.token)
  }

  function Printed(ls: seq<Location>): (ps: seq<string>)
    ensures |ps| == |ls| && forall i :: 0 <= i < |ls| ==> ps[i] == Print(ls[i])
  {
    seq(|ls|, i requires 0 <= i < |ls| => Print(ls[i]))
  }

  function PrintAll(ls: seq<Location>): string {
    Join(Printed(ls), ',')
  }

  predicate WellFormed(l: Location) {
    && l.name != "" && l.environment != "" && l.token != ""
    && ':' !in l.name && ':' !in l.environment
  }

  // Lists that can be written down: no commas, colons only in tokens, all
  // fields non-empty, names distinct.
  predicate WellFormedList(ls: seq<Location>) {
    && (forall i :: 0 <= i < |ls| ==> WellFormed(ls[i]) && ',' !in Print(ls[i]))
    && (forall i, j :: 0 <= i < j < |ls| ==> ls[i].name != ls[j].name)
  }

  // ---- Parsing ----

  function ParseEntry(entry: string): Option<Location> {
    var parts := SplitN(entry, ':', 3);
    if |parts| != 3 || parts[0] == "" || parts[1] == "" || parts[2] == "" then None
    else Some(Location(parts[0], parts[1], parts[2]))
  }

  lemma PrintedEntryParses(l: Location)
    requires WellFormed(l)
    ensures ParseEntry(Print(l)) == Some(l)
  {
    var rest := l.environment + [':'] + l.token;
    assert Print(l) == l.name + [':'] + rest;
    SplitNHead(l.name, ':', rest, 3);
    SplitNHead(l.environment, ':', l.token, 2);
  }

  // A split text is its pieces with the separator between them.
  lemma SplitNFirst(s: string, c: char, n: nat)
    requires n > 1 && |SplitN(s, c, n)| > 1
    ensures var i := |SplitN(s, c, n)[0]|;
            && i < |s| && c !in s[..i]
            && s == s[..i] + [c] + s[i + 1..]
            && SplitN(s, c, n) == [s[..i]] + SplitN(s[i + 1..], c, n - 1)
  {
    var i := IndexOf(s, c);
    assert s == s[..i] + [c] + s[i + 1..];
  }

  lemma ParsedEntryPrints(entry: string)
    requires ParseEntry(entry).Some?
    ensures WellFormed(ParseEntry(entry).value) && Print(ParseEntry(entry).value) == entry
  {
    hide SplitN;
    var l := ParseEntry(entry).value;
    SplitNFirst(entry, ':', 3);
    var rest := entry[|l.name| + 1..];
    SplitNFirst(rest, ':', 2);
    SplitNLast(rest[|l.environment| + 1..], ':');
  }

  lemma SplitNLast(s: string, c: char)
    ensures SplitN(s, c, 1) == [s]
  {
  }

  /** An entry and its Location determine each other. */
  lemma EntryRoundTrip(entry: string, l: Location)
    ensures ParseEntry(entry) == Some(l) <==> WellFormed(l) && entry == Print(l)
  {
    if WellFormed(l) {
      PrintedEntryParses(l);
    }
    if ParseEntry(entry).Some? {
      ParsedEntryPrints(entry);
    }
  }

  lemma EntriesOf(ls: seq<Location>)
    requires WellFormedList(ls) && ls != []
    ensures Split(PrintAll(ls), ',') == Printed(ls)
  {
    SplitJoin(Printed(ls), ',');
  }

  lemma PrintedNonEmpty(ls: seq<Location>)
    requires WellFormedList(ls) && ls != []
    ensures PrintAll(ls) != ""
  {
    EntriesOf(ls);
    assert Split("", ',') == [""];
    assert Printed(ls)[0] == Print(ls[0]);
  }

  /** Printing is injective: a text describes at most one list. */
  lemma {:induction false} PrintAllInjective(a: seq<Location>, b: seq<Location>)
    requires WellFormedList(a) && WellFormedList(b) && PrintAll(a) == PrintAll(b)
    ensures a == b
  {
    if a == [] || b == [] {
      if a != [] {
        PrintedNonEmpty(a);
      } else if b != [] {
        PrintedNonEmpty(b);
      }
    } else {
      EntriesOf(a);
      EntriesOf(b);
      forall i | 0 <= i < |a| ensures a[i] == b[i] {
        EntryRoundTrip(Printed(a)[i], a[i]);
        EntryRoundTrip(Printed(b)[i], b[i]);
      }
    }
  }

  // The first `k` entries are fine: they parse to `out`, with distinct names.
  ghost predicate Read(entries: seq<string>, k: nat, out: seq<Location>) {
    && |out| == k <= |entries|
    && (forall i :: 0 <= i < k ==> ParseEntry(entries[i]) == Some(out[i]))
    && (forall i, j :: 0 <= i < j < k ==> out[i].name != out[j].name)
  }

  lemma ReadIsPrinted(entries: seq<string>, out: seq<Location>)
    requires Read(entries, |entries|, out)
    requires forall p :: p in entries ==> ',' !in p
    ensures WellFormedList(out) && Printed(out) == entries
  {
    forall i | 0 <= i < |out| ensures WellFormed(out[i]) && entries[i] == Print(out[i]) && ',' !in Print(out[i]) {
      EntryRoundTrip(entries[i], out[i]);
    }
  }

  // Entry `k` is the first that cannot be read.
  ghost predicate Bad(entries: seq<string>, k: nat, out: seq<Location>) {
    && k < |entries| && Read(entries, k, out)
    && (ParseEntry(entries[k]).None? || exists l :: l in out && l.name == ParseEntry(entries[k]).value.name)
  }

  // The error says where, or which name came twice.
  predicate Names(e: ParseError, bad: Option<Location>, before: nat) {
    match e
    case Malformed(n) => n == before + 1 && bad.None?
    case NamedTwice(name) => bad.Some? && bad.value.name == name
  }

  // No list prints as a text with a bad entry.
  lemma BadEntry(s: string, k: nat, out: seq<Location>, ls: seq<Location>)
    requires s != "" && Bad(Split(s, ','), k, out)
    ensures !(WellFormedList(ls) && PrintAll(ls) == s)
  {
    if WellFormedList(ls) && PrintAll(ls) == s {
      EntriesOf(ls);
      forall i | 0 <= i < |ls| ensures ParseEntry(Split(s, ',')[i]) == Some(ls[i]) {
        EntryRoundTrip(Printed(ls)[i], ls[i]);
      }
    }
  }

  // The text is the entries name:environment:token of the list, separated by commas;
  // only a token may hold a colon, no field is empty and no name comes twice.
  ghost predicate Reads(s: string, ls: seq<Location>) {
    if s == "" then ls == []
    else
      && |Split(s, ',')| == |ls|
      && (forall i :: 0 <= i < |ls| ==> Split(s, ',')[i] == ls[i].name + ":" + ls[i].environment + ":" + ls[i].token)
      && (forall l :: l in ls ==>
            l.name != "" && l.environment != "" && l.token != "" && ':' !in l.name && ':' !in l.environment)
      && (forall i, j :: 0 <= i < j < |ls| ==> ls[i].name != ls[j].name)
  }

  lemma ReadsAll(s: string, ls: seq<Location>)
    requires WellFormedList(ls) && if s == "" then ls == [] else Printed(ls) == Split(s, ',')
    ensures Reads(s, ls)
  {
    hide Split;
    forall i | s != "" && 0 <= i < |ls|
      ensures Split(s, ',')[i] == ls[i].name + ":" + ls[i].environment + ":" + ls[i].token
    {
      assert Split(s, ',')[i] == Print(ls[i]);
    }
  }

  /** parseLocations: accepts exactly the printed well-formed lists and returns
      the printed list; an error names the first entry that is wrong. */
  method ParseLocations(s: string) returns (r: Result<seq<Location>, ParseError>)
    ensures r.Ok? ==> WellFormedList(r.value) && PrintAll(r.value) == s
    ensures r.Ok? ==> Reads(s, r.value)
    ensures r.Err? ==> forall ls :: !(WellFormedList(ls) && PrintAll(ls) == s)
    ensures r.Err? ==>
              exists out :: Bad(Split(s, ','), |out|, out) && Names(r.error, ParseEntry(Split(s, ',')[|out|]), |out|)
  {
    hide Reads;
    if s == "" {
      ReadsAll(s, []);
      assert PrintAll([]) == "";
      return Ok([]);
    }
    var out: seq<Location> := [];
    var seen: set<string> := {};
    var entries := Split(s, ',');
    for i := 0 to |entries|
      invariant Read(entries, i, out)
      invariant seen == set l | l in out :: l.name
    {
      var parts := SplitN(entries[i], ':', 3);
      if |parts| != 3 || parts[0] == "" || parts[1] == "" || parts[2] == "" {
        assert Bad(entries, |out|, out);
        forall ls ensures !(WellFormedList(ls) && PrintAll(ls) == s) {
          BadEntry(s, i, out, ls);
        }
        return Err(Malformed(|out| + 1));
      }
      if parts[0] in seen {
        assert Bad(entries, |out|, out);
        forall ls ensures !(WellFormedList(ls) && PrintAll(ls) == s) {
          BadEntry(s, i, out, ls);
        }
        return Err(NamedTwice(parts[0]));
      }
      seen := seen + {parts[0]};
      out := out + [Location(parts[0], parts[1], parts[2])];
    }
    ReadIsPrinted(entries, out);
    JoinSplit(s, ',');
    ReadsAll(s, out);
    return Ok(out);
  }
}
