/**
 The hash-chained audit log (internal/audit/audit.go).

 SHA-256 over the JSON of an entry is an arbitrary function `Digest`, so tamper
 evidence is stated as "the logs agree, or here is a collision". A file is a
 sequence of lines; a line that does not parse is `None`.
 */
module AuditLog {
  import opened Wrappers

  datatype Event = Event(time: int, kind: string, incident: int, data: Option<string>)

  datatype Entry = Entry(number: int, event: Event, prev: string, hash: string)

  type Digest = Entry -> string

  type Line = Option<Entry>

  // The zero Entry: what the first entry follows.
  const GENESIS := Entry(0, Event(0, "", 0, None), "", "")

  function Unsigned(e: Entry): Entry {
    e.(hash := "")
  }

  predicate Follows(h: Digest, last: Entry, e: Entry) {
    && e.number == last.number + 1
    && e.prev == last.hash
    && h(Unsigned(e)) == e.hash
  }

  function At(lines: seq<Line>, i: nat): Entry
    requires i < |lines|
  {
    if lines[i].None? then GENESIS else lines[i].value
  }

  // The entry that line `i` has to follow.
  function Before(lines: seq<Line>, i: nat): Entry
    requires i <= |lines|
  {
    if i == 0 then GENESIS else At(lines, i - 1)
  }

  predicate Fits(h: Digest, lines: seq<Line>, i: nat)
    requires i < |lines|
  {
    lines[i].Some? && Follows(h, Before(lines, i), lines[i].value)
  }

  ghost predicate Accepted(h: Digest, lines: seq<Line>) {
    forall i :: 0 <= i < |lines| ==> Fits(h, lines, i)
  }

  datatype Defect =
    | Unparseable(number: int)
    | DoesNotFollow(number: int, after: int)
    | HashMismatch(number: int)

  // `d` is what is wrong with `line` coming after `last`.
  predicate Explains(d: Defect, h: Digest, last: Entry, line: Line) {
    match d
    case Unparseable(n) => line.None? && n == last.number + 1
    case DoesNotFollow(n, after) =>
      && line.Some? && n == line.value.number && after == last.number
      && (n != after + 1 || line.value.prev != last.hash)
    case HashMismatch(n) =>
      && line.Some? && n == line.value.number == last.number + 1 && line.value.prev == last.hash
      && h(Unsigned(line.value)) != line.value.hash
  }

  /** verify: accepts exactly the chains, and otherwise stops at the first line
      that does not follow from the entry before it. */
  method Verify(h: Digest, lines: seq<Line>) returns (last: Entry, err: Option<Defect>)
    ensures err.None? <==> Accepted(h, lines)
    ensures err.None? ==> last == Before(lines, |lines|)
    ensures err.Some? ==>
              exists k :: 0 <= k < |lines| && Accepted(h, lines[..k])
                          && last == Before(lines, k) && Explains(err.value, h, last, lines[k])
  {
    last, err := GENESIS, None;
    for i := 0 to |lines|
      invariant err.None? && last == Before(lines, i)
      invariant forall k :: 0 <= k < i ==> Fits(h, lines, k)
    {
      assert Accepted(h, lines[..i]) by {
        forall k | 0 <= k < i ensures Fits(h, lines[..i], k) {
          assert Fits(h, lines, k);
        }
      }
      assert !Fits(h, lines, i) ==> !Accepted(h, lines);
      if lines[i].None? {
        err := Some(Unparseable(last.number + 1));
        return;
      }
      var e := lines[i].value;
      if e.number != last.number + 1 || e.prev != last.hash {
        err := Some(DoesNotFollow(e.number, last.number));
        return;
      }
      var want := e.hash;
      e := e.(hash := "");
      if h(e) != want {
        err := Some(HashMismatch(e.number));
        return;
      }
      e := e.(hash := want);
      last := e;
    }
  }

  // ---- What acceptance means ----

  /** Cutting entries off the end leaves a valid chain, and nothing else does:
      appending a line keeps acceptance exactly when it follows the last one. */
  lemma AcceptedExtend(h: Digest, lines: seq<Line>, line: Line)
    ensures Accepted(h, lines + [line]) <==>
            Accepted(h, lines) && line.Some? && Follows(h, Before(lines, |lines|), line.value)
  {
    var all := lines + [line];
    forall i | 0 <= i < |lines| ensures Fits(h, all, i) == Fits(h, lines, i) {
      assert Before(all, i) == Before(lines, i);
    }
    assert Fits(h, all, |lines|) <==> line.Some? && Follows(h, Before(lines, |lines|), line.value);
  }

  lemma PrefixAccepted(h: Digest, lines: seq<Line>, k: nat)
    requires Accepted(h, lines) && k <= |lines|
    ensures Accepted(h, lines[..k])
  {
    forall i | 0 <= i < k ensures Fits(h, lines[..k], i) {
      assert Fits(h, lines, i) && Before(lines[..k], i) == Before(lines, i);
    }
  }

  /** Entries of an accepted log are numbered 1, 2, 3, ..., each names the hash of the
      one before, the first none, and each carries the digest of the rest of itself. */
  lemma {:induction false} Numbered(h: Digest, lines: seq<Line>, i: nat)
    requires Accepted(h, lines) && i < |lines|
    ensures At(lines, i).number == i + 1
    ensures At(lines, i).prev == if i == 0 then "" else At(lines, i - 1).hash
    ensures var e := At(lines, i); e.hash == h(Entry(e.number, e.event, e.prev, ""))
  {
    assert Fits(h, lines, i);
    if i > 0 {
      Numbered(h, lines, i - 1);
    }
  }

  lemma SamePlace(h: Digest, original: seq<Line>, edited: seq<Line>, i: nat)
    requires Accepted(h, original) && Accepted(h, edited)
    requires i < |edited| && edited[i] in original
    ensures i < |original| && edited[i] == original[i]
  {
    var j :| 0 <= j < |original| && original[j] == edited[i];
    Numbered(h, edited, i);
    Numbered(h, original, j);
  }

  /** Removed, duplicated or reordered lines are always noticed: an accepted log
      made only of lines of another accepted log is a prefix of it. */
  lemma OnlyPrefixesSurvive(h: Digest, original: seq<Line>, edited: seq<Line>)
    requires Accepted(h, original) && Accepted(h, edited)
    requires forall line :: line in edited ==> line in original
    ensures edited <= original
  {
    if |original| < |edited| {
      SamePlace(h, original, edited, |original|);
    }
    forall i | 0 <= i < |edited| ensures edited[i] == original[i] {
      SamePlace(h, original, edited, i);
    }
  }

  // Two different entries with one digest.
  ghost predicate Collision(h: Digest) {
    exists a, b :: Clash(h, a, b)
  }

  predicate Clash(h: Digest, a: Entry, b: Entry) {
    Unsigned(a) != Unsigned(b) && h(Unsigned(a)) == h(Unsigned(b))
  }

  /** Tamper evidence: if any two accepted logs contain the same hash anywhere,
      it is at the same position and the logs agree up to it, or the digest
      function has a collision. */
  lemma {:induction false} SameHashSameHistory(h: Digest, a: seq<Line>, b: seq<Line>, i: nat, j: nat)
    requires Accepted(h, a) && Accepted(h, b)
    requires i < |a| && j < |b| && At(a, i).hash == At(b, j).hash
    ensures Collision(h) || (i == j && a[..i + 1] == b[..j + 1])
  {
    var x, y := At(a, i), At(b, j);
    assert Fits(h, a, i) && Fits(h, b, j);
    if Unsigned(x) != Unsigned(y) {
      assert Clash(h, x, y);
    } else {
      assert x == y;
      Numbered(h, a, i);
      Numbered(h, b, j);
      if i > 0 {
        SameHashSameHistory(h, a, b, i - 1, j - 1);
        assert a[..i + 1] == a[..i] + [a[i]] && b[..j + 1] == b[..j] + [b[j]];
      }
    }
  }

  // ---- The running log ----

  // What one append did to the file. `readable` says that verify can parse the
  // line as far as it got. `NotWritten` is also data that does not marshal. `Cut`
  // is a short write: at least the newline is missing, and the line is readable
  // when nothing else is. A whole line is readable when it is under 16 MiB.
  datatype Io = NotWritten | Cut(readable: bool) | Whole(readable: bool, synced: bool)

  // The file, and what the process that has it open remembers of its end.
  // `ended` says that the last line has its newline.
  datatype Session = Session(lines: seq<Line>, ended: bool, isOpen: bool, number: int, prev: string)

  function Signed(h: Digest, number: int, prev: string, ev: Event): Entry {
    var e := Entry(number, ev, prev, "");
    e.(hash := h(e))
  }

  // What a line that was written reads as.
  function Written(e: Entry, io: Io): Line {
    if io.NotWritten? || !io.readable then None else Some(e)
  }

  // Text written after a line without newline ends up on that line, which then
  // holds two objects or a broken one, and no longer parses.
  function Put(lines: seq<Line>, ended: bool, line: Line): seq<Line> {
    if ended || lines == [] then lines + [line] else lines[..|lines| - 1] + [None]
  }

  function AfterAppend(h: Digest, s: Session, ev: Event, io: Io): Session {
    var e := Signed(h, s.number + 1, s.prev, ev);
    var lines := Put(s.lines, s.ended, Written(e, io));
    match io
    case NotWritten => s
    case Cut(_) => s.(lines := lines, ended := false)
    case Whole(_, synced) =>
      if synced then Session(lines, true, s.isOpen, e.number, e.hash) else s.(lines := lines, ended := true)
  }

  class File {
    var lines: seq<Line>
    var ended: bool

    constructor (lines: seq<Line>, ended: bool)
      ensures this.lines == lines && this.ended == ended
    {
      this.lines, this.ended := lines, ended;
    }

    method Write(line: Line, newline: bool)
      modifies this
      ensures lines == Put(old(lines), old(ended), line) && ended == newline
    {
      if ended || lines == [] {
        lines := lines + [line];
      } else {
        lines := lines[..|lines| - 1] + [None];
      }
      ended := newline;
    }
  }

  class Log {
    const file: File
    const h: Digest
    var number: int
    var prev: string

    constructor Continue(h: Digest, file: File, number: int, prev: string)
      ensures this.h == h && this.file == file && this.number == number && this.prev == prev
    {
      this.h, this.file, this.number, this.prev := h, file, number, prev;
    }

    ghost function Memory(): Session
      reads this, file
    {
      Session(file.lines, file.ended, true, number, prev)
    }

    /** Open: refuses a file whose chain does not verify, otherwise remembers
        exactly the end of it. */
    static method Open(h: Digest, file: File) returns (r: Result<Log, Defect>)
      ensures r.Ok? <==> Accepted(h, file.lines)
      ensures r.Ok? ==> fresh(r.value) && r.value.h == h && r.value.file == file
                        && r.value.Memory() == Reopened(h, Session(file.lines, file.ended, false, 0, ""))
    {
      var last, err := Verify(h, file.lines);
      if err.Some? {
        return Err(err.value);
      }
      var log := new Log.Continue(h, file, last.number, last.hash);
      return Ok(log);
    }

    /** Append: one line, and the memory moves on only once it is on disk. */
    method Append(ev: Event, io: Io) returns (ok: bool)
      modifies this, file
      ensures ok <==> io.Whole? && io.synced
      ensures Memory() == AfterAppend(h, old(Memory()), ev, io)
    {
      var e := Entry(number + 1, ev, prev, "");
      e := e.(hash := h(e));
      if io.NotWritten? {
        return false;
      }
      file.Write(Written(e, io), io.Whole?);
      if io.Cut? || !io.synced {
        return false;
      }
      number, prev := e.number, e.hash;
      return true;
    }
  }

  // Closing and opening again; a refused file is never appended to.
  ghost function Reopened(h: Digest, s: Session): Session {
    if Accepted(h, s.lines) then
      var last := Before(s.lines, |s.lines|);
      Session(s.lines, s.ended, true, last.number, last.hash)
    else
      s.(isOpen := false)
  }

  datatype Op = Append(ev: Event, io: Io) | Reopen

  ghost function Step(h: Digest, s: Session, op: Op): Session {
    match op
    case Append(ev, io) => if s.isOpen then AfterAppend(h, s, ev, io) else s
    case Reopen => Reopened(h, s)
  }

  ghost function Run(h: Digest, s: Session, ops: seq<Op>): Session {
    if ops == [] then s else Step(h, Run(h, s, ops[..|ops| - 1]), ops[|ops| - 1])
  }

  // What the I/O outcomes alone say about the log: `Ahead` means that the file
  // holds one line more than the process remembers.
  datatype Health = Sound(ended: bool) | Ahead(ended: bool) | Broken

  function HealthAfter(was: Health, op: Op): Health {
    match (was, op)
    case (_, Append(_, NotWritten)) => was
    case (Broken, _) => Broken
    case (_, Reopen) => Sound(was.ended)
    case (Sound(true), Append(_, Cut(true))) => Ahead(false)
    case (Sound(true), Append(_, Whole(true, synced))) => if synced then Sound(true) else Ahead(true)
    case _ => Broken
  }

  function Outcome(was: Health, ops: seq<Op>): Health {
    if ops == [] then was else HealthAfter(Outcome(was, ops[..|ops| - 1]), ops[|ops| - 1])
  }

  ghost predicate InHealth(h: Digest, s: Session, health: Health) {
    var n := |s.lines|;
    match health
    case Sound(ended) => Accepted(h, s.lines) && s.isOpen && s.ended == ended && Reopened(h, s) == s && (ended || n > 0)
    case Ahead(ended) =>
      Accepted(h, s.lines) && s.isOpen && s.ended == ended && n > 0 && s.number == Before(s.lines, n).number - 1
    case Broken => !Accepted(h, s.lines)
  }

  // A line that cannot be read breaks the chain for good.
  lemma GluedLineBreaks(h: Digest, lines: seq<Line>, line: Line)
    requires lines != []
    ensures !Accepted(h, Put(lines, false, line))
  {
    var glued := Put(lines, false, line);
    assert !Fits(h, glued, |glued| - 1);
  }

  lemma BrokenStaysBroken(h: Digest, lines: seq<Line>, ended: bool, line: Line)
    requires !Accepted(h, lines)
    ensures !Accepted(h, Put(lines, ended, line))
  {
    if ended || lines == [] {
      AcceptedExtend(h, lines, line);
    } else {
      GluedLineBreaks(h, lines, line);
    }
  }

  lemma StepKeepsHealth(h: Digest, s: Session, op: Op, was: Health)
    requires InHealth(h, s, was)
    ensures InHealth(h, Step(h, s, op), HealthAfter(was, op))
  {
    if op.Append? && !op.io.NotWritten? {
      var line := Written(Signed(h, s.number + 1, s.prev, op.ev), op.io);
      if was == Broken {
        BrokenStaysBroken(h, s.lines, s.ended, line);
      } else if s.ended {
        AcceptedExtend(h, s.lines, line);
      } else {
        GluedLineBreaks(h, s.lines, line);
      }
    }
  }

  /** Over every sequence of Append, Close and Open, the I/O outcomes decide
      exactly what state the log is in: whether it verifies, and whether Open
      recovers what the last Append left in memory. */
  lemma {:induction false} OutcomesDecideHealth(h: Digest, s: Session, ops: seq<Op>, was: Health)
    requires InHealth(h, s, was)
    ensures InHealth(h, Run(h, s, ops), Outcome(was, ops))
    ensures Accepted(h, Run(h, s, ops).lines) <==> Outcome(was, ops) != Broken
    ensures Run(h, s, ops).isOpen && Reopened(h, Run(h, s, ops)) == Run(h, s, ops) <==> Outcome(was, ops).Sound?
    decreases |ops|
  {
    if ops != [] {
      var n := |ops| - 1;
      OutcomesDecideHealth(h, s, ops[..n], was);
      StepKeepsHealth(h, Run(h, s, ops[..n]), ops[n], Outcome(was, ops[..n]));
    }
  }

  // Append `i` wrote something.
  predicate Writes(ops: seq<Op>, i: int) {
    0 <= i < |ops| && ops[i].Append? && !ops[i].io.NotWritten?
  }

  // Append `i` wrote a readable line and reported a failure.
  predicate Orphans(ops: seq<Op>, i: int) {
    Writes(ops, i) && ops[i].io.readable && (ops[i].io.Cut? || !ops[i].io.synced)
  }

  predicate ReopenedBetween(ops: seq<Op>, i: int, j: int) {
    exists k :: i < k < j && 0 <= k < |ops| && ops[k].Reopen?
  }

  // Before operation `i`, some append left a line without its newline.
  predicate Unended(ops: seq<Op>, i: int) {
    exists j :: 0 <= j < i && Writes(ops, j) && ops[j].io.Cut?
  }

  // Before operation `i`, some append left a line that memory does not know.
  predicate Behind(ops: seq<Op>, i: int) {
    exists j :: 0 <= j < i && Orphans(ops, j) && !ReopenedBetween(ops, j, i)
  }

  // Append `i` is where the chain breaks.
  predicate Breaks(ops: seq<Op>, i: int) {
    Writes(ops, i) && (!ops[i].io.readable || Unended(ops, i) || Behind(ops, i))
  }

  // The three questions do not depend on later operations.
  lemma QuestionsKeep(ops: seq<Op>, n: nat, i: int)
    requires i <= n <= |ops|
    ensures Unended(ops[..n], i) == Unended(ops, i)
    ensures Behind(ops[..n], i) == Behind(ops, i)
    ensures i < n ==> Breaks(ops[..n], i) == Breaks(ops, i)
  {
    var head := ops[..n];
    assert forall j :: j < n ==> Writes(head, j) == Writes(ops, j);
    forall j | j < i ensures ReopenedBetween(head, j, i) == ReopenedBetween(ops, j, i) {
      assert forall k :: 0 <= k < n ==> head[k] == ops[k];
    }
    assert forall j :: 0 <= j < i && Orphans(head, j) ==> Orphans(ops, j) && !ReopenedBetween(head, j, i) == !ReopenedBetween(ops, j, i);
    assert forall j :: 0 <= j < i && Orphans(ops, j) ==> Orphans(head, j);
  }

  // One more operation.
  lemma QuestionsNext(ops: seq<Op>, n: nat)
    requires n < |ops|
    ensures Unended(ops, n + 1) <==> Unended(ops, n) || (Writes(ops, n) && ops[n].io.Cut?)
    ensures Behind(ops, n + 1) <==> !ops[n].Reopen? && (Behind(ops, n) || Orphans(ops, n))
  {
    forall j | 0 <= j < n ensures ReopenedBetween(ops, j, n + 1) <==> ReopenedBetween(ops, j, n) || ops[n].Reopen? {
      if k :| j < k < n && ops[k].Reopen? {}
    }
    if Behind(ops, n) && !ops[n].Reopen? {
      var j :| 0 <= j < n && Orphans(ops, j) && !ReopenedBetween(ops, j, n);
      assert !ReopenedBetween(ops, j, n + 1);
    }
    if Orphans(ops, n) {
      assert !ReopenedBetween(ops, n, n + 1);
    }
  }

  /** Exactly when the chain breaks: some append wrote anything that cannot be
      read, or wrote anything at all after a line without newline, or after a line
      whose append failed and no reopening since. Memory and file agree exactly
      when no line of a failed append is newer than the last reopening. */
  lemma {:induction false} WhenTheChainBreaks(ops: seq<Op>)
    ensures Outcome(Sound(true), ops) == Broken <==> exists i :: Breaks(ops, i)
    ensures Outcome(Sound(true), ops) != Broken ==>
              && (Outcome(Sound(true), ops).ended <==> !Unended(ops, |ops|))
              && (Outcome(Sound(true), ops).Sound? <==> !Behind(ops, |ops|))
    decreases |ops|
  {
    if ops != [] {
      var n := |ops| - 1;
      WhenTheChainBreaks(ops[..n]);
      QuestionsKeep(ops, n, n);
      QuestionsNext(ops, n);
      forall i | 0 <= i < n ensures Breaks(ops[..n], i) == Breaks(ops, i) {
        QuestionsKeep(ops, n, i);
      }
      assert (exists i :: Breaks(ops, i)) <==> (exists i :: Breaks(ops[..n], i)) || Breaks(ops, n);
    }
  }

  /** Three ways it goes wrong on an empty log: a sync that fails after its write
      landed, then any append that lands; a short write of all but the newline,
      then an append, even after the file was opened again; and a shorter write,
      at once. */
  lemma FailedAppendsBreakTheChain(h: Digest, a: Event, b: Event)
    ensures var s := Session([], true, true, 0, "");
            && !Accepted(h, Run(h, s, [Append(a, Whole(true, false)), Append(b, Whole(true, true))]).lines)
            && !Accepted(h, Run(h, s, [Append(a, Cut(true)), Reopen, Append(b, Whole(true, true))]).lines)
            && !Accepted(h, Run(h, s, [Append(a, Cut(false))]).lines)
  {
    var s := Session([], true, true, 0, "");
    var x := [Append(a, Whole(true, false)), Append(b, Whole(true, true))];
    var y := [Append(a, Cut(true)), Reopen, Append(b, Whole(true, true))];
    var z := [Append(a, Cut(false))];
    assert Orphans(x, 0) && !ReopenedBetween(x, 0, 1);
    assert Breaks(x, 1);
    assert Writes(y, 0) && Unended(y, 2) && Breaks(y, 2);
    assert Breaks(z, 0);
    WhenTheChainBreaks(x);
    WhenTheChainBreaks(y);
    WhenTheChainBreaks(z);
    OutcomesDecideHealth(h, s, x, Sound(true));
    OutcomesDecideHealth(h, s, y, Sound(true));
    OutcomesDecideHealth(h, s, z, Sound(true));
  }

  function Events(lines: seq<Line>): seq<Option<Event>> {
    seq(|lines|, i requires 0 <= i < |lines| => if lines[i].None? then None else Some(lines[i].value.event))
  }

  function Landing(op: Op): seq<Option<Event>> {
    if op.Append? && !op.io.NotWritten? then [Some(op.ev)] else []
  }

  // The events whose line reached the file.
  function Landed(ops: seq<Op>): seq<Option<Event>> {
    if ops == [] then [] else Landed(ops[..|ops| - 1]) + Landing(ops[|ops| - 1])
  }

  lemma StepLands(h: Digest, s: Session, op: Op, was: Health)
    requires InHealth(h, s, was) && HealthAfter(was, op) != Broken
    ensures Events(Step(h, s, op).lines) == Events(s.lines) + Landing(op)
  {
  }

  /** While it verifies, the file holds exactly the landed events, in order,
      after what was there before. */
  lemma {:induction false} FileHoldsLandedEvents(h: Digest, s: Session, ops: seq<Op>, was: Health)
    requires InHealth(h, s, was) && Outcome(was, ops) != Broken
    ensures Events(Run(h, s, ops).lines) == Events(s.lines) + Landed(ops)
    decreases |ops|
  {
    if ops != [] {
      var n := |ops| - 1;
      OutcomesDecideHealth(h, s, ops[..n], was);
      FileHoldsLandedEvents(h, s, ops[..n], was);
      StepLands(h, Run(h, s, ops[..n]), ops[n], Outcome(was, ops[..n]));
    } else {
      assert Events(s.lines) + [] == Events(s.lines);
    }
  }
}
