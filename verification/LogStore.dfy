/** The reader's loop over the keys of one database that many sessions write to, as an instance of `LogStream`. */
module LogStore {
  import opened Protocol
  import opened LogKeys
  import LS = LogStream

  type Key = seq<char>

  /** Where an open scan is: its lower end, and the key it returned last. */
  datatype Position = Position(low: Key, last: Option<Key>)

  /** The reader of one session: `attempted` is the last line its writer has used, `yielded` the delivered keys. */
  datatype Reader = Reader(db: LS.Database, attempted: nat, cursor: nat, scan: Option<Position>, yielded: seq<Key>)

  datatype Event =
    | Put(log: LS.Log, ok: bool)
    | PutOther(other: SessionId, line: UInt64, entry: LS.LogWithLine)
    | Open
    | OpenFails
    | Next(key: Key)
    | Close

  function High(id: SessionId): Key {
    FormatKey(id, MAX_LINE)
  }

  /** The cursor is a 64-bit counter. */
  function Low(id: SessionId, cursor: nat): Key {
    FormatKey(id, cursor % TWO_64)
  }

  ghost predicate InScan(r: Reader, id: SessionId, key: Key) {
    && r.scan.Some? && key in r.db && InRange(key, r.scan.value.low, High(id))
    && (r.scan.value.last.Some? ==> Less(r.scan.value.last.value, key))
  }

  /** The iterator returns its keys in byte order. */
  ghost predicate IsNext(r: Reader, id: SessionId, key: Key) {
    InScan(r, id, key) && forall other | InScan(r, id, other) :: other == key || Less(key, other)
  }

  ghost predicate Enabled(r: Reader, id: SessionId, e: Event) {
    match e
    case Put(_, _) => r.attempted + 1 < MAX_LINE
    case PutOther(other, _, _) => other != id
    case Open => r.scan.None?
    case OpenFails => r.scan.None?
    case Next(key) => IsNext(r, id, key)
    case Close => r.scan.Some?
  }

  ghost function Apply(r: Reader, id: SessionId, e: Event): Reader
    requires Enabled(r, id, e)
  {
    match e
    case Put(log, ok) =>
      var line := r.attempted + 1;
      r.(attempted := line, db := if ok then r.db[FormatKey(id, line) := LS.LogWithLine(log, line)] else r.db)
    case PutOther(other, line, entry) => r.(db := r.db[FormatKey(other, line) := entry])
    case Open => r.(scan := Some(Position(Low(id, r.cursor), None)))
    case OpenFails => r
    case Next(key) =>
      r.(scan := Some(r.scan.value.(last := Some(key))), cursor := r.cursor + 1, yielded := r.yielded + [key])
    case Close => r.(scan := None)
  }

  ghost predicate Valid(r: Reader, id: SessionId, run: seq<Event>)
    decreases |run|, 0
  {
    run == [] || (Valid(r, id, run[..|run| - 1]) && Enabled(After(r, id, run[..|run| - 1]), id, run[|run| - 1]))
  }

  ghost function After(r: Reader, id: SessionId, run: seq<Event>): Reader
    requires Valid(r, id, run)
    decreases |run|, 1
  {
    if run == [] then r else Apply(After(r, id, run[..|run| - 1]), id, run[|run| - 1])
  }

  /** Nothing written by the session yet; others may have used the database. */
  ghost predicate Start(r: Reader, id: SessionId) {
    && OnlyLines(r.db) && (forall line: UInt64 :: FormatKey(id, line) !in r.db)
    && r.attempted == 0 && r.cursor == 0 && r.scan == None && r.yielded == []
  }

  ghost predicate OnlyLines(db: LS.Database) {
    forall key | key in db :: exists v, line :: key == FormatKey(v, line)
  }

  // ---------- Keys stand for line numbers ----------

  ghost predicate Mirrors(db: LS.Database, id: SessionId, stored: set<nat>) {
    && (forall line: UInt64 :: FormatKey(id, line) in db <==> line in stored)
    && forall line | line in stored :: line < MAX_LINE
  }

  ghost predicate KeysOf(keys: seq<Key>, id: SessionId, lines: seq<nat>) {
    |keys| == |lines| && forall i | 0 <= i < |keys| :: lines[i] < TWO_64 && keys[i] == FormatKey(id, lines[i])
  }

  ghost predicate SamePlace(scan: Option<Position>, id: SessionId, at: Option<nat>) {
    && (scan.Some? <==> at.Some?)
    && (scan.Some? ==>
          && at.value < TWO_64
          && exists c: UInt64 :: c <= at.value && scan.value.low == FormatKey(id, c)
                                 && (if scan.value.last.None? then c == at.value
                                     else c < at.value && scan.value.last.value == FormatKey(id, at.value - 1)))
  }

  ghost predicate Refines(r: Reader, id: SessionId, s: LS.Stream) {
    && OnlyLines(r.db) && Mirrors(r.db, id, s.stored)
    && r.attempted == s.attempted && r.cursor == s.cursor
    && KeysOf(r.yielded, id, s.yielded) && SamePlace(r.scan, id, s.scan)
  }

  function Abstract(e: Event): seq<LS.Event> {
    match e
    case Put(_, ok) => [LS.WriteLine(ok)]
    case PutOther(_, _, _) => []
    case Open => [LS.OpenScan]
    case OpenFails => [LS.ScanFails]
    case Next(_) => [LS.Yield]
    case Close => [LS.CloseScan]
  }

  /** The keys an open scan can still return are those of the lines ahead. */
  lemma ScanIsAhead(r: Reader, id: SessionId, s: LS.Stream, v: SessionId, line: UInt64)
    requires Refines(r, id, s) && r.scan.Some?
    ensures InScan(r, id, FormatKey(v, line)) <==> v == id && line in LS.Ahead(s)
  {
    hide FormatKey, InRange, Less;
    var c: UInt64 :| c <= s.scan.value && r.scan.value.low == FormatKey(id, c)
                     && (if r.scan.value.last.None? then c == s.scan.value
                         else c < s.scan.value && r.scan.value.last.value == FormatKey(id, s.scan.value - 1));
    ScanIsExact(id, c, v, line);
    if v == id && r.scan.value.last.Some? {
      KeyOrder(id, s.scan.value - 1, line);
    }
  }

  // ---------- Every step is a step of the stream ----------

  lemma PutRefines(r: Reader, id: SessionId, s: LS.Stream, log: LS.Log, ok: bool)
    requires Refines(r, id, s) && r.attempted + 1 < MAX_LINE
    ensures Refines(Apply(r, id, Put(log, ok)), id, LS.Apply(s, LS.WriteLine(ok)))
  {
    hide FormatKey;
    var line := r.attempted + 1;
    forall l: UInt64 ensures FormatKey(id, l) == FormatKey(id, line) <==> l == line {
      KeyOrder(id, l, line);
    }
  }

  lemma SessionsDiffer(u: SessionId, a: UInt64, v: SessionId, b: UInt64)
    requires u != v
    ensures FormatKey(u, a) != FormatKey(v, b)
  {
    UuidTextInjective(u, v);
    assert FormatKey(u, a)[..36] == UuidText(u) && FormatKey(v, b)[..36] == UuidText(v);
  }

  lemma PutOtherRefines(r: Reader, id: SessionId, s: LS.Stream, other: SessionId, line: UInt64, entry: LS.LogWithLine)
    requires Refines(r, id, s) && other != id
    ensures Refines(Apply(r, id, PutOther(other, line, entry)), id, s)
  {
    hide FormatKey;
    forall l: UInt64 ensures FormatKey(id, l) != FormatKey(other, line) {
      SessionsDiffer(id, l, other, line);
    }
  }

  lemma OpenRefines(r: Reader, id: SessionId, s: LS.Stream)
    requires Refines(r, id, s) && r.scan.None? && s.cursor < TWO_64
    ensures Refines(Apply(r, id, Open), id, LS.Apply(s, LS.OpenScan))
  {
    hide FormatKey;
    var t := LS.Apply(s, LS.OpenScan);
    var c: UInt64 := s.cursor;
    assert c <= t.scan.value && Low(id, r.cursor) == FormatKey(id, c);
  }

  /** The key that comes next is that of the least line ahead. */
  lemma NextIsLeast(r: Reader, id: SessionId, s: LS.Stream, key: Key)
    requires Refines(r, id, s) && IsNext(r, id, key)
    ensures LS.Ahead(s) != {} && LS.Least(LS.Ahead(s)) < MAX_LINE && key == FormatKey(id, LS.Least(LS.Ahead(s)))
  {
    hide FormatKey, SamePlace;
    var v, line: UInt64 :| key == FormatKey(v, line);
    ScanIsAhead(r, id, s, v, line);
    var least := LS.Least(LS.Ahead(s));
    assert least in s.stored;
    ScanIsAhead(r, id, s, id, least);
    KeyOrder(id, least, line);
    KeyOrder(id, line, least);
  }

  lemma SamePlaceMeans(scan: Option<Position>, id: SessionId, at: Option<nat>)
    requires SamePlace(scan, id, at)
    ensures scan.Some? <==> at.Some?
  {
  }

  lemma PlaceMoves(scan: Option<Position>, id: SessionId, at: Option<nat>, line: nat)
    requires SamePlace(scan, id, at) && scan.Some? && at.value <= line < MAX_LINE
    ensures SamePlace(Some(scan.value.(last := Some(FormatKey(id, line)))), id, Some(line + 1))
  {
    hide FormatKey;
    var c: UInt64 :| c <= at.value && scan.value.low == FormatKey(id, c);
    assert c < line + 1 && FormatKey(id, line) == FormatKey(id, line + 1 - 1);
  }

  lemma KeysGrow(keys: seq<Key>, id: SessionId, lines: seq<nat>, line: nat)
    requires KeysOf(keys, id, lines) && line < TWO_64
    ensures KeysOf(keys + [FormatKey(id, line)], id, lines + [line])
  {
  }

  lemma NextRefines(r: Reader, id: SessionId, s: LS.Stream, key: Key)
    requires Refines(r, id, s) && IsNext(r, id, key)
    ensures LS.Enabled(s, LS.Yield) && Refines(Apply(r, id, Next(key)), id, LS.Apply(s, LS.Yield))
  {
    hide FormatKey, Mirrors, KeysOf, IsNext;
    SamePlaceMeans(r.scan, id, s.scan);
    NextIsLeast(r, id, s, key);
    hide SamePlace;
    var line := LS.Least(LS.Ahead(s));
    PlaceMoves(r.scan, id, s.scan, line);
    KeysGrow(r.yielded, id, s.yielded, line);
  }

  lemma ScanRefines(r: Reader, id: SessionId, s: LS.Stream, e: Event)
    requires Refines(r, id, s) && Enabled(r, id, e) && (e.OpenFails? || e.Close?)
    ensures var a := if e.Close? then LS.CloseScan else LS.ScanFails;
            LS.Enabled(s, a) && Refines(Apply(r, id, e), id, LS.Apply(s, a))
  {
    hide FormatKey;
  }

  lemma OneEvent(s: LS.Stream, a: LS.Event)
    requires LS.Enabled(s, a)
    ensures LS.Valid(s, [a]) && LS.After(s, [a]) == LS.Apply(s, a)
  {
    assert [a][..0] == [];
  }

  lemma StepRefines(r: Reader, id: SessionId, s: LS.Stream, e: Event)
    requires Refines(r, id, s) && LS.Inv(s) && Enabled(r, id, e)
    ensures LS.Valid(s, Abstract(e)) && Refines(Apply(r, id, e), id, LS.After(s, Abstract(e)))
  {
    LS.HighestIsStored(s);
    hide LS.Inv, Mirrors, KeysOf, SamePlace, OnlyLines, IsNext, Apply, LS.Apply;
    match e
    case Put(log, ok) =>
      PutRefines(r, id, s, log, ok);
      OneEvent(s, LS.WriteLine(ok));
    case PutOther(other, line, entry) => PutOtherRefines(r, id, s, other, line, entry);
    case Open =>
      assert s.scan.None? by { SamePlaceMeans(r.scan, id, s.scan); }
      OpenRefines(r, id, s);
      OneEvent(s, LS.OpenScan);
    case OpenFails =>
      ScanRefines(r, id, s, e);
      OneEvent(s, LS.ScanFails);
    case Next(key) =>
      NextRefines(r, id, s, key);
      OneEvent(s, LS.Yield);
    case Close =>
      ScanRefines(r, id, s, e);
      OneEvent(s, LS.CloseScan);
  }

  // ---------- Every run ----------

  lemma {:induction false} AbstractRuns(s: LS.Stream, a: seq<LS.Event>, b: seq<LS.Event>)
    requires LS.Valid(s, a) && LS.Valid(LS.After(s, a), b)
    ensures LS.Valid(s, a + b) && LS.After(s, a + b) == LS.After(LS.After(s, a), b)
    decreases |b|
  {
    hide LS.Enabled, LS.Apply;
    if b == [] {
      assert a + b == a;
    } else {
      AbstractRuns(s, a, b[..|b| - 1]);
      assert (a + b)[..|a + b| - 1] == a + b[..|b| - 1];
    }
  }

  lemma StartOk()
    ensures LS.Inv(LS.START)
  {
  }

  /** Every run of the reader over the database is a run of the stream. */
  lemma {:induction false} StoreRefinesStream(r: Reader, id: SessionId, run: seq<Event>) returns (steps: seq<LS.Event>)
    requires Start(r, id) && Valid(r, id, run)
    ensures LS.Valid(LS.START, steps) && Refines(After(r, id, run), id, LS.After(LS.START, steps))
  {
    hide Enabled, Apply, LS.Enabled, LS.Apply, LS.Inv, FormatKey;
    if run == [] {
      steps := [];
    } else {
      var front, e := run[..|run| - 1], run[|run| - 1];
      hide Refines;
      var before := StoreRefinesStream(r, id, front);
      StartOk();
      LS.RunKeepsInv(LS.START, before);
      StepRefines(After(r, id, front), id, LS.After(LS.START, before), e);
      AbstractRuns(LS.START, before, Abstract(e));
      steps := before + Abstract(e);
    }
  }

  lemma Delivered(t: Reader, id: SessionId, s: LS.Stream, line: UInt64, top: UInt64)
    requires Refines(t, id, s) && s.cursor == |s.yielded| < TWO_64
    requires forall l | l in s.yielded :: l in s.stored
    requires forall l | l in s.stored && l <= LS.Highest(s.yielded) :: l in s.yielded
    ensures t.cursor == |t.yielded| < TWO_64
    ensures forall i | 0 <= i < |t.yielded| :: t.yielded[i] in t.db
    ensures FormatKey(id, line) in t.db && line <= top && FormatKey(id, top) in t.yielded
    ==> FormatKey(id, line) in t.yielded
  {
    hide FormatKey, LS.Highest;
    LS.HighestBounds(s.yielded);
    forall i | 0 <= i < |t.yielded| ensures t.yielded[i] in t.db {
      assert s.yielded[i] in s.yielded;
    }
    if FormatKey(id, line) in t.db && line <= top && FormatKey(id, top) in t.yielded {
      var i :| 0 <= i < |t.yielded| && t.yielded[i] == FormatKey(id, top);
      KeyOrder(id, s.yielded[i], top);
      assert s.yielded[i] in s.yielded && line in s.yielded;
      var j :| 0 <= j < |s.yielded| && s.yielded[j] == line;
      assert t.yielded[j] == FormatKey(id, line);
    }
  }

  /** What the reader delivers, in terms of the database: it counts what it delivers, every delivered key is in the
      database, and no key of the session below a delivered one is left out, whatever other sessions write. */
  lemma NoKeyIsSkipped(r: Reader, id: SessionId, run: seq<Event>, line: UInt64, top: UInt64)
    requires Start(r, id) && Valid(r, id, run)
    ensures var t := After(r, id, run);
            && t.cursor == |t.yielded| < TWO_64
            && (forall i | 0 <= i < |t.yielded| :: t.yielded[i] in t.db)
            && (FormatKey(id, line) in t.db && line <= top && FormatKey(id, top) in t.yielded
            ==> FormatKey(id, line) in t.yielded)
  {
    var steps := StoreRefinesStream(r, id, run);
    LS.CursorTheorem(steps);
    Delivered(After(r, id, run), id, LS.After(LS.START, steps), line, top);
  }

  // ---------- The loop over one scan ----------

  lemma Extend(r: Reader, id: SessionId, run: seq<Event>, e: Event)
    requires Valid(r, id, run) && Enabled(After(r, id, run), id, e)
    ensures Valid(r, id, run + [e]) && After(r, id, run + [e]) == Apply(After(r, id, run), id, e)
  {
    hide Enabled, Apply;
    assert (run + [e])[..|run|] == run;
  }

  /** After i items the scan returns the next one. */
  lemma ItemIsNext(r: Reader, id: SessionId, items: seq<Key>, i: nat)
    requires r.scan.Some? && LS.IsScan(items, r.db, r.scan.value.low, High(id)) && i < |items|
    requires r.scan.value.last == if i == 0 then None else Some(items[i - 1])
    ensures IsNext(r, id, items[i])
  {
    hide InRange, Less, FormatKey;
    forall other | InScan(r, id, other) ensures other == items[i] || Less(items[i], other) {
      var k :| 0 <= k < |items| && items[k] == other;
      if k < i {
        if k == i - 1 {
          LessAsymmetric(other, other);
        } else {
          LessAsymmetric(other, items[i - 1]);
        }
      }
    }
  }

  class DbFetcher {
    const id: SessionId
    var cursor: nat
    var delivered: seq<Key>

    ghost function View(db: LS.Database, attempted: nat): Reader
      reads this
    {
      Reader(db, attempted, cursor, None, delivered)
    }

    constructor (id: SessionId)
      ensures this.id == id && View(map[], 0) == Reader(map[], 0, 0, None, [])
    {
      this.id, cursor, delivered := id, 0, [];
    }

    /** One round of the endless loop: `items` is the database's answer to the scan, of which the iterator gives out
        the first `stop` before it ends or fails. The round is a run of the reader. */
    method Poll(db: LS.Database, ghost attempted: nat, items: seq<Key>, stop: nat)
      returns (found: bool, ghost run: seq<Event>)
      requires LS.IsScan(items, db, Low(id, cursor), High(id)) && stop <= |items|
      modifies this
      ensures delivered == old(delivered) + items[..stop] && cursor == old(cursor) + stop
      ensures found <==> stop > 0
      ensures Valid(old(View(db, attempted)), id, run)
              && After(old(View(db, attempted)), id, run) == View(db, attempted)
    {
      hide IsNext, Low, High;
      ghost var start, low := View(db, attempted), Low(id, cursor);
      run := [] + [Open];
      Extend(start, id, [], Open);
      found := false;
      var i := 0;
      while i < stop
        invariant i <= stop && (found <==> i > 0)
        invariant delivered == old(delivered) + items[..i] && cursor == old(cursor) + i
        invariant Valid(start, id, run)
        invariant After(start, id, run)
               == View(db, attempted).(scan := Some(Position(low, if i == 0 then None else Some(items[i - 1]))))
      {
        ItemIsNext(After(start, id, run), id, items, i);
        Extend(start, id, run, Next(items[i]));
        run := run + [Next(items[i])];
        found := true;
        cursor := cursor + 1;
        delivered := delivered + [items[i]];
        i := i + 1;
      }
      Extend(start, id, run, Close);
      run := run + [Close];
    }
  }
}
