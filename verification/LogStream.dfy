/** Delivery of one session's log lines to one reader. */
module LogStream {
  import opened Protocol
  import opened LogKeys

  /** `stored` are the line numbers in the database and `attempted` the last one the writer used; the reader
      has its cursor, the next line number an open scan may return, and the lines it has yielded. */
  datatype Stream = Stream(stored: set<nat>, attempted: nat, cursor: nat, scan: Option<nat>, yielded: seq<nat>)

  const START := Stream({}, 0, 0, None, [])

  /** A write may fail and leave a gap. A scan that fails to open only reports the error. An open scan yields
      stored lines in order, and ends when the database has no more or at any error. */
  datatype Event = WriteLine(ok: bool) | OpenScan | ScanFails | Yield | CloseScan

  ghost function Least(lines: set<nat>): (least: nat)
    requires lines != {}
    ensures least in lines && forall l | l in lines :: least <= l
  {
    var l :| l in lines;
    if lines == {l} then l
    else
      assert lines == {l} + (lines - {l}) && lines - {l} != {};
      var rest := Least(lines - {l});
      if l <= rest then l else rest
  }

  /** What an open scan can still return. */
  function Ahead(s: Stream): set<nat> {
    if s.scan.None? then {} else set l | l in s.stored && l >= s.scan.value
  }

  /** Line numbers stay below the last one, which no scan returns. */
  predicate Enabled(s: Stream, e: Event) {
    match e
    case WriteLine(_) => s.attempted + 1 < MAX_LINE
    case OpenScan => s.scan.None?
    case ScanFails => s.scan.None?
    case Yield => Ahead(s) != {}
    case CloseScan => s.scan.Some?
  }

  ghost function Apply(s: Stream, e: Event): Stream
    requires Enabled(s, e)
  {
    match e
    case WriteLine(ok) =>
      s.(attempted := s.attempted + 1, stored := if ok then s.stored + {s.attempted + 1} else s.stored)
    case OpenScan => s.(scan := Some(s.cursor))
    case ScanFails => s
    case Yield =>
      var line := Least(Ahead(s));
      s.(yielded := s.yielded + [line], cursor := s.cursor + 1, scan := Some(line + 1))
    case CloseScan => s.(scan := None)
  }

  ghost predicate Valid(from: Stream, run: seq<Event>)
    decreases |run|, 0
  {
    run == [] || (Valid(from, run[..|run| - 1]) && Enabled(After(from, run[..|run| - 1]), run[|run| - 1]))
  }

  ghost function After(from: Stream, run: seq<Event>): Stream
    requires Valid(from, run)
    decreases |run|, 1
  {
    if run == [] then from else Apply(After(from, run[..|run| - 1]), run[|run| - 1])
  }

  // ---------- The invariant ----------

  /** Zero when nothing was yielded yet. */
  function Highest(lines: seq<nat>): nat {
    if lines == [] then 0
    else
      var h := Highest(lines[..|lines| - 1]);
      if lines[|lines| - 1] > h then lines[|lines| - 1] else h
  }

  lemma {:induction false} HighestAt(lines: seq<nat>)
    ensures forall i | 0 <= i < |lines| :: lines[i] <= Highest(lines)
    ensures lines != [] ==> exists i :: 0 <= i < |lines| && lines[i] == Highest(lines)
  {
    if lines == [] {
    } else {
      var front := lines[..|lines| - 1];
      HighestAt(front);
      if Highest(lines) == Highest(front) && front != [] {
        var i :| 0 <= i < |front| && front[i] == Highest(front);
        assert lines[i] == Highest(lines);
      } else {
        assert lines[|lines| - 1] == Highest(lines);
      }
      forall i | 0 <= i < |lines| ensures lines[i] <= Highest(lines) {
        assert i < |front| ==> lines[i] == front[i];
      }
    }
  }

  lemma HighestBounds(lines: seq<nat>)
    ensures forall l | l in lines :: l <= Highest(lines)
    ensures lines != [] ==> Highest(lines) in lines
  {
    hide Highest;
    HighestAt(lines);
  }

  ghost predicate Inv(s: Stream) {
    && (forall l | l in s.stored :: 1 <= l <= s.attempted < MAX_LINE)
    && s.attempted < MAX_LINE
    && s.cursor == |s.yielded|
    && s.cursor <= Highest(s.yielded) + 1
    && (forall l | l in s.yielded :: l in s.stored)
    && (forall l | l in s.stored && l <= Highest(s.yielded) :: l in s.yielded)
    && (s.scan.Some? ==>
          && s.cursor <= s.scan.value <= Highest(s.yielded) + 1
          && s.scan.value <= s.attempted + 1)
  }

  lemma HighestIsStored(s: Stream)
    requires Inv(s)
    ensures Highest(s.yielded) <= s.attempted
    ensures s.yielded != [] ==> Highest(s.yielded) in s.stored
  {
    HighestBounds(s.yielded);
  }

  /** A line never delivered before is higher than every delivered one: first deliveries come in line order. */
  lemma YieldIsRepeatOrNext(s: Stream)
    requires Inv(s) && Enabled(s, Yield)
    ensures var line := Least(Ahead(s));
            && line >= s.cursor
            && (line in s.yielded || forall l | l in s.yielded :: l < line)
  {
    HighestBounds(s.yielded);
  }

  lemma HighestWith(lines: seq<nat>, line: nat)
    ensures Highest(lines + [line]) == if line > Highest(lines) then line else Highest(lines)
  {
    assert (lines + [line])[..|lines|] == lines;
  }

  lemma YieldKeepsInv(s: Stream)
    requires Inv(s) && Enabled(s, Yield)
    ensures Inv(Apply(s, Yield))
  {
    hide Highest;
    var line := Least(Ahead(s));
    var t := Apply(s, Yield);
    HighestBounds(s.yielded);
    HighestWith(s.yielded, line);
    forall l | l in t.stored && l <= Highest(t.yielded) ensures l in t.yielded {
      if l > Highest(s.yielded) {
        assert l in Ahead(s);
      }
    }
  }

  lemma StepKeepsInv(s: Stream, e: Event)
    requires Inv(s) && Enabled(s, e)
    ensures Inv(Apply(s, e))
  {
    HighestIsStored(s);
    if e.Yield? {
      YieldKeepsInv(s);
    }
  }

  lemma {:induction false} RunKeepsInv(from: Stream, run: seq<Event>)
    requires Inv(from) && Valid(from, run)
    ensures Inv(After(from, run))
  {
    if run == [] {
    } else {
      RunKeepsInv(from, run[..|run| - 1]);
      StepKeepsInv(After(from, run[..|run| - 1]), run[|run| - 1]);
    }
  }

  // ---------- Counting ----------

  function Delivered(s: Stream): set<nat> {
    set l | l in s.yielded
  }

  /** Line numbers up to `top` whose write failed. */
  function Missing(s: Stream, top: nat): set<nat> {
    UpTo(top) - s.stored
  }

  function Duplicates(s: Stream): int {
    |s.yielded| - |Delivered(s)|
  }

  function UpTo(top: nat): set<nat> {
    if top == 0 then {} else UpTo(top - 1) + {top}
  }

  lemma {:induction false} CountUpTo(top: nat)
    ensures |UpTo(top)| == top
    ensures forall l :: l in UpTo(top) <==> 1 <= l <= top
  {
    if top == 0 {
    } else {
      CountUpTo(top - 1);
    }
  }

  lemma DeliveredCount(s: Stream)
    requires Inv(s)
    ensures |Delivered(s)| == Highest(s.yielded) - |Missing(s, Highest(s.yielded))|
  {
    var top := Highest(s.yielded);
    HighestBounds(s.yielded);
    CountUpTo(top);
    assert UpTo(top) == Delivered(s) + Missing(s, top);
    assert Delivered(s) !! Missing(s, top);
  }

  /** For every schedule of writes, scans and errors: the cursor counts the yielded items and never passes the
      highest line by more than one, no stored line up to the highest one is skipped, and at most one
      delivery more than there are missing lines is a repeat. */
  lemma CursorTheorem(run: seq<Event>)
    requires Valid(START, run)
    ensures var s := After(START, run);
            var top := Highest(s.yielded);
            && s.cursor == |s.yielded| <= top + 1 <= MAX_LINE
            && (forall l | l in s.stored && l <= top :: l in s.yielded)
            && (forall l | l in s.yielded :: l in s.stored)
            && Duplicates(s) <= 1 + |Missing(s, top)|
  {
    RunKeepsInv(START, run);
    HighestIsStored(After(START, run));
    DeliveredCount(After(START, run));
  }

  // ---------- Coming to rest ----------

  function CountYields(run: seq<Event>): nat {
    if run == [] then 0 else CountYields(run[..|run| - 1]) + if run[|run| - 1].Yield? then 1 else 0
  }

  /** The last line in the database, zero when there is none. */
  ghost predicate IsLast(s: Stream, last: nat) {
    && (forall l | l in s.stored :: l <= last)
    && (last in s.stored || (last == 0 && s.stored == {}))
  }

  ghost predicate NoNewLines(run: seq<Event>) {
    forall i | 0 <= i < |run| :: run[i] != WriteLine(true)
  }

  lemma {:induction false} QuietRun(from: Stream, run: seq<Event>)
    requires Inv(from) && Valid(from, run) && NoNewLines(run)
    ensures After(from, run).stored == from.stored
    ensures After(from, run).cursor == from.cursor + CountYields(run)
  {
    if run == [] {
    } else {
      assert run[|run| - 1] != WriteLine(true);
      QuietRun(from, run[..|run| - 1]);
    }
  }

  lemma CursorBelowLast(s: Stream, last: nat)
    requires Inv(s) && IsLast(s, last)
    ensures s.cursor <= last + 1 && Highest(s.yielded) <= last
  {
    HighestBounds(s.yielded);
  }

  /** Without new lines the rescans run dry: what is left to yield is last + 1 - cursor at most. */
  lemma RescansRunDry(run: seq<Event>, more: seq<Event>, last: nat)
    requires Valid(START, run) && IsLast(After(START, run), last)
    requires Valid(After(START, run), more) && NoNewLines(more)
    ensures After(START, run).cursor <= last + 1
    ensures CountYields(more) <= last + 1 - After(START, run).cursor
  {
    var s := After(START, run);
    RunKeepsInv(START, run);
    RunKeepsInv(s, more);
    QuietRun(s, more);
    CursorBelowLast(s, last);
    CursorBelowLast(After(s, more), last);
  }

  lemma AllDelivered(s: Stream, last: nat)
    requires Inv(s) && s.scan == Some(s.cursor) && Ahead(s) == {} && s.stored != {} && IsLast(s, last)
    ensures Delivered(s) == s.stored && s.cursor == last + 1 && Duplicates(s) == 1 + |Missing(s, last)|
  {
    hide Highest, UpTo;
    CursorBelowLast(s, last);
    assert last !in Ahead(s);
    DeliveredCount(s);
  }

  /** A scan that opens and finds nothing proves that every stored line was delivered; by then repeats
      number exactly one more than the missing lines. */
  lemma EmptyScanMeansAllDelivered(run: seq<Event>, last: nat)
    requires Valid(START, run)
    requires var s := After(START, run);
             s.scan == Some(s.cursor) && Ahead(s) == {} && s.stored != {} && IsLast(s, last)
    ensures var s := After(START, run);
            && Delivered(s) == s.stored
            && s.cursor == last + 1
            && Duplicates(s) == 1 + |Missing(s, last)|
  {
    hide Highest, Least, UpTo;
    RunKeepsInv(START, run);
    AllDelivered(After(START, run), last);
  }

  // ---------- The database behind the line numbers ----------

  datatype Log = Log(message: string, timestamp: string, level: string)

  datatype LogWithLine = LogWithLine(log: Log, line: nat)

  type Database = map<seq<char>, LogWithLine>

  /** The items of a scan: the keys of the range in byte order. */
  ghost predicate IsScan(items: seq<seq<char>>, db: Database, low: seq<char>, high: seq<char>) {
    && (forall key :: key in items <==> key in db && InRange(key, low, high))
    && (forall i, j | 0 <= i < j < |items| :: Less(items[i], items[j]))
  }

  /** A scan from the cursor returns exactly this session's stored lines from the cursor on, in line order,
      whatever other sessions have written. */
  lemma ScanReturnsLines(db: Database, items: seq<seq<char>>, id: SessionId, cursor: UInt64)
    requires IsScan(items, db, FormatKey(id, cursor), FormatKey(id, MAX_LINE))
    ensures forall v: SessionId, line: UInt64 ::
              FormatKey(v, line) in items <==> FormatKey(v, line) in db && v == id && cursor <= line < MAX_LINE
    ensures forall i, j, a: UInt64, b: UInt64 | 0 <= i < j < |items|
                && items[i] == FormatKey(id, a) && items[j] == FormatKey(id, b) ::
              a < b
  {
    forall v: SessionId, line: UInt64
      ensures FormatKey(v, line) in items <==> FormatKey(v, line) in db && v == id && cursor <= line < MAX_LINE {
      ScanIsExact(id, cursor, v, line);
    }
    forall i, j, a: UInt64, b: UInt64 | 0 <= i < j < |items|
                && items[i] == FormatKey(id, a) && items[j] == FormatKey(id, b)
      ensures a < b {
      KeyOrder(id, a, b);
    }
  }

  /** The entries of a request that parsed, in order; unparsable ones take no line number. */
  function Parsed(entries: seq<Option<Log>>): seq<Log> {
    if entries == [] then []
    else
      var front := Parsed(entries[..|entries| - 1]);
      var e := entries[|entries| - 1];
      if e.Some? then front + [e.value] else front
  }

  /** Nothing but the entries that parsed gets a line. */
  lemma {:induction false} ParsedCount(entries: seq<Option<Log>>)
    ensures |Parsed(entries)| == |set i | 0 <= i < |entries| && entries[i].Some?|
  {
    if entries == [] {
    } else {
      var last := |entries| - 1;
      ParsedCount(entries[..last]);
      var a := set i | 0 <= i < last && entries[..last][i].Some?;
      var b := set i | 0 <= i < |entries| && entries[i].Some?;
      assert b == if entries[last].Some? then a + {last} else a;
    }
  }

  lemma {:induction false} ParsedPrefix(entries: seq<Option<Log>>, i: nat)
    requires i <= |entries|
    ensures Parsed(entries[..i]) <= Parsed(entries)
    decreases |entries|
  {
    if i == |entries| {
      assert entries[..i] == entries;
    } else {
      ParsedPrefix(entries[..|entries| - 1], i);
      assert entries[..|entries| - 1][..i] == entries[..i];
    }
  }

  /** And every one of them does, in its place after those before it. */
  lemma ParsedAt(entries: seq<Option<Log>>, i: nat)
    requires i < |entries| && entries[i].Some?
    ensures |Parsed(entries[..i])| < |Parsed(entries)| && Parsed(entries)[|Parsed(entries[..i])|] == entries[i].value
  {
    assert entries[..i + 1][..i] == entries[..i];
    ParsedPrefix(entries, i + 1);
  }

  /** Line k of the session holds the k-th log, wherever its write succeeded. */
  ghost predicate HoldsLines(db: Database, id: SessionId, logs: seq<Log>, writeOk: nat -> bool)
    requires |logs| < MAX_LINE
  {
    forall k | 1 <= k <= |logs| && writeOk(k) ::
      FormatKey(id, k) in db && db[FormatKey(id, k)] == LogWithLine(logs[k - 1], k)
  }

  /** Everything else in the database is as it was. */
  ghost predicate OnlyAddsLines(before: Database, after: Database, id: SessionId, lines: nat, writeOk: nat -> bool)
    requires lines < MAX_LINE
  {
    && (forall key | key in before :: key in after)
    && forall key | key in after ::
         (key in before && after[key] == before[key]) ||
         exists k :: 1 <= k <= lines && writeOk(k) && key == FormatKey(id, k)
  }

  lemma WriteNext(before: Database, db: Database, id: SessionId, logs: seq<Log>, log: Log, writeOk: nat -> bool)
    requires |logs| + 1 < MAX_LINE
    requires HoldsLines(db, id, logs, writeOk) && OnlyAddsLines(before, db, id, |logs|, writeOk)
    ensures var line := |logs| + 1;
            var after := if writeOk(line) then db[FormatKey(id, line) := LogWithLine(log, line)] else db;
            HoldsLines(after, id, logs + [log], writeOk) && OnlyAddsLines(before, after, id, line, writeOk)
  {
    var line := |logs| + 1;
    var after := if writeOk(line) then db[FormatKey(id, line) := LogWithLine(log, line)] else db;
    forall k | 1 <= k <= line && writeOk(k)
      ensures FormatKey(id, k) in after && after[FormatKey(id, k)] == LogWithLine((logs + [log])[k - 1], k) {
      KeyOrder(id, k, line);
    }
    forall key | key in after && !(key in before && after[key] == before[key])
      ensures exists k :: 1 <= k <= line && writeOk(k) && key == FormatKey(id, k) {
      if writeOk(line) && key == FormatKey(id, line) {
        assert 1 <= line <= line && writeOk(line) && key == FormatKey(id, line);
      } else {
        var k :| 1 <= k <= |logs| && writeOk(k) && key == FormatKey(id, k);
      }
    }
  }

  lemma NothingWritten(db: Database, id: SessionId, writeOk: nat -> bool)
    ensures HoldsLines(db, id, [], writeOk) && OnlyAddsLines(db, db, id, 0, writeOk)
  {
  }

  lemma LinesAreHeld(db: Database, id: SessionId, logs: seq<Log>, writeOk: nat -> bool)
    requires |logs| < MAX_LINE && HoldsLines(db, id, logs, writeOk)
    ensures forall k | 1 <= k <= |logs| && writeOk(k) ::
              FormatKey(id, k) in db && db[FormatKey(id, k)] == LogWithLine(logs[k - 1], k)
  {
  }

  class LogServer {
    var db: Database

    /** Numbers the parsed entries from one and writes each under its key; a failed write is only reported. */
    method PostLogs(id: SessionId, entries: seq<Option<Log>>, writeOk: nat -> bool) returns (lines: nat)
      requires |entries| < MAX_LINE
      modifies this
      ensures lines == |Parsed(entries)| < MAX_LINE
      ensures HoldsLines(db, id, Parsed(entries), writeOk)
      ensures OnlyAddsLines(old(db), db, id, lines, writeOk)
      ensures forall k | 1 <= k <= lines && writeOk(k) ::
                FormatKey(id, k) in db && db[FormatKey(id, k)] == LogWithLine(Parsed(entries)[k - 1], k)
    {
      hide HoldsLines, OnlyAddsLines;
      lines := 0;
      NothingWritten(db, id, writeOk);
      var i := 0;
      while i < |entries|
        invariant i <= |entries| && lines == |Parsed(entries[..i])| <= i
        invariant HoldsLines(db, id, Parsed(entries[..i]), writeOk)
        invariant OnlyAddsLines(old(db), db, id, lines, writeOk)
      {
        assert entries[..i + 1][..i] == entries[..i];
        if entries[i].Some? {
          WriteNext(old(db), db, id, Parsed(entries[..i]), entries[i].value, writeOk);
          lines := lines + 1;
          if writeOk(lines) {
            db := db[FormatKey(id, lines) := LogWithLine(entries[i].value, lines)];
          }
        }
        i := i + 1;
      }
      assert entries[..i] == entries;
      LinesAreHeld(db, id, Parsed(entries), writeOk);
    }
  }

  // ---------- The reader's loop ----------

  /** The open scan will return exactly these lines, in this order. */
  ghost predicate WillReturn(s: Stream, items: seq<nat>) {
    && s.scan.Some?
    && (forall i, j | 0 <= i < j < |items| :: items[i] < items[j])
    && (forall i | 0 <= i < |items| :: items[i] in Ahead(s))
    && (forall l | l in Ahead(s) :: exists i :: 0 <= i < |items| && items[i] == l)
  }

  lemma YieldReturnsFirst(s: Stream, items: seq<nat>)
    requires WillReturn(s, items) && items != []
    ensures Enabled(s, Yield) && Apply(s, Yield).yielded == s.yielded + [items[0]]
    ensures WillReturn(Apply(s, Yield), items[1..])
  {
    assert items[0] in Ahead(s);
    var least := Least(Ahead(s));
    var i :| 0 <= i < |items| && items[i] == least;
    assert least == items[0];
    var t := Apply(s, Yield);
    var rest := items[1..];
    forall l | l in Ahead(t) ensures exists k :: 0 <= k < |rest| && rest[k] == l {
      assert l in Ahead(s);
      var k :| 0 <= k < |items| && items[k] == l;
      assert rest[k - 1] == l;
    }
  }

  /** Yielding k times from an open scan gives its first k items, if nothing is written meanwhile. */
  lemma {:induction false} YieldsFollowScan(s: Stream, items: seq<nat>, k: nat) returns (run: seq<Event>)
    requires WillReturn(s, items) && k <= |items|
    ensures |run| == k && (forall i | 0 <= i < k :: run[i] == Yield) && Valid(s, run)
    ensures var t := After(s, run);
            t.yielded == s.yielded + items[..k] && t.cursor == s.cursor + k && WillReturn(t, items[k..])
    decreases k
  {
    hide WillReturn, Least, Ahead;
    if k == 0 {
      run := [];
      assert s.yielded + items[..0] == s.yielded && items[0..] == items;
    } else {
      var front := YieldsFollowScan(s, items, k - 1);
      var t := After(s, front);
      run := front + [Yield];
      assert run[..|run| - 1] == front;
      var rest := items[k - 1..];
      YieldReturnsFirst(t, rest);
      assert rest[1..] == items[k..] && items[..k] == items[..k - 1] + [rest[0]];
    }
  }
}
