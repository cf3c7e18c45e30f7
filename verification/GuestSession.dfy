/** The host's side of one guest connection: handshake, log forwarding, result. */
module GuestSession {
  import opened Protocol
  import opened Framing

  /** Log entries are opaque. */
  type Entry = nat

  datatype GuestMessage = Ready(id: Uuid) | Log(id: Uuid, entry: Entry) | Complete(id: Uuid, success: bool)

  /** Deserialising a body; `None` is an error. */
  type Parser = Bytes -> Option<GuestMessage>

  /** The messages read from the bytes until the first read fails, for want of bytes or because it does not parse. */
  function Received(s: Bytes, parse: Parser): seq<GuestMessage>
    decreases |s|
  {
    match Decode(s)
    case TooShort => []
    case Read(body, rest) =>
      DecodeIsFrame(s);
      if parse(body).None? then [] else [parse(body).value] + Received(rest, parse)
  }

  // ---------- What a session should do ----------

  predicate IsResult(m: GuestMessage, id: Uuid) {
    m.Complete? && m.id == id
  }

  /** The position of the job's first result, the number of messages when there is none. */
  function ResultAt(ms: seq<GuestMessage>, id: Uuid): (k: nat)
    ensures k <= |ms|
    ensures k < |ms| ==> IsResult(ms[k], id)
    ensures forall i | 0 <= i < k :: !IsResult(ms[i], id)
  {
    if ms == [] || IsResult(ms[0], id) then 0 else 1 + ResultAt(ms[1..], id)
  }

  /** The job's own log entries, in order. */
  function OwnLogs(ms: seq<GuestMessage>, id: Uuid): seq<Entry> {
    if ms == [] then []
    else OwnLogs(ms[..|ms| - 1], id) + (var m := ms[|ms| - 1]; if m.Log? && m.id == id then [m.entry] else [])
  }

  /** Only a first message saying that this job is ready opens the session. */
  predicate Accepted(ms: seq<GuestMessage>, id: Uuid) {
    ms != [] && ms[0] == Ready(id)
  }

  function Forwarded(ms: seq<GuestMessage>, id: Uuid): seq<Entry> {
    if Accepted(ms, id) then OwnLogs(ms[1..][..ResultAt(ms[1..], id)], id) else []
  }

  function ResultOf(ms: seq<GuestMessage>, id: Uuid): Option<bool> {
    if ResultAt(ms, id) < |ms| then Some(ms[ResultAt(ms, id)].success) else None
  }

  function Result(ms: seq<GuestMessage>, id: Uuid): Option<bool> {
    if Accepted(ms, id) then ResultOf(ms[1..], id) else None
  }

  lemma {:induction false} ResultAfter(a: seq<GuestMessage>, b: seq<GuestMessage>, id: Uuid)
    requires ResultAt(a, id) == |a|
    ensures ResultAt(a + b, id) == |a| + ResultAt(b, id)
  {
    if a == [] {
      assert a + b == b;
    } else {
      ResultAfter(a[1..], b, id);
      assert (a + b)[1..] == a[1..] + b;
    }
  }

  lemma NothingRead(id: Uuid)
    ensures ResultAt([], id) == 0 && OwnLogs([], id) == []
  {
  }

  /** The next message after messages without the result. */
  lemma NextMessage(read: seq<GuestMessage>, m: GuestMessage, rest: seq<GuestMessage>, id: Uuid)
    requires ResultAt(read, id) == |read|
    ensures var all := read + [m] + rest;
            if IsResult(m, id)
            then ResultAt(all, id) == |read| && all[..|read|] == read && all[|read|] == m
            else ResultAt(read + [m], id) == |read| + 1
                 && OwnLogs(read + [m], id) == OwnLogs(read, id) + if m.Log? && m.id == id then [m.entry] else []
  {
    assert read + [m] + rest == read + ([m] + rest);
    ResultAfter(read, [m] + rest, id);
    ResultAfter(read, [m], id);
    assert (read + [m])[..|read|] == read;
  }

  // ---------- What that guarantees ----------

  lemma {:induction false} OwnLogsJoin(a: seq<GuestMessage>, b: seq<GuestMessage>, id: Uuid)
    ensures OwnLogs(a + b, id) == OwnLogs(a, id) + OwnLogs(b, id)
    decreases |b|
  {
    if b == [] {
      assert a + b == a;
    } else {
      OwnLogsJoin(a, b[..|b| - 1], id);
      assert (a + b)[..|a + b| - 1] == a + b[..|b| - 1];
    }
  }

  lemma ResultIsFirst(ms: seq<GuestMessage>, k: nat, id: Uuid)
    requires k < |ms| && IsResult(ms[k], id) && forall i | 0 <= i < k :: !IsResult(ms[i], id)
    ensures ResultAt(ms, id) == k
  {
    hide ResultAt;
    var r := ResultAt(ms, id);
    assert r < |ms| ==> IsResult(ms[r], id);
  }

  /** Later messages can only add logs, and after the result they change nothing. */
  lemma LaterMessages(ms: seq<GuestMessage>, more: seq<GuestMessage>, id: Uuid)
    ensures Forwarded(ms, id) <= Forwarded(ms + more, id)
    ensures Result(ms, id).Some? ==>
              Result(ms + more, id) == Result(ms, id) && Forwarded(ms + more, id) == Forwarded(ms, id)
  {
    hide ResultAt, OwnLogs;
    if Accepted(ms, id) {
      var a := ms[1..];
      assert (ms + more)[1..] == a + more;
      var k := ResultAt(a, id);
      if k == |a| {
        ResultAfter(a, more, id);
        var j := ResultAt(more, id);
        assert (a + more)[..k + j] == a + more[..j];
        assert a[..k] == a;
        OwnLogsJoin(a, more[..j], id);
      } else {
        ResultIsFirst(a + more, k, id);
        assert (a + more)[..k] == a[..k];
      }
    }
  }

  lemma NotTheResult(a: seq<GuestMessage>, m: GuestMessage, id: Uuid)
    requires ResultAt(a, id) == |a| && (m.id != id || m.Ready?)
    ensures ResultAt(a + [m], id) == |a| + 1 && OwnLogs(a + [m], id) == OwnLogs(a, id)
  {
    NextMessage(a, m, [], id);
  }

  /** After the handshake, another job's messages and further handshakes make no difference. */
  lemma ForeignMessagesIgnored(a: seq<GuestMessage>, m: GuestMessage, b: seq<GuestMessage>, id: Uuid)
    requires m.id != id || m.Ready?
    ensures Forwarded([Ready(id)] + a + [m] + b, id) == Forwarded([Ready(id)] + a + b, id)
    ensures Result([Ready(id)] + a + [m] + b, id) == Result([Ready(id)] + a + b, id)
  {
    hide ResultAt, OwnLogs;
    var with, without := a + [m] + b, a + b;
    assert ([Ready(id)] + a + [m] + b)[1..] == with && ([Ready(id)] + a + b)[1..] == without;
    var k, j := ResultAt(a, id), ResultAt(b, id);
    if k < |a| {
      ResultIsFirst(with, k, id);
      ResultIsFirst(without, k, id);
      assert with[..k] == a[..k] == without[..k];
    } else {
      NotTheResult(a, m, id);
      ResultAfter(a + [m], b, id);
      ResultAfter(a, b, id);
      assert with[..|a| + 1 + j] == a + [m] + b[..j] && without[..|a| + j] == a + b[..j];
      OwnLogsJoin(a + [m], b[..j], id);
      OwnLogsJoin(a, b[..j], id);
    }
  }

  /** A first message that is not this job's handshake lets nothing in, whatever follows. */
  lemma WrongHandshakeDoesNothing(ms: seq<GuestMessage>, id: Uuid)
    requires ms == [] || ms[0] != Ready(id)
    ensures Forwarded(ms, id) == [] && Result(ms, id) == None
  {
  }

  // ---------- From the guest's bytes ----------

  function Rendered(ms: seq<GuestMessage>, render: GuestMessage -> Bytes): seq<Bytes> {
    if ms == [] then [] else [render(ms[0])] + Rendered(ms[1..], render)
  }

  /** These messages, at least, survive being written and read. */
  predicate Serialises(ms: seq<GuestMessage>, render: GuestMessage -> Bytes, parse: Parser) {
    forall i | 0 <= i < |ms| :: parse(render(ms[i])) == Some(ms[i]) && Fits(render(ms[i]))
  }

  /** A tag, the job and the content, for jobs and contents that fit a byte each; longer ones are cut. */
  function RenderSmall(m: GuestMessage): Bytes {
    match m
    case Ready(id) => [0, (id % 256) as Byte]
    case Log(id, entry) => [1, (id % 256) as Byte, (entry % 256) as Byte]
    case Complete(id, success) => [2, (id % 256) as Byte, if success then 1 else 0]
  }

  function ParseSmall(b: Bytes): Option<GuestMessage> {
    if |b| == 2 && b[0] == 0 then Some(Ready(b[1] as nat))
    else if |b| == 3 && b[0] == 1 then Some(Log(b[1] as nat, b[2] as nat))
    else if |b| == 3 && b[0] == 2 && b[2] < 2 then Some(GuestMessage.Complete(b[1] as nat, b[2] == 1))
    else None
  }

  predicate Small(m: GuestMessage) {
    m.id < 256 && (m.Log? ==> m.entry < 256)
  }

  lemma SmallMessageSerialises(m: GuestMessage)
    ensures Small(m) <==> ParseSmall(RenderSmall(m)) == Some(m)
    ensures Fits(RenderSmall(m))
  {
  }

  /** There are such pairs: this one serialises a message exactly if it is small. */
  lemma SmallMessagesSerialise(ms: seq<GuestMessage>)
    ensures Serialises(ms, RenderSmall, ParseSmall) <==> forall i | 0 <= i < |ms| :: Small(ms[i])
  {
    forall i | 0 <= i < |ms| ensures Small(ms[i]) <==> ParseSmall(RenderSmall(ms[i])) == Some(ms[i]) {
      SmallMessageSerialises(ms[i]);
    }
    if !Serialises(ms, RenderSmall, ParseSmall) {
      var i :| 0 <= i < |ms| && !(ParseSmall(RenderSmall(ms[i])) == Some(ms[i]) && Fits(RenderSmall(ms[i])));
      assert !Small(ms[i]);
    }
  }

  lemma {:induction false} ReceivedInOrder(ms: seq<GuestMessage>, render: GuestMessage -> Bytes, parse: Parser,
                                           after: Bytes)
    requires Serialises(ms, render, parse)
    ensures Received(EncodeAll(Rendered(ms, render)) + after, parse) == ms + Received(after, parse)
    decreases |ms|
  {
    hide Encode, Decode, Fits;
    if ms == [] {
      assert EncodeAll([]) + after == after;
    } else {
      var rest := EncodeAll(Rendered(ms[1..], render)) + after;
      ReceivedInOrder(ms[1..], render, parse, after);
      ArrivesIffFits(render(ms[0]), rest);
      var all := Rendered(ms, render);
      assert all[1..] == Rendered(ms[1..], render);
      assert EncodeAll(all) + after == Encode(render(ms[0])) + rest;
    }
  }

  /** A message that cannot be read ends the session there, whatever follows. */
  lemma UnreadableEndsSession(body: Bytes, after: Bytes, parse: Parser)
    requires Fits(body) && parse(body) == None
    ensures Received(Encode(body) + after, parse) == []
  {
    hide Encode, Decode, Fits;
    ArrivesIffFits(body, after);
  }

  function LogsOf(entries: seq<Entry>, id: Uuid): (ms: seq<GuestMessage>)
    ensures |ms| == |entries| && forall i | 0 <= i < |ms| :: ms[i] == Log(id, entries[i])
  {
    if entries == [] then [] else LogsOf(entries[..|entries| - 1], id) + [Log(id, entries[|entries| - 1])]
  }

  /** What a guest sends that gets ready, logs and reports. */
  function Script(entries: seq<Entry>, success: bool, id: Uuid): seq<GuestMessage> {
    [Ready(id)] + LogsOf(entries, id) + [GuestMessage.Complete(id, success)]
  }

  lemma {:induction false} LogsAreForwarded(entries: seq<Entry>, id: Uuid)
    ensures OwnLogs(LogsOf(entries, id), id) == entries && ResultAt(LogsOf(entries, id), id) == |entries|
  {
    hide ResultAt;
    if entries == [] {
    } else {
      LogsAreForwarded(entries[..|entries| - 1], id);
      assert LogsOf(entries, id)[..|entries| - 1] == LogsOf(entries[..|entries| - 1], id);
    }
  }

  /** Logs are forwarded as they come, before there is any result. */
  lemma LogsAreForwardedAtOnce(entries: seq<Entry>, id: Uuid)
    ensures Forwarded([Ready(id)] + LogsOf(entries, id), id) == entries
    ensures Result([Ready(id)] + LogsOf(entries, id), id) == None
  {
    hide ResultAt, OwnLogs;
    var ms := [Ready(id)] + LogsOf(entries, id);
    LogsAreForwarded(entries, id);
    assert ms[1..] == LogsOf(entries, id) && ms[1..][..|entries|] == ms[1..];
  }

  /** A guest that says it is ready, logs, and reports gets every entry forwarded in order and its result kept,
      whatever comes after. */
  lemma GuestIsHeard(entries: seq<Entry>, success: bool, id: Uuid, render: GuestMessage -> Bytes, parse: Parser,
                     after: Bytes)
    requires Serialises(Script(entries, success, id), render, parse)
    ensures var script := Script(entries, success, id);
            var ms := Received(EncodeAll(Rendered(script, render)) + after, parse);
            Accepted(ms, id) && Forwarded(ms, id) == entries && Result(ms, id) == Some(success)
  {
    hide ResultAt, OwnLogs, Received;
    var logs := LogsOf(entries, id);
    var script := Script(entries, success, id);
    ReceivedInOrder(script, render, parse, after);
    LogsAreForwarded(entries, id);
    ResultIsFirst(script[1..], |entries|, id);
    assert script[1..][..|entries|] == logs;
    LaterMessages(script, Received(after, parse), id);
  }

  lemma DecodePrefix(s: Bytes, more: Bytes)
    requires Decode(s).Read?
    ensures Decode(s + more) == Read(Decode(s).body, Decode(s).rest + more)
  {
    DecodeIsFrame(s);
    var r := Decode(s);
    ArrivesIffFits(r.body, r.rest + more);
    assert s + more == Encode(r.body) + (r.rest + more);
  }

  lemma {:induction false} ReceivedPrefix(s: Bytes, more: Bytes, parse: Parser)
    ensures Received(s, parse) <= Received(s + more, parse)
    decreases |s|
  {
    hide Decode;
    match Decode(s)
    case TooShort =>
    case Read(_, rest) =>
      DecodeIsFrame(s);
      DecodePrefix(s, more);
      ReceivedPrefix(rest, more, parse);
  }

  /** Losing the connection at any byte forwards a prefix of the logs and never invents or changes a result. */
  lemma {:induction false} CutConnection(s: Bytes, more: Bytes, id: Uuid, parse: Parser)
    ensures var cut, whole := Received(s, parse), Received(s + more, parse);
            && cut <= whole
            && Forwarded(cut, id) <= Forwarded(whole, id)
            && (Result(cut, id).Some? ==> Result(whole, id) == Result(cut, id))
    decreases |s|
  {
    ReceivedPrefix(s, more, parse);
    var cut, whole := Received(s, parse), Received(s + more, parse);
    LaterMessages(cut, whole[|cut|..], id);
    assert cut + whole[|cut|..] == whole;
  }

  // ---------- The session ----------

  class GuestServer {
    const id: Uuid
    /** Whether the caller gave a place to store the result. */
    const keepsResult: bool
    var stored: Option<bool>
    var logs: seq<Entry>
    var notified: bool

    constructor (id: Uuid, keepsResult: bool)
      ensures this.id == id && this.keepsResult == keepsResult
      ensures stored == None && logs == [] && !notified
    {
      this.id, this.keepsResult := id, keepsResult;
      stored, logs, notified := None, [], false;
    }

    /** The next message, `None` when reading or parsing it fails. */
    method ReadGuest(stream: MessageStream, parse: Parser) returns (m: Option<GuestMessage>)
      requires stream.Valid()
      modifies stream`arriving
      ensures stream.Valid()
      ensures var ms := Received(old(stream.Incoming()), parse);
              if ms == [] then m == None
              else && m == Some(ms[0]) && Received(stream.Incoming(), parse) == ms[1..]
                   && |stream.Incoming()| < |old(stream.Incoming())|
    {
      hide Decode;
      ghost var bytes := stream.Incoming();
      var body := stream.ReadMessage();
      if body.None? {
        return None;
      }
      DecodeIsFrame(bytes);
      m := parse(body.value);
    }

    /** Forwards the job's logs until its result arrives or the connection ends. */
    method FollowGuest(stream: MessageStream, parse: Parser) returns (result: Option<bool>)
      requires stream.Valid()
      modifies this`logs, stream`arriving
      ensures var ms := Received(old(stream.Incoming()), parse);
              && logs == old(logs) + OwnLogs(ms[..ResultAt(ms, id)], id)
              && result == ResultOf(ms, id)
    {
      hide Decode, OwnLogs, ResultAt, Received;
      ghost var all := Received(stream.Incoming(), parse);
      ghost var read: seq<GuestMessage> := [];
      NothingRead(id);
      while true
        invariant stream.Valid()
        invariant all == read + Received(stream.Incoming(), parse)
        invariant ResultAt(read, id) == |read| && logs == old(logs) + OwnLogs(read, id)
        decreases |stream.Incoming()|
      {
        ghost var left := Received(stream.Incoming(), parse);
        var m := ReadGuest(stream, parse);
        if m.None? {
          assert all == read && all[..|read|] == read;
          return None;
        }
        assert all == read + [m.value] + left[1..];
        NextMessage(read, m.value, left[1..], id);
        if IsResult(m.value, id) {
          return Some(m.value.success);
        }
        if m.value.Log? && m.value.id == id {
          logs := logs + [m.value.entry];
        }
        read := read + [m.value];
      }
    }

    /** Sends the configuration and follows the guest until its result or the end of the connection. False means
        that the configuration could not be sent or the handshake failed. */
    method HandleGuestConnection(stream: MessageStream, config: Bytes, configSent: bool, parse: Parser)
      returns (ok: bool)
      requires stream.Valid()
      modifies this, stream
      ensures var ms := if configSent then Received(old(stream.Incoming()), parse) else [];
              && ok == Accepted(ms, id)
              && logs == old(logs) + Forwarded(ms, id)
              && stored == (if keepsResult && Result(ms, id).Some? then Result(ms, id) else old(stored))
              && notified == (old(notified) || Result(ms, id).Some?)
      ensures var ms := if configSent then Received(old(stream.Incoming()), parse) else [];
              if ms == [] || ms[0] != Ready(id)
              then !ok && logs == old(logs) && stored == old(stored) && notified == old(notified)
              else ok
      ensures stream.sent == old(stream.sent) + if configSent then Encode(config) else []
    {
      hide OwnLogs, ResultAt, ResultOf, Encode, Received;
      if !configSent {
        return false;
      }
      stream.WriteMessage(config);
      var first := ReadGuest(stream, parse);
      if first != Some(Ready(id)) {
        return false;
      }
      var receivedResult := FollowGuest(stream, parse);
      if receivedResult.Some? && keepsResult {
        stored := receivedResult;
      }
      if receivedResult.Some? {
        notified := true;
      }
      ok := true;
    }
  }
}
