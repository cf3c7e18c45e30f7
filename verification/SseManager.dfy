/** The browser's connection manager for server-sent events: one event source per name, retries, batching.
    Connection states, event sources and timers are objects that callbacks capture; here they are numbers into
    the maps of a `Page`, so a callback keeps the state it captured while the name may have moved on. */
module SseManager {
  import opened Protocol

  /** Opaque names, addresses and parsed messages. */
  type Id = nat
  type Url = nat
  type Message = nat

  /** `received` and `delivered` record the parsed messages and the batches handed to the handler so far. */
  datatype ConnState = ConnState(url: Url, connecting: bool, retryCount: nat, retryTimeout: Option<nat>,
                                 buffer: seq<Message>, batchTimeout: Option<nat>,
                                 received: seq<Message>, delivered: seq<seq<Message>>)

  /** An open source fires events; a closed one never does. */
  datatype Source = Source(id: Id, url: Url, state: nat, open: bool)

  /** A deferred creation holds the name and the state it was scheduled for. */
  datatype Creation = Creation(id: Id, state: nat)

  /** The manager's two maps, the objects they refer to, and the pending timers of its three kinds: creations,
      retries of a name, deliveries for a state. Numbers from `next` on are unused. */
  datatype Page = Page(connections: map<Id, nat>, current: map<Id, nat>,
                       states: map<nat, ConnState>, sources: map<nat, Source>,
                       ticks: map<nat, Creation>, retries: map<nat, Id>, batches: map<nat, nat>, next: nat)

  const EMPTY_PAGE := Page(map[], map[], map[], map[], map[], map[], map[], 0)

  /** Anything that can happen: a call, a timer that is due (a creation may throw), an event of a source (`None` is
      text that does not parse). Timers may fire in any order and as late as they like. */
  datatype Event =
    | Connect(id: Id, url: Url)
    | Disconnect(id: Id, clearState: bool)
    | RunTick(timer: nat, throws: bool)
    | RunRetry(timer: nat)
    | RunBatch(timer: nat)
    | Opens(source: nat)
    | Receives(source: nat, data: Option<Message>)
    | Fails(source: nat)

  predicate IsOpen(p: Page, x: nat) {
    x in p.sources && p.sources[x].open
  }

  predicate Enabled(p: Page, e: Event) {
    match e
    case Connect(_, _) => true
    case Disconnect(_, _) => true
    case RunTick(t, _) => t in p.ticks
    case RunRetry(t) => t in p.retries
    case RunBatch(t) => t in p.batches
    case Opens(x) => IsOpen(p, x)
    case Receives(x, _) => IsOpen(p, x)
    case Fails(x) => IsOpen(p, x)
  }

  /** Every captured number refers to something. */
  ghost predicate Closure(p: Page) {
    && (forall id | id in p.current :: p.current[id] in p.states)
    && (forall id | id in p.connections :: p.connections[id] in p.sources)
    && (forall x | x in p.sources :: x < p.next && p.sources[x].state in p.states)
    && (forall s | s in p.states :: s < p.next)
    && (forall t | t in p.ticks :: t < p.next && p.ticks[t].state in p.states)
    && (forall t | t in p.retries :: t < p.next)
    && (forall t | t in p.batches :: t < p.next && p.batches[t] in p.states)
  }

  // ---------- What each event does ----------

  function Cleared<T>(timers: map<nat, T>, t: Option<nat>): map<nat, T> {
    if t.Some? then timers - {t.value} else timers
  }

  function Flushed(c: ConnState): ConnState {
    if c.buffer == [] then c else c.(buffer := [], delivered := c.delivered + [c.buffer])
  }

  function Closed(p: Page, id: Id): Page
    requires Closure(p)
  {
    if id !in p.connections then p
    else
      var x := p.connections[id];
      p.(connections := p.connections - {id}, sources := p.sources[x := p.sources[x].(open := false)])
  }

  lemma ClosedKeepsClosure(p: Page, id: Id)
    requires Closure(p)
    ensures Closure(Closed(p, id))
  {
  }

  /** The name's state stops connecting: its timers are cleared and its buffer handed over. */
  function Stopped(p: Page, id: Id, clearState: bool): Page
    requires Closure(p) && id in p.current
  {
    var s := p.current[id];
    var c := p.states[s];
    p.(retries := Cleared(p.retries, c.retryTimeout),
       batches := Cleared(p.batches, c.batchTimeout),
       states := p.states[s := Flushed(c).(connecting := false)],
       current := if clearState then p.current - {id} else p.current)
  }

  function Disconnected(p: Page, id: Id, clearState: bool): Page
    requires Closure(p)
  {
    ClosedKeepsClosure(p, id);
    if id in p.current then Stopped(Closed(p, id), id, clearState) else Closed(p, id)
  }

  /** A fresh state for the name, and the tick that will create its source. */
  function Installed(p: Page, id: Id, url: Url, retryCount: nat): Page {
    p.(states := p.states[p.next := ConnState(url, true, retryCount, None, [], None, [], [])],
       current := p.current[id := p.next],
       ticks := p.ticks[p.next + 1 := Creation(id, p.next)],
       next := p.next + 2)
  }

  function Ticked(p: Page, t: nat, throws: bool): Page
    requires Closure(p) && t in p.ticks
  {
    var a := p.(ticks := p.ticks - {t});
    var c := p.ticks[t];
    if !p.states[c.state].connecting then a
    else if throws then a.(current := p.current - {c.id})
    else a.(sources := p.sources[p.next := Source(c.id, p.states[c.state].url, c.state, true)],
            connections := p.connections[c.id := p.next],
            next := p.next + 1)
  }

  predicate Wanted(p: Page, id: Id) {
    id in p.current && p.current[id] in p.states && p.states[p.current[id]].connecting
  }

  /** The retry looks the name up again: it is the current state that gets the new tick. */
  function Retried(p: Page, t: nat): Page
    requires t in p.retries
  {
    var a := p.(retries := p.retries - {t});
    var id := p.retries[t];
    if Wanted(p, id) then a.(ticks := p.ticks[p.next := Creation(id, p.current[id])], next := p.next + 1) else a
  }

  function Delivered(p: Page, t: nat): Page
    requires Closure(p) && t in p.batches
  {
    var s := p.batches[t];
    p.(batches := p.batches - {t}, states := p.states[s := Flushed(p.states[s]).(batchTimeout := None)])
  }

  function Buffered(p: Page, s: nat, m: Message): Page
    requires s in p.states
  {
    var c := p.states[s];
    p.(states := p.states[s := c.(buffer := c.buffer + [m], received := c.received + [m],
                                   batchTimeout := Some(p.next))],
       batches := Cleared(p.batches, c.batchTimeout)[p.next := s],
       next := p.next + 1)
  }

  /** A new retry for the name, remembered by the state. */
  function Remembered(p: Page, id: Id, s: nat): Page
    requires s in p.states
  {
    var c := p.states[s];
    p.(states := p.states[s := c.(retryCount := c.retryCount + 1, retryTimeout := Some(p.next))],
       retries := p.retries[p.next := id],
       next := p.next + 1)
  }

  function Errored(p: Page, x: nat): Page
    requires Closure(p) && x in p.sources
  {
    var id, s := p.sources[x].id, p.sources[x].state;
    if p.states[s].connecting then Remembered(Closed(p, id), id, s) else p
  }

  function Opened(p: Page, x: nat): Page
    requires Closure(p) && x in p.sources
  {
    var s := p.sources[x].state;
    p.(states := p.states[s := p.states[s].(retryCount := 0)])
  }

  function RetriesSoFar(p: Page, id: Id): nat
    requires Closure(p)
  {
    if id in p.current then p.states[p.current[id]].retryCount else 0
  }

  function Apply(p: Page, e: Event): Page
    requires Closure(p) && Enabled(p, e)
  {
    match e
    case Connect(id, url) => Installed(Disconnected(p, id, false), id, url, RetriesSoFar(p, id))
    case Disconnect(id, clearState) => Disconnected(p, id, clearState)
    case RunTick(t, throws) => Ticked(p, t, throws)
    case RunRetry(t) => Retried(p, t)
    case RunBatch(t) => Delivered(p, t)
    case Opens(x) => Opened(p, x)
    case Receives(x, data) => if data.None? then p else Buffered(p, p.sources[x].state, data.value)
    case Fails(x) => Errored(p, x)
  }

  // ---------- Tokens ----------

  /** What keeps a wanted connection going. A creation for a state that has stopped connecting is not one. */
  datatype Token = Live(source: nat) | Creating(timer: nat) | Retrying(timer: nat)

  ghost predicate IsToken(p: Page, id: Id, k: Token) {
    match k
    case Live(x) => x in p.sources && p.sources[x].open && p.sources[x].id == id
    case Creating(t) => t in p.ticks && p.ticks[t].id == id
          && p.ticks[t].state in p.states && p.states[p.ticks[t].state].connecting
    case Retrying(t) => t in p.retries && p.retries[t] == id
  }

  ghost predicate Alone(p: Page, id: Id, k: Token) {
    forall other :: IsToken(p, id, other) <==> other == k
  }

  /** A wanted name has exactly one token, any other name none. */
  ghost predicate TokenOk(p: Page, id: Id) {
    if Wanted(p, id) then exists k :: Alone(p, id, k) else forall k :: !IsToken(p, id, k)
  }

  ghost predicate TokensOk(p: Page) {
    forall id :: TokenOk(p, id)
  }

  // ---------- The invariant ----------

  /** The open sources are those registered, each under its own name and for the name's current state. */
  ghost predicate SourcesOk(connections: map<Id, nat>, current: map<Id, nat>, sources: map<nat, Source>) {
    && (forall x | x in sources && sources[x].open ::
          && sources[x].id in connections && connections[sources[x].id] == x
          && sources[x].id in current && current[sources[x].id] == sources[x].state)
    && (forall id | id in connections ::
          connections[id] in sources && sources[connections[id]].open && sources[connections[id]].id == id)
  }

  /** A tick whose state is still connecting is for the name's current state; names share no state. */
  ghost predicate TicksOk(current: map<Id, nat>, states: map<nat, ConnState>, ticks: map<nat, Creation>) {
    && (forall t | t in ticks && ticks[t].state in states && states[ticks[t].state].connecting ::
          ticks[t].id in current && current[ticks[t].id] == ticks[t].state)
    && (forall i, j | i in current && j in current && current[i] == current[j] :: i == j)
  }

  /** A pending retry is the one its name's current state remembers; no other state remembers it. */
  ghost predicate RetriesOk(current: map<Id, nat>, states: map<nat, ConnState>, retries: map<nat, Id>, next: nat) {
    && (forall t | t in retries ::
          && retries[t] in current && current[retries[t]] in states && states[current[retries[t]]].connecting
          && states[current[retries[t]]].retryTimeout == Some(t))
    && (forall s, t | s in states && t in retries && states[s].retryTimeout == Some(t) :: current[retries[t]] == s)
    && (forall s | s in states && states[s].retryTimeout.Some? :: states[s].retryTimeout.value < next)
  }

  /** A pending delivery is the one its state remembers; no other state remembers it. */
  ghost predicate BatchTimersOk(states: map<nat, ConnState>, batches: map<nat, nat>, next: nat) {
    && (forall t | t in batches :: batches[t] in states && states[batches[t]].batchTimeout == Some(t))
    && (forall s, t | s in states && t in batches && states[s].batchTimeout == Some(t) :: batches[t] == s)
    && (forall s | s in states && states[s].batchTimeout.Some? :: states[s].batchTimeout.value < next)
  }

  function Flatten(batches: seq<seq<Message>>): seq<Message> {
    if batches == [] then [] else Flatten(batches[..|batches| - 1]) + batches[|batches| - 1]
  }

  /** Delivered batches and the buffer make up what was received; a waiting message has a timer to deliver it. */
  ghost predicate BatchOk(c: ConnState, s: nat, batches: map<nat, nat>) {
    && Flatten(c.delivered) + c.buffer == c.received
    && (forall b | b in c.delivered :: b != [])
    && (c.buffer != [] ==>
          && c.batchTimeout.Some? && c.batchTimeout.value in batches
          && batches[c.batchTimeout.value] == s)
    && (!c.connecting ==> c.buffer == [])
  }

  ghost predicate BatchesOk(states: map<nat, ConnState>, batches: map<nat, nat>) {
    forall s | s in states :: BatchOk(states[s], s, batches)
  }

  ghost predicate Inv(p: Page) {
    && Closure(p)
    && SourcesOk(p.connections, p.current, p.sources)
    && TicksOk(p.current, p.states, p.ticks)
    && RetriesOk(p.current, p.states, p.retries, p.next)
    && BatchTimersOk(p.states, p.batches, p.next)
    && BatchesOk(p.states, p.batches)
    && TokensOk(p)
  }

  // ---------- Disconnecting ----------

  lemma FlattenAppend(batches: seq<seq<Message>>, batch: seq<Message>)
    ensures Flatten(batches + [batch]) == Flatten(batches) + batch
  {
    assert (batches + [batch])[..|batches|] == batches;
  }

  lemma FlushOk(c: ConnState, s: nat, batches: map<nat, nat>, after: map<nat, nat>)
    requires BatchOk(c, s, batches)
    ensures BatchOk(Flushed(c), s, after) && Flushed(c).buffer == []
  {
    FlattenAppend(c.delivered, c.buffer);
  }

  /** Flushing touches neither flags nor timers, and does not depend on them. */
  lemma FlushKeepsRest(c: ConnState)
    ensures Flushed(c.(connecting := false)) == Flushed(c).(connecting := false)
    ensures Flushed(c).retryTimeout == c.retryTimeout && Flushed(c).batchTimeout == c.batchTimeout
    ensures Flushed(c).connecting == c.connecting
  {
  }

  lemma CloseLinks(p: Page, id: Id)
    requires Closure(p) && SourcesOk(p.connections, p.current, p.sources)
    ensures var q := Closed(p, id); SourcesOk(q.connections, q.current, q.sources) && id !in q.connections
  {
  }

  lemma StopLinks(p: Page, id: Id, clearState: bool)
    requires Closure(p) && id in p.current && SourcesOk(p.connections, p.current, p.sources) && id !in p.connections
    ensures var q := Stopped(p, id, clearState);
            Closure(q) && SourcesOk(q.connections, q.current, q.sources)
  {
  }

  lemma StopTicks(p: Page, id: Id, clearState: bool)
    requires Closure(p) && id in p.current && TicksOk(p.current, p.states, p.ticks)
    ensures var q := Stopped(p, id, clearState);
            TicksOk(q.current, q.states, q.ticks)
  {
  }

  lemma RetriesLoseState(current: map<Id, nat>, states: map<nat, ConnState>, retries: map<nat, Id>, next: nat,
                         id: Id, c: ConnState)
    requires RetriesOk(current, states, retries, next)
    requires id in current && current[id] in states && c.retryTimeout == states[current[id]].retryTimeout
    ensures RetriesOk(current, states[current[id] := c], Cleared(retries, c.retryTimeout), next)
    ensures forall t | t in Cleared(retries, c.retryTimeout) :: retries[t] != id
  {
    forall t | t in retries && current[retries[t]] == current[id] ensures c.retryTimeout == Some(t) {
    }
  }

  lemma RetriesLoseName(current: map<Id, nat>, states: map<nat, ConnState>, retries: map<nat, Id>, next: nat, id: Id)
    requires RetriesOk(current, states, retries, next)
    requires forall t | t in retries :: retries[t] != id
    ensures RetriesOk(current - {id}, states, retries, next)
  {
  }

  lemma RetriesLater(current: map<Id, nat>, states: map<nat, ConnState>, retries: map<nat, Id>, next: nat, later: nat)
    requires RetriesOk(current, states, retries, next) && next <= later
    ensures RetriesOk(current, states, retries, later)
  {
  }

  lemma KnownState(p: Page, id: Id)
    requires Closure(p) && id in p.current
    ensures p.current[id] in p.states
  {
  }

  lemma StopRetries(p: Page, id: Id, clearState: bool)
    requires Closure(p) && id in p.current && RetriesOk(p.current, p.states, p.retries, p.next)
    ensures var q := Stopped(p, id, clearState);
            RetriesOk(q.current, q.states, q.retries, q.next)
  {
    hide RetriesOk, Closure;
    KnownState(p, id);
    var q := Stopped(p, id, clearState);
    RetriesLoseState(p.current, p.states, p.retries, p.next, id, q.states[p.current[id]]);
    RetriesLoseName(p.current, q.states, q.retries, p.next, id);
  }

  lemma StopBatchTimers(p: Page, id: Id, clearState: bool)
    requires Closure(p) && id in p.current && BatchTimersOk(p.states, p.batches, p.next)
    ensures var q := Stopped(p, id, clearState);
            BatchTimersOk(q.states, q.batches, q.next)
  {
  }

  lemma StopBatches(p: Page, id: Id, clearState: bool)
    requires Closure(p) && id in p.current
    requires BatchTimersOk(p.states, p.batches, p.next) && BatchesOk(p.states, p.batches)
    ensures var q := Stopped(p, id, clearState);
            BatchesOk(q.states, q.batches)
  {
    FlushOk(p.states[p.current[id]], p.current[id], p.batches, Stopped(p, id, clearState).batches);
  }

  /** What happens to one name leaves the tokens of the others alone. */
  lemma TokensOfOthers(p: Page, q: Page, id: Id)
    requires TokensOk(p) && TokenOk(q, id)
    requires forall i | i != id :: Wanted(q, i) == Wanted(p, i)
    requires forall i, k | i != id :: IsToken(q, i, k) == IsToken(p, i, k)
    ensures TokensOk(q)
  {
    forall i ensures TokenOk(q, i) {
      if i != id {
        assert TokenOk(p, i);
        if Wanted(q, i) {
          var k :| Alone(p, i, k);
          assert Alone(q, i, k);
        }
      }
    }
  }

  lemma TokensStay(p: Page, q: Page)
    requires TokensOk(p)
    requires forall i :: Wanted(q, i) == Wanted(p, i)
    requires forall i, k :: IsToken(q, i, k) == IsToken(p, i, k)
    ensures TokensOk(q)
  {
    forall i ensures TokenOk(q, i) {
      assert TokenOk(p, i);
      if Wanted(q, i) {
        var k :| Alone(p, i, k);
        assert Alone(q, i, k);
      }
    }
  }

  lemma StopTokens(p: Page, id: Id, clearState: bool)
    requires Closure(p) && id in p.current
    requires TicksOk(p.current, p.states, p.ticks) && RetriesOk(p.current, p.states, p.retries, p.next)
    requires id !in p.connections && SourcesOk(p.connections, p.current, p.sources)
    ensures var q := Stopped(p, id, clearState);
            && !Wanted(q, id)
            && (forall k :: !IsToken(q, id, k))
            && (forall i | i != id :: Wanted(q, i) == Wanted(p, i))
            && (forall i, k | i != id :: IsToken(q, i, k) == IsToken(p, i, k))
  {
  }

  lemma CloseTokens(p: Page, id: Id)
    requires Closure(p) && SourcesOk(p.connections, p.current, p.sources)
    ensures var q := Closed(p, id);
            && (forall i :: Wanted(q, i) == Wanted(p, i))
            && (forall i, k | i != id :: IsToken(q, i, k) == IsToken(p, i, k))
            && (forall k :: IsToken(q, id, k) <==> IsToken(p, id, k) && !k.Live?)
  {
  }

  lemma NotWanted(p: Page, id: Id)
    requires id !in p.current
    ensures !Wanted(p, id)
  {
  }

  lemma DisconnectStep(p: Page, id: Id, clearState: bool)
    requires Inv(p)
    ensures var q := Disconnected(p, id, clearState); Inv(q) && !Wanted(q, id)
  {
    hide Closure, SourcesOk, TicksOk, RetriesOk, BatchTimersOk, BatchesOk, IsToken, Wanted, Stopped, Flushed;
    ClosedKeepsClosure(p, id);
    CloseLinks(p, id);
    CloseTokens(p, id);
    var a, q := Closed(p, id), Disconnected(p, id, clearState);
    if id in p.current {
      StopLinks(a, id, clearState);
      StopTicks(a, id, clearState);
      StopRetries(a, id, clearState);
      StopBatchTimers(a, id, clearState);
      StopBatches(a, id, clearState);
      StopTokens(a, id, clearState);
    } else {
      NotWanted(p, id);
      assert TokenOk(p, id);
    }
    TokensOfOthers(p, q, id);
  }

  // ---------- Connecting ----------

  lemma InstallLinks(p: Page, id: Id, url: Url, retryCount: nat)
    requires Closure(p) && SourcesOk(p.connections, p.current, p.sources) && id !in p.connections
    ensures var q := Installed(p, id, url, retryCount); Closure(q) && SourcesOk(q.connections, q.current, q.sources)
  {
  }

  lemma InstallTicks(p: Page, id: Id, url: Url, retryCount: nat)
    requires Closure(p) && TicksOk(p.current, p.states, p.ticks) && forall t :: !IsToken(p, id, Creating(t))
    ensures var q := Installed(p, id, url, retryCount); TicksOk(q.current, q.states, q.ticks)
  {
    assert forall t | t in p.ticks && p.ticks[t].id == id :: !IsToken(p, id, Creating(t));
  }

  lemma InstallRetries(p: Page, id: Id, url: Url, retryCount: nat)
    requires Closure(p) && RetriesOk(p.current, p.states, p.retries, p.next) && forall t :: !IsToken(p, id, Retrying(t))
    ensures var q := Installed(p, id, url, retryCount); RetriesOk(q.current, q.states, q.retries, q.next)
  {
    assert forall t | t in p.retries && p.retries[t] == id :: !IsToken(p, id, Retrying(t));
  }

  lemma InstallBatches(p: Page, id: Id, url: Url, retryCount: nat)
    requires Closure(p) && BatchTimersOk(p.states, p.batches, p.next) && BatchesOk(p.states, p.batches)
    ensures var q := Installed(p, id, url, retryCount);
            BatchTimersOk(q.states, q.batches, q.next) && BatchesOk(q.states, q.batches)
  {
  }

  lemma InstallTokens(p: Page, id: Id, url: Url, retryCount: nat)
    requires Closure(p) && forall k :: !IsToken(p, id, k)
    ensures var q := Installed(p, id, url, retryCount);
            && Wanted(q, id) && Alone(q, id, Creating(p.next + 1))
            && (forall i | i != id :: Wanted(q, i) == Wanted(p, i))
            && (forall i, k | i != id :: IsToken(q, i, k) == IsToken(p, i, k))
  {
    var q := Installed(p, id, url, retryCount);
    forall k ensures IsToken(q, id, k) <==> k == Creating(p.next + 1) {
      assert !IsToken(p, id, k);
    }
  }

  lemma NoConnection(p: Page, id: Id)
    requires SourcesOk(p.connections, p.current, p.sources) && forall x :: !IsToken(p, id, Live(x))
    ensures id !in p.connections
  {
    assert id in p.connections ==> IsToken(p, id, Live(p.connections[id]));
  }

  lemma InstallStep(p: Page, id: Id, url: Url, retryCount: nat)
    requires Inv(p) && !Wanted(p, id)
    ensures var q := Installed(p, id, url, retryCount); Inv(q) && Wanted(q, id)
  {
    hide Closure, SourcesOk, TicksOk, RetriesOk, BatchTimersOk, BatchesOk, IsToken, Wanted, Installed, Alone;
    assert TokenOk(p, id);
    NoConnection(p, id);
    InstallLinks(p, id, url, retryCount);
    InstallTicks(p, id, url, retryCount);
    InstallRetries(p, id, url, retryCount);
    InstallBatches(p, id, url, retryCount);
    InstallTokens(p, id, url, retryCount);
    TokensOfOthers(p, Installed(p, id, url, retryCount), id);
  }

  // ---------- Timers ----------

  lemma TickLinks(p: Page, t: nat, throws: bool)
    requires Closure(p) && SourcesOk(p.connections, p.current, p.sources)
    requires TicksOk(p.current, p.states, p.ticks) && t in p.ticks
    requires p.states[p.ticks[t].state].connecting ==> p.ticks[t].id !in p.connections
    ensures var q := Ticked(p, t, throws); Closure(q) && SourcesOk(q.connections, q.current, q.sources)
  {
  }

  lemma TickTicks(p: Page, t: nat, throws: bool)
    requires Closure(p) && TicksOk(p.current, p.states, p.ticks) && t in p.ticks
    requires forall o | p.states[p.ticks[t].state].connecting && IsToken(p, p.ticks[t].id, Creating(o)) :: o == t
    ensures var q := Ticked(p, t, throws); TicksOk(q.current, q.states, q.ticks)
  {
    var id := p.ticks[t].id;
    assert p.states[p.ticks[t].state].connecting ==>
      forall o | o in p.ticks && o != t && p.ticks[o].id == id :: !IsToken(p, id, Creating(o));
  }

  lemma TickRetries(p: Page, t: nat, throws: bool)
    requires Closure(p) && t in p.ticks && RetriesOk(p.current, p.states, p.retries, p.next)
    requires forall o | p.states[p.ticks[t].state].connecting :: !IsToken(p, p.ticks[t].id, Retrying(o))
    ensures var q := Ticked(p, t, throws); RetriesOk(q.current, q.states, q.retries, q.next)
  {
    hide RetriesOk, Closure;
    var id, q := p.ticks[t].id, Ticked(p, t, throws);
    assert q.states == p.states && q.retries == p.retries && p.next <= q.next;
    RetriesLater(p.current, p.states, p.retries, p.next, q.next);
    if q.current != p.current {
      assert forall o | o in p.retries && p.retries[o] == id :: !IsToken(p, id, Retrying(o));
      RetriesLoseName(p.current, p.states, p.retries, q.next, id);
    }
  }

  lemma TickBatches(p: Page, t: nat, throws: bool)
    requires Closure(p) && BatchTimersOk(p.states, p.batches, p.next) && t in p.ticks
    ensures var q := Ticked(p, t, throws);
            q.states == p.states && q.batches == p.batches && BatchTimersOk(q.states, q.batches, q.next)
  {
  }

  lemma StaleTick(p: Page, t: nat, throws: bool)
    requires Closure(p) && t in p.ticks && !p.states[p.ticks[t].state].connecting
    ensures var q := Ticked(p, t, throws);
            (forall i :: Wanted(q, i) == Wanted(p, i)) && (forall i, k :: IsToken(q, i, k) == IsToken(p, i, k))
  {
  }

  lemma TickTokens(p: Page, t: nat, throws: bool)
    requires Closure(p) && t in p.ticks && p.states[p.ticks[t].state].connecting && Alone(p, p.ticks[t].id, Creating(t))
    requires TicksOk(p.current, p.states, p.ticks)
    ensures var q, id := Ticked(p, t, throws), p.ticks[t].id;
            && Wanted(q, id) == !throws
            && (if throws then forall k :: !IsToken(q, id, k) else Alone(q, id, Live(p.next)))
            && (forall i | i != id :: Wanted(q, i) == Wanted(p, i))
            && (forall i, k | i != id :: IsToken(q, i, k) == IsToken(p, i, k))
  {
    var q, id := Ticked(p, t, throws), p.ticks[t].id;
    forall k ensures IsToken(q, id, k) <==> !throws && k == Live(p.next) {
      assert IsToken(p, id, k) <==> k == Creating(t);
    }
  }

  lemma TickIsAlone(p: Page, t: nat)
    requires Closure(p) && TicksOk(p.current, p.states, p.ticks) && TokensOk(p)
    requires t in p.ticks && p.states[p.ticks[t].state].connecting
    ensures Wanted(p, p.ticks[t].id) && Alone(p, p.ticks[t].id, Creating(t))
  {
    var id := p.ticks[t].id;
    assert TokenOk(p, id) && IsToken(p, id, Creating(t));
    var k :| Alone(p, id, k);
    assert k == Creating(t);
  }

  lemma TickStep(p: Page, t: nat, throws: bool)
    requires Inv(p) && t in p.ticks
    ensures Inv(Ticked(p, t, throws))
  {
    hide SourcesOk, TicksOk, RetriesOk, BatchTimersOk, BatchesOk, TokensOk, IsToken, Wanted, Ticked;
    var id, q := p.ticks[t].id, Ticked(p, t, throws);
    if p.states[p.ticks[t].state].connecting {
      TickIsAlone(p, t);
      NoConnection(p, id);
      TickTokens(p, t, throws);
      TokensOfOthers(p, q, id);
    } else {
      StaleTick(p, t, throws);
      TokensStay(p, q);
    }
    TickLinks(p, t, throws);
    TickTicks(p, t, throws);
    TickRetries(p, t, throws);
    TickBatches(p, t, throws);
  }

  lemma RetryLinks(p: Page, t: nat)
    requires Closure(p) && t in p.retries
    requires SourcesOk(p.connections, p.current, p.sources) && BatchTimersOk(p.states, p.batches, p.next)
    ensures var q := Retried(p, t);
            Closure(q) && SourcesOk(q.connections, q.current, q.sources) && BatchTimersOk(q.states, q.batches, q.next)
  {
  }

  lemma RetryTimers(p: Page, t: nat)
    requires Closure(p) && t in p.retries
    requires TicksOk(p.current, p.states, p.ticks) && RetriesOk(p.current, p.states, p.retries, p.next)
    ensures var q := Retried(p, t);
            TicksOk(q.current, q.states, q.ticks) && RetriesOk(q.current, q.states, q.retries, q.next)
  {
    hide Closure;
  }

  lemma RetryTokens(p: Page, t: nat)
    requires Closure(p) && TokensOk(p) && t in p.retries
    ensures var q, id := Retried(p, t), p.retries[t];
            && Wanted(q, id) && Alone(q, id, Creating(p.next))
            && (forall i | i != id :: Wanted(q, i) == Wanted(p, i))
            && (forall i, k | i != id :: IsToken(q, i, k) == IsToken(p, i, k))
  {
    var q, id := Retried(p, t), p.retries[t];
    assert TokenOk(p, id) && IsToken(p, id, Retrying(t));
    forall k ensures IsToken(q, id, k) <==> k == Creating(p.next) {
      assert IsToken(p, id, k) <==> k == Retrying(t);
    }
  }

  lemma RetryStep(p: Page, t: nat)
    requires Inv(p) && t in p.retries
    ensures Inv(Retried(p, t))
  {
    hide Closure, SourcesOk, TicksOk, RetriesOk, BatchTimersOk, BatchesOk, TokensOk, IsToken, Wanted, Alone;
    RetryLinks(p, t);
    RetryTimers(p, t);
    RetryTokens(p, t);
    TokensOfOthers(p, Retried(p, t), p.retries[t]);
  }

  /** One state changes in its counters or its buffer only, and pending deliveries with it. */
  ghost predicate OnlyState(p: Page, q: Page, s: nat) {
    && s in p.states && s in q.states && p.next <= q.next
    && q.states == p.states[s := q.states[s]]
    && q.states[s].connecting == p.states[s].connecting && q.states[s].retryTimeout == p.states[s].retryTimeout
    && q.current == p.current && q.connections == p.connections && q.sources == p.sources
    && q.ticks == p.ticks && q.retries == p.retries
    && forall t | t in q.batches :: t < q.next && q.batches[t] in q.states
  }

  lemma StateKeepsClosure(p: Page, q: Page, s: nat)
    requires Closure(p) && OnlyState(p, q, s)
    ensures Closure(q)
  {
  }

  lemma StateKeepsTimers(p: Page, q: Page, s: nat)
    requires OnlyState(p, q, s) && TicksOk(p.current, p.states, p.ticks)
    requires RetriesOk(p.current, p.states, p.retries, p.next)
    ensures TicksOk(q.current, q.states, q.ticks) && RetriesOk(q.current, q.states, q.retries, q.next)
  {
  }

  lemma StateKeepsTokens(p: Page, q: Page, s: nat)
    requires OnlyState(p, q, s) && TokensOk(p)
    ensures TokensOk(q)
  {
    assert forall i :: Wanted(q, i) == Wanted(p, i);
    assert forall i, k :: IsToken(q, i, k) == IsToken(p, i, k);
    hide OnlyState, Wanted, IsToken;
    TokensStay(p, q);
  }

  /** Everything but the batching is as it was. */
  lemma StateChanges(p: Page, q: Page, s: nat)
    requires Inv(p) && OnlyState(p, q, s)
    ensures Closure(q) && SourcesOk(q.connections, q.current, q.sources)
    ensures TicksOk(q.current, q.states, q.ticks) && RetriesOk(q.current, q.states, q.retries, q.next)
    ensures TokensOk(q)
  {
    hide Closure, SourcesOk, TicksOk, RetriesOk, TokensOk, BatchesOk, BatchTimersOk;
    StateKeepsClosure(p, q, s);
    StateKeepsTimers(p, q, s);
    StateKeepsTokens(p, q, s);
  }

  lemma DeliverTimers(p: Page, t: nat)
    requires Closure(p) && t in p.batches && BatchTimersOk(p.states, p.batches, p.next)
    ensures var q := Delivered(p, t);
            BatchTimersOk(q.states, q.batches, q.next)
            && forall u | u in q.batches :: u < q.next && q.batches[u] in q.states
  {
    hide Flushed;
    FlushKeepsRest(p.states[p.batches[t]]);
  }

  lemma DeliverBatches(p: Page, t: nat)
    requires Closure(p) && t in p.batches
    requires BatchTimersOk(p.states, p.batches, p.next) && BatchesOk(p.states, p.batches)
    ensures var q := Delivered(p, t); BatchesOk(q.states, q.batches)
  {
    var s, q := p.batches[t], Delivered(p, t);
    FlushOk(p.states[s], s, p.batches, q.batches);
    hide Flushed, Flatten;
    FlushKeepsRest(p.states[s]);
    forall r | r in q.states && r != s ensures BatchOk(q.states[r], r, q.batches) {
      assert BatchOk(p.states[r], r, p.batches);
    }
  }

  lemma DeliverStep(p: Page, t: nat)
    requires Inv(p) && t in p.batches
    ensures Inv(Delivered(p, t))
  {
    hide SourcesOk, TicksOk, RetriesOk, TokensOk, BatchTimersOk, BatchesOk;
    DeliverTimers(p, t);
    DeliverBatches(p, t);
    StateChanges(p, Delivered(p, t), p.batches[t]);
  }

  lemma BufferTimers(p: Page, s: nat, m: Message)
    requires Closure(p) && s in p.states && BatchTimersOk(p.states, p.batches, p.next)
    ensures var q := Buffered(p, s, m);
            BatchTimersOk(q.states, q.batches, q.next)
            && forall t | t in q.batches :: t < q.next && q.batches[t] in q.states
  {
  }

  lemma BufferBatches(p: Page, s: nat, m: Message)
    requires Closure(p) && s in p.states && p.states[s].connecting
    requires BatchTimersOk(p.states, p.batches, p.next) && BatchesOk(p.states, p.batches)
    ensures var q := Buffered(p, s, m); BatchesOk(q.states, q.batches)
  {
    hide Flatten;
    var c, q := p.states[s], Buffered(p, s, m);
    assert Flatten(c.delivered) + (c.buffer + [m]) == Flatten(c.delivered) + c.buffer + [m];
    forall r | r in q.states && r != s ensures BatchOk(q.states[r], r, q.batches) {
      assert BatchOk(p.states[r], r, p.batches);
    }
  }

  lemma BufferStep(p: Page, s: nat, m: Message)
    requires Inv(p) && s in p.states && p.states[s].connecting
    ensures Inv(Buffered(p, s, m))
  {
    hide SourcesOk, TicksOk, RetriesOk, TokensOk, BatchTimersOk, BatchesOk;
    BufferTimers(p, s, m);
    BufferBatches(p, s, m);
    StateChanges(p, Buffered(p, s, m), s);
  }

  lemma OpenBatches(p: Page, x: nat)
    requires Closure(p) && x in p.sources
    requires BatchTimersOk(p.states, p.batches, p.next) && BatchesOk(p.states, p.batches)
    ensures var q := Opened(p, x); BatchTimersOk(q.states, q.batches, q.next) && BatchesOk(q.states, q.batches)
  {
    hide Flatten;
  }

  lemma OpenStep(p: Page, x: nat)
    requires Inv(p) && IsOpen(p, x)
    ensures Inv(Opened(p, x))
  {
    hide SourcesOk, TicksOk, RetriesOk, TokensOk, BatchTimersOk, BatchesOk;
    OpenBatches(p, x);
    StateChanges(p, Opened(p, x), p.sources[x].state);
  }

  // ---------- Errors ----------

  /** The source of an event is its name's only token, and its state is the current one and wants it. */
  lemma OpenIsAlone(p: Page, x: nat)
    requires SourcesOk(p.connections, p.current, p.sources) && TokensOk(p) && IsOpen(p, x)
    ensures var id := p.sources[x].id;
            && id in p.connections && p.connections[id] == x
            && Wanted(p, id) && p.current[id] == p.sources[x].state && Alone(p, id, Live(x))
  {
    var id := p.sources[x].id;
    assert TokenOk(p, id) && IsToken(p, id, Live(x));
    var k :| Alone(p, id, k);
    assert k == Live(x);
  }

  lemma RetriesGain(current: map<Id, nat>, states: map<nat, ConnState>, retries: map<nat, Id>, ticks: map<nat,
                    Creation>,
                    next: nat, id: Id, c: ConnState)
    requires RetriesOk(current, states, retries, next) && TicksOk(current, states, ticks)
    requires id in current && current[id] in states && c.connecting && c.retryTimeout == Some(next)
    requires forall t | t in retries :: retries[t] != id && t < next
    ensures RetriesOk(current, states[current[id] := c], retries[next := id], next + 1)
  {
  }

  lemma RememberRetries(p: Page, id: Id)
    requires Closure(p) && Wanted(p, id) && RetriesOk(p.current, p.states, p.retries, p.next)
    requires TicksOk(p.current, p.states, p.ticks) && forall t :: !IsToken(p, id, Retrying(t))
    ensures var q := Remembered(p, id, p.current[id]); RetriesOk(q.current, q.states, q.retries, q.next)
  {
    hide RetriesOk, TicksOk;
    assert forall t | t in p.retries && p.retries[t] == id :: !IsToken(p, id, Retrying(t));
    RetriesGain(p.current, p.states, p.retries, p.ticks, p.next, id,
                    Remembered(p, id, p.current[id]).states[p.current[id]]);
  }

  lemma RememberTicks(p: Page, id: Id)
    requires Closure(p) && Wanted(p, id) && TicksOk(p.current, p.states, p.ticks)
    ensures var q := Remembered(p, id, p.current[id]); TicksOk(q.current, q.states, q.ticks)
  {
  }

  lemma RememberLinks(p: Page, id: Id)
    requires Closure(p) && Wanted(p, id) && SourcesOk(p.connections, p.current, p.sources)
    ensures var q := Remembered(p, id, p.current[id]); Closure(q) && SourcesOk(q.connections, q.current, q.sources)
  {
  }

  lemma RememberBatches(p: Page, id: Id)
    requires Closure(p) && Wanted(p, id) && BatchTimersOk(p.states, p.batches, p.next) && BatchesOk(p.states, p.batches)
    ensures var q := Remembered(p, id, p.current[id]);
            BatchTimersOk(q.states, q.batches, q.next) && BatchesOk(q.states, q.batches)
  {
    hide Flatten;
  }

  lemma RememberTokens(p: Page, id: Id)
    requires Closure(p) && Wanted(p, id) && forall k :: !IsToken(p, id, k)
    ensures var q := Remembered(p, id, p.current[id]);
            && (forall i :: Wanted(q, i) == Wanted(p, i)) && Alone(q, id, Retrying(p.next))
            && (forall i, k | i != id :: IsToken(q, i, k) == IsToken(p, i, k))
  {
    var q := Remembered(p, id, p.current[id]);
    forall k ensures IsToken(q, id, k) <==> k == Retrying(p.next) {
      assert !IsToken(p, id, k);
    }
  }

  lemma FailStep(p: Page, x: nat)
    requires Inv(p) && IsOpen(p, x)
    ensures Inv(Errored(p, x))
  {
    hide Closure, SourcesOk, TicksOk, RetriesOk, TokensOk, BatchTimersOk, BatchesOk, IsToken;
    OpenIsAlone(p, x);
    var id := p.sources[x].id;
    var a, q := Closed(p, id), Errored(p, x);
    assert q == Remembered(a, id, a.current[id]);
    ClosedKeepsClosure(p, id);
    CloseLinks(p, id);
    CloseTokens(p, id);
    RememberLinks(a, id);
    RememberRetries(a, id);
    RememberTicks(a, id);
    RememberBatches(a, id);
    RememberTokens(a, id);
    TokensOfOthers(p, q, id);
  }

  // ---------- Every run ----------

  lemma StepKeepsInv(p: Page, e: Event)
    requires Inv(p) && Enabled(p, e)
    ensures Inv(Apply(p, e))
  {
    hide SourcesOk, TicksOk, RetriesOk, BatchTimersOk, BatchesOk, TokensOk, Flushed, Closed, Stopped;
    match e
    case Connect(id, url) =>
      DisconnectStep(p, id, false);
      InstallStep(Disconnected(p, id, false), id, url, RetriesSoFar(p, id));
    case Disconnect(id, clearState) => DisconnectStep(p, id, clearState);
    case RunTick(t, throws) => TickStep(p, t, throws);
    case RunRetry(t) => RetryStep(p, t);
    case RunBatch(t) => DeliverStep(p, t);
    case Opens(x) => OpenStep(p, x);
    case Receives(x, data) =>
      OpenIsAlone(p, x);
      if data.Some? {
        BufferStep(p, p.sources[x].state, data.value);
      }
    case Fails(x) => FailStep(p, x);
  }

  ghost predicate Valid(p: Page, run: seq<Event>)
    decreases |run|, 0
  {
    run == [] || (Valid(p, run[..|run| - 1]) && Closure(After(p, run[..|run| - 1]))
                && Enabled(After(p, run[..|run| - 1]), run[|run| - 1]))
  }

  ghost function After(p: Page, run: seq<Event>): Page
    requires Valid(p, run)
    decreases |run|, 1
  {
    if run == [] then p else Apply(After(p, run[..|run| - 1]), run[|run| - 1])
  }

  lemma {:induction false} RunKeepsInv(p: Page, run: seq<Event>)
    requires Inv(p) && Valid(p, run)
    ensures Inv(After(p, run))
  {
    hide Inv;
    if run == [] {
    } else {
      RunKeepsInv(p, run[..|run| - 1]);
      StepKeepsInv(After(p, run[..|run| - 1]), run[|run| - 1]);
    }
  }

  lemma EmptyPageOk()
    ensures Inv(EMPTY_PAGE)
  {
    assert forall id, k :: !IsToken(EMPTY_PAGE, id, k);
  }

  /** After any sequence of calls, timers and source events: a name whose state is connecting has exactly one
      of an open source, a pending creation and a pending retry, and any other name has none. */
  lemma ExactlyOneToken(run: seq<Event>, id: Id)
    requires Valid(EMPTY_PAGE, run)
    ensures var p := After(EMPTY_PAGE, run);
            && (Wanted(p, id) ==> exists k :: IsToken(p, id, k) && forall other | IsToken(p, id, other) :: other == k)
            && (!Wanted(p, id) ==> forall k :: !IsToken(p, id, k))
  {
    EmptyPageOk();
    RunKeepsInv(EMPTY_PAGE, run);
    var p := After(EMPTY_PAGE, run);
    assert TokenOk(p, id);
    if Wanted(p, id) {
      var k :| Alone(p, id, k);
      assert IsToken(p, id, k);
    }
  }

  /** At most one source per name is open, and it is the registered one, working for the current state. */
  lemma OneSourcePerName(run: seq<Event>, x: nat)
    requires Valid(EMPTY_PAGE, run) && IsOpen(After(EMPTY_PAGE, run), x)
    ensures var p := After(EMPTY_PAGE, run);
            var id := p.sources[x].id;
            && Wanted(p, id) && p.current[id] == p.sources[x].state
            && id in p.connections && p.connections[id] == x
            && (forall y | IsOpen(p, y) && p.sources[y].id == id :: y == x)
            && (forall t | t in p.retries :: p.retries[t] != id)
  {
    hide Closure, SourcesOk, TicksOk, RetriesOk, BatchTimersOk, BatchesOk, TokensOk, Wanted;
    EmptyPageOk();
    RunKeepsInv(EMPTY_PAGE, run);
    var p := After(EMPTY_PAGE, run);
    OpenIsAlone(p, x);
    assert forall y | IsOpen(p, y) && p.sources[y].id == p.sources[x].id :: IsToken(p, p.sources[x].id, Live(y));
    assert forall t | t in p.retries && p.retries[t] == p.sources[x].id :: IsToken(p, p.sources[x].id, Retrying(t));
  }

  // ---------- What was heard ----------

  /** What the event brings to a state: the message of a source that works for it. */
  function News(p: Page, e: Event, s: nat): seq<Message> {
    if e.Receives? && e.data.Some? && e.source in p.sources && p.sources[e.source].state == s
    then [e.data.value] else []
  }

  /** All messages that parsed, of all sources that ever worked for the state, in order. */
  ghost function Heard(run: seq<Event>, s: nat): seq<Message>
    requires Valid(EMPTY_PAGE, run)
  {
    if run == [] then []
    else Heard(run[..|run| - 1], s) + News(After(EMPTY_PAGE, run[..|run| - 1]), run[|run| - 1], s)
  }

  lemma ConnectHears(p: Page, id: Id, url: Url, s: nat)
    requires Closure(p)
    ensures var q := Apply(p, Connect(id, url));
            && (s in p.states ==> s in q.states && q.states[s].received == p.states[s].received)
            && (s !in p.states && s in q.states ==> q.states[s].received == [])
  {
    hide Flushed;
    FlushKeepsMessages(p, id);
  }

  lemma FlushKeepsMessages(p: Page, id: Id)
    requires Closure(p)
    ensures id in p.current ==> Flushed(p.states[p.current[id]]).received == p.states[p.current[id]].received
  {
  }

  lemma DisconnectHears(p: Page, id: Id, clearState: bool, s: nat)
    requires Closure(p)
    ensures var q := Apply(p, Disconnect(id, clearState));
            (s in p.states <==> s in q.states) && (s in p.states ==> q.states[s].received == p.states[s].received)
  {
    hide Flushed;
    FlushKeepsMessages(p, id);
  }

  lemma StepHears(p: Page, e: Event, s: nat)
    requires Closure(p) && Enabled(p, e)
    ensures var q := Apply(p, e);
            && (s in p.states ==> s in q.states && q.states[s].received == p.states[s].received + News(p, e, s))
            && (s !in p.states ==> News(p, e, s) == [])
            && (s !in p.states && s in q.states ==> q.states[s].received == [])
  {
    if e.Connect? {
      ConnectHears(p, e.id, e.url, s);
    } else if e.Disconnect? {
      DisconnectHears(p, e.id, e.clearState, s);
    }
  }

  /** A state has received exactly what was heard for it: nothing is lost on the way in. */
  lemma {:induction false} ReceivedIsHeard(run: seq<Event>, s: nat)
    requires Valid(EMPTY_PAGE, run)
    ensures var p := After(EMPTY_PAGE, run);
            if s in p.states then p.states[s].received == Heard(run, s) else Heard(run, s) == []
  {
    hide Enabled, Apply, Closure, News;
    if run == [] {
    } else {
      ReceivedIsHeard(run[..|run| - 1], s);
      StepHears(After(EMPTY_PAGE, run[..|run| - 1]), run[|run| - 1], s);
    }
  }

  /** Batching loses and reorders nothing of what was heard; a message that waits has its timer, and a state that
      stopped keeps none. */
  lemma BatchingIsExact(run: seq<Event>, s: nat)
    requires Valid(EMPTY_PAGE, run) && s in After(EMPTY_PAGE, run).states
    ensures var p := After(EMPTY_PAGE, run);
            var c := p.states[s];
            && Flatten(c.delivered) + c.buffer == Heard(run, s)
            && (forall b | b in c.delivered :: b != [])
            && (c.buffer != [] ==> exists t :: t in p.batches && p.batches[t] == s)
            && (forall t1, t2 | t1 in p.batches && t2 in p.batches && p.batches[t1] == s == p.batches[t2] :: t1 == t2)
            && (!c.connecting ==> c.buffer == [] && Flatten(c.delivered) == Heard(run, s))
  {
    EmptyPageOk();
    RunKeepsInv(EMPTY_PAGE, run);
    ReceivedIsHeard(run, s);
    var p := After(EMPTY_PAGE, run);
    assert BatchOk(p.states[s], s, p.batches);
    assert p.states[s].buffer != [] ==> p.states[s].batchTimeout.value in p.batches;
  }

  /** The timer hands over everything that waits, as one batch. */
  lemma TimerDelivers(p: Page, t: nat)
    requires Closure(p) && t in p.batches
    ensures var c, d := p.states[p.batches[t]], Apply(p, RunBatch(t)).states[p.batches[t]];
            && d.buffer == [] && d.batchTimeout == None && t !in Apply(p, RunBatch(t)).batches
            && d.delivered == if c.buffer == [] then c.delivered else c.delivered + [c.buffer]
  {
  }

  /** A disconnect hands over what waits, at once, and leaves the state neither a delivery nor a retry to come. */
  lemma DisconnectDelivers(p: Page, id: Id, clearState: bool)
    requires Closure(p) && id in p.current
    requires BatchTimersOk(p.states, p.batches, p.next) && RetriesOk(p.current, p.states, p.retries, p.next)
    ensures var q, s := Stopped(p, id, clearState), p.current[id];
            && !q.states[s].connecting && q.states[s].buffer == []
            && q.states[s].delivered
               == (if p.states[s].buffer == [] then p.states[s].delivered
                   else p.states[s].delivered + [p.states[s].buffer])
            && (forall t | t in q.batches :: q.batches[t] != s) && (forall t | t in q.retries :: q.retries[t] != id)
            && (clearState <==> id !in q.current)
  {
  }

  // ---------- Addresses and retry counts ----------

  /** The address of the name's last connect. */
  function LastUrl(run: seq<Event>, id: Id): Option<Url> {
    if run == [] then None
    else
      var e := run[|run| - 1];
      if e.Connect? && e.id == id then Some(e.url) else LastUrl(run[..|run| - 1], id)
  }

  /** The address and the retry count a name currently has. */
  function Settings(p: Page, id: Id): Option<(Url, nat)> {
    if id in p.current && p.current[id] in p.states
    then Some((p.states[p.current[id]].url, p.states[p.current[id]].retryCount))
    else None
  }

  /** Errors since the name's source last opened; forgetting the name starts over. */
  function Tries(p: Page, e: Event, id: Id, tries: nat): nat
    requires Closure(p) && Enabled(p, e)
  {
    match e
    case Opens(x) => if p.sources[x].id == id then 0 else tries
    case Fails(x) => if p.sources[x].id == id then tries + 1 else tries
    case Disconnect(i, clearState) => if i == id && clearState then 0 else tries
    case RunTick(t, throws) =>
      if throws && p.ticks[t].id == id && p.states[p.ticks[t].state].connecting then 0 else tries
    case _ => tries
  }

  ghost function Errors(run: seq<Event>, id: Id): nat
    requires Valid(EMPTY_PAGE, run)
  {
    if run == [] then 0
    else
      Tries(After(EMPTY_PAGE, run[..|run| - 1]), run[|run| - 1], id, Errors(run[..|run| - 1], id))
  }

  lemma StopKeepsClosure(p: Page, id: Id, clearState: bool)
    requires Closure(p) && id in p.current
    ensures Closure(Stopped(p, id, clearState))
  {
  }

  lemma DisconnectKeepsClosure(p: Page, id: Id, clearState: bool)
    requires Closure(p)
    ensures Closure(Disconnected(p, id, clearState))
  {
    ClosedKeepsClosure(p, id);
    if id in p.current {
      StopKeepsClosure(Closed(p, id), id, clearState);
    }
  }

  lemma StopKeepsSettings(p: Page, i: Id, clearState: bool, id: Id)
    requires Closure(p) && i in p.current && TicksOk(p.current, p.states, p.ticks)
    ensures Settings(Stopped(p, i, clearState), id) == if i == id && clearState then None else Settings(p, id)
  {
  }

  lemma DisconnectKeepsSettings(p: Page, i: Id, clearState: bool, id: Id)
    requires Closure(p) && TicksOk(p.current, p.states, p.ticks)
    ensures Settings(Disconnected(p, i, clearState), id) == if i == id && clearState then None else Settings(p, id)
  {
    hide Closure, TicksOk, Stopped;
    ClosedKeepsClosure(p, i);
    if i in p.current {
      StopKeepsSettings(Closed(p, i), i, clearState, id);
    }
  }

  lemma ConnectSets(p: Page, i: Id, url: Url, id: Id)
    requires Closure(p) && TicksOk(p.current, p.states, p.ticks)
    ensures Settings(Apply(p, Connect(i, url)), id)
         == if i != id then Settings(p, id)
            else Some((url, if Settings(p, id).Some? then Settings(p, id).value.1 else 0))
  {
    DisconnectKeepsSettings(p, i, false, id);
    DisconnectKeepsClosure(p, i, false);
    hide Disconnected;
  }

  lemma SourceKeepsSettings(p: Page, e: Event, id: Id)
    requires Closure(p) && Enabled(p, e) && (e.Opens? || e.Fails?)
    requires var x := p.sources[e.source];
             && x.id in p.current && p.current[x.id] == x.state && p.states[x.state].connecting
             && forall i | i in p.current && p.current[i] == x.state :: i == x.id
    ensures Settings(Apply(p, e), id) == if p.sources[e.source].id != id then Settings(p, id)
              else Some((p.states[p.current[id]].url, if e.Opens? then 0 else p.states[p.current[id]].retryCount + 1))
  {
  }

  lemma TimerKeepsSettings(p: Page, e: Event, id: Id)
    requires Closure(p) && Enabled(p, e) && (e.RunTick? || e.RunRetry? || e.RunBatch? || e.Receives?)
    ensures Settings(Apply(p, e), id)
         == if e.RunTick? && e.throws && p.ticks[e.timer].id == id && p.states[p.ticks[e.timer].state].connecting
            then None else Settings(p, id)
  {
  }

  /** Every step does to a name's address and retry count what was said. */
  lemma StepKeepsSettings(p: Page, e: Event, id: Id)
    requires Closure(p) && Enabled(p, e)
    requires Inv(p)
    ensures var before, after := Settings(p, id), Settings(Apply(p, e), id);
            && (after.Some? ==>
                  && (if e.Connect? && e.id == id then after.value.0 == e.url
                      else before.Some? && after.value.0 == before.value.0)
                  && after.value.1 == Tries(p, e, id, if before.Some? then before.value.1 else 0))
            && (after.None? ==> before.None? || Tries(p, e, id, before.value.1) == 0)
            && (before.None? && after.None? ==> Tries(p, e, id, 0) == 0)
  {
    hide Closure, SourcesOk, TicksOk, RetriesOk, BatchTimersOk, BatchesOk, TokensOk, IsToken;
    match e
    case Connect(i, url) => ConnectSets(p, i, url, id);
    case Disconnect(i, clearState) => DisconnectKeepsSettings(p, i, clearState, id);
    case Opens(x) =>
      OpenIsAlone(p, x);
      StatesNotShared(p);
      SourceKeepsSettings(p, e, id);
    case Fails(x) =>
      OpenIsAlone(p, x);
      StatesNotShared(p);
      SourceKeepsSettings(p, e, id);
    case _ => TimerKeepsSettings(p, e, id);
  }

  lemma StatesNotShared(p: Page)
    requires TicksOk(p.current, p.states, p.ticks)
    ensures forall i, j | i in p.current && j in p.current && p.current[i] == p.current[j] :: i == j
  {
  }

  /** A name's state has the address of the last connect, and counts the errors since its source last opened. */
  lemma {:induction false} SettingsAreLatest(run: seq<Event>, id: Id)
    requires Valid(EMPTY_PAGE, run)
    ensures match Settings(After(EMPTY_PAGE, run), id)
            case Some((url, retryCount)) => LastUrl(run, id) == Some(url) && retryCount == Errors(run, id)
            case None => Errors(run, id) == 0
  {
    hide Enabled, Apply, Settings, Tries, Inv, Closure;
    if run == [] {
      NoSettings(id);
    } else {
      var front := run[..|run| - 1];
      SettingsAreLatest(front, id);
      EmptyPageOk();
      RunKeepsInv(EMPTY_PAGE, front);
      StepKeepsSettings(After(EMPTY_PAGE, front), run[|run| - 1], id);
    }
  }

  /** A source is opened at the address its state has. */
  ghost predicate UrlsOk(p: Page) {
    forall x | x in p.sources :: p.sources[x].state in p.states && p.sources[x].url == p.states[p.sources[x].state].url
  }

  lemma StopKeepsUrls(p: Page, id: Id, clearState: bool)
    requires Closure(p) && UrlsOk(p) && id in p.current
    ensures UrlsOk(Stopped(p, id, clearState))
  {
  }

  lemma CloseKeepsUrls(p: Page, id: Id)
    requires Closure(p) && UrlsOk(p)
    ensures UrlsOk(Closed(p, id))
  {
  }

  lemma DisconnectKeepsUrls(p: Page, id: Id, clearState: bool)
    requires Closure(p) && UrlsOk(p)
    ensures UrlsOk(Disconnected(p, id, clearState))
  {
    hide UrlsOk, Stopped;
    ClosedKeepsClosure(p, id);
    CloseKeepsUrls(p, id);
    if id in p.current {
      StopKeepsUrls(Closed(p, id), id, clearState);
    }
  }

  lemma FlushKeepsUrl(c: ConnState)
    ensures Flushed(c).url == c.url
  {
  }

  lemma SourceEventKeepsUrls(p: Page, e: Event)
    requires Closure(p) && Enabled(p, e) && UrlsOk(p) && (e.Opens? || e.Receives?)
    ensures UrlsOk(Apply(p, e))
  {
  }

  lemma TickKeepsUrls(p: Page, t: nat, throws: bool)
    requires Closure(p) && Enabled(p, RunTick(t, throws)) && UrlsOk(p)
    ensures UrlsOk(Apply(p, RunTick(t, throws)))
  {
  }

  lemma TimerKeepsUrls(p: Page, e: Event)
    requires Closure(p) && Enabled(p, e) && UrlsOk(p) && (e.RunRetry? || e.RunBatch?)
    ensures UrlsOk(Apply(p, e))
  {
    hide Flushed;
    if e.RunBatch? {
      FlushKeepsUrl(p.states[p.batches[e.timer]]);
    }
  }

  lemma StepKeepsUrls(p: Page, e: Event)
    requires Closure(p) && Enabled(p, e) && UrlsOk(p)
    ensures UrlsOk(Apply(p, e))
  {
    hide Disconnected, Closed;
    match e
    case Connect(id, _) =>
      DisconnectKeepsUrls(p, id, false);
      DisconnectKeepsClosure(p, id, false);
    case Disconnect(id, clearState) => DisconnectKeepsUrls(p, id, clearState);
    case Fails(x) =>
      CloseKeepsUrls(p, p.sources[x].id);
      ClosedKeepsClosure(p, p.sources[x].id);
    case RunTick(t, throws) => TickKeepsUrls(p, t, throws);
    case RunRetry(_) => TimerKeepsUrls(p, e);
    case RunBatch(_) => TimerKeepsUrls(p, e);
    case _ => SourceEventKeepsUrls(p, e);
  }

  lemma {:induction false} ReachableUrls(run: seq<Event>)
    requires Valid(EMPTY_PAGE, run)
    ensures UrlsOk(After(EMPTY_PAGE, run))
  {
    hide Enabled, Apply, Closure;
    if run == [] {
    } else {
      ReachableUrls(run[..|run| - 1]);
      StepKeepsUrls(After(EMPTY_PAGE, run[..|run| - 1]), run[|run| - 1]);
    }
  }

  /** An open source listens at the address its name was last connected to. */
  lemma SourceHasLastUrl(run: seq<Event>, x: nat)
    requires Valid(EMPTY_PAGE, run) && IsOpen(After(EMPTY_PAGE, run), x)
    ensures var source := After(EMPTY_PAGE, run).sources[x]; LastUrl(run, source.id) == Some(source.url)
  {
    OneSourcePerName(run, x);
    ReachableUrls(run);
    SettingsAreLatest(run, After(EMPTY_PAGE, run).sources[x].id);
  }

  lemma NoSettings(id: Id)
    ensures Settings(EMPTY_PAGE, id) == None
  {
  }

  lemma DisconnectLeavesOthers(p: Page, id: Id, clearState: bool, other: Id)
    requires Inv(p) && other != id
    ensures Wanted(Disconnected(p, id, clearState), other) == Wanted(p, other)
  {
    CloseTokens(p, id);
  }

  lemma SourcesKeepWanted(p: Page, e: Event, id: Id)
    requires Closure(p) && Enabled(p, e) && (e.RunBatch? || e.Opens? || e.Receives? || e.Fails?)
    ensures Wanted(Apply(p, e), id) == Wanted(p, id)
  {
  }

  /** Exactly a connect makes a name wanted, and exactly a disconnect or a failed creation ends it: errors do not. */
  lemma WantedChanges(p: Page, e: Event, id: Id)
    requires Inv(p) && Enabled(p, e)
    ensures Wanted(Apply(p, e), id) <==>
              || (e.Connect? && e.id == id)
              || (&& Wanted(p, id)
                  && !(e.Disconnect? && e.id == id)
                  && !(e.RunTick? && e.throws && IsToken(p, id, Creating(e.timer))))
  {
    hide SourcesOk, TicksOk, RetriesOk, BatchTimersOk, BatchesOk, TokensOk;
    match e
    case Connect(i, url) =>
      DisconnectStep(p, i, false);
      if i != id {
        DisconnectLeavesOthers(p, i, false, id);
      }
    case Disconnect(i, clearState) =>
      DisconnectStep(p, i, clearState);
      if i != id {
        DisconnectLeavesOthers(p, i, clearState, id);
      }
    case RunTick(t, throws) =>
      if p.states[p.ticks[t].state].connecting {
        TickIsAlone(p, t);
        TickTokens(p, t, throws);
      } else {
        StaleTick(p, t, throws);
      }
    case RunRetry(t) =>
      RetryTokens(p, t);
      assert IsToken(p, p.retries[t], Retrying(t));
    case _ => SourcesKeepWanted(p, e, id);
  }

  ghost predicate NoConnect(run: seq<Event>, id: Id) {
    forall i | 0 <= i < |run| && run[i].Connect? :: run[i].id != id
  }

  /** A name that is not wanted stays so until the next connect: no leftover timer opens a source for it. */
  lemma {:induction false} StaysDisconnected(p: Page, run: seq<Event>, id: Id)
    requires Inv(p) && !Wanted(p, id) && Valid(p, run) && NoConnect(run, id)
    ensures !Wanted(After(p, run), id)
    ensures forall x | IsOpen(After(p, run), x) :: After(p, run).sources[x].id != id
  {
    if run == [] {
    } else {
      StaysDisconnected(p, run[..|run| - 1], id);
      RunKeepsInv(p, run[..|run| - 1]);
      WantedChanges(After(p, run[..|run| - 1]), run[|run| - 1], id);
    }
    RunKeepsInv(p, run);
    var q := After(p, run);
    assert TokenOk(q, id);
    forall x | IsOpen(q, x) ensures q.sources[x].id != id {
      assert !IsToken(q, id, Live(x));
    }
  }

  lemma Extend(p: Page, run: seq<Event>, e: Event)
    requires Inv(p) && Valid(p, run) && Closure(After(p, run)) && Enabled(After(p, run), e)
    ensures Valid(p, run + [e]) && After(p, run + [e]) == Apply(After(p, run), e)
  {
    assert (run + [e])[..|run|] == run;
  }

  lemma TickOpens(p: Page, id: Id, t: nat)
    requires Inv(p) && IsToken(p, id, Creating(t))
    ensures var q := Apply(p, RunTick(t, false)); id in q.connections && IsOpen(q, q.connections[id])
  {
  }

  lemma WantedHasToken(p: Page, id: Id)
    requires TokensOk(p)
    ensures TokenOk(p, id)
  {
  }

  /** A wanted name is never stuck: at most its retry and its creation stand between it and an open source. */
  lemma CanReconnect(p: Page, id: Id) returns (run: seq<Event>)
    requires Inv(p) && Wanted(p, id)
    ensures |run| <= 2 && Valid(p, run)
    ensures id in After(p, run).connections && IsOpen(After(p, run), After(p, run).connections[id])
  {
    hide TokensOk, TicksOk, RetriesOk, BatchTimersOk, BatchesOk;
    run := [];
    assert TokenOk(p, id) by {
      WantedHasToken(p, id);
    }
    var k :| Alone(p, id, k);
    assert IsToken(p, id, k);
    match k
    case Live(_) =>
    case Creating(t) =>
      run := [] + [RunTick(t, false)];
      Extend(p, [], RunTick(t, false));
      TickOpens(p, id, t);
    case Retrying(t) =>
      Extend(p, [], RunRetry(t));
      run := [] + [RunRetry(t)];
      RunKeepsInv(p, run);
      RetryTokens(p, t);
      var q := After(p, run);
      assert IsToken(q, id, Creating(p.next));
      Extend(p, run, RunTick(p.next, false));
      TickOpens(q, id, p.next);
      run := run + [RunTick(p.next, false)];
  }

  // ---------- The manager ----------

  /** Clearing the retry before disconnecting changes nothing: disconnecting clears it anyway. */
  lemma DisconnectClearsRetry(p: Page, id: Id)
    requires Closure(p) && id in p.current
    ensures var a := p.(retries := Cleared(p.retries, p.states[p.current[id]].retryTimeout));
            Closure(a) && Disconnected(a, id, false) == Disconnected(p, id, false)
  {
    hide Flushed;
  }

  lemma ReceivesBuffers(p: Page, x: nat, data: Option<Message>)
    requires Closure(p) && IsOpen(p, x)
    ensures p.sources[x].state in p.states
    ensures Apply(p, Receives(x, data)) == if data.None? then p else Buffered(p, p.sources[x].state, data.value)
  {
    hide Flushed;
  }

  lemma ConnectInstalls(p: Page, id: Id, url: Url)
    requires Closure(p)
    ensures Apply(p, Event.Connect(id, url)) == Installed(Disconnected(p, id, false), id, url, RetriesSoFar(p, id))
  {
    hide Flushed;
  }

  lemma InvHasClosure(p: Page)
    requires Inv(p)
    ensures Closure(p)
  {
    hide Flushed;
  }

  /** `connections` and `connectionStates` are the manager's maps; the other fields are the page's objects and
      pending timers they refer to. */
  class SSEConnectionManager {
    var connections: map<Id, nat>
    var connectionStates: map<Id, nat>
    var states: map<nat, ConnState>
    var sources: map<nat, Source>
    var ticks: map<nat, Creation>
    var retries: map<nat, Id>
    var batches: map<nat, nat>
    var next: nat

    function View(): Page
      reads this
    {
      Page(connections, connectionStates, states, sources, ticks, retries, batches, next)
    }

    ghost predicate Valid()
      reads this
    {
      Inv(View())
    }

    constructor ()
      ensures Valid() && View() == EMPTY_PAGE
    {
      connections, connectionStates, states, sources := map[], map[], map[], map[];
      ticks, retries, batches, next := map[], map[], map[], 0;
      new;
      EmptyPageOk();
    }

    method Connect(id: Id, url: Url)
      requires Valid()
      modifies this
      ensures Valid() && View() == Apply(old(View()), Event.Connect(id, url))
    {
      hide Inv, Closure, Disconnected, Installed, Apply;
      ghost var before := View();
      InvHasClosure(before);
      StepKeepsInv(before, Event.Connect(id, url));
      ConnectInstalls(before, id, url);
      DisconnectStep(before, id, false);
      InvHasClosure(Disconnected(before, id, false));
      var retryCount := 0;
      if id in connectionStates {
        KnownState(before, id);
        var existing := states[connectionStates[id]];
        retryCount := existing.retryCount;
        if existing.retryTimeout.Some? {
          retries := retries - {existing.retryTimeout.value};
          DisconnectClearsRetry(before, id);
        }
      }
      Disconnect(id, false);
      Install(id, url, retryCount);
    }

    method Install(id: Id, url: Url, retryCount: nat)
      modifies this
      ensures View() == Installed(old(View()), id, url, retryCount)
    {
      states := states[next := ConnState(url, true, retryCount, None, [], None, [], [])];
      connectionStates := connectionStates[id := next];
      next := next + 1;
      CreateConnection(id);
    }

    /** Schedules the creation for whatever state the name has now, if that state is still connecting. */
    method CreateConnection(id: Id)
      requires id in connectionStates ==> connectionStates[id] in states
      modifies this`ticks, this`next
      ensures if old(Wanted(View(), id))
              then next == old(next) + 1 && ticks == old(ticks)[old(next) := Creation(id, connectionStates[id])]
              else next == old(next) && ticks == old(ticks)
    {
      if id !in connectionStates || !states[connectionStates[id]].connecting {
        return;
      }
      ticks := ticks[next := Creation(id, connectionStates[id])];
      next := next + 1;
    }

    /** Detaches and closes the registered source. */
    method CloseSource(id: Id)
      requires Closure(View())
      modifies this`connections, this`sources
      ensures View() == Closed(old(View()), id)
    {
      if id in connections {
        var x := connections[id];
        sources := sources[x := sources[x].(open := false)];
        connections := connections - {id};
      }
    }

    method StopState(id: Id, clearState: bool)
      requires Closure(View())
      modifies this`connectionStates, this`states, this`retries, this`batches
      ensures View() == if id in old(connectionStates) then Stopped(old(View()), id, clearState) else old(View())
    {
      hide Closure, Flushed;
      if id in connectionStates {
        KnownState(View(), id);
        var s := connectionStates[id];
        var c := states[s];
        FlushKeepsRest(c);
        states := states[s := c.(connecting := false)];
        if c.retryTimeout.Some? {
          retries := retries - {c.retryTimeout.value};
        }
        if c.batchTimeout.Some? {
          batches := batches - {c.batchTimeout.value};
        }
        Flush(s);
        assert states == old(states)[s := Flushed(c).(connecting := false)];
        if clearState {
          connectionStates := connectionStates - {id};
        }
      }
    }

    /** Hands a non-empty buffer to the message handler. */
    method Flush(s: nat)
      requires s in states
      modifies this`states
      ensures states == old(states)[s := Flushed(old(states)[s])]
    {
      if |states[s].buffer| > 0 {
        states := states[s := states[s].(delivered := states[s].delivered + [states[s].buffer], buffer := [])];
      }
    }

    method Disconnect(id: Id, clearState: bool)
      requires Closure(View())
      modifies this
      ensures View() == Disconnected(old(View()), id, clearState)
      ensures Closure(View()) && (old(Valid()) ==> Valid())
    {
      hide SourcesOk, TicksOk, RetriesOk, BatchTimersOk, BatchesOk, TokensOk, Stopped;
      ghost var before := View();
      if Valid() {
        DisconnectStep(before, id, clearState);
      }
      ClosedKeepsClosure(before, id);
      DisconnectKeepsClosure(before, id, clearState);
      CloseSource(id);
      StopState(id, clearState);
    }

    method OnTick(t: nat, throws: bool)
      requires Valid() && t in ticks
      modifies this
      ensures Valid() && View() == Apply(old(View()), RunTick(t, throws))
    {
      hide SourcesOk, TicksOk, RetriesOk, BatchTimersOk, BatchesOk, TokensOk;
      StepKeepsInv(View(), RunTick(t, throws));
      var c := ticks[t];
      ticks := ticks - {t};
      if !states[c.state].connecting {
        return;
      }
      if throws {
        connectionStates := connectionStates - {c.id};
        return;
      }
      sources := sources[next := Source(c.id, states[c.state].url, c.state, true)];
      connections := connections[c.id := next];
      next := next + 1;
    }

    method OnRetryTimeout(t: nat)
      requires Valid() && t in retries
      modifies this
      ensures Valid() && View() == Apply(old(View()), RunRetry(t))
    {
      hide SourcesOk, TicksOk, RetriesOk, BatchTimersOk, BatchesOk, TokensOk;
      StepKeepsInv(View(), RunRetry(t));
      var id := retries[t];
      retries := retries - {t};
      CreateConnection(id);
    }

    method OnBatchTimeout(t: nat)
      requires Valid() && t in batches
      modifies this
      ensures Valid() && View() == Apply(old(View()), RunBatch(t))
    {
      hide SourcesOk, TicksOk, RetriesOk, BatchTimersOk, BatchesOk, TokensOk;
      ghost var before := View();
      StepKeepsInv(before, RunBatch(t));
      var s := batches[t];
      batches := batches - {t};
      Flush(s);
      states := states[s := states[s].(batchTimeout := None)];
      assert states == before.states[s := states[s]];
      assert View() == Delivered(before, t);
    }

    method OnOpen(x: nat)
      requires Valid() && IsOpen(View(), x)
      modifies this
      ensures Valid() && View() == Apply(old(View()), Opens(x))
    {
      hide SourcesOk, TicksOk, RetriesOk, BatchTimersOk, BatchesOk, TokensOk;
      StepKeepsInv(View(), Opens(x));
      var s := sources[x].state;
      states := states[s := states[s].(retryCount := 0)];
    }

    method OnMessage(x: nat, data: Option<Message>)
      requires Valid() && IsOpen(View(), x)
      modifies this
      ensures Valid() && View() == Apply(old(View()), Receives(x, data))
    {
      hide Inv, Closure, Apply, Buffered;
      InvHasClosure(View());
      ReceivesBuffers(View(), x, data);
      StepKeepsInv(View(), Receives(x, data));
      if data.Some? {
        Push(sources[x].state, data.value);
      }
    }

    /** Appends to the buffer and restarts the state's batch timer. */
    method Push(s: nat, m: Message)
      requires s in states
      modifies this`states, this`batches, this`next
      ensures View() == Buffered(old(View()), s, m)
    {
      ghost var before := states;
      var c := states[s];
      states := states[s := c.(buffer := c.buffer + [m], received := c.received + [m])];
      if c.batchTimeout.Some? {
        batches := batches - {c.batchTimeout.value};
      }
      batches := batches[next := s];
      states := states[s := states[s].(batchTimeout := Some(next))];
      next := next + 1;
      assert states == before[s := states[s]];
    }

    method OnError(x: nat)
      requires Valid() && IsOpen(View(), x)
      modifies this
      ensures Valid() && View() == Apply(old(View()), Fails(x))
    {
      hide SourcesOk, TicksOk, RetriesOk, BatchTimersOk, BatchesOk, TokensOk;
      ghost var before := View();
      StepKeepsInv(before, Fails(x));
      var id, s := sources[x].id, sources[x].state;
      if !states[s].connecting {
        return;
      }
      CloseSource(id);
      states := states[s := states[s].(retryCount := states[s].retryCount + 1)];
      retries := retries[next := id];
      states := states[s := states[s].(retryTimeout := Some(next))];
      next := next + 1;
      assert states == before.states[s := states[s]];
      assert View() == Errored(before, x);
    }
  }
}
