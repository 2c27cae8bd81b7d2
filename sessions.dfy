/**
 * A telemetry session and its exporter.
 *
 * The session's bookkeeping is specified by pure transitions on `SessionState`
 * (`StartStep`, `RecordStep`, `EndStep`); the `Session` class updates its fields in place
 * and each of its methods is proved to perform exactly one of those transitions. The spans
 * a session hands to its span processor are kept in the ghost field `Emitted`.
 */
module Sessions {
  import opened Wrappers
  import opened Config
  import Events

  datatype EndState = Success | Fail | Indeterminate

  /** The event kinds a session counts; any other kind is recorded but not counted. */
  const CounterKeys: set<string> := {"llms", "tools", "actions", "errors", "apis"}

  const InitialCounts: map<string, int> :=
    map["llms" := 0, "tools" := 0, "actions" := 0, "errors" := 0, "apis" := 0]

  /** The counter keys are exactly the wire names of the event kinds, and all start at zero. */
  lemma CounterKeysAreEventTypes()
    ensures InitialCounts.Keys == CounterKeys
    ensures forall k :: k in InitialCounts ==> InitialCounts[k] == 0
    ensures CounterKeys == set t | t in Events.AllEventTypes :: Events.TypeName(t)
  {
    var names := set t | t in Events.AllEventTypes :: Events.TypeName(t);
    assert Events.TypeName(Events.LLM) in names;
    assert Events.TypeName(Events.Action) in names;
    assert Events.TypeName(Events.Api) in names;
    assert Events.TypeName(Events.Tool) in names;
    assert Events.TypeName(Events.Error) in names;
  }

  /** The summed lengths of `parts`. */
  function TotalLength(parts: seq<string>): nat {
    if parts == [] then 0 else |parts[0]| + TotalLength(parts[1..])
  }

  /**
   * `a.join(sep)` on an array of strings: the parts in order with one separator between
   * neighbours, so it starts with the first part, ends with the last, and is as long as the
   * parts plus one separator per gap.
   */
  function Join(parts: seq<string>, sep: string): (r: string)
    ensures parts == [] ==> r == ""
    ensures parts != [] ==> |r| == TotalLength(parts) + (|parts| - 1) * |sep|
    ensures parts != [] ==> r[..|parts[0]|] == parts[0]
    ensures parts != [] ==> |parts[|parts| - 1]| <= |r| &&
                            r[|r| - |parts[|parts| - 1]|..] == parts[|parts| - 1]
  {
    if |parts| == 0 then ""
    else if |parts| == 1 then parts[0]
    else
      var rest := Join(parts[1..], sep);
      var r := parts[0] + sep + rest;
      assert r[|r| - |rest|..] == rest;
      r
  }

  /** A finished span as `recordEvent` builds it: its name and its attributes. */
  datatype Span = Span(
    name: string,
    eventId: string,
    eventType: string,
    timestamp: int,
    endTimestamp: int,
    data: string,
    sessionId: string,
    sessionTags: string)

  /** The arguments of one `recordEvent` call, with the id and the two clock readings it draws. */
  datatype Call = Call(eventType: string, data: string, eventId: string, startMs: int, endMs: int)

  /** The result of the registration round trip: a response, or an error thrown on the way. */
  datatype Registration = Responded(ok: bool, jwt: Option<string>) | Threw

  /** Registration succeeds only on an ok response carrying a non-empty credential. */
  predicate Registered(reg: Registration)
    ensures Registered(reg) ==> reg.Responded? && reg.ok && reg.jwt.Some? && |reg.jwt.value| > 0
    ensures reg.Threw? || !reg.ok || reg.jwt == None || reg.jwt == Some("") ==> !Registered(reg)
  {
    reg.Responded? && reg.ok && Truthy(reg.jwt)
  }

  // ---------------------------------------------------------------------------------------
  // Batch parameters

  datatype BatchOptions = BatchOptions(scheduledDelayMillis: int, maxExportBatchSize: int)

  const FallbackDelayMillis: int := 5000
  const FallbackBatchSize: int := 50

  /** `configured || fallback` on a number: a missing or zero setting takes the fallback. */
  function OrDefault(configured: Option<int>, fallback: int): (r: int)
    requires fallback != 0
    ensures r != 0
    ensures configured.Some? && configured.value != 0 ==> r == configured.value
    ensures configured.None? || configured.value == 0 ==> r == fallback
  {
    if configured.Some? && configured.value != 0 then configured.value else fallback
  }

  /** The batch processor's options, from the configured delay and batch size. */
  function BatchOptionsFor(maxWaitTime: Option<int>, maxQueueSize: Option<int>): (o: BatchOptions)
    ensures o.scheduledDelayMillis != 0 && o.maxExportBatchSize != 0
    ensures o.scheduledDelayMillis == OrDefault(maxWaitTime, FallbackDelayMillis)
    ensures o.maxExportBatchSize == OrDefault(maxQueueSize, FallbackBatchSize)
  {
    BatchOptions(OrDefault(maxWaitTime, FallbackDelayMillis),
                 OrDefault(maxQueueSize, FallbackBatchSize))
  }

  /** The options a session with configuration `c` (possibly none) hands to its processor. */
  function OptionsOf(c: Configuration?): BatchOptions
    reads c
  {
    if c == null then BatchOptionsFor(None, None)
    else BatchOptionsFor(Some(c.maxWaitTime), Some(c.maxQueueSize))
  }

  /**
   * Applying the defaults twice changes nothing, and with the configuration's own defaults
   * (5000 ms, 512) neither fallback is used.
   */
  lemma BatchDefaultsStable(maxWaitTime: Option<int>, maxQueueSize: Option<int>)
    ensures var o := BatchOptionsFor(maxWaitTime, maxQueueSize);
            BatchOptionsFor(Some(o.scheduledDelayMillis), Some(o.maxExportBatchSize)) == o
    ensures BatchOptionsFor(Some(DefaultMaxWaitTime), Some(DefaultMaxQueueSize))
            == BatchOptions(5000, 512)
    ensures BatchOptionsFor(None, None) == BatchOptionsFor(Some(0), Some(0)) == BatchOptions(5000, 50)
  {
  }

  // ---------------------------------------------------------------------------------------
  // The session's state and its transitions

  /** The tracer a running session has: its name and its processor's options. */
  datatype Tracer = Tracer(name: string, options: BatchOptions)

  datatype SessionState = SessionState(
    id: string,
    tags: seq<string>,
    jwt: Option<string>,
    isRunning: bool,
    tracer: Option<Tracer>,
    eventCounts: map<string, int>,
    endState: EndState,
    endStateReason: Option<string>,
    endTimestamp: Option<string>,
    initTimestamp: Option<string>,
    emitted: seq<Span>)

  /** A session as constructed. */
  const NewSession: SessionState :=
    SessionState("", [], None, false, None, InitialCounts, Indeterminate, None, None, None, [])

  /** Number of spans named `k`. */
  function CountKind(spans: seq<Span>, k: string): nat {
    if spans == [] then 0 else (if spans[0].name == k then 1 else 0) + CountKind(spans[1..], k)
  }

  /** Number of calls of kind `k`. */
  function CountCalls(calls: seq<Call>, k: string): nat {
    if calls == [] then 0 else (if calls[0].eventType == k then 1 else 0) + CountCalls(calls[1..], k)
  }

  /**
   * The counter invariant: the counters are the five known keys, and each one holds the
   * number of spans of its kind the session has emitted.
   */
  predicate Tallied(s: SessionState) {
    s.eventCounts.Keys == CounterKeys &&
    forall k :: k in s.eventCounts ==> s.eventCounts[k] == CountKind(s.emitted, k)
  }

  /** `recordEvent` does something only while running and after the tracer has been set up. */
  predicate Accepting(s: SessionState) {
    s.isRunning && s.tracer.Some?
  }

  /** The span `recordEvent` emits for call `c` in a session with the given id and tags. */
  function SpanFor(c: Call, id: string, tags: seq<string>): (r: Span)
    ensures r.name == c.eventType && r.eventType == c.eventType && r.eventId == c.eventId
    ensures r.timestamp == c.startMs && r.endTimestamp == c.endMs && r.data == c.data
    ensures r.sessionId == id && r.sessionTags == Join(tags, ",")
    ensures tags == [] ==> r.sessionTags == ""
    ensures |tags| == 1 ==> r.sessionTags == tags[0]
  {
    Span(c.eventType, c.eventId, c.eventType, c.startMs, c.endMs, c.data, id, Join(tags, ","))
  }

  /** The session id `start` picks: the inherited one when non-empty, else a fresh one. */
  function SessionIdFor(inheritedId: Option<string>, freshId: string): (id: string)
    ensures Truthy(inheritedId) ==> id == inheritedId.value
    ensures !Truthy(inheritedId) ==> id == freshId
  {
    Or(inheritedId, Some(freshId)).value
  }

  /**
   * `start`: the id, tags and start time are set whatever happens; the credential is
   * overwritten by any ok response; the session runs, with a tracer named after its id,
   * only when registration succeeded.
   */
  function StartStep(s: SessionState, tags: Option<seq<string>>, inheritedId: Option<string>,
                     freshId: string, now: string, reg: Registration, options: BatchOptions)
    : (r: SessionState)
    ensures r.id == SessionIdFor(inheritedId, freshId)
    ensures r.tags == tags.GetOr([]) && r.initTimestamp == Some(now)
    ensures r.jwt == if reg.Responded? && reg.ok then reg.jwt else s.jwt
    ensures Registered(reg) ==> r.isRunning && r.tracer == Some(Tracer("session-" + r.id, options))
    ensures !Registered(reg) ==> r.isRunning == s.isRunning && r.tracer == s.tracer
    ensures r.eventCounts == s.eventCounts && r.emitted == s.emitted && r.endState == s.endState
    ensures r.endStateReason == s.endStateReason && r.endTimestamp == s.endTimestamp
  {
    var id := SessionIdFor(inheritedId, freshId);
    var s1 := s.(id := id, tags := tags.GetOr([]), initTimestamp := Some(now),
                 jwt := if reg.Responded? && reg.ok then reg.jwt else s.jwt);
    if Registered(reg) then s1.(isRunning := true, tracer := Some(Tracer("session-" + id, options)))
    else s1
  }

  /**
   * `recordEvent`: outside a running session nothing changes; otherwise exactly one span is
   * appended and the counter of its kind, if there is one, goes up by one. No counter is
   * added and nothing else changes.
   */
  function RecordStep(s: SessionState, c: Call): (r: SessionState)
    ensures !Accepting(s) ==> r == s
    ensures Accepting(s) ==> r.emitted == s.emitted + [SpanFor(c, s.id, s.tags)]
    ensures r.eventCounts.Keys == s.eventCounts.Keys
    ensures forall k :: k in r.eventCounts ==>
              r.eventCounts[k] == s.eventCounts[k] + (if Accepting(s) && k == c.eventType then 1 else 0)
    ensures r == s.(emitted := r.emitted, eventCounts := r.eventCounts)
  {
    if !Accepting(s) then s
    else
      var counts := if c.eventType in s.eventCounts
                    then s.eventCounts[c.eventType := s.eventCounts[c.eventType] + 1]
                    else s.eventCounts;
      s.(emitted := s.emitted + [SpanFor(c, s.id, s.tags)], eventCounts := counts)
  }

  /** `end`: the gate closes and the reason and end time are stored; nothing else changes. */
  function EndStep(s: SessionState, reason: string, now: string): (r: SessionState)
    ensures !r.isRunning && !Accepting(r)
    ensures r.endStateReason == Some(reason) && r.endTimestamp == Some(now)
    ensures r.endState == s.endState
    ensures r == s.(isRunning := false, endStateReason := r.endStateReason, endTimestamp := r.endTimestamp)
  {
    s.(isRunning := false, endStateReason := Some(reason), endTimestamp := Some(now))
  }

  /** A sequence of `recordEvent` calls, in order. */
  function RecordAll(s: SessionState, calls: seq<Call>): SessionState
    decreases calls
  {
    if calls == [] then s else RecordAll(RecordStep(s, calls[0]), calls[1..])
  }

  lemma {:induction false} CountKindAppend(spans: seq<Span>, sp: Span, k: string)
    ensures CountKind(spans + [sp], k) == CountKind(spans, k) + (if sp.name == k then 1 else 0)
  {
    if spans != [] {
      assert (spans + [sp])[1..] == spans[1..] + [sp];
      CountKindAppend(spans[1..], sp, k);
    }
  }

  /** Every transition keeps the counters equal to the per-kind number of emitted spans. */
  lemma TransitionsKeepTally(s: SessionState, c: Call, tags: Option<seq<string>>,
                             inheritedId: Option<string>, freshId: string, now: string,
                             reg: Registration, options: BatchOptions, reason: string)
    requires Tallied(s)
    ensures Tallied(RecordStep(s, c))
    ensures Tallied(StartStep(s, tags, inheritedId, freshId, now, reg, options))
    ensures Tallied(EndStep(s, reason, now))
  {
    if Accepting(s) {
      forall k | k in s.eventCounts
        ensures CountKind(s.emitted + [SpanFor(c, s.id, s.tags)], k)
                == CountKind(s.emitted, k) + (if k == c.eventType then 1 else 0)
      {
        CountKindAppend(s.emitted, SpanFor(c, s.id, s.tags), k);
      }
    }
  }

  lemma NewSessionTallied()
    ensures Tallied(NewSession) && !Accepting(NewSession)
  {
    CounterKeysAreEventTypes();
  }

  /** While the session accepts events, each call's count adds to its counter. */
  lemma {:induction false} RecordAllCounts(s: SessionState, calls: seq<Call>, k: string)
    requires Accepting(s) && k in s.eventCounts
    ensures k in RecordAll(s, calls).eventCounts
    ensures RecordAll(s, calls).eventCounts[k] == s.eventCounts[k] + CountCalls(calls, k)
    ensures Accepting(RecordAll(s, calls))
    decreases calls
  {
    if calls != [] {
      RecordAllCounts(RecordStep(s, calls[0]), calls[1..], k);
    }
  }

  /** While the session accepts events, the calls' spans are emitted one each, in call order. */
  lemma {:induction false} RecordAllEmitsInOrder(s: SessionState, calls: seq<Call>)
    requires Accepting(s)
    ensures var r := RecordAll(s, calls);
            r.id == s.id && r.tags == s.tags &&
            r.emitted == s.emitted + seq(|calls|, i requires 0 <= i < |calls| => SpanFor(calls[i], s.id, s.tags))
    decreases calls
  {
    if calls != [] {
      var s1 := RecordStep(s, calls[0]);
      RecordAllEmitsInOrder(s1, calls[1..]);
      var rest := seq(|calls| - 1, i requires 0 <= i < |calls| - 1 => SpanFor(calls[1..][i], s.id, s.tags));
      var all := seq(|calls|, i requires 0 <= i < |calls| => SpanFor(calls[i], s.id, s.tags));
      assert all == [SpanFor(calls[0], s.id, s.tags)] + rest;
    }
  }

  /** Once the session has ended, every further `recordEvent` is a no-op. */
  lemma {:induction false} RecordAfterEndIgnored(s: SessionState, reason: string, now: string, calls: seq<Call>)
    ensures RecordAll(EndStep(s, reason, now), calls) == EndStep(s, reason, now)
  {
    if calls != [] {
      RecordAfterEndIgnored(s, reason, now, calls[1..]);
    }
  }

  /** A repeated `end` only overwrites the reason and the end time. */
  lemma EndTwice(s: SessionState, reason1: string, now1: string, reason2: string, now2: string)
    ensures EndStep(EndStep(s, reason1, now1), reason2, now2) == EndStep(s, reason2, now2)
  {
  }

  /** A session whose registration failed never emits anything, whatever is recorded. */
  lemma {:induction false} FailedStartRecordsNothing(tags: Option<seq<string>>, inheritedId: Option<string>,
                                                     freshId: string, now: string, reg: Registration,
                                                     options: BatchOptions, calls: seq<Call>)
    requires !Registered(reg)
    ensures var s := StartStep(NewSession, tags, inheritedId, freshId, now, reg, options);
            !s.isRunning && RecordAll(s, calls) == s && s.emitted == []
  {
    if calls != [] {
      FailedStartRecordsNothing(tags, inheritedId, freshId, now, reg, options, calls[1..]);
    }
  }

  /**
   * A session that starts, records `calls` and ends holds, for each known kind, the number of
   * calls of that kind, and has emitted exactly one span per call.
   */
  lemma CountersAfterSession(tags: Option<seq<string>>, inheritedId: Option<string>, freshId: string,
                             now: string, reg: Registration, options: BatchOptions,
                             calls: seq<Call>, reason: string, later: string, k: string)
    requires Registered(reg) && k in CounterKeys
    ensures var r := EndStep(RecordAll(StartStep(NewSession, tags, inheritedId, freshId, now, reg, options),
                                       calls), reason, later);
            k in r.eventCounts && r.eventCounts[k] == CountCalls(calls, k) && |r.emitted| == |calls|
  {
    var s := StartStep(NewSession, tags, inheritedId, freshId, now, reg, options);
    CounterKeysAreEventTypes();
    RecordAllCounts(s, calls, k);
    RecordAllEmitsInOrder(s, calls);
  }

  // ---------------------------------------------------------------------------------------
  // Export

  /** One event of the export payload. `data` is the text handed to `JSON.parse`. */
  datatype WireEvent = WireEvent(
    id: string, eventType: string, initTimestamp: int, endTimestamp: int, sessionId: string, data: string)

  /** One span as exported; the session id is the exporting session's, not the span's own. */
  function ToWireEvent(sp: Span, sessionId: string): WireEvent {
    WireEvent(sp.eventId, sp.name, sp.timestamp, sp.endTimestamp, sessionId,
              if sp.data == "" then "{}" else sp.data)
  }

  /**
   * The projection of a batch: one event per span, in order; each event's kind is its span's
   * name, its session id the exporting session's, and its data `'{}'` when the span has none.
   */
  function ToWireEvents(spans: seq<Span>, sessionId: string): (events: seq<WireEvent>)
    ensures |events| == |spans|
    ensures forall i :: 0 <= i < |spans| ==> events[i] == ToWireEvent(spans[i], sessionId)
    ensures forall i :: 0 <= i < |spans| ==>
              events[i].eventType == spans[i].name && events[i].sessionId == sessionId &&
              events[i].data != "" && (spans[i].data != "" ==> events[i].data == spans[i].data)
  {
    if spans == [] then [] else [ToWireEvent(spans[0], sessionId)] + ToWireEvents(spans[1..], sessionId)
  }

  /** Number of exported events of kind `k`. */
  function CountWire(events: seq<WireEvent>, k: string): nat {
    if events == [] then 0 else (if events[0].eventType == k then 1 else 0) + CountWire(events[1..], k)
  }

  lemma {:induction false} WireCountMatchesSpans(spans: seq<Span>, sessionId: string, k: string)
    ensures CountWire(ToWireEvents(spans, sessionId), k) == CountKind(spans, k)
  {
    if spans != [] {
      assert ToWireEvents(spans, sessionId)[1..] == ToWireEvents(spans[1..], sessionId);
      WireCountMatchesSpans(spans[1..], sessionId, k);
    }
  }

  /**
   * Exporting everything a session has emitted yields, for each known kind, exactly as many
   * events as that kind's counter says.
   */
  lemma ExportedKindsMatchCounters(s: SessionState, k: string)
    requires Tallied(s) && k in CounterKeys
    ensures CountWire(ToWireEvents(s.emitted, s.id), k) == s.eventCounts[k]
  {
    WireCountMatchesSpans(s.emitted, s.id, k);
  }

  datatype ExportResult = ExportSuccess | ExportFailure

  /** The outcome of the export request: a response with its `ok` flag, or a thrown error. */
  datatype HttpOutcome = HttpResponse(ok: bool) | HttpThrew

  /** What the exporter sends: the session's credential and the events. */
  datatype ExportRequest = ExportRequest(bearer: Option<string>, events: seq<WireEvent>)

  // ---------------------------------------------------------------------------------------
  // The classes

  class Session {
    var config: Configuration?
    var id: string
    var tags: seq<string>
    var jwt: Option<string>
    var eventCounts: map<string, int>
    var isRunning: bool
    var endState: EndState
    var endStateReason: Option<string>
    var endTimestamp: Option<string>
    var initTimestamp: Option<string>
    var tracer: Option<Tracer>
    /** The exporter the span processor was built with, once the session has started. */
    var exporter: SessionExporter?
    /** The spans handed to the span processor so far, in order. */
    ghost var Emitted: seq<Span>

    ghost function State(): SessionState
      reads this
    {
      SessionState(id, tags, jwt, isRunning, tracer, eventCounts, endState, endStateReason,
                   endTimestamp, initTimestamp, Emitted)
    }

    ghost predicate Valid()
      reads this
    {
      Tallied(State())
    }

    constructor()
      ensures Valid() && State() == NewSession
      ensures config == null && exporter == null
    {
      config := null;
      id := "";
      tags := [];
      jwt := None;
      eventCounts := InitialCounts;
      isRunning := false;
      endState := Indeterminate;
      endStateReason := None;
      endTimestamp := None;
      initTimestamp := None;
      tracer := None;
      exporter := null;
      Emitted := [];
      NewSessionTallied();
    }

    /**
     * `start`: sets identity and start time, registers, and on success starts running and
     * sets up the tracer; otherwise fails, leaving the gate as it was.
     */
    method Start(tags: Option<seq<string>>, inheritedId: Option<string>, freshId: string,
                 now: string, reg: Registration)
      returns (outcome: Outcome)
      requires Valid()
      modifies this
      ensures Valid()
      ensures outcome.Pass? <==> Registered(reg)
      ensures State() == StartStep(old(State()), tags, inheritedId, freshId, now, reg, OptionsOf(config))
      ensures config == old(config)
      ensures Registered(reg) ==>
                fresh(exporter) && exporter.session == this && exporter.config == config &&
                !exporter.isShutdown
      ensures !Registered(reg) ==> exporter == old(exporter)
    {
      id := SessionIdFor(inheritedId, freshId);
      this.tags := tags.GetOr([]);
      initTimestamp := Some(now);
      var registered := RegisterSession(reg);
      if !registered {
        outcome := Outcome.Fail("Failed to start session");
        TransitionsKeepTally(old(State()), Call("", "", "", 0, 0), tags, inheritedId, freshId, now,
                             reg, OptionsOf(config), "");
        return;
      }
      isRunning := true;
      InitializeTracing();
      outcome := Outcome.Pass;
      TransitionsKeepTally(old(State()), Call("", "", "", 0, 0), tags, inheritedId, freshId, now,
                           reg, OptionsOf(config), "");
    }

    /**
     * `_startSession`: the registration round trip. An ok response's credential is stored
     * whatever it is; the result is true only when that credential is non-empty.
     */
    method RegisterSession(reg: Registration) returns (registered: bool)
      modifies this
      ensures registered == Registered(reg)
      ensures jwt == if reg.Responded? && reg.ok then reg.jwt else old(jwt)
      ensures State() == old(State()).(jwt := jwt) && config == old(config) && exporter == old(exporter)
    {
      match reg
      case Threw =>
        registered := false;
      case Responded(ok, responseJwt) =>
        if !ok {
          registered := false;
          return;
        }
        jwt := responseJwt;
        registered := Truthy(jwt);
    }

    /** `_initializeOpenTelemetry`: the tracer, its batch options and the session's exporter. */
    method InitializeTracing()
      modifies this
      ensures tracer == Some(Tracer("session-" + id, OptionsOf(config)))
      ensures fresh(exporter) && exporter.session == this && exporter.config == config
      ensures !exporter.isShutdown
      ensures State() == old(State()).(tracer := tracer) && config == old(config)
    {
      var e := new SessionExporter(this);
      e.config := config;
      exporter := e;
      tracer := Some(Tracer("session-" + id, OptionsOf(config)));
    }

    /** `recordEvent`: see `RecordStep`. */
    method RecordEvent(eventType: string, eventData: string, eventId: string, startMs: int, endMs: int)
      requires Valid()
      modifies this
      ensures Valid()
      ensures State() == RecordStep(old(State()), Call(eventType, eventData, eventId, startMs, endMs))
      ensures config == old(config) && exporter == old(exporter)
    {
      if !isRunning || tracer.None? {
        return;
      }
      var span := SpanFor(Call(eventType, eventData, eventId, startMs, endMs), id, tags);
      if eventType in eventCounts {
        eventCounts := eventCounts[eventType := eventCounts[eventType] + 1];
      }
      Emitted := Emitted + [span];
      TransitionsKeepTally(old(State()), Call(eventType, eventData, eventId, startMs, endMs),
                           None, None, "", "", Threw, BatchOptions(1, 1), "");
    }

    /** `end`: see `EndStep`. */
    method End(reason: string, now: string)
      requires Valid()
      modifies this
      ensures Valid()
      ensures State() == EndStep(old(State()), reason, now)
      ensures config == old(config) && exporter == old(exporter)
    {
      isRunning := false;
      endStateReason := Some(reason);
      endTimestamp := Some(now);
    }
  }

  class SessionExporter {
    const session: Session
    var isShutdown: bool
    var config: Configuration?

    constructor(session: Session)
      ensures this.session == session && !isShutdown && config == null
    {
      this.session := session;
      isShutdown := false;
      config := null;
    }

    /**
     * `export`: a shut-down exporter or an empty batch succeeds without sending anything.
     * Otherwise the batch is projected; if some span's data does not parse, or the request
     * throws or gets a non-ok response, the result is a failure value, never an exception.
     * `parses` says which texts `JSON.parse` accepts.
     */
    method Export(spans: seq<Span>, parses: string -> bool, response: HttpOutcome)
      returns (result: ExportResult, request: Option<ExportRequest>)
      requires parses("{}")
      ensures isShutdown || spans == [] ==> result == ExportSuccess && request == None
      ensures !isShutdown && spans != [] ==>
                var events := ToWireEvents(spans, session.id);
                if forall i :: 0 <= i < |events| ==> parses(events[i].data) then
                  request == Some(ExportRequest(session.jwt, events)) &&
                  (result == ExportSuccess <==> response == HttpResponse(true))
                else
                  request == None && result == ExportFailure
      ensures !isShutdown && spans != [] && (forall i :: 0 <= i < |spans| ==> spans[i].data == "") ==>
                request.Some?
    {
      if isShutdown || |spans| == 0 {
        return ExportSuccess, None;
      }
      var events := ToWireEvents(spans, session.id);
      if !(forall i | 0 <= i < |events| :: parses(events[i].data)) {
        return ExportFailure, None;
      }
      request := Some(ExportRequest(session.jwt, events));
      match response
      case HttpResponse(ok) =>
        result := if ok then ExportSuccess else ExportFailure;
      case HttpThrew =>
        result := ExportFailure;
    }

    /** `shutdown`: after it, every export succeeds without sending anything. */
    method Shutdown()
      modifies this
      ensures isShutdown && config == old(config)
    {
      isShutdown := true;
    }
  }
}
