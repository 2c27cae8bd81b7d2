# Session bookkeeping of the AgentOps telemetry client

This project models the core of a small TypeScript telemetry client: the `Session` that
registers with the backend, counts and records events while it is running, and ends; the
`SessionExporter` that turns a batch of recorded spans into the export payload; the event
records (`ActionEvent`, `LLMEvent`, `ToolEvent`, `ErrorEvent`) with their field defaulting;
and the `Client` that keeps a list of sessions and forwards calls to the current one.

Layout:

- `wrappers.dfy` (module `Wrappers`): `Option`, `Outcome` (a call that throws), and
  JavaScript truthiness of optional strings (`Truthy`, `Or` for `a || b`).
- `config.dfy` (module `Config`): the `Configuration` object and its defaults.
- `events.dfy` (module `Events`): the event records as datatypes; each constructor is a
  function of its initialisation record, the clock reading and the fresh id.
- `sessions.dfy` (module `Sessions`): the session's state as the datatype `SessionState`,
  its transitions `StartStep`, `RecordStep` and `EndStep` as functions, the lemmas about them,
  the span-to-event projection of the exporter, and the classes `Session` and
  `SessionExporter`. Each `Session` method updates the object's fields in place and is proved
  to perform exactly one transition on `State()`. The spans handed to the span processor are
  recorded in the ghost field `Emitted`.
- `clients.dfy` (module `Clients`): the `Client` class over a `seq<Session>`, first-match
  lookup (`FirstMatch`) and its lemmas.

Inputs the source draws from its environment are parameters: uuids (`freshId`, `eventId`),
clock readings (`now`, `later`, `startMs`, `endMs`), the outcome of the registration request
(`Registration`: a response with its `ok` flag and `jwt` field, or a thrown error), the outcome
of the export request (`HttpOutcome`) and which strings `JSON.parse` accepts (`parses`).

The model follows the code as written, also where it differs from what its names suggest:

- `end` takes only a reason; it never sets `end_state`, which stays `Indeterminate`.
- `end` is not idempotent: a second call overwrites the reason and end time (`EndTwice`).
- A failed `start` leaves `is_running` as it was; it is "not started" only for a session that
  had never started. An ok response with an empty `jwt` still overwrites the stored `jwt`.
- `end` does not wait for the final flush (see "Left out").
- With the default configuration (`max_queue_size` 512) the batch size is 512; the fallback
  of 50 applies only without a configuration or with a size of 0 (`BatchDefaultsStable`).
- Lookup is first-match by id, so a session started with an inherited id that an earlier
  session already has is appended but is not the one `getCurrentSession` returns
  (`Clients.Client.Init`, `Clients.FirstMatchAppend`).

## Model

| member | source | states |
|---|---|---|
| `Config.Configuration.constructor` | src/core/config.ts:1-8 | A new configuration has the default endpoint, no api or parent key, a 5000 ms delay, a queue size of 512 and auto-start on. |
| `Events.EventTypesListed` | src/core/events.ts:5-11 | There are exactly five event kinds, and their wire names are pairwise distinct. |
| `Events.NewEvent` | src/core/events.ts:24-33 | The kind comes from the constructor argument and never from the initialisation record. Every supplied field is copied. The start timestamp and the id take the clock reading and the fresh id exactly when the supplied value is missing or empty. |
| `Events.NewEventNonEmpty` | src/core/events.ts:28-31 | With a non-empty clock reading and fresh id, every event has a non-empty start timestamp and id. |
| `Events.RebuildEvent` | src/core/events.ts:24-33 | Constructing from an event's own fields gives that event back, whatever the clock and id generator return; only the kind argument can change the kind. |
| `Events.NewActionEvent` | src/core/events.ts:42-47 | The kind is always 'actions'. The common fields are those of the base constructor, and the action fields are copied. |
| `Events.NewLLMEvent` | src/core/events.ts:60-69 | The kind is always 'llms'. The common fields are those of the base constructor, and the LLM fields are copied. |
| `Events.NewToolEvent` | src/core/events.ts:77-81 | The kind is always 'tools'. The common fields are those of the base constructor, and the tool fields are copied. |
| `Events.NewErrorEvent` | src/core/events.ts:93-114 | The kind is always 'errors'. Error type, details and logs take a truthy supplied value, else the exception's name, message or stack, else nothing. The end timestamp is the supplied one when non-empty, else the second clock reading. The exception is never kept. |
| `Events.Timestamp` | src/core/events.ts:116-118 | The `timestamp` getter returns the start timestamp, not the end timestamp. |
| `Events.ErrorTimestampIsStart` | src/core/events.ts:116-118 | An error event's `timestamp` is its start timestamp: the supplied one, else the first clock reading, never the end-time reading. |
| `Events.ErrorEventClean` | src/core/events.ts:107-113 | After construction an error event holds no exception and has a truthy end timestamp. |
| `Sessions.CounterKeysAreEventTypes` | src/core/session.ts:90-96 | The counters start at zero for exactly the five keys, and those keys are the wire names of the five event kinds. |
| `Sessions.OrDefault` | src/core/session.ts:188-189 | A configured number is used when present and non-zero, otherwise the fallback; the result is never zero. |
| `Sessions.BatchOptionsFor` | src/core/session.ts:187-190 | The batch delay defaults to 5000 and the batch size to 50, and neither is ever zero. |
| `Sessions.BatchDefaultsStable` | src/core/session.ts:188-189 | Defaulting is idempotent. The configuration's own defaults give 5000 ms and 512, and a missing or zero setting gives 5000 ms and 50. |
| `Sessions.Registered` | src/core/session.ts:156-169 | Registration succeeds only on an ok response carrying a non-empty credential; a thrown error, a non-ok response or a missing or empty `jwt` never registers. |
| `Sessions.Join` | src/core/session.ts:221 | `tags.join(',')` gives "" for no tags. Otherwise it starts with the first tag and ends with the last, and its length is the tags' total length plus one separator per gap. |
| `Sessions.SpanFor` | src/core/session.ts:213-223 | The span is named after the kind and carries the event id, the kind, both clock readings, the serialised data, the session id and the comma-joined tags ("" without tags, the tag itself for one tag). |
| `Sessions.SessionIdFor` | src/core/session.ts:114 | The session id is the inherited id when it is non-empty, else the fresh id. |
| `Sessions.StartStep` | src/core/session.ts:113-125 | Id, tags (default empty) and start time are set on every path. `jwt` is overwritten by any ok response. The session runs, with a tracer named after its id, exactly when registration returned a non-empty credential. Otherwise the gate and tracer stay as they were. Counters and spans never change. |
| `Sessions.RecordStep` | src/core/session.ts:210-230 | Outside a running session with a tracer, nothing changes. Otherwise exactly one span is appended. It is named after the kind and carries the session's id and its comma-joined tags. Only the counter of that kind changes, by one, and only if it is one of the five counters; no other key is added (see "Left out" for names inherited from `Object.prototype`). |
| `Sessions.EndStep` | src/core/session.ts:197-200 | After `end` the session is not running and stores the reason and end time. Nothing else changes. |
| `Sessions.TransitionsKeepTally` | src/core/session.ts:225-227 | Start, record and end all keep every counter equal to the number of emitted spans of its kind, with the key set fixed at the five known kinds (for kinds other than names inherited from `Object.prototype`, see "Left out"). |
| `Sessions.NewSessionTallied` | src/core/session.ts:90-98 | A new session satisfies the counter invariant and does not accept events. |
| `Sessions.RecordAllCounts` | src/core/session.ts:225-227 | While the session accepts events, a sequence of calls raises each existing counter by exactly the number of calls of its kind. |
| `Sessions.RecordAllEmitsInOrder` | src/core/session.ts:213-229 | While the session accepts events, each call emits exactly one span, and the spans follow call order. |
| `Sessions.RecordAfterEndIgnored` | src/core/session.ts:197-211 | After `end`, every later sequence of `recordEvent` calls is a no-op. |
| `Sessions.EndTwice` | src/core/session.ts:197-200 | A repeated `end` is the same as a single `end` with the later reason and time. |
| `Sessions.FailedStartRecordsNothing` | src/core/session.ts:118-124 | A new session whose registration failed is not running and emits nothing, whatever is recorded afterwards. |
| `Sessions.CountersAfterSession` | src/core/session.ts:210-230 | A session that starts, records a sequence of calls and ends holds, for each known kind, the number of calls of that kind. It has emitted one span per call. |
| `Sessions.ToWireEvents` | src/core/session.ts:42-49 | Export maps spans to events one-to-one and in order. Each event's kind is the span's name, and its session id is the exporting session's. Its data is the span's data, or '{}' when that is empty. |
| `Sessions.ExportedKindsMatchCounters` | src/core/session.ts:44 | Exporting all emitted spans gives, for each known kind, as many events of that kind as its counter holds. |
| `Sessions.Session.constructor` | src/core/session.ts:82-105 | A new session is not running and has an empty id and tags. It has no credential, tracer or exporter, zeroed counters, end state Indeterminate, and no emitted spans. |
| `Sessions.Session.Start` | src/core/session.ts:107-126 | Performs `StartStep` on the session's state. It succeeds exactly when registration succeeded, and otherwise fails with the gate unchanged. On success it creates a fresh exporter for this session and configuration. |
| `Sessions.Session.RegisterSession` | src/core/session.ts:128-176 | Returns true exactly for an ok response whose `jwt` is non-empty. Any ok response overwrites `jwt`. A non-ok response or a thrown error leaves it unchanged, and nothing else changes. |
| `Sessions.Session.InitializeTracing` | src/core/session.ts:178-195 | The tracer is named `session-<id>` and uses the defaulted batch options of the session's configuration. A fresh exporter is bound to this session and configuration. |
| `Sessions.Session.RecordEvent` | src/core/session.ts:210-230 | Performs `RecordStep` on the session's state and keeps the counter invariant. |
| `Sessions.Session.End` | src/core/session.ts:197-200 | Performs `EndStep` on the session's state and keeps the counter invariant. |
| `Sessions.SessionExporter.constructor` | src/core/session.ts:29-36 | A new exporter is bound to its session, is not shut down and has no configuration. |
| `Sessions.SessionExporter.Export` | src/core/session.ts:38-73 | `JSON.parse` accepts '{}'. A shut-down exporter or an empty batch gives SUCCESS and sends nothing. Otherwise unparsable data gives FAILURE and sends nothing, and a batch whose spans all have empty data is always sent. Else the projected events are sent with the session's credential, and the result is SUCCESS exactly when the response is ok. Failures are values. |
| `Sessions.SessionExporter.Shutdown` | src/core/session.ts:75-77 | After `shutdown`, the exporter is shut down, so every export is SUCCESS without a request. |
| `Clients.FirstMatch` | src/core/client.ts:17 | `find` by id gives an index inside the list, or nothing. |
| `Clients.FirstMatchIsFirst` | src/core/client.ts:16-18 | Lookup finds a session with the current id, and no earlier session has that id. It finds nothing only when no session has that id. |
| `Clients.FirstMatchAt` | src/core/client.ts:16-18 | The earliest session with the current id is the one lookup finds. |
| `Clients.FirstMatchAppend` | src/core/client.ts:16-29 | After a session is appended, looking up its id gives an earlier session with the same id if there is one, else the new one. |
| `Clients.Client.constructor` | src/core/client.ts:13-15 | A new client has no sessions and no current id. Its configuration is fresh and has every default: endpoint, no api or parent key, 5000 ms delay, queue size 512, auto-start on. |
| `Clients.Client.GetCurrentSession` | src/core/client.ts:16-18 | The loop returns the first session, in list order, whose id equals the current id, or null. |
| `Clients.Client.Init` | src/core/client.ts:20-30 | The api key is always stored, and no other configuration setting changes. The call fails exactly when `start` fails, and then sessions and current id are unchanged. On success exactly one fresh, running session sharing the client's configuration is appended at the end, and earlier entries are untouched. Its state is `StartStep` applied to a new session, so it accepts events. Its id becomes current, and it is the current session exactly when no earlier session has its id. |
| `Clients.Client.StartSession` | src/core/client.ts:22-29 | Starts a new session sharing the client's configuration. It fails exactly when `start` fails, and then sessions and current id are unchanged. On success the fresh session, in the state `StartStep` gives a new session, is appended and made current. |
| `Clients.Client.PushCurrent` | src/core/client.ts:28-29 | The started session is appended and its id made current. It is what lookup returns exactly when its id is new. |
| `Clients.Client.EndSession` | src/core/client.ts:32-37 | With no current session nothing changes. Otherwise exactly the current session performs `EndStep`, and every other session is unchanged. No session's configuration or exporter changes. |
| `Clients.Client.LogEvent` | src/core/client.ts:38-43 | With no current session nothing changes. Otherwise exactly the current session performs one `RecordStep`, and every other session is unchanged. No session's configuration or exporter changes. |

## Left out

- `Sessions.RecordStep`: names that a plain object inherits from `Object.prototype`
  (`constructor`, `toString`, `valueOf`, `hasOwnProperty`, `isPrototypeOf`,
  `propertyIsEnumerable`, `toLocaleString` and the legacy accessor helpers) are treated like
  any other unknown kind: the model changes no counter for them. In the source the lookup at
  session.ts:225 finds the inherited member, so `++` adds an own key of that name holding NaN.
  The counter invariant (`Tallied`, `TransitionsKeepTally`) therefore holds only while no event
  kind names such a member.
- HTTP requests: URLs, the api-key and parent-key headers, and the request bodies of
  registration and export are not modelled. The registration outcome is the `Registration`
  value, and the export response is the `HttpOutcome` value. Only the bearer credential and
  the event list of the export request are kept.
- The OpenTelemetry tracer provider and `BatchSpanProcessor` are a library outside this
  code. Size- and time-triggered flushes, the processor's queue, and the global tracer
  registration are not modelled. The model hands spans over by appending to `Emitted`, and
  `Tracer` records only the tracer's name and the batch options it is given.
- `Sessions.Session.End`: the `forceFlush().then(shutdown)` chain is not modelled, because
  `end` does not wait for it. The model makes no claim that a final flush completes or that
  the exporter is shut down when `end` returns.
- `SessionExporter.forceFlush` does nothing in the source and is not modelled.
- The `async-mutex` lock around registration and all async interleavings are not modelled.
  `RegisterSession` runs atomically; in the source the lock is released in a `finally`
  block on every path.
- uuid generation, `getISOTime` and `Date.now` are parameters. `recordEvent` reads `Date.now()`
  twice, so its start and end timestamps are two parameters; they are equal only when both
  reads land in the same millisecond.
- `JSON.stringify` and `JSON.parse` are opaque. `RecordEvent` receives the event data already
  serialised, and a `stringify` that throws (cyclic data) is not modelled. The exported `data`
  is the text given to `JSON.parse`; a parse error is the `parses` oracle and leads to FAILURE.
- `_showColoredAnalysis` (colour summary output with floating-point duration) is UI only.
- Host-environment collection, the logger and the ESLint configuration are not part of this
  model.
- `token_cost`, `session_url` and `host_env` are never updated by the code and are not
  fields of the model.
- Payload types: `string | object` fields are the datatype `Value`, holding text or a
  serialised object, which keeps JavaScript truthiness. Token counts are `int`, cost is
  `real`, and configuration numbers are `int`, so NaN is not modelled.
- The module-level default `Client` instance is not modelled.
