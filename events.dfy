/**
 * Event records. Each record kind is built once, from an initialisation record whose
 * fields may all be missing, and is never updated afterwards. The clock reading and the
 * fresh identifier the constructors would draw are passed in.
 */
module Events {
  import opened Wrappers

  /** The event kinds; `TypeName` gives each one's wire name. */
  datatype EventType = LLM | Action | Api | Tool | Error

  const AllEventTypes: set<EventType> := {LLM, Action, Api, Tool, Error}

  function TypeName(t: EventType): string {
    match t
    case LLM => "llms"
    case Action => "actions"
    case Api => "apis"
    case Tool => "tools"
    case Error => "errors"
  }

  /** Every kind is listed, and distinct kinds have distinct wire names. */
  lemma EventTypesListed(t: EventType, u: EventType)
    ensures t in AllEventTypes
    ensures TypeName(t) == TypeName(u) ==> t == u
  {
  }

  /**
   * A JavaScript value that is either a string or an object or array (kept in its
   * serialised form). Objects and arrays are always truthy; a string only when non-empty.
   */
  datatype Value = Text(text: string) | Structured(json: string)

  predicate TruthyValue(v: Option<Value>) {
    v.Some? && (v.value.Text? ==> v.value.text != "")
  }

  /** The parts of a thrown error that an error event keeps. */
  datatype Exception = Exception(name: string, message: string, stack: Option<string>)

  /** The fields common to every event, each of which the caller may leave out. */
  datatype BaseInit = BaseInit(
    eventType: Option<EventType>,
    params: Option<Value>,
    returnValue: Option<Value>,
    initTimestamp: Option<string>,
    endTimestamp: Option<string>,
    agentId: Option<string>,
    id: Option<string>,
    sessionId: Option<string>)

  datatype ActionInit = ActionInit(
    base: BaseInit, actionType: Option<string>, logs: Option<Value>, screenshot: Option<string>)

  datatype LLMInit = LLMInit(
    base: BaseInit, threadId: Option<string>, prompt: Option<Value>, promptTokens: Option<int>,
    completion: Option<Value>, completionTokens: Option<int>, cost: Option<real>,
    model: Option<string>)

  datatype ToolInit = ToolInit(base: BaseInit, name: Option<string>, logs: Option<Value>)

  datatype ErrorInit = ErrorInit(
    base: BaseInit, triggerEvent: Option<Event>, exception: Option<Exception>,
    errorType: Option<string>, code: Option<string>, details: Option<Value>,
    logs: Option<string>)

  /** A constructed event: the common fields plus the fields of its kind. */
  datatype Event = Event(
    eventType: EventType,
    params: Option<Value>,
    returnValue: Option<Value>,
    initTimestamp: string,
    endTimestamp: Option<string>,
    agentId: Option<string>,
    id: string,
    sessionId: Option<string>,
    detail: Detail)

  datatype Detail =
    | Plain
    | ActionDetail(actionType: Option<string>, logs: Option<Value>, screenshot: Option<string>)
    | LLMDetail(threadId: Option<string>, prompt: Option<Value>, promptTokens: Option<int>,
                completion: Option<Value>, completionTokens: Option<int>, cost: Option<real>,
                model: Option<string>)
    | ToolDetail(name: Option<string>, logs: Option<Value>)
    | ErrorDetail(triggerEvent: Option<Event>, exception: Option<Exception>,
                  errorType: Option<string>, code: Option<string>, details: Option<Value>,
                  errorLogs: Option<string>)

  /**
   * The base constructor: the kind comes from the subclass and never from `init`; every
   * supplied field is copied; the start timestamp and the id fall back to the clock reading
   * `now` and the fresh identifier only when the supplied value is missing or empty.
   */
  function NewEvent(eventType: EventType, init: BaseInit, now: string, freshId: string): (e: Event)
    ensures e.eventType == eventType && e.detail == Plain
    ensures e.params == init.params && e.returnValue == init.returnValue
    ensures e.endTimestamp == init.endTimestamp && e.agentId == init.agentId
    ensures e.sessionId == init.sessionId
    ensures Truthy(init.initTimestamp) ==> e.initTimestamp == init.initTimestamp.value
    ensures !Truthy(init.initTimestamp) ==> e.initTimestamp == now
    ensures Truthy(init.id) ==> e.id == init.id.value
    ensures !Truthy(init.id) ==> e.id == freshId
  {
    Event(eventType, init.params, init.returnValue,
          Or(init.initTimestamp, Some(now)).value,
          init.endTimestamp, init.agentId,
          Or(init.id, Some(freshId)).value,
          init.sessionId, Plain)
  }

  /** The initialisation record that carries exactly the common fields of `e`. */
  function FieldsOf(e: Event): BaseInit {
    BaseInit(Some(e.eventType), e.params, e.returnValue, Some(e.initTimestamp), e.endTimestamp,
             e.agentId, Some(e.id), e.sessionId)
  }

  /** With a non-empty clock reading and fresh id, an event's start timestamp and id are non-empty. */
  lemma NewEventNonEmpty(eventType: EventType, init: BaseInit, now: string, freshId: string)
    requires now != "" && freshId != ""
    ensures NewEvent(eventType, init, now, freshId).initTimestamp != ""
    ensures NewEvent(eventType, init, now, freshId).id != ""
  {
  }

  /**
   * Rebuilding an event from its own fields gives it back unchanged, whatever the clock and
   * the id generator say; only the kind argument decides the kind.
   */
  lemma RebuildEvent(e: Event, t: EventType, now: string, freshId: string)
    requires e.initTimestamp != "" && e.id != "" && e.detail == Plain
    ensures NewEvent(e.eventType, FieldsOf(e), now, freshId) == e
    ensures NewEvent(t, FieldsOf(e), now, freshId) == e.(eventType := t)
  {
  }

  /** `ActionEvent`: kind 'actions', plus its own fields copied. */
  function NewActionEvent(init: ActionInit, now: string, freshId: string): (e: Event)
    ensures e.eventType == Action && TypeName(e.eventType) == "actions"
    ensures e == NewEvent(Action, init.base, now, freshId).(detail := e.detail)
    ensures e.detail == ActionDetail(init.actionType, init.logs, init.screenshot)
  {
    NewEvent(Action, init.base, now, freshId)
      .(detail := ActionDetail(init.actionType, init.logs, init.screenshot))
  }

  /** `LLMEvent`: kind 'llms', plus its own fields copied. */
  function NewLLMEvent(init: LLMInit, now: string, freshId: string): (e: Event)
    ensures e.eventType == LLM && TypeName(e.eventType) == "llms"
    ensures e == NewEvent(LLM, init.base, now, freshId).(detail := e.detail)
    ensures e.detail == LLMDetail(init.threadId, init.prompt, init.promptTokens, init.completion,
                                  init.completionTokens, init.cost, init.model)
  {
    NewEvent(LLM, init.base, now, freshId)
      .(detail := LLMDetail(init.threadId, init.prompt, init.promptTokens, init.completion,
                            init.completionTokens, init.cost, init.model))
  }

  /** `ToolEvent`: kind 'tools', plus its own fields copied. */
  function NewToolEvent(init: ToolInit, now: string, freshId: string): (e: Event)
    ensures e.eventType == Tool && TypeName(e.eventType) == "tools"
    ensures e == NewEvent(Tool, init.base, now, freshId).(detail := e.detail)
    ensures e.detail == ToolDetail(init.name, init.logs)
  {
    NewEvent(Tool, init.base, now, freshId).(detail := ToolDetail(init.name, init.logs))
  }

  /**
   * `ErrorEvent`: kind 'errors'. The error type, details and logs take the supplied value when
   * it is truthy, else the exception's name, message and stack, else nothing. The end timestamp
   * is the supplied one when it is non-empty, else the second clock reading `later`. The
   * exception itself is never kept.
   */
  function NewErrorEvent(init: ErrorInit, now: string, freshId: string, later: string): (e: Event)
    ensures e.eventType == Error && TypeName(e.eventType) == "errors"
    ensures e.detail.ErrorDetail? && e.detail.exception == None
    ensures e.endTimestamp.Some?
    ensures Truthy(init.base.endTimestamp) ==> e.endTimestamp == init.base.endTimestamp
    ensures !Truthy(init.base.endTimestamp) ==> e.endTimestamp == Some(later)
    ensures e.detail.triggerEvent == init.triggerEvent && e.detail.code == init.code
    ensures e.detail.errorType ==
      if Truthy(init.errorType) then init.errorType
      else if init.exception.Some? then Some(init.exception.value.name)
      else None
    ensures e.detail.details ==
      if TruthyValue(init.details) then init.details
      else if init.exception.Some? then Some(Text(init.exception.value.message))
      else None
    ensures e.detail.errorLogs ==
      if Truthy(init.logs) then init.logs
      else if init.exception.Some? then init.exception.value.stack
      else None
    ensures e.(endTimestamp := init.base.endTimestamp, detail := Plain) == NewEvent(Error, init.base, now, freshId)
  {
    var base := NewEvent(Error, init.base, now, freshId);
    var x := init.exception;
    var errorType := if Truthy(init.errorType) then init.errorType
                     else if x.Some? then Some(x.value.name) else None;
    var details := if TruthyValue(init.details) then init.details
                   else if x.Some? then Some(Text(x.value.message)) else None;
    var logs := if Truthy(init.logs) then init.logs
                else if x.Some? then x.value.stack else None;
    var endTimestamp := if Truthy(base.endTimestamp) then base.endTimestamp else Some(later);
    base.(endTimestamp := endTimestamp,
          detail := ErrorDetail(init.triggerEvent, None, errorType, init.code, details, logs))
  }

  /** The `timestamp` getter of an error event: the start time, not the end time. */
  function Timestamp(e: Event): (r: string)
    requires e.detail.ErrorDetail?
    ensures r == e.initTimestamp
  {
    e.initTimestamp
  }

  /**
   * An error event's `timestamp` is its start timestamp: the supplied one when non-empty,
   * else the first clock reading (never the end-timestamp reading `later`).
   */
  lemma ErrorTimestampIsStart(init: ErrorInit, now: string, freshId: string, later: string)
    ensures Timestamp(NewErrorEvent(init, now, freshId, later))
            == NewErrorEvent(init, now, freshId, later).initTimestamp
    ensures Truthy(init.base.initTimestamp) ==>
              Timestamp(NewErrorEvent(init, now, freshId, later)) == init.base.initTimestamp.value
    ensures !Truthy(init.base.initTimestamp) ==>
              Timestamp(NewErrorEvent(init, now, freshId, later)) == now
  {
  }

  /** Whatever it was built from, an error event holds no exception and has an end timestamp. */
  lemma ErrorEventClean(init: ErrorInit, now: string, freshId: string, later: string)
    requires later != ""
    ensures var e := NewErrorEvent(init, now, freshId, later);
            e.detail.exception.None? && Truthy(e.endTimestamp)
  {
  }
}
