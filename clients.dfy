/**
 * The client: a registry of sessions with one current session id. Lookup is first-match by
 * id in registration order, and the client forwards event and end calls to that session.
 */
module Clients {
  import opened Wrappers
  import opened Config
  import opened Sessions

  /** The index of the first id equal to `target`, if any; an absent target matches nothing. */
  function FirstMatch(ids: seq<string>, target: Option<string>): (r: Option<nat>)
    ensures r.Some? ==> r.value < |ids|
  {
    if ids == [] then None
    else if Some(ids[0]) == target then Some(0)
    else match FirstMatch(ids[1..], target)
      case None => None
      case Some(i) => Some(i + 1)
  }

  /** `FirstMatch` finds the earliest matching id, and finds nothing only when no id matches. */
  lemma {:induction false} FirstMatchIsFirst(ids: seq<string>, target: Option<string>)
    ensures var r := FirstMatch(ids, target);
            (r.Some? ==> Some(ids[r.value]) == target &&
                         forall j :: 0 <= j < r.value ==> Some(ids[j]) != target) &&
            (r.None? ==> forall j :: 0 <= j < |ids| ==> Some(ids[j]) != target)
  {
    if ids != [] {
      FirstMatchIsFirst(ids[1..], target);
    }
  }

  /** Conversely, the earliest matching index is what `FirstMatch` finds. */
  lemma {:induction false} FirstMatchAt(ids: seq<string>, target: Option<string>, i: int)
    requires 0 <= i <= |ids|
    requires forall j :: 0 <= j < i ==> Some(ids[j]) != target
    requires i < |ids| ==> Some(ids[i]) == target
    ensures FirstMatch(ids, target) == if i < |ids| then Some(i) else None
  {
    if ids != [] && i > 0 {
      FirstMatchAt(ids[1..], target, i - 1);
    }
  }

  /**
   * Appending an id keeps an earlier match: a session that reuses an earlier session's id
   * is found only when no earlier one has it.
   */
  lemma {:induction false} FirstMatchAppend(ids: seq<string>, id: string)
    ensures FirstMatch(ids + [id], Some(id)) ==
            if FirstMatch(ids, Some(id)).Some? then FirstMatch(ids, Some(id)) else Some(|ids|)
  {
    if ids != [] {
      assert (ids + [id])[1..] == ids[1..] + [id];
      FirstMatchAppend(ids[1..], id);
    }
  }

  class Client {
    var sessions: seq<Session>
    var currentSessionId: Option<string>
    const config: Configuration
    /** The ids of `sessions`, in order. */
    ghost var Ids: seq<string>

    ghost function Objects(): set<Session>
      reads this
    {
      set s | s in sessions
    }

    ghost predicate Valid()
      reads this, Objects()
    {
      |Ids| == |sessions| &&
      forall i :: 0 <= i < |sessions| ==> sessions[i].id == Ids[i] && sessions[i].Valid()
    }

    /** The session `getCurrentSession` returns, or null. */
    ghost function Current(): Session?
      reads this
      requires |Ids| == |sessions|
    {
      match FirstMatch(Ids, currentSessionId)
      case None => null
      case Some(i) => sessions[i]
    }

    constructor()
      ensures Valid() && sessions == [] && currentSessionId == None && fresh(config)
      ensures config.endpoint == DefaultEndpoint && config.apiKey == None && config.parentKey == None
      ensures config.maxWaitTime == DefaultMaxWaitTime && config.maxQueueSize == DefaultMaxQueueSize
      ensures config.autoStartSessions
    {
      sessions := [];
      currentSessionId := None;
      Ids := [];
      config := new Configuration();
    }

    /** `getCurrentSession`: the first session, in registration order, whose id is the current id. */
    method GetCurrentSession() returns (s: Session?)
      requires Valid()
      ensures s == Current()
    {
      var i := 0;
      while i < |sessions|
        invariant 0 <= i <= |sessions|
        invariant forall j :: 0 <= j < i ==> Some(Ids[j]) != currentSessionId
      {
        if Some(sessions[i].id) == currentSessionId {
          FirstMatchAt(Ids, currentSessionId, i);
          return sessions[i];
        }
        i := i + 1;
      }
      FirstMatchAt(Ids, currentSessionId, i);
      return null;
    }

    /**
     * `init`: the api key is stored first, whatever follows; the rest is `StartSession`. If
     * start fails the error reaches the caller and the registry is unchanged.
     */
    method Init(apiKey: string, tags: Option<seq<string>>, inheritedId: Option<string>,
                freshId: string, now: string, reg: Registration)
      returns (outcome: Outcome)
      requires Valid()
      modifies this, config
      ensures Valid()
      ensures config.apiKey == Some(apiKey)
      ensures config.endpoint == old(config.endpoint) && config.parentKey == old(config.parentKey)
      ensures config.maxWaitTime == old(config.maxWaitTime) && config.maxQueueSize == old(config.maxQueueSize)
      ensures config.autoStartSessions == old(config.autoStartSessions)
      ensures outcome.Pass? <==> Registered(reg)
      ensures outcome.Fail? ==> sessions == old(sessions) && currentSessionId == old(currentSessionId)
      ensures outcome.Pass? ==>
                |sessions| == |old(sessions)| + 1 && sessions[..|old(sessions)|] == old(sessions) &&
                fresh(sessions[|old(sessions)|]) &&
                var s := sessions[|old(sessions)|];
                s.id == SessionIdFor(inheritedId, freshId) && s.isRunning && s.config == config &&
                s.State() == StartStep(NewSession, tags, inheritedId, freshId, now, reg, OptionsOf(config)) &&
                Accepting(s.State()) &&
                currentSessionId == Some(s.id) &&
                (Current() == s <==> s.id !in old(Ids))
    {
      config.apiKey := Some(apiKey);
      outcome := StartSession(tags, inheritedId, freshId, now, reg);
    }

    /**
     * The part of `init` after the api key is stored: a new session sharing this client's
     * configuration is started, and only if that succeeds is it appended and made current.
     */
    method StartSession(tags: Option<seq<string>>, inheritedId: Option<string>, freshId: string,
                        now: string, reg: Registration)
      returns (outcome: Outcome)
      requires Valid()
      modifies this
      ensures Valid()
      ensures outcome.Pass? <==> Registered(reg)
      ensures outcome.Fail? ==> sessions == old(sessions) && currentSessionId == old(currentSessionId)
      ensures outcome.Pass? ==>
                |sessions| == |old(sessions)| + 1 && sessions[..|old(sessions)|] == old(sessions) &&
                fresh(sessions[|old(sessions)|]) &&
                var s := sessions[|old(sessions)|];
                s.id == SessionIdFor(inheritedId, freshId) && s.isRunning && s.config == config &&
                s.State() == StartStep(NewSession, tags, inheritedId, freshId, now, reg, OptionsOf(config)) &&
                Accepting(s.State()) &&
                currentSessionId == Some(s.id) &&
                (Current() == s <==> s.id !in old(Ids))
    {
      var session := new Session();
      session.config := config;
      assert session.State() == NewSession;
      outcome := session.Start(tags, inheritedId, freshId, now, reg);
      if outcome.Fail? {
        return;
      }
      ghost var started := session.State();
      ghost var options := OptionsOf(config);
      assert started == StartStep(NewSession, tags, inheritedId, freshId, now, reg, options);
      assert Accepting(started);
      PushCurrent(session);
      assert session.State() == started && OptionsOf(config) == options;
    }

    /** The last step of `init`: the started session is appended and its id made current. */
    method PushCurrent(session: Session)
      requires Valid() && session.Valid() && session !in sessions
      modifies this
      ensures Valid()
      ensures sessions == old(sessions) + [session] && currentSessionId == Some(session.id)
      ensures Current() == session <==> session.id !in old(Ids)
    {
      ghost var found := FirstMatch(Ids, Some(session.id));
      FirstMatchAppend(Ids, session.id);
      FirstMatchIsFirst(Ids, Some(session.id));
      assert found.None? <==> session.id !in Ids;
      sessions := sessions + [session];
      Ids := Ids + [session.id];
      currentSessionId := Some(session.id);
      assert Current() == if found.Some? then sessions[found.value] else session;
    }

    /** `end_session`: ends the current session, if there is one; no other session changes. */
    method EndSession(status: string, now: string)
      requires Valid()
      modifies Objects()
      ensures Valid() && sessions == old(sessions) && currentSessionId == old(currentSessionId)
      ensures var c := old(Current());
              (c != null ==> c.State() == EndStep(old(c.State()), status, now)) &&
              forall s | s in sessions && s != c :: s.State() == old(s.State())
      ensures forall s | s in sessions :: s.config == old(s.config) && s.exporter == old(s.exporter)
    {
      var session := GetCurrentSession();
      if session != null {
        session.End(status, now);
      }
    }

    /** `log_event`: records the event on the current session, if there is one; no other session changes. */
    method LogEvent(eventType: string, eventData: string, eventId: string, startMs: int, endMs: int)
      requires Valid()
      modifies Objects()
      ensures Valid() && sessions == old(sessions) && currentSessionId == old(currentSessionId)
      ensures var c := old(Current());
              (c != null ==> c.State() == RecordStep(old(c.State()), Call(eventType, eventData, eventId, startMs, endMs))) &&
              forall s | s in sessions && s != c :: s.State() == old(s.State())
      ensures forall s | s in sessions :: s.config == old(s.config) && s.exporter == old(s.exporter)
    {
      var session := GetCurrentSession();
      if session != null {
        session.RecordEvent(eventType, eventData, eventId, startMs, endMs);
      }
    }
  }
}
