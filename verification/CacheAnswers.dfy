/** The actions of the cache system are calls of the two stores and of the bus, and touch nothing else. */
module CacheAnswers {
  import opened Basics
  import opened ContextBus
  import opened ProjectionStores
  import opened CacheSystem

  /** The customer whose notice the running profile handler was given. */
  ghost predicate HandlesNotice(subs: SubscriberTable, s: System, customerId: string) {
    && s.bus.pc.Running? && s.bus.pc.id in s.store.outbox && s.bus.pc.id in s.bus.t.events
    && s.bus.t.events[s.bus.pc.id].eventType in subs
    && s.bus.pc.j < |subs[s.bus.t.events[s.bus.pc.id].eventType]|
    && subs[s.bus.t.events[s.bus.pc.id].eventType][s.bus.pc.j] == "profile_context_projection"
    && customerId == s.store.outbox[s.bus.pc.id].customerId
  }

  /** The profile handler drops the customer's cached profiles first and then those in the sessions, once each. */
  lemma HandlerClears(subs: SubscriberTable, s: System)
    ensures
      var s' := Act(subs, s, ClearCache);
      && (forall c :: HandlesNotice(subs, s, c) && s.phase == 0 ==>
            s' == s.(cache := AfterCall(s.cache, DropCustomer(c)), phase := 1))
      && ((forall c :: !HandlesNotice(subs, s, c)) || s.phase != 0 ==> s' == s)
    ensures
      var s' := Act(subs, s, ClearSessions);
      && (forall c :: HandlesNotice(subs, s, c) && s.phase == 1 ==>
            s' == s.(sessions := AfterSession(s.sessions, Invalidate(c)), phase := 2))
      && ((forall c :: !HandlesNotice(subs, s, c)) || s.phase != 1 ==> s' == s)
  {
    assert forall c :: HandlesNotice(subs, s, c) <==>
      Handled(subs, s).Some? && c == s.store.outbox[Handled(subs, s).value].customerId;
    if Handled(subs, s).Some? {
      assert HandlesNotice(subs, s, s.store.outbox[Handled(subs, s).value].customerId);
    }
  }

  /** A task reads a version from the customer row, the cache or a session, and remembers which. */
  lemma TasksRead(subs: SubscriberTable, s: System, task: string, customerId: string, key: CacheKey, session: string)
    ensures Act(subs, s, OpenFromRow(task, customerId)) ==
      if customerId !in s.store.customers then s
      else s.(tasks := s.tasks[task := Task(customerId, s.store.customers[customerId].profileVersion, true)])
    ensures Act(subs, s, OpenFromCache(task, key)) ==
      if key !in s.cache then s else s.(tasks := s.tasks[task := Task(key.1, s.cache[key], false)])
    ensures session !in s.sessions || s.sessions[session].context.None? ==>
      Act(subs, s, OpenFromSession(task, session)) == s
    ensures session in s.sessions && s.sessions[session].context.Some? ==>
      Act(subs, s, OpenFromSession(task, session)) ==
      s.(tasks := s.tasks[task := Task(s.sessions[session].customerId, s.sessions[session].context.value, false)])
    ensures Act(subs, s, CloseTask(task)) == s.(tasks := s.tasks - {task})
  {
  }

  /** A write-back is a refreshed build of the task's customer, for a profile read from the row, or a saved session. */
  lemma TasksWrite(subs: SubscriberTable, s: System, task: string, session: string, turns: seq<string>)
    requires task in s.tasks
    ensures Act(subs, s, WriteCache(task, session)) ==
      if !s.tasks[task].fromRow then s
      else s.(cache := AfterCall(s.cache, Build((session, s.tasks[task].customerId), true, s.tasks[task].version)))
    ensures Act(subs, s, WriteSession(task, session, turns)) ==
      s.(sessions := AfterSession(s.sessions,
           Save(session, SessionRow(s.tasks[task].customerId, Some(s.tasks[task].version), turns))))
  {
  }

  /** A turn without a profile is saved without one; closing a session clears it and drops its cached profiles, for
      its owner only; a restart loses both stores and every task, and no table. */
  lemma SessionsClose(subs: SubscriberTable, s: System, session: string, customerId: string, turns: seq<string>)
    ensures Act(subs, s, SaveEmpty(session, customerId, turns)) ==
      s.(sessions := AfterSession(s.sessions, Save(session, SessionRow(customerId, None, turns))))
    ensures Act(subs, s, CloseSession(session, customerId)) ==
      if session !in s.sessions || s.sessions[session].customerId != customerId then s
      else s.(sessions := AfterSession(s.sessions, Clear(session, customerId)),
              cache := AfterCall(s.cache, DropSession(session)))
    ensures
      var after := Act(subs, s, Restart);
      && after.cache == map[] && after.sessions == map[] && after.tasks == map[]
      && after.store == s.store && after.bus.t == s.bus.t && after.bus.pc.Idle? && after.bus.starts == s.bus.starts
  {
  }
}
