/** A turn that straddles an invalidation: the run after which its session stays stale for good. */
module CacheStaleness {
  import opened Basics
  import opened CommerceEvents
  import PurchaseRuns
  import opened ContextBus
  import opened ProjectionStores
  import opened CacheSystem
  import opened CacheCoherence

  /** A turn that straddles one: after any first purchase, with the profile subscriber alone, the
      turn that read the old version stores it once the notice is delivered and published. */
  lemma StraddlingTurnStaysStale(
    subs: SubscriberTable, s0: System, e: PurchaseEvent, policy: Policy, outboxId: string, task: string,
    session: string, turns: seq<string>, response: string, now: int)
    returns (actions: seq<Action>)
    requires Initial(subs, s0) && Record(s0.store, e, policy, outboxId).Ok?
    requires forall t :: SubscribersOf(subs, TypeText(t)) == [PROFILE]
    ensures
      var s := Run(subs, s0, actions);
      && s.store == Record(s0.store, e, policy, outboxId).value.0
      && outboxId in s.bus.t.events && s.bus.t.events[outboxId].status == ContextBus.PUBLISHED
      && !Undelivered(s, e.customerId) && s.bus.pc == Idle
      && session in s.sessions && s.sessions[session].customerId == e.customerId
      && s.sessions[session].context == Some(s0.store.customers[e.customerId].profileVersion)
      && !Agrees(s, e.customerId, s0.store.customers[e.customerId].profileVersion)
  {
    var opening := NoticeQueued(subs, s0, e, policy, outboxId, task);
    var s1 := Run(subs, s0, opening);
    var starting := HandlerStarts(subs, s1, outboxId);
    RunConcat(subs, s0, opening, starting);
    var s2 := Run(subs, s1, starting);
    var clearing := HandlerClears(subs, s2);
    RunConcat(subs, s0, opening + starting, clearing);
    var s3 := Run(subs, s2, clearing);
    var delivering := HandlerDelivers(subs, s3, outboxId, response, now);
    RunConcat(subs, s0, opening + starting + clearing, delivering);
    var s4 := Run(subs, s3, delivering);
    var ending := LateWriteBack(subs, s4, outboxId, now, task, session, turns);
    RunConcat(subs, s0, opening + starting + clearing + delivering, ending);
    actions := opening + starting + clearing + delivering + ending;
  }

  /** One undispatched profile notice, no projections, and a turn holding the version before it. */
  lemma NoticeQueued(
    subs: SubscriberTable, s0: System, e: PurchaseEvent, policy: Policy, outboxId: string, task: string)
    returns (actions: seq<Action>)
    requires Initial(subs, s0) && Record(s0.store, e, policy, outboxId).Ok?
    requires forall t :: SubscribersOf(subs, TypeText(t)) == [PROFILE]
    ensures
      var s := Run(subs, s0, actions);
      && s.store == Record(s0.store, e, policy, outboxId).value.0
      && s.cache == map[] && s.sessions == map[]
      && e.customerId in s0.store.customers && e.customerId in s.store.customers
      && s.store.customers[e.customerId].profileVersion > s0.store.customers[e.customerId].profileVersion
      && s.tasks == map[task := Task(e.customerId, s0.store.customers[e.customerId].profileVersion, true)]
      && s.store.outbox.Keys == {outboxId} && s.store.outbox[outboxId].customerId == e.customerId
      && Queued(subs, s.bus, outboxId)
  {
    PurchaseRuns.RecordCommits(s0.store, e, policy, outboxId);
    actions := [OpenFromRow(task, e.customerId), Purchase(e, policy, outboxId)];
    RunTwo(subs, s0, OpenFromRow(task, e.customerId), Purchase(e, policy, outboxId));
  }

  ghost predicate Queued(subs: SubscriberTable, b: ContextBus.State, id: string) {
    && id in b.t.events && b.t.deliveries == map[] && b.pc == Idle
    && b.t.events[id].status == ContextBus.PENDING && Names(subs, b.t.events, id) == [PROFILE]
  }

  lemma BusStarts(subs: SubscriberTable, b: ContextBus.State, id: string)
    requires Queued(subs, b, id)
    ensures
      var b' := Step(subs, Step(subs, Step(subs, b, Begin(id)), Claim), StartHandler);
      && b'.pc == Running(id, 0, map[]) && id in b'.t.events && Names(subs, b'.t.events, id) == [PROFILE]
      && (id, PROFILE) in b'.t.deliveries
  {
    var b1 := Step(subs, b, Begin(id));
    assert b1.pc == Next(id, 0, map[]) && Names(subs, b1.t.events, id) == [PROFILE];
    var b2 := Step(subs, b1, Claim);
    assert b2.pc == Claimed(id, 0, map[]);
  }

  lemma HandlerStarts(subs: SubscriberTable, s: System, id: string) returns (actions: seq<Action>)
    requires Queued(subs, s.bus, id) && id in s.store.outbox
    ensures
      var s' := Run(subs, s, actions);
      && s' == s.(bus := s'.bus, phase := 0) && s'.bus.pc == Running(id, 0, map[])
      && id in s'.bus.t.events && Names(subs, s'.bus.t.events, id) == [PROFILE]
      && (id, PROFILE) in s'.bus.t.deliveries && Handled(subs, s') == Some(id)
  {
    var s1 := Act(subs, s, Bus(Begin(id)));
    BusAct(subs, s, Begin(id));
    var s2 := Act(subs, s1, Bus(Claim));
    BusAct(subs, s1, Claim);
    BusAct(subs, s2, StartHandler);
    BusStarts(subs, s.bus, id);
    RunTwo(subs, s, Bus(Begin(id)), Bus(Claim));
    RunSnoc(subs, s, [Bus(Begin(id)), Bus(Claim)], Bus(StartHandler));
    actions := [Bus(Begin(id)), Bus(Claim)] + [Bus(StartHandler)];
  }

  lemma HandlerClears(subs: SubscriberTable, s: System) returns (actions: seq<Action>)
    requires Handled(subs, s).Some? && s.phase == 0 && s.cache == map[] && s.sessions == map[]
    ensures Run(subs, s, actions) == s.(phase := 2)
  {
    assert Act(subs, s, ClearCache) == s.(phase := 1);
    RunTwo(subs, s, ClearCache, ClearSessions);
    actions := [ClearCache, ClearSessions];
  }

  lemma HandlerDelivers(
    subs: SubscriberTable, s: System, id: string, response: string, now: int)
    returns (actions: seq<Action>)
    requires s.bus.pc == Running(id, 0, map[]) && s.phase == 2 && id in s.bus.t.events
    requires Names(subs, s.bus.t.events, id) == [PROFILE] && (id, PROFILE) in s.bus.t.deliveries
    ensures
      var s' := Run(subs, s, actions);
      && s' == s.(bus := s'.bus) && s'.bus.pc.Next? && s'.bus.pc.id == id && s'.bus.pc.j == 1
      && id in s'.bus.t.events && Names(subs, s'.bus.t.events, id) == [PROFILE] && Done(s'.bus.t, id, PROFILE)
  {
    var s1 := Act(subs, s, Bus(Return(response)));
    assert s1 == s.(bus := s.bus.(pc := Returned(id, 0, map[], response)));
    var s2 := Act(subs, s1, Bus(Complete));
    assert s2 == s.(bus := Step(subs, s1.bus, Complete));
    RunTwo(subs, s, Bus(Return(response)), Bus(Complete));
    actions := [Bus(Return(response)), Bus(Complete)];
  }

  lemma LateWriteBack(
    subs: SubscriberTable, s: System, id: string, now: int, task: string, session: string, turns: seq<string>)
    returns (actions: seq<Action>)
    requires s.bus.pc.Next? && s.bus.pc.id == id && s.bus.pc.j == 1 && id in s.bus.t.events
    requires Names(subs, s.bus.t.events, id) == [PROFILE] && Done(s.bus.t, id, PROFILE)
    requires task in s.tasks && s.sessions == map[]
    ensures
      var s' := Run(subs, s, actions);
      && s'.store == s.store && s'.bus.pc == Idle && Done(s'.bus.t, id, PROFILE)
      && s'.sessions ==
        map[session := SessionRow(s.tasks[task].customerId, Some(s.tasks[task].version), LastTurns(turns))]
      && id in s'.bus.t.events && s'.bus.t.events[id].status == ContextBus.PUBLISHED
  {
    var s1 := Act(subs, s, Bus(Publish(now)));
    assert s1 == s.(bus := Step(subs, s.bus, Publish(now)));
    RunTwo(subs, s, Bus(Publish(now)), WriteSession(task, session, turns));
    actions := [Bus(Publish(now)), WriteSession(task, session, turns)];
  }
}
