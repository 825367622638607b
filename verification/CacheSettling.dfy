/** From purchases to projections: enough successful polls publish every notice and settle every copy. */
module CacheSettling {
  import opened Basics
  import opened ContextBus
  import opened BusDelivery
  import opened BusPolling
  import opened ProjectionStores
  import opened CacheSystem
  import opened CacheCoherence
  import PurchaseRuns

  // ---------------------------------------------------------------- the dispatcher inside the system

  /** A dispatcher label as actions of the system: a profile handler clears both stores before it
      answers; for any other handler the two clearings do nothing. */
  function ActionsOf(l: Label): seq<Action> {
    if l.Return? then [ClearCache, ClearSessions, Bus(l)] else [Bus(l)]
  }

  function Lift(labels: seq<Label>): seq<Action> {
    if labels == [] then [] else ActionsOf(labels[0]) + Lift(labels[1..])
  }

  /** Same customers and notices, and the dispatcher where it should be. */
  ghost predicate Follows(s: System, s': System, bus: ContextBus.State) {
    s'.store == s.store && s'.bus == bus && s'.phase <= 2
  }

  lemma HandlerClearsFirst(subs: SubscriberTable, s: System)
    requires s.phase <= 2
    ensures
      var s' := Act(subs, Act(subs, s, ClearCache), ClearSessions);
      Follows(s, s', s.bus) && (Handled(subs, s').Some? ==> s'.phase == 2)
  {
  }

  lemma LiftOne(subs: SubscriberTable, s: System, l: Label)
    requires s.phase <= 2 && !l.Enqueue?
    ensures Follows(s, Run(subs, s, ActionsOf(l)), Step(subs, s.bus, l)) && WriteFree(ActionsOf(l))
  {
    if l.Return? {
      HandlerClearsFirst(subs, s);
      var s2 := Act(subs, Act(subs, s, ClearCache), ClearSessions);
      RunTwo(subs, s, ClearCache, ClearSessions);
      RunSnoc(subs, s, [ClearCache, ClearSessions], Bus(l));
      assert ActionsOf(l) == [ClearCache, ClearSessions] + [Bus(l)];
      ReturnTaken(subs, s2, l);
    } else {
      RunOne(subs, s, Bus(l));
      BusAct(subs, s, l);
    }
  }

  lemma ReturnTaken(subs: SubscriberTable, s: System, l: Label)
    requires l.Return? && (Handled(subs, s).Some? ==> s.phase == 2)
    ensures Act(subs, s, Bus(l)) == s.(bus := Step(subs, s.bus, l))
  {
  }

  /** Every run of the dispatcher is a run of the system that writes nothing back. */
  lemma {:induction false} LiftRuns(subs: SubscriberTable, s: System, labels: seq<Label>)
    requires s.phase <= 2 && NoArrivals(labels)
    ensures Follows(s, Run(subs, s, Lift(labels)), Exec(subs, s.bus, labels)) && WriteFree(Lift(labels))
    decreases |labels|
  {
    if labels != [] {
      var s1 := Run(subs, s, ActionsOf(labels[0]));
      LiftOne(subs, s, labels[0]);
      LiftRuns(subs, s1, labels[1..]);
      RunConcat(subs, s, ActionsOf(labels[0]), Lift(labels[1..]));
    }
  }

  lemma {:induction false} PollsReach(
    subs: SubscriberTable, t: Tables, starts: multiset<Key>, k: nat, limit: nat, h: Handler, now: int,
    end: ContextBus.State)
    requires Inv(subs, State(t, Idle, starts)) && end == Polls(subs, t, starts, k, limit, h, now)
    ensures end.pc == Idle && Reaches(subs, t, starts, end.t, end.starts)
    decreases k
  {
    if k == 0 {
      ReachesItself(subs, t, starts);
    } else {
      var out := Poll(subs, t, starts, limit, h, now);
      BatchKeepsInv(subs, t, starts, PendingOutbox(t, limit), false, h, now, map[]);
      PollsReach(subs, out.t, out.starts, k - 1, limit, h, now, end);
      ReachesOn(subs, t, starts, out.t, out.starts, end.t, end.starts);
    }
  }

  lemma PollsEmptyOutbox(
    subs: SubscriberTable, t: Tables, starts: multiset<Key>, k: nat, limit: nat, h: Handler, now: int)
    requires Inv(subs, State(t, Idle, starts)) && NeverRaises(h) && AllSubscribed(subs, t)
    requires k * limit >= |Pending(t.events)|
    ensures Pending(Polls(subs, t, starts, k, limit, h, now).t.events) == {}
  {
    PollsDrain(subs, t, starts, k, limit, h, now);
    var order := SortedIds(t.events, Pending(t.events));
    DistinctCount(order);
    assert SetOf(order) == Pending(t.events);
    assert Take(order, k * limit) == order;
  }

  // ---------------------------------------------------------------- purchases inside the system

  lemma ActKeepsOnce(subs: SubscriberTable, s: System, a: Action)
    requires PurchaseRuns.OnceInv(s.store)
    ensures PurchaseRuns.OnceInv(Act(subs, s, a).store)
  {
    if a.Purchase? {
      PurchaseRuns.ServeKeepsOnce(s.store, PurchaseRuns.Submit(a.e, a.policy, a.outboxId, true));
    } else if !a.Bus? {
      LocalFrame(subs, s, a);
    }
  }

  lemma {:induction false} RunKeepsOnce(subs: SubscriberTable, s: System, actions: seq<Action>)
    requires PurchaseRuns.OnceInv(s.store)
    ensures PurchaseRuns.OnceInv(Run(subs, s, actions).store)
    decreases |actions|
  {
    if actions != [] {
      RunKeepsOnce(subs, s, actions[..|actions| - 1]);
      ActKeepsOnce(subs, Run(subs, s, actions[..|actions| - 1]), actions[|actions| - 1]);
    }
  }

  // ---------------------------------------------------------------- settled

  /** Every committed purchase is recorded once and its notice published and delivered. */
  ghost predicate NoticesPublished(s: System) {
    && (forall id :: id in s.store.outbox ==>
          id in s.bus.t.events && s.bus.t.events[id].status == ContextBus.PUBLISHED && Done(s.bus.t, id, PROFILE))
    && (forall eventId :: eventId in s.store.inbox ==>
          && PurchaseRuns.RecordedOnce(s.store, eventId)
          && s.store.inbox[eventId].result.value.outboxIds[0] in s.store.outbox)
  }

  /** Every projection holds the version of its customer's row. */
  ghost predicate AllCurrent(s: System) {
    && (forall k :: k in s.cache ==>
          k.1 in s.store.customers && s.cache[k] == s.store.customers[k.1].profileVersion)
    && (forall id :: id in s.sessions && s.sessions[id].context.Some? ==>
          && s.sessions[id].customerId in s.store.customers
          && s.sessions[id].context.value == s.store.customers[s.sessions[id].customerId].profileVersion)
  }

  lemma PublishedIsDelivered(subs: SubscriberTable, s: System)
    requires Base(subs, s) && Pending(s.bus.t.events) == {}
    ensures forall id :: id in s.store.outbox ==>
      id in s.bus.t.events && s.bus.t.events[id].status == ContextBus.PUBLISHED && Done(s.bus.t, id, PROFILE)
  {
    forall id | id in s.store.outbox
      ensures id in s.bus.t.events && s.bus.t.events[id].status == ContextBus.PUBLISHED && Done(s.bus.t, id, PROFILE)
    {
      assert id !in Pending(s.bus.t.events);
      assert PROFILE in Names(subs, s.bus.t.events, id);
    }
  }

  lemma RecordedNotices(s: System)
    requires PurchaseRuns.OnceInv(s.store)
    ensures forall eventId :: eventId in s.store.inbox ==>
      && PurchaseRuns.RecordedOnce(s.store, eventId)
      && s.store.inbox[eventId].result.value.outboxIds[0] in s.store.outbox
  {
    forall eventId | eventId in s.store.inbox
      ensures PurchaseRuns.RecordedOnce(s.store, eventId)
      ensures s.store.inbox[eventId].result.value.outboxIds[0] in s.store.outbox
    {
      assert PurchaseRuns.Untouched(s.store, eventId) || PurchaseRuns.RecordedOnce(s.store, eventId);
      assert s.store.inbox[eventId].result.value.outboxIds[0] in PurchaseRuns.NoticesFrom(s.store, eventId);
    }
  }

  /** After any run of timely write-backs, once the dispatcher is free: as many polls as it takes to
      cover the pending events, with every subscriber present and none failing, are a run of the
      system, and at its end every committed purchase's notice is published and every cached profile
      and session holds its customer's current version. */
  lemma PollsSettleEverything(
    subs: SubscriberTable, s0: System, actions: seq<Action>, k: nat, limit: nat, h: Handler, now: int)
    returns (more: seq<Action>)
    requires Initial(subs, s0) && TimelyRun(subs, s0, actions) && Run(subs, s0, actions).bus.pc == Idle
    requires NeverRaises(h) && AllSubscribed(subs, Run(subs, s0, actions).bus.t)
    requires k * limit >= |Pending(Run(subs, s0, actions).bus.t.events)|
    ensures WriteFree(more)
    ensures
      var s, s' := Run(subs, s0, actions), Run(subs, s0, actions + more);
      && s'.store == s.store && s'.bus == Polls(subs, s.bus.t, s.bus.starts, k, limit, h, now)
      && NoticesPublished(s') && AllCurrent(s')
  {
    var s := Run(subs, s0, actions);
    InitialIsBase(subs, s0);
    RunKeepsBase(subs, s0, actions);
    PurchaseRuns.FreshIsOnce(s0.store);
    RunKeepsOnce(subs, s0, actions);
    var end := Polls(subs, s.bus.t, s.bus.starts, k, limit, h, now);
    PollsEmptyOutbox(subs, s.bus.t, s.bus.starts, k, limit, h, now);
    PollsReach(subs, s.bus.t, s.bus.starts, k, limit, h, now, end);
    var labels :| NoArrivals(labels) &&
      Exec(subs, State(s.bus.t, Idle, s.bus.starts), labels) == State(end.t, Idle, end.starts);
    more := Lift(labels);
    LiftRuns(subs, s, labels);
    RunConcat(subs, s0, actions, more);
    Settled(subs, s0, actions, more);
  }

  lemma Settled(subs: SubscriberTable, s0: System, actions: seq<Action>, more: seq<Action>)
    requires Initial(subs, s0) && TimelyRun(subs, s0, actions) && WriteFree(more)
    requires Pending(Run(subs, s0, actions + more).bus.t.events) == {}
    ensures NoticesPublished(Run(subs, s0, actions + more)) && AllCurrent(Run(subs, s0, actions + more))
  {
    var s' := Run(subs, s0, actions + more);
    InitialIsBase(subs, s0);
    RunKeepsBase(subs, s0, actions + more);
    PurchaseRuns.FreshIsOnce(s0.store);
    RunKeepsOnce(subs, s0, actions + more);
    PublishedIsDelivered(subs, s');
    RecordedNotices(s');
    AgreedIffTimely(subs, s0, actions);
    RunConcat(subs, s0, actions, more);
    assert AllAgree(s');
  }
}
