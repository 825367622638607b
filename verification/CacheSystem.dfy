/** Purchases, the bus and the process-local profile projections, running together. */
module CacheSystem {
  import opened Basics
  import opened CommerceEvents
  import opened PurchaseRuns
  import opened ContextBus
  import opened ProjectionStores

  const PROFILE := "profile_context_projection"

  /** A profile build or chat turn in flight: the version it read, and whether from the row. */
  datatype Task = Task(customerId: string, version: int, fromRow: bool)

  /** `phase` counts the two effects of the running profile handler: 1 after `clear_customer`,
      2 after `invalidate_customer_context`. */
  datatype System = System(
    store: Store, bus: ContextBus.State, cache: map<CacheKey, int>,
    sessions: map<string, SessionRow>, tasks: map<string, Task>, phase: nat)

  datatype Action =
    | Purchase(e: PurchaseEvent, policy: Policy, outboxId: string)
    | Bus(l: Label)
    | ClearCache
    | ClearSessions
    | OpenFromRow(task: string, customerId: string)
    | OpenFromCache(task: string, key: (string, string))
    | OpenFromSession(task: string, session: string)
    | WriteCache(task: string, session: string)
    | WriteSession(task: string, session: string, turns: seq<string>)
    | SaveEmpty(session: string, customerId: string, turns: seq<string>)
    | CloseTask(task: string)
    | CloseSession(session: string, customerId: string)
    | Restart

  function TypeText(t: NoticeType): string {
    match t
    case SegmentChanged => "CUSTOMER_SEGMENT_CHANGED"
    case ProfileUpdated => "CUSTOMER_PROFILE_UPDATED"
  }

  /** The event whose profile handler is running. */
  function Handled(subs: SubscriberTable, s: System): Option<string> {
    if s.bus.pc.Running? && s.bus.pc.id in s.store.outbox then
      var names := Names(subs, s.bus.t.events, s.bus.pc.id);
      if s.bus.pc.j < |names| && names[s.bus.pc.j] == PROFILE then Some(s.bus.pc.id) else None
    else None
  }

  ghost function Act(subs: SubscriberTable, s: System, a: Action): System {
    match a
    case Purchase(e, policy, outboxId) =>
      if outboxId in s.bus.t.events then s
      else
        var store' := Process(s.store, e, policy, outboxId).0;
        if outboxId in store'.outbox then
          s.(store := store',
             bus := Step(subs, s.bus, Enqueue(outboxId, TypeText(store'.outbox[outboxId].eventType), e.occurredAt)))
        else s
    case Bus(l) =>
      if l.Enqueue? && (exists t :: l.eventType == TypeText(t)) then s
      else if l.Return? && Handled(subs, s).Some? && s.phase != 2 then s
      else s.(bus := Step(subs, s.bus, l), phase := if l.StartHandler? then 0 else s.phase)
    case ClearCache =>
      if Handled(subs, s).Some? && s.phase == 0 then
        var c := s.store.outbox[Handled(subs, s).value].customerId;
        s.(cache := WithoutCustomer(s.cache, c), phase := 1)
      else s
    case ClearSessions =>
      if Handled(subs, s).Some? && s.phase == 1 then
        var c := s.store.outbox[Handled(subs, s).value].customerId;
        s.(sessions := Invalidated(s.sessions, c), phase := 2)
      else s
    case OpenFromRow(task, c) =>
      if c in s.store.customers then
        s.(tasks := s.tasks[task := Task(c, s.store.customers[c].profileVersion, true)])
      else s
    case OpenFromCache(task, key) =>
      if key in s.cache then s.(tasks := s.tasks[task := Task(key.1, s.cache[key], false)]) else s
    case OpenFromSession(task, session) =>
      if session in s.sessions && s.sessions[session].context.Some? then
        s.(tasks := s.tasks[task := Task(s.sessions[session].customerId, s.sessions[session].context.value, false)])
      else s
    case WriteCache(task, session) =>
      if task in s.tasks && s.tasks[task].fromRow then
        s.(cache := s.cache[(session, s.tasks[task].customerId) := s.tasks[task].version])
      else s
    case WriteSession(task, session, turns) =>
      if task in s.tasks && Writable(s.sessions, session, s.tasks[task].customerId) then
        var row := SessionRow(s.tasks[task].customerId, Some(s.tasks[task].version), LastTurns(turns));
        s.(sessions := s.sessions[session := row])
      else s
    case SaveEmpty(session, c, turns) =>
      if Writable(s.sessions, session, c) then
        s.(sessions := s.sessions[session := SessionRow(c, None, LastTurns(turns))])
      else s
    case CloseTask(task) => s.(tasks := s.tasks - {task})
    case CloseSession(session, c) =>
      if session in s.sessions && s.sessions[session].customerId == c then
        s.(sessions := s.sessions - {session}, cache := WithoutSession(s.cache, session))
      else s
    case Restart =>
      s.(bus := Step(subs, s.bus, Crash), cache := map[], sessions := map[], tasks := map[])
  }

  ghost function Run(subs: SubscriberTable, s: System, actions: seq<Action>): System {
    if actions == [] then s else Act(subs, Run(subs, s, actions[..|actions| - 1]), actions[|actions| - 1])
  }

  lemma RunSnoc(subs: SubscriberTable, s: System, front: seq<Action>, a: Action)
    ensures Run(subs, s, front + [a]) == Act(subs, Run(subs, s, front), a)
  {
    assert (front + [a])[..|front|] == front;
  }

  lemma {:induction false} RunConcat(subs: SubscriberTable, s: System, xs: seq<Action>, ys: seq<Action>)
    ensures Run(subs, s, xs + ys) == Run(subs, Run(subs, s, xs), ys)
    decreases |ys|
  {
    if ys == [] {
      assert xs + ys == xs;
    } else {
      var front := ys[..|ys| - 1];
      assert (xs + ys)[..|xs + ys| - 1] == xs + front;
      RunConcat(subs, s, xs, front);
    }
  }

  lemma RunOne(subs: SubscriberTable, s: System, a: Action)
    ensures Run(subs, s, [a]) == Act(subs, s, a)
  {
    assert [] + [a] == [a];
    RunSnoc(subs, s, [], a);
  }

  lemma RunTwo(subs: SubscriberTable, s: System, a: Action, b: Action)
    ensures Run(subs, s, [a, b]) == Act(subs, Act(subs, s, a), b)
  {
    assert [] + [a] == [a] && [a] + [b] == [a, b];
    RunSnoc(subs, s, [], a);
    RunSnoc(subs, s, [a], b);
  }

  // ---------------------------------------------------------------- what every action keeps

  /** The profile handler of this event has done its stage-th clearing, now or for good. */
  ghost predicate Passed(subs: SubscriberTable, s: System, id: string, stage: nat) {
    || Done(s.bus.t, id, PROFILE)
    || (Handled(subs, s) == Some(id) && s.phase >= stage)
    || (s.bus.pc.Returned? && s.bus.pc.id == id && s.bus.pc.j < |Names(subs, s.bus.t.events, id)|
        && Names(subs, s.bus.t.events, id)[s.bus.pc.j] == PROFILE)
  }

  /** A version of c's profile that was read at some time. */
  ghost predicate Copy(s: Store, c: string, v: int) {
    c in s.customers && v <= s.customers[c].profileVersion
  }

  ghost predicate Registered(subs: SubscriberTable) {
    ValidTable(subs) && forall t :: PROFILE in SubscribersOf(subs, TypeText(t))
  }

  ghost predicate Linked(s: System) {
    forall id :: id in s.store.outbox ==>
      && id in s.bus.t.events && s.bus.t.events[id].eventType == TypeText(s.store.outbox[id].eventType)
      && s.store.outbox[id].customerId in s.store.customers
  }

  ghost predicate Copies(s: System) {
    && (forall k :: k in s.cache ==> Copy(s.store, k.1, s.cache[k]))
    && (forall id :: id in s.sessions && s.sessions[id].context.Some? ==>
          Copy(s.store, s.sessions[id].customerId, s.sessions[id].context.value))
    && (forall t :: t in s.tasks ==> Copy(s.store, s.tasks[t].customerId, s.tasks[t].version))
  }

  /** Holds in every reachable state, whatever interleaves. */
  ghost predicate Base(subs: SubscriberTable, s: System) {
    Registered(subs) && Inv(subs, s.bus) && Linked(s) && Copies(s) && s.phase <= 2
  }

  /** The dispatcher stands at this event's profile subscriber. */
  ghost predicate AtProfile(subs: SubscriberTable, b: ContextBus.State, id: string) {
    !b.pc.Idle? && b.pc.id == id && b.pc.j < |Names(subs, b.t.events, id)|
    && Names(subs, b.t.events, id)[b.pc.j] == PROFILE
  }

  lemma BusNames(subs: SubscriberTable, b: ContextBus.State, l: Label, id: string)
    requires Inv(subs, b) && id in b.t.events
    ensures id in Step(subs, b, l).t.events && Names(subs, Step(subs, b, l).t.events, id) == Names(subs, b.t.events, id)
  {
    StepKeepsInv(subs, b, l);
  }

  lemma NewlyDone(subs: SubscriberTable, b: ContextBus.State, l: Label, id: string)
    requires Inv(subs, b) && Done(Step(subs, b, l).t, id, PROFILE) && !Done(b.t, id, PROFILE)
    ensures b.pc.Returned? && AtProfile(subs, b, id)
  {
  }

  lemma NewlyReturned(subs: SubscriberTable, b: ContextBus.State, l: Label, id: string)
    requires Inv(subs, b) && id in b.t.events && Step(subs, b, l).pc.Returned? && AtProfile(subs, Step(subs, b, l), id)
    ensures AtProfile(subs, b, id) && (b.pc.Returned? || (b.pc.Running? && l.Return?))
  {
    BusNames(subs, b, l, id);
  }

  lemma NewlyRunning(subs: SubscriberTable, b: ContextBus.State, l: Label, id: string)
    requires Inv(subs, b) && id in b.t.events && Step(subs, b, l).pc.Running? && AtProfile(subs, Step(subs, b, l), id)
    ensures l.StartHandler? || (AtProfile(subs, b, id) && b.pc.Running?)
  {
    BusNames(subs, b, l, id);
  }

  lemma BusStepPasses(
    subs: SubscriberTable, s: System, l: Label, b': ContextBus.State, s': System, id: string, stage: nat)
    requires Base(subs, s) && 1 <= stage <= 2 && id in s.store.outbox
    requires b' == Step(subs, s.bus, l) && !(l.Return? && Handled(subs, s).Some? && s.phase != 2)
    requires s' == s.(bus := b', phase := if l.StartHandler? then 0 else s.phase)
    requires Passed(subs, s', id, stage)
    ensures Passed(subs, s, id, stage)
  {
    assert id in s.bus.t.events;
    BusNames(subs, s.bus, l, id);
    if Done(b'.t, id, PROFILE) {
      if !Done(s.bus.t, id, PROFILE) { NewlyDone(subs, s.bus, l, id); }
    } else if b'.pc.Returned? {
      NewlyReturned(subs, s.bus, l, id);
    } else {
      NewlyRunning(subs, s.bus, l, id);
    }
  }

  /** A bus label as the system takes it, unless a profile handler would return too early. */
  ghost predicate Dispatched(subs: SubscriberTable, s: System, s': System, l: Label) {
    && !(l.Return? && Handled(subs, s).Some? && s.phase != 2)
    && s' == s.(bus := Step(subs, s.bus, l), phase := if l.StartHandler? then 0 else s.phase)
  }

  lemma BusAct(subs: SubscriberTable, s: System, l: Label)
    ensures Act(subs, s, Bus(l)) == s || Dispatched(subs, s, Act(subs, s, Bus(l)), l)
    ensures !l.Enqueue? && !l.Return? ==> Dispatched(subs, s, Act(subs, s, Bus(l)), l)
  {
  }

  /** A committed purchase as the projections see it: a newer version and its notice. */
  ghost predicate Bought(subs: SubscriberTable, s: System, s': System, c: string, id: string, at: int) {
    && c in s.store.customers && c in s'.store.customers && id !in s.store.outbox && id !in s.bus.t.events
    && id in s'.store.outbox
    && var n := s'.store.outbox[id];
    && s' == s.(store := s'.store, bus := Step(subs, s.bus, Enqueue(id, TypeText(n.eventType), at)))
    && s'.store.outbox == s.store.outbox[id := n] && n.customerId == c
    && s'.store.customers == s.store.customers[c := s'.store.customers[c]]
    && s.store.customers[c].profileVersion < n.profileVersion == s'.store.customers[c].profileVersion
  }

  lemma PurchaseEffect(subs: SubscriberTable, s: System, a: Action)
    requires Base(subs, s) && a.Purchase? && Act(subs, s, a) != s
    ensures Bought(subs, s, Act(subs, s, a), a.e.customerId, a.outboxId, a.e.occurredAt)
  {
    if a.e.eventId !in s.store.inbox && Record(s.store, a.e, a.policy, a.outboxId).Ok? {
      RecordCommits(s.store, a.e, a.policy, a.outboxId);
    }
  }

  lemma EnqueueEffect(subs: SubscriberTable, b: ContextBus.State, id: string, eventType: string, at: int)
    requires Inv(subs, b) && id !in b.t.events
    ensures
      var b' := Step(subs, b, Enqueue(id, eventType, at));
      && Inv(subs, b') && b'.pc == b.pc && b'.t.deliveries == b.t.deliveries && !Done(b.t, id, PROFILE)
      && id in b'.t.events && b'.t.events[id].eventType == eventType
      && (forall e :: e in b.t.events ==> e in b'.t.events && b'.t.events[e] == b.t.events[e])
      && (b.pc.Idle? || b.pc.id in b.t.events)
  {
    StepKeepsInv(subs, b, Enqueue(id, eventType, at));
    assert (id, PROFILE) in b.t.deliveries ==> id in b.t.events;
  }

  lemma BoughtKeepsBase(subs: SubscriberTable, s: System, s': System, c: string, id: string, at: int)
    requires Base(subs, s) && Bought(subs, s, s', c, id, at)
    ensures Base(subs, s')
  {
    EnqueueEffect(subs, s.bus, id, TypeText(s'.store.outbox[id].eventType), at);
    assert forall k, v :: Copy(s.store, k, v) ==> Copy(s'.store, k, v);
  }

  /** The new notice has cleared nothing, and the others stand where they stood. */
  lemma BoughtPasses(
    subs: SubscriberTable, s: System, s': System, c: string, id: string, at: int, n: string, stage: nat)
    requires Base(subs, s) && Bought(subs, s, s', c, id, at)
    requires n in s'.store.outbox && Passed(subs, s', n, stage)
    ensures n in s.store.outbox && Passed(subs, s, n, stage)
  {
    EnqueueEffect(subs, s.bus, id, TypeText(s'.store.outbox[id].eventType), at);
  }

  /** The clearing that brings the handler to its next phase; only its own event passes anything new. */
  lemma ClearPasses(subs: SubscriberTable, s: System, s': System, id: string, stage: nat)
    requires Handled(subs, s).Some? && s'.store == s.store && s'.bus == s.bus && s'.phase == s.phase + 1
    requires Passed(subs, s', id, stage)
    ensures Passed(subs, s, id, stage) || (Handled(subs, s) == Some(id) && stage == s'.phase)
  {
  }

  lemma LocalFrame(subs: SubscriberTable, s: System, a: Action)
    requires !a.Purchase? && !a.Bus?
    ensures
      var s' := Act(subs, s, a);
      && s'.store == s.store && (s'.bus == s.bus || s'.bus == s.bus.(pc := Idle))
      && (!a.ClearCache? && !a.ClearSessions? ==> s'.phase == s.phase)
  {
  }

  lemma CacheCopies(subs: SubscriberTable, s: System, a: Action, k: CacheKey)
    requires Copies(s) && !a.Purchase? && !a.Bus? && k in Act(subs, s, a).cache
    ensures Copy(s.store, k.1, Act(subs, s, a).cache[k])
  {
  }

  lemma SessionCopies(subs: SubscriberTable, s: System, a: Action, id: string)
    requires Copies(s) && !a.Purchase? && !a.Bus? && id in Act(subs, s, a).sessions &&
      Act(subs, s, a).sessions[id].context.Some?
    ensures Copy(s.store, Act(subs, s, a).sessions[id].customerId, Act(subs, s, a).sessions[id].context.value)
  {
  }

  lemma TaskCopies(subs: SubscriberTable, s: System, a: Action, t: string)
    requires Copies(s) && !a.Purchase? && !a.Bus? && t in Act(subs, s, a).tasks
    ensures Copy(s.store, Act(subs, s, a).tasks[t].customerId, Act(subs, s, a).tasks[t].version)
  {
  }

  lemma LocalCopies(subs: SubscriberTable, s: System, s': System, a: Action)
    requires Copies(s) && !a.Purchase? && !a.Bus? && s' == Act(subs, s, a)
    ensures Copies(s')
  {
    LocalFrame(subs, s, a);
    forall k | k in s'.cache ensures Copy(s'.store, k.1, s'.cache[k]) { CacheCopies(subs, s, a, k); }
    forall id | id in s'.sessions && s'.sessions[id].context.Some?
      ensures Copy(s'.store, s'.sessions[id].customerId, s'.sessions[id].context.value)
    {
      SessionCopies(subs, s, a, id);
    }
    forall t | t in s'.tasks ensures Copy(s'.store, s'.tasks[t].customerId, s'.tasks[t].version) {
      TaskCopies(subs, s, a, t);
    }
  }

  lemma PhaseBounded(subs: SubscriberTable, s: System, a: Action)
    requires s.phase <= 2
    ensures Act(subs, s, a).phase <= 2
  {
  }

  /** The dispatcher may stop anywhere. */
  lemma StopKeepsInv(subs: SubscriberTable, b: ContextBus.State)
    requires Inv(subs, b)
    ensures Inv(subs, b.(pc := Idle))
  {
    StepKeepsInv(subs, b, Crash);
  }

  lemma LinkedStays(s: System, s': System)
    requires Linked(s) && s'.store == s.store && s'.bus.t == s.bus.t
    ensures Linked(s')
  {
  }

  lemma LocalKeepsBase(subs: SubscriberTable, s: System, a: Action)
    requires Base(subs, s) && !a.Purchase? && !a.Bus?
    ensures Base(subs, Act(subs, s, a))
  {
    var s' := Act(subs, s, a);
    LocalFrame(subs, s, a);
    PhaseBounded(subs, s, a);
    LocalCopies(subs, s, s', a);
    StopKeepsInv(subs, s.bus);
    LinkedStays(s, s');
  }

  lemma DispatchedKeepsBase(subs: SubscriberTable, s: System, s': System, l: Label)
    requires Base(subs, s) && Dispatched(subs, s, s', l)
    ensures Base(subs, s')
  {
    StepKeepsInv(subs, s.bus, l);
    assert Linked(s');
    assert Copies(s') by {
      assert s'.store == s.store && s'.cache == s.cache && s'.sessions == s.sessions && s'.tasks == s.tasks;
    }
  }

  lemma ActKeepsBase(subs: SubscriberTable, s: System, a: Action)
    requires Base(subs, s)
    ensures Base(subs, Act(subs, s, a))
  {
    var s' := Act(subs, s, a);
    if s' != s {
      match a {
        case Purchase(e, _, outboxId) =>
          PurchaseEffect(subs, s, a);
          BoughtKeepsBase(subs, s, s', e.customerId, outboxId, e.occurredAt);
        case Bus(l) =>
          BusAct(subs, s, l);
          DispatchedKeepsBase(subs, s, s', l);
        case _ => LocalKeepsBase(subs, s, a);
      }
    }
  }

  ghost predicate Initial(subs: SubscriberTable, s: System) {
    && Registered(subs) && Fresh(s.store) && s.bus == EMPTY
    && s.cache == map[] && s.sessions == map[] && s.tasks == map[] && s.phase == 0
  }

  lemma InitialIsBase(subs: SubscriberTable, s: System)
    requires Initial(subs, s)
    ensures Base(subs, s)
  {
    assert Inv(subs, EMPTY);
  }

  lemma {:induction false} RunKeepsBase(subs: SubscriberTable, s: System, actions: seq<Action>)
    requires Base(subs, s)
    ensures Base(subs, Run(subs, s, actions))
    decreases |actions|
  {
    if actions != [] {
      RunKeepsBase(subs, s, actions[..|actions| - 1]);
      ActKeepsBase(subs, Run(subs, s, actions[..|actions| - 1]), actions[|actions| - 1]);
    }
  }
}
