/** When the projections agree with the customer row: the exact condition on write-backs. */
module CacheCoherence {
  import opened Basics
  import opened ContextBus
  import opened ProjectionStores
  import opened CacheSystem

  // ---------------------------------------------------------------- agreement

  /** Some notice of the customer is not yet delivered to the profile subscriber. */
  ghost predicate Undelivered(s: System, c: string) {
    exists id :: id in s.store.outbox && s.store.outbox[id].customerId == c && !Done(s.bus.t, id, PROFILE)
  }

  /** A projection of c at version v is the row's version, unless a notice is still under way. */
  ghost predicate Agrees(s: System, c: string, v: int) {
    && c in s.store.customers && v <= s.store.customers[c].profileVersion
    && (!Undelivered(s, c) ==> v == s.store.customers[c].profileVersion)
  }

  ghost predicate AllAgree(s: System) {
    && (forall k :: k in s.cache ==> Agrees(s, k.1, s.cache[k]))
    && (forall id :: id in s.sessions && s.sessions[id].context.Some? ==>
          Agrees(s, s.sessions[id].customerId, s.sessions[id].context.value))
  }

  predicate Writes(a: Action) {
    a.WriteCache? || a.WriteSession?
  }

  predicate WriteFree(actions: seq<Action>) {
    forall i :: 0 <= i < |actions| ==> !Writes(actions[i])
  }

  /** The projections agree now and however the system goes on, as long as nothing is written back. */
  ghost predicate StaysAgreed(subs: SubscriberTable, s: System) {
    forall more :: WriteFree(more) ==> AllAgree(Run(subs, s, more))
  }

  // ---------------------------------------------------------------- the condition

  /** Some notice of the customer has still to clear the store of this stage. */
  ghost predicate Waiting(subs: SubscriberTable, s: System, c: string, stage: nat) {
    exists id :: id in s.store.outbox && s.store.outbox[id].customerId == c && !Passed(subs, s, id, stage)
  }

  /** Version v is the row's, or whatever is stored for c will still be cleared. */
  ghost predicate Safe(subs: SubscriberTable, s: System, c: string, v: int, stage: nat) {
    (c in s.store.customers && v == s.store.customers[c].profileVersion) || Waiting(subs, s, c, stage)
  }

  ghost predicate AllSafe(subs: SubscriberTable, s: System) {
    && (forall k :: k in s.cache ==> Safe(subs, s, k.1, s.cache[k], 1))
    && (forall id :: id in s.sessions && s.sessions[id].context.Some? ==>
          Safe(subs, s, s.sessions[id].customerId, s.sessions[id].context.value, 2))
  }

  /** A write-back is timely when it stores the row's version, or a notice of its customer has still
      to clear that store. */
  ghost predicate Timely(subs: SubscriberTable, s: System, a: Action) {
    match a
    case WriteCache(task, _) =>
      task in s.tasks && s.tasks[task].fromRow ==> Safe(subs, s, s.tasks[task].customerId, s.tasks[task].version, 1)
    case WriteSession(task, session, _) =>
      task in s.tasks && Writable(s.sessions, session, s.tasks[task].customerId) ==>
        Safe(subs, s, s.tasks[task].customerId, s.tasks[task].version, 2)
    case _ => true
  }

  // ---------------------------------------------------------------- one action

  lemma BoughtKeepsSafe(
    subs: SubscriberTable, s: System, s': System, buyer: string, id: string, at: int, c: string, v: int, stage: nat)
    requires Base(subs, s) && Bought(subs, s, s', buyer, id, at) && Safe(subs, s, c, v, stage)
    ensures Safe(subs, s', c, v, stage)
  {
    if c == buyer {
      if Passed(subs, s', id, stage) { BoughtPasses(subs, s, s', buyer, id, at, id, stage); }
      assert id in s'.store.outbox && s'.store.outbox[id].customerId == c && !Passed(subs, s', id, stage);
    } else if Waiting(subs, s, c, stage) {
      var n :| n in s.store.outbox && s.store.outbox[n].customerId == c && !Passed(subs, s, n, stage);
      if Passed(subs, s', n, stage) { BoughtPasses(subs, s, s', buyer, id, at, n, stage); }
      assert n in s'.store.outbox && s'.store.outbox[n].customerId == c && !Passed(subs, s', n, stage);
    }
  }

  lemma DispatchedKeepsSafe(subs: SubscriberTable, s: System, s': System, l: Label, c: string, v: int, stage: nat)
    requires Base(subs, s) && Dispatched(subs, s, s', l) && 1 <= stage <= 2 && Safe(subs, s, c, v, stage)
    ensures Safe(subs, s', c, v, stage)
  {
    if Waiting(subs, s, c, stage) {
      var n :| n in s.store.outbox && s.store.outbox[n].customerId == c && !Passed(subs, s, n, stage);
      if Passed(subs, s', n, stage) { BusStepPasses(subs, s, l, s'.bus, s', n, stage); }
      assert n in s'.store.outbox && s'.store.outbox[n].customerId == c && !Passed(subs, s', n, stage);
    }
  }

  lemma ClearKeepsSafe(subs: SubscriberTable, s: System, s': System, c: string, v: int, stage: nat)
    requires Handled(subs, s).Some? && s'.store == s.store && s'.bus == s.bus && s'.phase == s.phase + 1
    requires stage != s'.phase || s.store.outbox[Handled(subs, s).value].customerId != c
    requires Safe(subs, s, c, v, stage)
    ensures Safe(subs, s', c, v, stage)
  {
    if Waiting(subs, s, c, stage) {
      var n :| n in s.store.outbox && s.store.outbox[n].customerId == c && !Passed(subs, s, n, stage);
      if Passed(subs, s', n, stage) { ClearPasses(subs, s, s', n, stage); }
      assert n in s'.store.outbox && s'.store.outbox[n].customerId == c && !Passed(subs, s', n, stage);
    }
  }

  /** Nothing has cleared that had not before, when the dispatcher stands still or stops. */
  lemma SameSafe(subs: SubscriberTable, s: System, s': System, c: string, v: int, stage: nat)
    requires s'.store == s.store && s'.phase == s.phase && (s'.bus == s.bus || s'.bus == s.bus.(pc := Idle))
    requires Safe(subs, s, c, v, stage)
    ensures Safe(subs, s', c, v, stage)
  {
    if Waiting(subs, s, c, stage) {
      var n :| n in s.store.outbox && s.store.outbox[n].customerId == c && !Passed(subs, s, n, stage);
      assert n in s'.store.outbox && s'.store.outbox[n].customerId == c && !Passed(subs, s', n, stage);
    }
  }

  /** The projections of s' were in s already, and whatever was safe there is safe here. */
  lemma StillSafe(subs: SubscriberTable, s: System, s': System)
    requires AllSafe(subs, s)
    requires forall k :: k in s'.cache ==> k in s.cache && s'.cache[k] == s.cache[k]
    requires forall id :: id in s'.sessions && s'.sessions[id].context.Some? ==>
      id in s.sessions && s'.sessions[id] == s.sessions[id]
    requires forall k :: k in s'.cache && Safe(subs, s, k.1, s.cache[k], 1) ==> Safe(subs, s', k.1, s.cache[k], 1)
    requires forall id :: id in s'.sessions && s'.sessions[id].context.Some? ==>
      Safe(subs, s, s.sessions[id].customerId, s.sessions[id].context.value, 2) ==>
        Safe(subs, s', s.sessions[id].customerId, s.sessions[id].context.value, 2)
    ensures AllSafe(subs, s')
  {
  }

  lemma PurchaseKeepsSafe(subs: SubscriberTable, s: System, a: Action)
    requires Base(subs, s) && AllSafe(subs, s) && a.Purchase?
    ensures AllSafe(subs, Act(subs, s, a))
  {
    var s' := Act(subs, s, a);
    if s' != s {
      PurchaseEffect(subs, s, a);
      forall c, v, stage: nat | Safe(subs, s, c, v, stage) ensures Safe(subs, s', c, v, stage) {
        BoughtKeepsSafe(subs, s, s', a.e.customerId, a.outboxId, a.e.occurredAt, c, v, stage);
      }
      StillSafe(subs, s, s');
    }
  }

  lemma BusKeepsSafe(subs: SubscriberTable, s: System, l: Label)
    requires Base(subs, s) && AllSafe(subs, s)
    ensures AllSafe(subs, Act(subs, s, Bus(l)))
  {
    var s' := Act(subs, s, Bus(l));
    BusAct(subs, s, l);
    if s' != s {
      forall c, v, stage: nat | 1 <= stage <= 2 && Safe(subs, s, c, v, stage) ensures Safe(subs, s', c, v, stage) {
        DispatchedKeepsSafe(subs, s, s', l, c, v, stage);
      }
      StillSafe(subs, s, s');
    }
  }

  /** A clearing removes what its own event no longer protects. */
  lemma ClearRemoves(subs: SubscriberTable, s: System, a: Action)
    requires (a.ClearCache? || a.ClearSessions?) && Act(subs, s, a) != s
    ensures
      var s' := Act(subs, s, a);
      && Handled(subs, s).Some? && s'.store == s.store && s'.bus == s.bus && s'.phase == s.phase + 1 <= 2
      && var owner := s.store.outbox[Handled(subs, s).value].customerId;
      && (forall k :: k in s'.cache ==> k in s.cache && s'.cache[k] == s.cache[k] && (s'.phase == 1 ==> k.1 != owner))
      && (forall id :: id in s'.sessions && s'.sessions[id].context.Some? ==>
            && id in s.sessions && s'.sessions[id] == s.sessions[id]
            && (s'.phase == 2 ==> s.sessions[id].customerId != owner))
  {
  }

  lemma ClearKeepsAllSafe(subs: SubscriberTable, s: System, a: Action)
    requires AllSafe(subs, s) && (a.ClearCache? || a.ClearSessions?)
    ensures AllSafe(subs, Act(subs, s, a))
  {
    var s' := Act(subs, s, a);
    if s' != s {
      ClearRemoves(subs, s, a);
      forall k | k in s'.cache && Safe(subs, s, k.1, s.cache[k], 1) ensures Safe(subs, s', k.1, s.cache[k], 1) {
        ClearKeepsSafe(subs, s, s', k.1, s.cache[k], 1);
      }
      forall id | id in s'.sessions && s'.sessions[id].context.Some? &&
                  Safe(subs, s, s.sessions[id].customerId, s.sessions[id].context.value, 2)
        ensures Safe(subs, s', s.sessions[id].customerId, s.sessions[id].context.value, 2)
      {
        ClearKeepsSafe(subs, s, s', s.sessions[id].customerId, s.sessions[id].context.value, 2);
      }
      StillSafe(subs, s, s');
    }
  }

  lemma NoNewProjections(subs: SubscriberTable, s: System, a: Action)
    requires !a.Purchase? && !a.Bus? && !a.ClearCache? && !a.ClearSessions? && !Writes(a)
    ensures
      var s' := Act(subs, s, a);
      && (forall k :: k in s'.cache ==> k in s.cache && s'.cache[k] == s.cache[k])
      && (forall id :: id in s'.sessions && s'.sessions[id].context.Some? ==>
            id in s.sessions && s'.sessions[id] == s.sessions[id])
  {
  }

  lemma OtherKeepsSafe(subs: SubscriberTable, s: System, a: Action)
    requires AllSafe(subs, s) && !a.Purchase? && !a.Bus? && !a.ClearCache? && !a.ClearSessions? && !Writes(a)
    ensures AllSafe(subs, Act(subs, s, a))
  {
    var s' := Act(subs, s, a);
    LocalFrame(subs, s, a);
    NoNewProjections(subs, s, a);
    forall c, v, stage: nat | Safe(subs, s, c, v, stage) ensures Safe(subs, s', c, v, stage) {
      SameSafe(subs, s, s', c, v, stage);
    }
    StillSafe(subs, s, s');
  }

  /** No action but a write-back can make a safe projection unsafe. */
  lemma WriteFreeKeepsSafe(subs: SubscriberTable, s: System, a: Action)
    requires Base(subs, s) && AllSafe(subs, s) && !Writes(a)
    ensures AllSafe(subs, Act(subs, s, a))
  {
    match a {
      case Purchase(_, _, _) => PurchaseKeepsSafe(subs, s, a);
      case Bus(l) => BusKeepsSafe(subs, s, l);
      case ClearCache => ClearKeepsAllSafe(subs, s, a);
      case ClearSessions => ClearKeepsAllSafe(subs, s, a);
      case _ => OtherKeepsSafe(subs, s, a);
    }
  }

  lemma CacheWritten(subs: SubscriberTable, s: System, s': System, k: CacheKey, v: int)
    requires AllSafe(subs, s) && s' == s.(cache := s.cache[k := v])
    ensures AllSafe(subs, s') <==> Safe(subs, s, k.1, v, 1)
  {
    SameBothWays(subs, s, s');
    assert s'.cache[k] == v;
  }

  lemma SessionWritten(subs: SubscriberTable, s: System, s': System, session: string, row: SessionRow)
    requires AllSafe(subs, s) && s' == s.(sessions := s.sessions[session := row]) && row.context.Some?
    ensures AllSafe(subs, s') <==> Safe(subs, s, row.customerId, row.context.value, 2)
  {
    SameBothWays(subs, s, s');
    assert s'.sessions[session] == row;
  }

  lemma SameBothWays(subs: SubscriberTable, s: System, s': System)
    requires s'.store == s.store && s'.phase == s.phase && s'.bus == s.bus
    ensures forall c, v, stage: nat :: Safe(subs, s', c, v, stage) == Safe(subs, s, c, v, stage)
  {
    forall c, v, stage: nat ensures Safe(subs, s', c, v, stage) == Safe(subs, s, c, v, stage) {
      if Safe(subs, s, c, v, stage) { SameSafe(subs, s, s', c, v, stage); }
      if Safe(subs, s', c, v, stage) { SameSafe(subs, s', s, c, v, stage); }
    }
  }

  lemma WriteIsSafeIffTimely(subs: SubscriberTable, s: System, a: Action)
    requires AllSafe(subs, s) && Writes(a)
    ensures AllSafe(subs, Act(subs, s, a)) <==> Timely(subs, s, a)
  {
    var s' := Act(subs, s, a);
    if a.task in s.tasks {
      var task := s.tasks[a.task];
      if a.WriteCache? && task.fromRow {
        CacheWritten(subs, s, s', (a.session, task.customerId), task.version);
      } else if a.WriteSession? && Writable(s.sessions, a.session, task.customerId) {
        var row := SessionRow(task.customerId, Some(task.version), LastTurns(a.turns));
        SessionWritten(subs, s, s', a.session, row);
      }
    }
  }

  lemma ActIsSafeIffTimely(subs: SubscriberTable, s: System, a: Action)
    requires Base(subs, s) && AllSafe(subs, s)
    ensures AllSafe(subs, Act(subs, s, a)) <==> Timely(subs, s, a)
  {
    if Writes(a) {
      WriteIsSafeIffTimely(subs, s, a);
    } else {
      WriteFreeKeepsSafe(subs, s, a);
    }
  }

  // ---------------------------------------------------------------- safe means agreed for good

  lemma SafeAgrees(subs: SubscriberTable, s: System, c: string, v: int, stage: nat)
    requires Copy(s.store, c, v) && Safe(subs, s, c, v, stage)
    ensures Agrees(s, c, v)
  {
    if Waiting(subs, s, c, stage) {
      var id :| id in s.store.outbox && s.store.outbox[id].customerId == c && !Passed(subs, s, id, stage);
      assert !Done(s.bus.t, id, PROFILE);
    }
  }

  lemma AllSafeAgree(subs: SubscriberTable, s: System)
    requires Base(subs, s) && AllSafe(subs, s)
    ensures AllAgree(s)
  {
    forall k | k in s.cache ensures Agrees(s, k.1, s.cache[k]) {
      SafeAgrees(subs, s, k.1, s.cache[k], 1);
    }
    forall id | id in s.sessions && s.sessions[id].context.Some?
      ensures Agrees(s, s.sessions[id].customerId, s.sessions[id].context.value)
    {
      SafeAgrees(subs, s, s.sessions[id].customerId, s.sessions[id].context.value, 2);
    }
  }

  lemma {:induction false} WriteFreeRunKeepsSafe(subs: SubscriberTable, s: System, more: seq<Action>)
    requires Base(subs, s) && AllSafe(subs, s) && WriteFree(more)
    ensures Base(subs, Run(subs, s, more)) && AllSafe(subs, Run(subs, s, more))
    decreases |more|
  {
    if more != [] {
      var front, a := more[..|more| - 1], more[|more| - 1];
      WriteFreeRunKeepsSafe(subs, s, front);
      ActKeepsBase(subs, Run(subs, s, front), a);
      WriteFreeKeepsSafe(subs, Run(subs, s, front), a);
    }
  }

  // ---------------------------------------------------------------- unsafe means disagreement is near

  /** Every notice of c has cleared the store of this stage. */
  ghost predicate Cleared(subs: SubscriberTable, s: System, c: string, stage: nat) {
    forall id :: id in s.store.outbox && s.store.outbox[id].customerId == c ==> Passed(subs, s, id, stage)
  }

  /** Only the store, the cache and the sessions decide agreement, apart from what is delivered. */
  ghost predicate SameProjections(s: System, s': System, stage: nat) {
    s'.store == s.store && s'.cache == s.cache && (stage == 2 ==> s'.sessions == s.sessions)
  }

  lemma ClearingEnds(subs: SubscriberTable, s: System, id: string)
    requires Base(subs, s) && Handled(subs, s) == Some(id) && s.phase == 1
    ensures
      var s' := Act(subs, s, ClearSessions);
      && Base(subs, s') && s'.bus == s.bus && s'.phase == 2 && SameProjections(s, s', 1) &&
        Handled(subs, s') == Some(id)
  {
    LocalKeepsBase(subs, s, ClearSessions);
  }

  lemma ReturnEffect(subs: SubscriberTable, s: System, id: string)
    requires Handled(subs, s) == Some(id) && s.phase == 2
    ensures
      var s' := Act(subs, s, Bus(Return("")));
      Dispatched(subs, s, s', Return("")) && s'.bus.pc.Returned? && s'.bus.t == s.bus.t && AtProfile(subs, s'.bus, id)
  {
  }

  lemma HandlerReturns(subs: SubscriberTable, s: System, id: string)
    requires Base(subs, s) && Handled(subs, s) == Some(id) && s.phase == 2
    ensures
      var s' := Act(subs, s, Bus(Return("")));
      && Base(subs, s') && SameProjections(s, s', 2) && s'.bus.t == s.bus.t
      && s'.bus.pc.Returned? && AtProfile(subs, s'.bus, id)
  {
    ReturnEffect(subs, s, id);
    DispatchedKeepsBase(subs, s, Act(subs, s, Bus(Return(""))), Return(""));
  }

  /** Completing a delivery that has returned, on the bus alone. */
  lemma BusCompletes(subs: SubscriberTable, b: ContextBus.State, id: string)
    requires Inv(subs, b) && b.pc.Returned? && AtProfile(subs, b, id)
    ensures
      var b' := Step(subs, b, Complete);
      Done(b'.t, id, PROFILE) && forall n :: Done(b.t, n, PROFILE) ==> Done(b'.t, n, PROFILE)
  {
    StepKeepsInv(subs, b, Complete);
  }

  lemma DeliveryCompletes(subs: SubscriberTable, s: System, id: string)
    requires Base(subs, s) && s.bus.pc.Returned? && AtProfile(subs, s.bus, id)
    ensures
      var s' := Act(subs, s, Bus(Complete));
      && SameProjections(s, s', 2) && Done(s'.bus.t, id, PROFILE)
      && forall n :: Done(s.bus.t, n, PROFILE) ==> Done(s'.bus.t, n, PROFILE)
  {
    BusAct(subs, s, Complete);
    BusCompletes(subs, s.bus, id);
  }

  /** What delivering the notice leaves as it was. */
  ghost predicate Delivers(s: System, s': System, id: string, stage: nat) {
    && SameProjections(s, s', stage) && Done(s'.bus.t, id, PROFILE)
    && forall n :: Done(s.bus.t, n, PROFILE) ==> Done(s'.bus.t, n, PROFILE)
  }

  lemma HandlerAnswers(subs: SubscriberTable, s: System, id: string) returns (more: seq<Action>)
    requires Base(subs, s) && Handled(subs, s) == Some(id) && s.phase == 2
    ensures WriteFree(more) && |more| == 2 && Delivers(s, Run(subs, s, more), id, 2)
  {
    HandlerReturns(subs, s, id);
    DeliveryCompletes(subs, Act(subs, s, Bus(Return(""))), id);
    RunTwo(subs, s, Bus(Return("")), Bus(Complete));
    more := [Bus(Return("")), Bus(Complete)];
  }

  lemma HandlerClearsAndAnswers(subs: SubscriberTable, s: System, id: string) returns (more: seq<Action>)
    requires Base(subs, s) && Handled(subs, s) == Some(id) && s.phase == 1
    ensures WriteFree(more) && |more| == 3 && Delivers(s, Run(subs, s, more), id, 1)
  {
    ClearingEnds(subs, s, id);
    var s1 := Act(subs, s, ClearSessions);
    var rest := HandlerAnswers(subs, s1, id);
    RunOne(subs, s, ClearSessions);
    RunConcat(subs, s, [ClearSessions], rest);
    more := [ClearSessions] + rest;
  }

  lemma ReturnedDelivers(subs: SubscriberTable, s: System, id: string) returns (more: seq<Action>)
    requires Base(subs, s) && s.bus.pc.Returned? && AtProfile(subs, s.bus, id)
    ensures WriteFree(more) && |more| == 1 && Delivers(s, Run(subs, s, more), id, 2)
  {
    DeliveryCompletes(subs, s, id);
    RunOne(subs, s, Bus(Complete));
    more := [Bus(Complete)];
  }

  /** Where the dispatcher is with a notice that has cleared a store but is not delivered. */
  lemma InHand(subs: SubscriberTable, s: System, id: string, stage: nat)
    requires Base(subs, s) && Passed(subs, s, id, stage) && !Done(s.bus.t, id, PROFILE) && 1 <= stage <= 2
    ensures
      || (s.bus.pc.Returned? && AtProfile(subs, s.bus, id))
      || (Handled(subs, s) == Some(id) && s.phase == 2)
      || (Handled(subs, s) == Some(id) && s.phase == 1 && stage == 1)
  {
  }

  /** The dispatcher ends the profile handler it is in: at most three steps, none of them a write. */
  lemma HandlerFinishes(subs: SubscriberTable, s: System, id: string, stage: nat) returns (more: seq<Action>)
    requires Base(subs, s) && Passed(subs, s, id, stage) && !Done(s.bus.t, id, PROFILE) && 1 <= stage <= 2
    ensures WriteFree(more) && |more| <= 3 && Delivers(s, Run(subs, s, more), id, stage)
  {
    InHand(subs, s, id, stage);
    if s.bus.pc.Returned? {
      more := ReturnedDelivers(subs, s, id);
    } else if s.phase == 2 {
      more := HandlerAnswers(subs, s, id);
    } else {
      more := HandlerClearsAndAnswers(subs, s, id);
    }
  }

  /** Two different notices are never in the hands of the dispatcher at once. */
  lemma OneInHand(subs: SubscriberTable, s: System, a: string, b: string, stage: nat)
    requires Passed(subs, s, a, stage) && Passed(subs, s, b, stage) && a != b
    ensures Done(s.bus.t, a, PROFILE) || Done(s.bus.t, b, PROFILE)
  {
  }

  /** Once every notice of c has cleared a store, a few more steps deliver them all. */
  lemma NoticesDeliver(subs: SubscriberTable, s: System, c: string, stage: nat) returns (more: seq<Action>)
    requires Base(subs, s) && Cleared(subs, s, c, stage) && 1 <= stage <= 2
    ensures WriteFree(more) && |more| <= 3
    ensures SameProjections(s, Run(subs, s, more), stage) && !Undelivered(Run(subs, s, more), c)
  {
    more := [];
    if id :| id in s.store.outbox && s.store.outbox[id].customerId == c && !Done(s.bus.t, id, PROFILE) {
      more := HandlerFinishes(subs, s, id, stage);
      var s' := Run(subs, s, more);
      forall n | n in s'.store.outbox && s'.store.outbox[n].customerId == c ensures Done(s'.bus.t, n, PROFILE) {
        if n != id { OneInHand(subs, s, id, n, stage); }
      }
    }
  }

  lemma UnsafeCacheDisagrees(subs: SubscriberTable, s: System, k: CacheKey) returns (more: seq<Action>)
    requires Base(subs, s) && k in s.cache && !Safe(subs, s, k.1, s.cache[k], 1)
    ensures WriteFree(more) && !AllAgree(Run(subs, s, more))
  {
    more := NoticesDeliver(subs, s, k.1, 1);
    assert !Agrees(Run(subs, s, more), k.1, Run(subs, s, more).cache[k]);
  }

  lemma UnsafeSessionDisagrees(subs: SubscriberTable, s: System, id: string) returns (more: seq<Action>)
    requires Base(subs, s) && id in s.sessions && s.sessions[id].context.Some?
    requires !Safe(subs, s, s.sessions[id].customerId, s.sessions[id].context.value, 2)
    ensures WriteFree(more) && !AllAgree(Run(subs, s, more))
  {
    var row := s.sessions[id];
    more := NoticesDeliver(subs, s, row.customerId, 2);
    assert Run(subs, s, more).sessions[id] == row;
    assert !Agrees(Run(subs, s, more), row.customerId, row.context.value);
  }

  /** The projections stay agreed however the system goes on without write-backs if and only if each
      of them is the row's version or belongs to a customer with a notice still to clear it. */
  lemma StaysAgreedIff(subs: SubscriberTable, s: System)
    requires Base(subs, s)
    ensures StaysAgreed(subs, s) <==> AllSafe(subs, s)
  {
    if AllSafe(subs, s) {
      forall more | WriteFree(more) ensures AllAgree(Run(subs, s, more)) {
        WriteFreeRunKeepsSafe(subs, s, more);
        AllSafeAgree(subs, Run(subs, s, more));
      }
    } else if k :| k in s.cache && !Safe(subs, s, k.1, s.cache[k], 1) {
      var more := UnsafeCacheDisagrees(subs, s, k);
      assert !AllAgree(Run(subs, s, more));
    } else {
      var id :| id in s.sessions && s.sessions[id].context.Some? &&
        !Safe(subs, s, s.sessions[id].customerId, s.sessions[id].context.value, 2);
      var more := UnsafeSessionDisagrees(subs, s, id);
      assert !AllAgree(Run(subs, s, more));
    }
  }

  // ---------------------------------------------------------------- every run

  /** From a state that stays agreed, an action leaves one that does not if and only if it is an
      untimely write-back. */
  lemma OnlyUntimelyWritesBreakAgreement(subs: SubscriberTable, s: System, a: Action)
    requires Base(subs, s) && StaysAgreed(subs, s)
    ensures StaysAgreed(subs, Act(subs, s, a)) <==> Timely(subs, s, a)
  {
    ActKeepsBase(subs, s, a);
    StaysAgreedIff(subs, s);
    StaysAgreedIff(subs, Act(subs, s, a));
    ActIsSafeIffTimely(subs, s, a);
  }

  /** Every write-back of the run is timely. */
  ghost predicate TimelyRun(subs: SubscriberTable, s: System, actions: seq<Action>) {
    actions == [] ||
    (var front := actions[..|actions| - 1];
     TimelyRun(subs, s, front) && Timely(subs, Run(subs, s, front), actions[|actions| - 1]))
  }

  /** After every action of the run the projections stay agreed. */
  ghost predicate AgreedThroughout(subs: SubscriberTable, s: System, actions: seq<Action>) {
    && StaysAgreed(subs, Run(subs, s, actions))
    && (actions == [] || AgreedThroughout(subs, s, actions[..|actions| - 1]))
  }

  lemma InitialIsAgreed(subs: SubscriberTable, s: System)
    requires Initial(subs, s)
    ensures Base(subs, s) && StaysAgreed(subs, s)
  {
    InitialIsBase(subs, s);
    StaysAgreedIff(subs, s);
  }

  /** Over every run of purchases, deliveries, handler failures, crashes, restarts, profile builds and
      chat turns: the projections stay agreed throughout if and only if every write-back is timely. */
  lemma {:induction false} AgreedIffTimely(subs: SubscriberTable, s0: System, actions: seq<Action>)
    requires Initial(subs, s0)
    ensures AgreedThroughout(subs, s0, actions) <==> TimelyRun(subs, s0, actions)
    decreases |actions|
  {
    if actions == [] {
      InitialIsAgreed(subs, s0);
    } else {
      var front := actions[..|actions| - 1];
      AgreedIffTimely(subs, s0, front);
      if AgreedThroughout(subs, s0, front) {
        InitialIsBase(subs, s0);
        RunKeepsBase(subs, s0, front);
        OnlyUntimelyWritesBreakAgreement(subs, Run(subs, s0, front), actions[|actions| - 1]);
      }
    }
  }

  /** So after every run of timely write-backs a cached or session profile older than the row means an
      undelivered notice, and once all are delivered every version is the row's. */
  lemma ProjectionsAgree(subs: SubscriberTable, s0: System, actions: seq<Action>)
    requires Initial(subs, s0) && TimelyRun(subs, s0, actions)
    ensures AllAgree(Run(subs, s0, actions))
  {
    AgreedIffTimely(subs, s0, actions);
    assert WriteFree([]) && Run(subs, Run(subs, s0, actions), []) == Run(subs, s0, actions);
  }

  // ---------------------------------------------------------------- atomic builds and turns

  /** No build or turn is in flight for the customer a profile handler is clearing. */
  ghost predicate Quiet(subs: SubscriberTable, s: System, a: Action) {
    (a.ClearCache? || a.ClearSessions?) && Handled(subs, s).Some? ==>
      forall t :: t in s.tasks ==> s.tasks[t].customerId != s.store.outbox[Handled(subs, s).value].customerId
  }

  ghost predicate QuietRun(subs: SubscriberTable, s: System, actions: seq<Action>) {
    actions == [] ||
    (var front := actions[..|actions| - 1];
     QuietRun(subs, s, front) && Quiet(subs, Run(subs, s, front), actions[|actions| - 1]))
  }

  function StageOf(task: Task): nat {
    if task.fromRow then 1 else 2
  }

  ghost predicate TasksSafe(subs: SubscriberTable, s: System) {
    forall t :: t in s.tasks ==> Safe(subs, s, s.tasks[t].customerId, s.tasks[t].version, StageOf(s.tasks[t]))
  }

  lemma PurchaseKeepsTasks(subs: SubscriberTable, s: System, a: Action)
    requires Base(subs, s) && TasksSafe(subs, s) && a.Purchase?
    ensures TasksSafe(subs, Act(subs, s, a))
  {
    var s' := Act(subs, s, a);
    if s' != s {
      PurchaseEffect(subs, s, a);
      forall c, v, stage: nat | Safe(subs, s, c, v, stage) ensures Safe(subs, s', c, v, stage) {
        BoughtKeepsSafe(subs, s, s', a.e.customerId, a.outboxId, a.e.occurredAt, c, v, stage);
      }
    }
  }

  lemma BusKeepsTasks(subs: SubscriberTable, s: System, l: Label)
    requires Base(subs, s) && TasksSafe(subs, s)
    ensures TasksSafe(subs, Act(subs, s, Bus(l)))
  {
    var s' := Act(subs, s, Bus(l));
    BusAct(subs, s, l);
    if s' != s {
      forall t | t in s'.tasks
        ensures Safe(subs, s', s'.tasks[t].customerId, s'.tasks[t].version, StageOf(s'.tasks[t]))
      {
        var task := s.tasks[t];
        DispatchedKeepsSafe(subs, s, s', l, task.customerId, task.version, StageOf(task));
      }
    }
  }

  lemma ClearKeepsTasks(subs: SubscriberTable, s: System, a: Action)
    requires Base(subs, s) && TasksSafe(subs, s) && (a.ClearCache? || a.ClearSessions?) && Quiet(subs, s, a)
    ensures TasksSafe(subs, Act(subs, s, a))
  {
    var s' := Act(subs, s, a);
    if s' != s {
      forall t | t in s'.tasks
        ensures Safe(subs, s', s'.tasks[t].customerId, s'.tasks[t].version, StageOf(s'.tasks[t]))
      {
        ClearKeepsSafe(subs, s, s', s.tasks[t].customerId, s.tasks[t].version, StageOf(s.tasks[t]));
      }
    }
  }

  lemma LocalKeepsTasks(subs: SubscriberTable, s: System, a: Action)
    requires Base(subs, s) && AllSafe(subs, s) && TasksSafe(subs, s)
    requires !a.Purchase? && !a.Bus? && !a.ClearCache? && !a.ClearSessions?
    ensures TasksSafe(subs, Act(subs, s, a))
  {
    var s' := Act(subs, s, a);
    forall t | t in s'.tasks
      ensures Safe(subs, s', s'.tasks[t].customerId, s'.tasks[t].version, StageOf(s'.tasks[t]))
    {
      var task := s'.tasks[t];
      NewTask(subs, s, a, t);
      LocalFrame(subs, s, a);
      SameSafe(subs, s, s', task.customerId, task.version, StageOf(task));
    }
  }

  /** What clears the sessions has cleared the cache before. */
  lemma LaterStage(subs: SubscriberTable, s: System, c: string, v: int)
    requires Safe(subs, s, c, v, 1)
    ensures Safe(subs, s, c, v, 2)
  {
    if Waiting(subs, s, c, 1) {
      var n :| n in s.store.outbox && s.store.outbox[n].customerId == c && !Passed(subs, s, n, 1);
      assert n in s.store.outbox && s.store.outbox[n].customerId == c && !Passed(subs, s, n, 2);
    }
  }

  lemma NewTask(subs: SubscriberTable, s: System, a: Action, t: string)
    requires Base(subs, s) && AllSafe(subs, s) && TasksSafe(subs, s)
    requires !a.Purchase? && !a.Bus? && !a.ClearCache? && !a.ClearSessions?
    requires t in Act(subs, s, a).tasks
    ensures
      var task := Act(subs, s, a).tasks[t];
      Safe(subs, s, task.customerId, task.version, StageOf(task))
  {
    var task := Act(subs, s, a).tasks[t];
    if t in s.tasks && task == s.tasks[t] {
    } else if a.OpenFromRow? {
      assert task.version == s.store.customers[task.customerId].profileVersion;
    } else if a.OpenFromCache? {
      LaterStage(subs, s, task.customerId, task.version);
    } else {
      assert a.OpenFromSession?;
    }
  }

  lemma QuietStep(subs: SubscriberTable, s: System, a: Action)
    requires Base(subs, s) && AllSafe(subs, s) && TasksSafe(subs, s) && Quiet(subs, s, a)
    ensures Timely(subs, s, a) && TasksSafe(subs, Act(subs, s, a))
  {
    match a {
      case Purchase(_, _, _) => PurchaseKeepsTasks(subs, s, a);
      case Bus(l) => BusKeepsTasks(subs, s, l);
      case ClearCache => ClearKeepsTasks(subs, s, a);
      case ClearSessions => ClearKeepsTasks(subs, s, a);
      case WriteSession(task, _, _) =>
        LocalKeepsTasks(subs, s, a);
        if task in s.tasks && s.tasks[task].fromRow {
          LaterStage(subs, s, s.tasks[task].customerId, s.tasks[task].version);
        }
      case _ => LocalKeepsTasks(subs, s, a);
    }
  }

  lemma {:induction false} QuietRunKeeps(subs: SubscriberTable, s0: System, actions: seq<Action>)
    requires Initial(subs, s0) && QuietRun(subs, s0, actions)
    ensures TimelyRun(subs, s0, actions)
    ensures AllSafe(subs, Run(subs, s0, actions)) && TasksSafe(subs, Run(subs, s0, actions))
    decreases |actions|
  {
    if actions != [] {
      var front, a := actions[..|actions| - 1], actions[|actions| - 1];
      QuietRunKeeps(subs, s0, front);
      InitialIsBase(subs, s0);
      RunKeepsBase(subs, s0, front);
      QuietStep(subs, Run(subs, s0, front), a);
      ActIsSafeIffTimely(subs, Run(subs, s0, front), a);
    }
  }

  /** When no profile build or chat turn of a customer straddles an invalidation of that customer,
      every write-back is timely, so `ProjectionsAgree` applies. */
  lemma AtomicTurnsAreTimely(subs: SubscriberTable, s0: System, actions: seq<Action>)
    requires Initial(subs, s0) && QuietRun(subs, s0, actions)
    ensures TimelyRun(subs, s0, actions)
  {
    QuietRunKeeps(subs, s0, actions);
  }
}
