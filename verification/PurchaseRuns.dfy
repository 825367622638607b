/** Every run of purchase submissions: effectively-once recording and the segment's history. */
module PurchaseRuns {
  import opened Basics
  import opened SegmentClassifier
  import opened CommerceEvents
  import TextWindow

  /** One transaction reaching the store. `commits` is false when it is rolled back or the process
      dies before the commit. Any client may submit any event, any number of times. */
  datatype Request =
    | Submit(e: PurchaseEvent, policy: Policy, outboxId: string, commits: bool)
    | SetAffluence(customerId: string, affluence: Option<string>)

  ghost function Serve(s: Store, r: Request): Store {
    match r
    case Submit(e, policy, outboxId, commits) =>
      if commits then Process(s, e, policy, outboxId).0 else s
    case SetAffluence(id, affluence) =>
      if id in s.customers then s.(customers := s.customers[id := s.customers[id].(affluence := affluence)]) else s
  }

  ghost function Run(s: Store, rs: seq<Request>): Store {
    if rs == [] then s else Serve(Run(s, rs[..|rs| - 1]), rs[|rs| - 1])
  }

  lemma {:induction false} RunConcat(s: Store, xs: seq<Request>, ys: seq<Request>)
    ensures Run(s, xs + ys) == Run(Run(s, xs), ys)
    decreases |ys|
  {
    if ys == [] {
      assert xs + ys == xs;
    } else {
      var front := ys[..|ys| - 1];
      assert (xs + ys)[..|xs + ys| - 1] == xs + front;
      RunConcat(s, xs, front);
    }
  }

  // ---------------------------------------------------------------- effectively once

  function OrdersFrom(s: Store, eventId: string): set<string> {
    set id | id in s.orders && s.orders[id].sourceEventId == Some(eventId)
  }

  function NoticesFrom(s: Store, eventId: string): set<string> {
    set id | id in s.outbox && s.outbox[id].causationId == eventId
  }

  ghost function HistoryFrom(h: seq<HistoryRow>, eventId: string): nat {
    if h == [] then 0
    else HistoryFrom(h[..|h| - 1], eventId) + if h[|h| - 1].sourceEventId == eventId then 1 else 0
  }

  lemma HistoryAppend(h: seq<HistoryRow>, row: HistoryRow, eventId: string)
    ensures HistoryFrom(h + [row], eventId) == HistoryFrom(h, eventId) + if row.sourceEventId == eventId then 1 else 0
  {
    assert (h + [row])[..|h|] == h;
  }

  /** Nothing of this event was ever committed. */
  ghost predicate Untouched(s: Store, eventId: string) {
    && eventId !in s.inbox && OrdersFrom(s, eventId) == {} && NoticesFrom(s, eventId) == {}
    && HistoryFrom(s.history, eventId) == 0
  }

  /** Exactly one of each row, tied together by the stored result. */
  ghost predicate RecordedOnce(s: Store, eventId: string) {
    && eventId in s.inbox
    && s.inbox[eventId].status == COMPLETED && s.inbox[eventId].result.Some?
    && var r := s.inbox[eventId].result.value;
    && !r.replayed && r.eventId == eventId == s.inbox[eventId].payload.eventId
    && OrdersFrom(s, eventId) == {r.orderId}
    && |r.outboxIds| == 1 && NoticesFrom(s, eventId) == {r.outboxIds[0]}
    && s.outbox[r.outboxIds[0]].profileVersion == r.profileVersion
    && s.outbox[r.outboxIds[0]].customerId == r.customerId == s.orders[r.orderId].customerId
    && HistoryFrom(s.history, eventId) == if r.transition.changed then 1 else 0
  }

  ghost predicate OnceInv(s: Store) {
    forall id :: Untouched(s, id) || RecordedOnce(s, id)
  }

  /** A store before its first event; seeded orders name no source event. */
  ghost predicate Fresh(s: Store) {
    && s.inbox == map[] && s.outbox == map[] && s.history == []
    && forall id :: id in s.orders ==> s.orders[id].sourceEventId == None
  }

  /** The rows one committed purchase leaves behind, read off the stores before and after. */
  ghost predicate Committed(s: Store, e: PurchaseEvent, outboxId: string, s': Store, r: PurchaseResult) {
    && e.customerId in s.customers && e.orderId !in s.orders && outboxId !in s.outbox
    && e.orderId in s'.orders && s'.orders == s.orders[e.orderId := s'.orders[e.orderId]]
    && s'.orders[e.orderId] == Order(e.customerId, e.occurredAt, Completed, s'.orders[e.orderId].total, Some(e.eventId))
    && r == ResultOf(s, e, r.purchaseCount, r.transition, outboxId)
    && s'.inbox == s.inbox[e.eventId := InboxRow(e, COMPLETED, Some(r))]
    && var applied := ApplyTransition(s, e, r.purchaseCount, r.transition, outboxId);
    && s'.customers == applied.customers && s'.history == applied.history && s'.outbox == applied.outbox
  }

  /** The count and the transition a committed purchase was recorded with. */
  ghost predicate Evaluated(s: Store, e: PurchaseEvent, policy: Policy, s': Store, r: PurchaseResult) {
    && e.customerId in s.customers && policy.windowDays >= 1
    && r.purchaseCount == |Qualifying(s'.orders, e.customerId, e.occurredAt, policy.windowDays)|
    && TransitionOf(s.customers[e.customerId], r.purchaseCount, policy) == Ok(r.transition)
  }

  /** The staged order is the store with this order's rows in it. */
  lemma StagedOrder(s: Store, e: PurchaseEvent)
    requires FirstUnsellable(s.products, e.items).None?
    ensures
      var staged := WithOrder(s, e);
      && staged == s.(orders := staged.orders, lines := staged.lines) && e.orderId in staged.orders
      && staged.orders == s.orders[e.orderId := staged.orders[e.orderId]]
      && staged.orders[e.orderId] ==
           Order(e.customerId, e.occurredAt, Completed, staged.orders[e.orderId].total, Some(e.eventId))
  {
  }

  lemma SettleCommits(s: Store, staged: Store, e: PurchaseEvent, policy: Policy, outboxId: string)
    requires e.customerId in s.customers && e.orderId !in s.orders && policy.windowDays >= 1
    requires staged == s.(orders := staged.orders, lines := staged.lines) && e.orderId in staged.orders
    requires staged.orders == s.orders[e.orderId := staged.orders[e.orderId]]
    requires staged.orders[e.orderId] ==
      Order(e.customerId, e.occurredAt, Completed, staged.orders[e.orderId].total, Some(e.eventId))
    requires Settle(s, staged, e, policy, outboxId).Ok?
    ensures
      var pair := Settle(s, staged, e, policy, outboxId).value;
      Committed(s, e, outboxId, pair.0, pair.1) && Evaluated(s, e, policy, pair.0, pair.1)
  {
  }

  lemma RecordCommits(s: Store, e: PurchaseEvent, policy: Policy, outboxId: string)
    requires Record(s, e, policy, outboxId).Ok?
    ensures
      var pair := Record(s, e, policy, outboxId).value;
      Committed(s, e, outboxId, pair.0, pair.1) && Evaluated(s, e, policy, pair.0, pair.1)
  {
    StagedOrder(s, e);
    SettleCommits(s, WithOrder(s, e), e, policy, outboxId);
  }

  lemma CommittedOrders(
    s: Store, e: PurchaseEvent, outboxId: string, s': Store, r: PurchaseResult, id: string)
    requires Committed(s, e, outboxId, s', r)
    ensures OrdersFrom(s', id) == OrdersFrom(s, id) + if id == e.eventId then {e.orderId} else {}
    ensures NoticesFrom(s', id) == NoticesFrom(s, id) + if id == e.eventId then {outboxId} else {}
  {
  }

  lemma CommittedHistory(
    s: Store, e: PurchaseEvent, outboxId: string, s': Store, r: PurchaseResult, id: string)
    requires Committed(s, e, outboxId, s', r)
    ensures HistoryFrom(s'.history, id) ==
      HistoryFrom(s.history, id) + if id == e.eventId && r.transition.changed then 1 else 0
  {
    if r.transition.changed {
      HistoryAppend(s.history, s'.history[|s.history|], id);
    }
  }

  lemma CommitRecordsOwn(s: Store, e: PurchaseEvent, outboxId: string, s': Store, r: PurchaseResult)
    requires Committed(s, e, outboxId, s', r) && Untouched(s, e.eventId)
    ensures RecordedOnce(s', e.eventId)
  {
    CommittedOrders(s, e, outboxId, s', r, e.eventId);
    CommittedHistory(s, e, outboxId, s', r, e.eventId);
  }

  lemma CommitKeepsOther(s: Store, e: PurchaseEvent, outboxId: string, s': Store, r: PurchaseResult, id: string)
    requires Committed(s, e, outboxId, s', r) && id != e.eventId
    ensures Untouched(s, id) ==> Untouched(s', id)
    ensures RecordedOnce(s, id) ==> RecordedOnce(s', id)
  {
    CommittedOrders(s, e, outboxId, s', r, id);
    CommittedHistory(s, e, outboxId, s', r, id);
    if RecordedOnce(s, id) {
      var stored := s.inbox[id].result.value;
      assert stored.orderId in OrdersFrom(s, id) && stored.outboxIds[0] in NoticesFrom(s, id);
    }
  }

  /** What no request can undo: a committed event's inbox row. */
  ghost predicate InboxGrows(a: Store, b: Store) {
    forall id :: id in a.inbox ==> id in b.inbox && b.inbox[id] == a.inbox[id]
  }

  lemma ServeKeepsOnce(s: Store, r: Request)
    requires OnceInv(s)
    ensures OnceInv(Serve(s, r)) && InboxGrows(s, Serve(s, r))
  {
    var s' := Serve(s, r);
    match r {
      case Submit(e, policy, outboxId, commits) =>
        if commits && e.eventId !in s.inbox && Record(s, e, policy, outboxId).Ok? {
          var r := Record(s, e, policy, outboxId).value.1;
          RecordCommits(s, e, policy, outboxId);
          assert Untouched(s, e.eventId) || RecordedOnce(s, e.eventId);
          CommitRecordsOwn(s, e, outboxId, s', r);
          forall id ensures Untouched(s', id) || RecordedOnce(s', id) {
            if id != e.eventId {
              CommitKeepsOther(s, e, outboxId, s', r, id);
              assert Untouched(s, id) || RecordedOnce(s, id);
            }
          }
        }
      case SetAffluence(_, _) =>
        forall id
          ensures Untouched(s', id) || RecordedOnce(s', id)
        {
          assert Untouched(s, id) || RecordedOnce(s, id);
          assert OrdersFrom(s', id) == OrdersFrom(s, id) && NoticesFrom(s', id) == NoticesFrom(s, id);
        }
    }
  }

  lemma {:induction false} RunKeepsOnce(s: Store, rs: seq<Request>)
    requires OnceInv(s)
    ensures OnceInv(Run(s, rs)) && InboxGrows(s, Run(s, rs))
  {
    if rs != [] {
      RunKeepsOnce(s, rs[..|rs| - 1]);
      ServeKeepsOnce(Run(s, rs[..|rs| - 1]), rs[|rs| - 1]);
    }
  }

  lemma FreshIsOnce(s: Store)
    requires Fresh(s)
    ensures OnceInv(s)
  {
    forall id ensures Untouched(s, id) {
      assert OrdersFrom(s, id) == {} && NoticesFrom(s, id) == {};
    }
  }

  /** Under any mix of submissions, retries, rollbacks and crashes, an event has left either no
      row at all or exactly one inbox row, order and outbox row, with a history row exactly when
      its transition changed something; and no event is ever left half processed. */
  lemma EffectivelyOnce(s0: Store, rs: seq<Request>, eventId: string)
    requires Fresh(s0)
    ensures Untouched(Run(s0, rs), eventId) || RecordedOnce(Run(s0, rs), eventId)
  {
    FreshIsOnce(s0);
    RunKeepsOnce(s0, rs);
  }

  /** Once a submission was answered, every later one of the same payload gets that answer with
      only the replayed flag set, whatever ran between, and one with another payload is refused;
      neither changes the store. */
  lemma ReplayIsStable(
    s0: Store, before: seq<Request>, e: PurchaseEvent, policy: Policy, outboxId: string,
    between: seq<Request>, e': PurchaseEvent, policy': Policy, outboxId': string)
    requires Fresh(s0) && e'.eventId == e.eventId
    requires Process(Run(s0, before), e, policy, outboxId).1.Ok?
    ensures
      var first := Process(Run(s0, before), e, policy, outboxId);
      var s := Run(first.0, between);
      Process(s, e', policy', outboxId') ==
        (s, if e' == e then Ok(first.1.value.(replayed := true)) else Err(IdempotencyConflict))
  {
    FreshIsOnce(s0);
    RunKeepsOnce(s0, before);
    var first := Process(Run(s0, before), e, policy, outboxId);
    ServeKeepsOnce(Run(s0, before), Submit(e, policy, outboxId, true));
    RunKeepsOnce(first.0, between);
    assert RecordedOnce(first.0, e.eventId);
  }

  /** The order just written is inside its own rolling window, so every recorded purchase counts. */
  lemma OwnPurchaseCounts(s: Store, e: PurchaseEvent, policy: Policy, outboxId: string)
    requires Record(s, e, policy, outboxId).Ok?
    ensures
      Record(s, e, policy, outboxId).value.1.purchaseCount ==
      |Qualifying(s.orders, e.customerId, e.occurredAt, policy.windowDays)| + 1
  {
    RecordCommits(s, e, policy, outboxId);
    CommitCounts(s, e, policy, outboxId, Record(s, e, policy, outboxId).value.0,
      Record(s, e, policy, outboxId).value.1);
  }

  lemma CommitCounts(s: Store, e: PurchaseEvent, policy: Policy, outboxId: string, s': Store, r: PurchaseResult)
    requires Committed(s, e, outboxId, s', r) && Evaluated(s, e, policy, s', r)
    ensures r.purchaseCount == |Qualifying(s.orders, e.customerId, e.occurredAt, policy.windowDays)| + 1
  {
    OwnOrderQualifies(s.orders, s'.orders, e, policy.windowDays);
  }

  lemma OwnOrderQualifies(orders: map<string, Order>, orders': map<string, Order>, e: PurchaseEvent, days: int)
    requires days >= 1 && e.orderId !in orders && e.orderId in orders'
    requires orders' == orders[e.orderId := orders'[e.orderId]]
    requires orders'[e.orderId].customerId == e.customerId && orders'[e.orderId].placedAt == e.occurredAt
    requires orders'[e.orderId].status == Completed
    ensures |Qualifying(orders', e.customerId, e.occurredAt, days)| ==
            |Qualifying(orders, e.customerId, e.occurredAt, days)| + 1
  {
    var others := Qualifying(orders, e.customerId, e.occurredAt, days);
    assert TextWindow.InWindow(e.occurredAt, e.occurredAt, days);
    assert Qualifying(orders', e.customerId, e.occurredAt, days) == others + {e.orderId};
    assert e.orderId !in others;
  }
}
