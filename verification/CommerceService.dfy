/** The purchase transaction as it runs: rows are staged in place and rolled back on any error. */
module CommerceService {
  import opened Basics
  import opened SegmentClassifier
  import opened CommerceEvents

  class CommerceEventService {
    var customers: map<string, Customer>
    var loyalty: map<string, LoyaltyRow>
    var products: map<string, Product>
    var orders: map<string, Order>
    var lines: map<string, OrderLine>
    var inbox: map<string, InboxRow>
    var history: seq<HistoryRow>
    var outbox: map<string, Notice>

    function Current(): Store
      reads this
    {
      Store(customers, loyalty, products, orders, lines, inbox, history, outbox)
    }

    constructor (s: Store)
      ensures Current() == s
    {
      customers, loyalty, products, orders := s.customers, s.loyalty, s.products, s.orders;
      lines, inbox, history, outbox := s.lines, s.inbox, s.history, s.outbox;
    }

    /** `session.rollback()`: every table is again what the last commit left. */
    method Rollback(committed: Store)
      modifies this
      ensures Current() == committed
    {
      customers, loyalty, products, orders := committed.customers, committed.loyalty, committed.products,
        committed.orders;
      lines, inbox, history, outbox := committed.lines, committed.inbox, committed.history, committed.outbox;
    }

    method AddOrder(e: PurchaseEvent, order: Order, rows: seq<OrderLine>)
      requires |rows| == |e.items|
      modifies this`orders, this`lines
      ensures orders == old(orders)[e.orderId := order]
      ensures lines == AddLines(old(lines), e.items, rows)
    {
      var i := 0;
      while i < |rows|
        invariant i <= |rows| && orders == old(orders)
        invariant AddLines(lines, e.items[i..], rows[i..]) == AddLines(old(lines), e.items, rows)
      {
        assert e.items[i..][1..] == e.items[i + 1..] && rows[i..][1..] == rows[i + 1..];
        lines := lines[e.items[i].orderItemId := rows[i]];
        i := i + 1;
      }
      orders := orders[e.orderId := order];
    }

    /** `apply_purchase_policy`: loyalty threshold, segment, versions, history row, outbox row. */
    method ApplyPolicy(
      e: PurchaseEvent, count: nat, policy: Policy, outboxId: string)
      returns (r: Result<Transition, EventError>)
      requires e.customerId in customers
      modifies this
      ensures match TransitionOf(old(customers)[e.customerId], count, policy)
              case Err(error) => r == Err(error)
              case Ok(t) =>
                if !EventKeysFree(old(Current()), e, t.changed, outboxId) then r == Err(IntegrityError)
                else r == Ok(t) && Current() == ApplyTransition(old(Current()), e, count, t, outboxId)
    {
      var id, customer := e.customerId, customers[e.customerId];
      var previous := NormalizeLoyalty(customer.loyalty);
      if previous.None? {
        return Err(SegmentClassification);
      }
      var next := previous.value;
      if previous.value == New && count >= policy.threshold {
        next := Loyal;
      }
      var segment := Classify(customer.affluence, next);
      if segment.None? {
        return Err(SegmentClassification);
      }
      var changed := customer.segment != Some(Canonical(segment.value)) || previous.value != next;
      var t := Transition(customer.segment, segment.value, previous.value, next, changed);
      if !EventKeysFree(Current(), e, changed, outboxId) {
        return Err(IntegrityError);
      }
      var version := NextVersion(customer.profileVersion);
      var updated := Customer(customer.affluence, Some(LoyaltyText(next)), Some(Canonical(segment.value)), version);
      customers := customers[id := updated];
      if id in loyalty {
        loyalty := loyalty[id := loyalty[id].(version := NextVersion(loyalty[id].version))];
      }
      if changed {
        history := history + [HistoryRow(id, customer.segment, segment.value, previous.value, next, count, e.eventId)];
      }
      var eventType := if changed then SegmentChanged else ProfileUpdated;
      outbox := outbox[outboxId := Notice(id, eventType, version, e.eventId, e.occurredAt)];
      r := Ok(t);
    }

    /** `process_purchase` in its write session: all rows or none. */
    method ProcessPurchase(
      e: PurchaseEvent, policy: Policy, outboxId: string)
      returns (r: Result<PurchaseResult, EventError>)
      modifies this
      ensures (Current(), r) == Process(old(Current()), e, policy, outboxId)
    {
      var committed := Current();
      if e.eventId in inbox {
        var row := inbox[e.eventId];
        if row.payload != e {
          return Err(IdempotencyConflict);
        }
        if row.status == COMPLETED && row.result.Some? {
          return Ok(row.result.value.(replayed := true));
        }
        return Err(AlreadyProcessing);
      }
      r := Stage(e, policy, outboxId);
      if r.Err? {
        Rollback(committed);
      }
    }

    /** Everything up to the flush of the order: claim the inbox row, check, price, insert. */
    method StageOrder(e: PurchaseEvent) returns (r: Result<(), EventError>)
      requires e.eventId !in inbox
      modifies this
      ensures
        var s := old(Current());
        r == if e.customerId !in s.customers then Err(CustomerNotFound)
             else if e.orderId in s.orders then Err(IdempotencyConflict)
             else if FirstUnsellable(s.products, e.items).Some? then
               Err(ProductNotFound(FirstUnsellable(s.products, e.items).value))
             else if !OrderKeysFree(s, e) then Err(IntegrityError)
             else Ok(())
      ensures
        r.Ok? ==>
          Current() == WithOrder(old(Current()), e).(inbox := old(inbox)[e.eventId := InboxRow(e, PROCESSING, None)])
    {
      inbox := inbox[e.eventId := InboxRow(e, PROCESSING, None)];
      if e.customerId !in customers {
        return Err(CustomerNotFound);
      }
      if e.orderId in orders {
        return Err(IdempotencyConflict);
      }
      var built := BuildOrder(products, e);
      if built.Err? {
        return Err(built.error);
      }
      if !OrderKeysFree(Current(), e) {
        return Err(IntegrityError);
      }
      AddOrder(e, built.value.0, built.value.1);
      r := Ok(());
    }

    /** Keeps the result in the event's inbox row. */
    method CompleteInbox(e: PurchaseEvent, result: PurchaseResult)
      modifies this`inbox
      ensures inbox == old(inbox)[e.eventId := InboxRow(e, COMPLETED, Some(result))]
      ensures Current() == old(Current()).(inbox := inbox)
    {
      inbox := inbox[e.eventId := InboxRow(e, COMPLETED, Some(result))];
    }

    /** The policy and the rows of a staged order, and the result kept in its inbox row. */
    method SettleOrder(e: PurchaseEvent, policy: Policy, outboxId: string, ghost s: Store)
      returns (r: Result<PurchaseResult, EventError>)
      requires e.customerId in s.customers && e.customerId in customers
      requires customers == s.customers && loyalty == s.loyalty && history == s.history && outbox == s.outbox
      requires inbox == s.inbox[e.eventId := InboxRow(e, PROCESSING, None)]
      modifies this
      ensures Settled(s, old(Current()), e, policy, outboxId, r, Current())
    {
      ghost var staged := Current();
      var count := |Qualifying(orders, e.customerId, e.occurredAt, policy.windowDays)|;
      var version := NextVersion(customers[e.customerId].profileVersion);
      var points := if e.customerId in loyalty then loyalty[e.customerId].points else None;
      var applied := ApplyPolicy(e, count, policy, outboxId);
      if applied.Err? {
        SettleFails(s, staged, e, policy, outboxId, count, applied.error, Current());
        return Err(applied.error);
      }
      var result := PurchaseResult(
        e.eventId, false, e.customerId, e.orderId, count, version, applied.value, points, [outboxId]);
      CompleteInbox(e, result);
      r := Ok(result);
      SettleSucceeds(s, staged, e, policy, outboxId, count, applied.value, result, Current());
    }

    /** The first submission, up to the commit. */
    method Stage(e: PurchaseEvent, policy: Policy, outboxId: string) returns (r: Result<PurchaseResult, EventError>)
      requires e.eventId !in inbox
      modifies this
      ensures match Record(old(Current()), e, policy, outboxId)
              case Err(error) => r == Err(error)
              case Ok(pair) => r == Ok(pair.1) && Current() == pair.0
    {
      ghost var before := Current();
      var staged := StageOrder(e);
      if staged.Err? {
        return Err(staged.error);
      }
      if policy.windowDays < 1 {
        return Err(InvalidPolicy);
      }
      assert Current().(inbox := before.inbox) == WithOrder(before, e);
      r := SettleOrder(e, policy, outboxId, before);
    }
  }

  /** The answer and the tables after settling are those of the transaction. */
  ghost predicate Settled(
    s: Store, staged: Store, e: PurchaseEvent, policy: Policy, outboxId: string,
    r: Result<PurchaseResult, EventError>, now: Store)
    requires e.customerId in s.customers && e.customerId in staged.customers
  {
    match Settle(s, staged.(inbox := s.inbox), e, policy, outboxId)
    case Err(error) => r == Err(error)
    case Ok(pair) => r == Ok(pair.1) && now == pair.0
  }

  lemma SettleFails(
    s: Store, staged: Store, e: PurchaseEvent, policy: Policy, outboxId: string, count: nat, error: EventError,
    now: Store)
    requires e.customerId in s.customers && staged.customers == s.customers
    requires staged.history == s.history && staged.outbox == s.outbox
    requires count == |Qualifying(staged.orders, e.customerId, e.occurredAt, policy.windowDays)|
    requires
      match TransitionOf(s.customers[e.customerId], count, policy)
      case Err(e') => error == e'
      case Ok(t) => !EventKeysFree(staged, e, t.changed, outboxId) && error == IntegrityError
    ensures Settled(s, staged, e, policy, outboxId, Err(error), now)
  {
  }

  lemma SettleSucceeds(
    s: Store, staged: Store, e: PurchaseEvent, policy: Policy, outboxId: string, count: nat, t: Transition,
    result: PurchaseResult, now: Store)
    requires e.customerId in s.customers && staged.customers == s.customers && staged.loyalty == s.loyalty
    requires staged.history == s.history && staged.outbox == s.outbox
    requires staged.inbox == s.inbox[e.eventId := InboxRow(e, PROCESSING, None)]
    requires count == |Qualifying(staged.orders, e.customerId, e.occurredAt, policy.windowDays)|
    requires TransitionOf(s.customers[e.customerId], count, policy) == Ok(t)
    requires EventKeysFree(staged, e, t.changed, outboxId) && result == ResultOf(staged, e, count, t, outboxId)
    requires now == ApplyTransition(staged, e, count, t, outboxId).(
      inbox := staged.inbox[e.eventId := InboxRow(e, COMPLETED, Some(result))])
    ensures Settled(s, staged, e, policy, outboxId, Ok(result), now)
  {
    assert staged.inbox[e.eventId := InboxRow(e, COMPLETED, Some(result))] ==
           s.inbox[e.eventId := InboxRow(e, COMPLETED, Some(result))];
  }
}
