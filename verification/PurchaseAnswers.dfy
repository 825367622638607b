/** What a first submission of a purchase writes, row by row and in figures, and why one is refused. */
module PurchaseAnswers {
  import opened Basics
  import opened SegmentClassifier
  import opened CommerceEvents
  import opened PurchaseRuns

  // ---------------------------------------------------------------- prices

  ghost predicate HasLine(items: seq<Item>, id: string) {
    exists i :: 0 <= i < |items| && items[i].orderItemId == id
  }

  /** The basket's lines are stored under their item ids, and no other line changed. */
  ghost predicate Priced(s: Store, e: PurchaseEvent, lines: map<string, OrderLine>) {
    && (forall i :: 0 <= i < |e.items| ==>
          && e.items[i].orderItemId in lines
          && LinePriced(s.products, e.orderId, e.items[i], lines[e.items[i].orderItemId]))
    && forall id :: !HasLine(e.items, id) ==>
         && (id in lines <==> id in s.lines)
         && (id in s.lines ==> lines[id] == s.lines[id])
  }

  lemma {:induction false} OtherLinesStay(
    rows: map<string, OrderLine>, items: seq<Item>, lines: seq<OrderLine>, id: string)
    requires |items| == |lines| && forall i :: 0 <= i < |items| ==> items[i].orderItemId != id
    ensures
      var added := AddLines(rows, items, lines);
      (id in added <==> id in rows) && (id in rows ==> added[id] == rows[id])
    decreases |items|
  {
    if items != [] {
      OtherLinesStay(rows[items[0].orderItemId := lines[0]], items[1..], lines[1..], id);
    }
  }

  lemma {:induction false} LineIsAdded(
    rows: map<string, OrderLine>, items: seq<Item>, lines: seq<OrderLine>, k: nat)
    requires |items| == |lines| && k < |items|
    requires forall i, j :: 0 <= i < j < |items| ==> items[i].orderItemId != items[j].orderItemId
    ensures
      var added := AddLines(rows, items, lines);
      items[k].orderItemId in added && added[items[k].orderItemId] == lines[k]
    decreases |items|
  {
    var rows1 := rows[items[0].orderItemId := lines[0]];
    if k == 0 {
      assert forall i :: 0 <= i < |items[1..]| ==> items[1..][i] == items[i + 1];
      OtherLinesStay(rows1, items[1..], lines[1..], items[0].orderItemId);
    } else {
      LineIsAdded(rows1, items[1..], lines[1..], k - 1);
    }
  }

  /** The order a purchase of these items amounts to. */
  ghost predicate Ordered(s: Store, e: PurchaseEvent, orders: map<string, Order>) {
    orders == s.orders[e.orderId :=
      Order(e.customerId, e.occurredAt, Completed, Cost(s.products, e.items), Some(e.eventId))]
  }

  lemma StagedIsPriced(s: Store, e: PurchaseEvent)
    requires FirstUnsellable(s.products, e.items).None? && OrderKeysFree(s, e)
    ensures Priced(s, e, WithOrder(s, e).lines) && Ordered(s, e, WithOrder(s, e).orders)
  {
    var rows, lines := BuildLines(s.products, e.orderId, e.items), WithOrder(s, e).lines;
    forall i | 0 <= i < |e.items|
      ensures e.items[i].orderItemId in lines
      ensures LinePriced(s.products, e.orderId, e.items[i], lines[e.items[i].orderItemId])
    {
      LineIsAdded(s.lines, e.items, rows, i);
      BuiltLinePriced(s.products, e.orderId, e.items, i);
    }
    forall id | !HasLine(e.items, id)
      ensures (id in lines <==> id in s.lines) && (id in s.lines ==> lines[id] == s.lines[id])
    {
      OtherLinesStay(s.lines, e.items, rows, id);
    }
    TotalIsCost(s.products, e.orderId, e.items);
  }

  lemma SettleKeepsOrder(s: Store, staged: Store, e: PurchaseEvent, policy: Policy, outboxId: string)
    requires e.customerId in s.customers && e.customerId in staged.customers
    requires Settle(s, staged, e, policy, outboxId).Ok?
    ensures
      var s' := Settle(s, staged, e, policy, outboxId).value.0;
      s'.orders == staged.orders && s'.lines == staged.lines && s'.products == staged.products
  {
  }

  lemma RecordKeepsOrder(s: Store, e: PurchaseEvent, policy: Policy, outboxId: string)
    requires Record(s, e, policy, outboxId).Ok?
    ensures FirstUnsellable(s.products, e.items).None? && OrderKeysFree(s, e) && e.orderId !in s.orders
    ensures
      var s' := Record(s, e, policy, outboxId).value.0;
      && s'.orders == WithOrder(s, e).orders && s'.lines == WithOrder(s, e).lines && s'.products == s.products
  {
    SettleKeepsOrder(s, WithOrder(s, e), e, policy, outboxId);
  }

  /** A recorded purchase stores one line per item, priced at today's catalogue, and one completed order whose
      total is the sum of quantity times price. */
  lemma PurchaseIsPriced(s: Store, e: PurchaseEvent, policy: Policy, outboxId: string)
    requires e.eventId !in s.inbox && Process(s, e, policy, outboxId).1.Ok?
    ensures
      var s' := Process(s, e, policy, outboxId).0;
      && Priced(s, e, s'.lines) && Ordered(s, e, s'.orders) && e.orderId !in s.orders && s'.products == s.products
  {
    RecordKeepsOrder(s, e, policy, outboxId);
    StagedIsPriced(s, e);
  }

  // ---------------------------------------------------------------- rows and figures

  /** The version after this one; a missing or smaller version counts as one. */
  function Bumped(version: int): int {
    if version < 1 then 2 else version + 1
  }

  /** The customer's earlier orders that count: completed or delivered, at most so many days old to the second. */
  function Earlier(s: Store, e: PurchaseEvent, days: int): set<string> {
    set id | id in s.orders && s.orders[id].customerId == e.customerId
             && s.orders[id].status in {Completed, Delivered}
             && e.occurredAt / 1_000_000 - days * 86_400 < s.orders[id].placedAt / 1_000_000 <= e.occurredAt / 1_000_000
  }

  /** The transition of a purchase: three in the window make a new customer loyal, and the segment follows from
      affluence and loyalty by the four rules. */
  ghost predicate Decides(c: Customer, count: nat, policy: Policy, t: Transition) {
    && NormalizeLoyalty(c.loyalty) == Some(t.previousLoyalty) && t.previousSegment == c.segment
    && t.newLoyalty == (if t.previousLoyalty == Loyal || count >= policy.threshold then Loyal else New)
    && NormalizeAffluence(c.affluence).Some?
    && (NormalizeAffluence(c.affluence) == Some(Affluent) ==>
          t.newSegment == if t.newLoyalty == Loyal then PrestigeChampion else AspiringLoyalist)
    && (NormalizeAffluence(c.affluence) == Some(LessAffluent) ==>
          t.newSegment == if t.newLoyalty == Loyal then ValueDefender else PriceExplorer)
    && (t.changed <==> c.segment != Some(Canonical(t.newSegment)) || t.newLoyalty != t.previousLoyalty)
  }

  /** The customer and loyalty rows after that transition, with their versions. */
  ghost predicate RowsMoved(s: Store, id: string, t: Transition, s': Store)
    requires id in s.customers
  {
    var c := s.customers[id];
    && s'.customers == s.customers[id :=
         Customer(c.affluence, Some(if t.newLoyalty == Loyal then "Loyal" else "New"), Some(Canonical(t.newSegment)),
                  Bumped(c.profileVersion))]
    && (id !in s.loyalty ==> s'.loyalty == s.loyalty)
    && (id in s.loyalty ==>
          s'.loyalty == s.loyalty[id := LoyaltyRow(s.loyalty[id].points, Bumped(s.loyalty[id].version))])
  }

  /** The history row of a change, and the notice, which names a change as such. */
  ghost predicate Announced(s: Store, e: PurchaseEvent, count: nat, t: Transition, outboxId: string, s': Store)
    requires e.customerId in s.customers
  {
    && (!t.changed ==> s'.history == s.history)
    && (t.changed ==> s'.history == s.history + [
          HistoryRow(e.customerId, t.previousSegment, t.newSegment, t.previousLoyalty, t.newLoyalty, count, e.eventId)])
    && outboxId !in s.outbox
    && s'.outbox == s.outbox[outboxId :=
         Notice(e.customerId, if t.changed then SegmentChanged else ProfileUpdated,
                Bumped(s.customers[e.customerId].profileVersion), e.eventId, e.occurredAt)]
  }

  lemma SettleRows(s: Store, staged: Store, e: PurchaseEvent, policy: Policy, outboxId: string)
    requires e.customerId in s.customers && staged == s.(orders := staged.orders, lines := staged.lines)
    requires Settle(s, staged, e, policy, outboxId).Ok?
    ensures
      var s', r := Settle(s, staged, e, policy, outboxId).value.0, Settle(s, staged, e, policy, outboxId).value.1;
      && Decides(s.customers[e.customerId], r.purchaseCount, policy, r.transition)
      && RowsMoved(s, e.customerId, r.transition, s')
      && Announced(s, e, r.purchaseCount, r.transition, outboxId, s')
      && s'.inbox == s.inbox[e.eventId := InboxRow(e, COMPLETED, Some(r))]
      && !r.replayed && r.eventId == e.eventId && r.customerId == e.customerId && r.orderId == e.orderId
      && r.profileVersion == Bumped(s.customers[e.customerId].profileVersion)
      && r.points == (if e.customerId in s.loyalty then s.loyalty[e.customerId].points else None)
      && r.outboxIds == [outboxId]
  {
  }

  lemma EarlierOrders(s: Store, e: PurchaseEvent, days: int)
    ensures Qualifying(s.orders, e.customerId, e.occurredAt, days) == Earlier(s, e, days)
  {
  }

  /** Every row and figure a recorded purchase leaves: the count with this order in it, the transition decided by
      that count, the customer and loyalty rows, history, notice, and the stored answer. */
  lemma PurchaseRows(s: Store, e: PurchaseEvent, policy: Policy, outboxId: string)
    requires e.eventId !in s.inbox && Process(s, e, policy, outboxId).1.Ok?
    ensures
      var s', r := Process(s, e, policy, outboxId).0, Process(s, e, policy, outboxId).1.value;
      && e.customerId in s.customers
      && r.purchaseCount == |Earlier(s, e, policy.windowDays)| + 1
      && Decides(s.customers[e.customerId], r.purchaseCount, policy, r.transition)
      && RowsMoved(s, e.customerId, r.transition, s')
      && Announced(s, e, r.purchaseCount, r.transition, outboxId, s')
      && s'.inbox == s.inbox[e.eventId := InboxRow(e, COMPLETED, Some(r))]
      && !r.replayed && r.eventId == e.eventId && r.customerId == e.customerId && r.orderId == e.orderId
      && r.profileVersion == Bumped(s.customers[e.customerId].profileVersion)
      && r.points == (if e.customerId in s.loyalty then s.loyalty[e.customerId].points else None)
      && r.outboxIds == [outboxId]
  {
    StagedOrder(s, e);
    SettleRows(s, WithOrder(s, e), e, policy, outboxId);
    OwnPurchaseCounts(s, e, policy, outboxId);
    EarlierOrders(s, e, policy.windowDays);
  }

  // ---------------------------------------------------------------- refusals

  predicate Buyable(s: Store, item: Item) {
    item.sku in s.products && s.products[item.sku].active
  }

  /** Nothing in the store has this purchase's unique ids yet: its lines', and the order of its event. */
  predicate LineIdsFree(s: Store, e: PurchaseEvent) {
    && (forall i, j :: 0 <= i < j < |e.items| ==> e.items[i].orderItemId != e.items[j].orderItemId)
    && (forall i :: 0 <= i < |e.items| ==> e.items[i].orderItemId !in s.lines)
    && (forall id :: id in s.orders ==> s.orders[id].sourceEventId != Some(e.eventId))
  }

  lemma {:induction false} FirstUnsellableAt(s: Store, items: seq<Item>) returns (k: nat)
    ensures k <= |items| && forall i :: 0 <= i < k ==> Buyable(s, items[i])
    ensures k < |items| ==>
      !Buyable(s, items[k]) && FirstUnsellable(s.products, items) == Some(items[k].sku)
    ensures k == |items| ==> FirstUnsellable(s.products, items) == None
    decreases |items|
  {
    if items == [] || !Sellable(s.products, items[0].sku) {
      return 0;
    }
    var l := FirstUnsellableAt(s, items[1..]);
    k := l + 1;
    assert forall i :: 0 < i < |items| ==> items[i] == items[1..][i - 1];
  }

  /** What a purchase needs before its order can be staged. */
  ghost predicate Orderable(s: Store, e: PurchaseEvent) {
    && e.customerId in s.customers && e.orderId !in s.orders
    && forall i :: 0 <= i < |e.items| ==> Buyable(s, e.items[i])
  }

  /** The customer's facts can be classified. */
  predicate Readable(c: Customer) {
    NormalizeLoyalty(c.loyalty).Some? && NormalizeAffluence(c.affluence).Some?
  }

  /** The rows the transition would add have free keys: its notice, and for a change its history row. */
  ghost predicate NoticeKeysFree(s: Store, e: PurchaseEvent, policy: Policy, outboxId: string)
    requires e.customerId in s.customers
  {
    && outboxId !in s.outbox
    && forall t ::
         Decides(s.customers[e.customerId], |Earlier(s, e, policy.windowDays)| + 1, policy, t) && t.changed ==>
         forall i :: 0 <= i < |s.history| ==> s.history[i].sourceEventId != e.eventId
  }

  /** How the settling of a staged order ends. */
  ghost predicate SettlesAs(
    s: Store, e: PurchaseEvent, policy: Policy, outboxId: string, r: Result<(Store, PurchaseResult), EventError>)
    requires e.customerId in s.customers
  {
    if !Readable(s.customers[e.customerId]) then r == Err(SegmentClassification)
    else if !NoticeKeysFree(s, e, policy, outboxId) then r == Err(IntegrityError)
    else r.Ok?
  }

  lemma DecidesOne(c: Customer, count: nat, policy: Policy, t: Transition)
    ensures TransitionOf(c, count, policy) == Ok(t) <==> Decides(c, count, policy, t)
    ensures TransitionOf(c, count, policy).Err? <==> !Readable(c)
    ensures TransitionOf(c, count, policy).Err? ==> TransitionOf(c, count, policy).error == SegmentClassification
  {
  }

  lemma StagedCounts(s: Store, e: PurchaseEvent, staged: Store, days: int)
    requires e.orderId !in s.orders && days >= 1
    requires Ordered(s, e, staged.orders)
    ensures |Qualifying(staged.orders, e.customerId, e.occurredAt, days)| == |Earlier(s, e, days)| + 1
  {
    OwnOrderQualifies(s.orders, staged.orders, e, days);
    EarlierOrders(s, e, days);
  }

  lemma SettlingEnds(s: Store, staged: Store, e: PurchaseEvent, policy: Policy, outboxId: string)
    requires e.customerId in s.customers && e.customerId in staged.customers && e.orderId !in s.orders
    requires policy.windowDays >= 1 && Ordered(s, e, staged.orders)
    ensures SettlesAs(s, e, policy, outboxId, Settle(s, staged, e, policy, outboxId))
  {
    var c, count := s.customers[e.customerId], |Earlier(s, e, policy.windowDays)| + 1;
    StagedCounts(s, e, staged, policy.windowDays);
    match TransitionOf(c, count, policy) {
      case Err(_) =>
        DecidesOne(c, count, policy, Transition(None, PriceExplorer, New, New, false));
      case Ok(t) =>
        DecidesOne(c, count, policy, t);
        forall t' | Decides(c, count, policy, t') ensures t' == t {
          DecidesOne(c, count, policy, t');
        }
    }
  }

  /** Why a first submission is refused, in the order the checks are made; a refusal changes nothing. */
  lemma RefusalsInOrder(s: Store, e: PurchaseEvent, policy: Policy, outboxId: string)
    requires e.eventId !in s.inbox
    ensures
      var (s', r) := Process(s, e, policy, outboxId);
      && (r.Err? ==> s' == s)
      && (r == Err(CustomerNotFound) <==> e.customerId !in s.customers)
      && (r == Err(IdempotencyConflict) <==> e.customerId in s.customers && e.orderId in s.orders)
      && (r.Err? && r.error.ProductNotFound? <==>
            && e.customerId in s.customers && e.orderId !in s.orders
            && exists i :: 0 <= i < |e.items| && !Buyable(s, e.items[i]))
      && (r.Err? && r.error.ProductNotFound? ==>
            exists i ::
              && 0 <= i < |e.items| && r.error.sku == e.items[i].sku && !Buyable(s, e.items[i])
              && forall j :: 0 <= j < i ==> Buyable(s, e.items[j]))
      && (Orderable(s, e) && !LineIdsFree(s, e) ==> r == Err(IntegrityError))
      && (Orderable(s, e) && LineIdsFree(s, e) ==>
            if policy.windowDays < 1 then r == Err(InvalidPolicy)
            else if !Readable(s.customers[e.customerId]) then r == Err(SegmentClassification)
            else if !NoticeKeysFree(s, e, policy, outboxId) then r == Err(IntegrityError)
            else r.Ok?)
  {
    var k := FirstUnsellableAt(s, e.items);
    if Orderable(s, e) && OrderKeysFree(s, e) && policy.windowDays >= 1 {
      StagedIsPriced(s, e);
      SettlingEnds(s, WithOrder(s, e), e, policy, outboxId);
    }
    if e.customerId in s.customers && k == |e.items| {
      SettleErrors(s, e, policy, outboxId);
    }
  }

  lemma SettleErrors(s: Store, e: PurchaseEvent, policy: Policy, outboxId: string)
    requires e.customerId in s.customers && FirstUnsellable(s.products, e.items).None?
    ensures
      var r := Settle(s, WithOrder(s, e), e, policy, outboxId);
      r.Err? ==> r.error == SegmentClassification || r.error == IntegrityError
  {
  }
}
