/** The atomic purchase transaction: inbox, order, versioned loyalty policy, history and outbox. */
module CommerceEvents {
  import opened Basics
  import opened SegmentClassifier
  import TextWindow

  datatype Item = Item(orderItemId: string, sku: string, quantity: nat)

  datatype PurchaseEvent = PurchaseEvent(
    eventId: string, occurredAt: int, customerId: string, orderId: string, channel: string, items: seq<Item>)

  datatype Policy = Policy(windowDays: int, threshold: int, version: string)

  /** A segment column: one of the four canonical values, or whatever was seeded. */
  datatype SegmentValue = Canonical(segment: Segment) | Other(text: string)

  datatype Customer = Customer(
    affluence: Option<string>, loyalty: Option<string>, segment: Option<SegmentValue>, profileVersion: int)

  datatype LoyaltyRow = LoyaltyRow(points: Option<int>, version: int)

  /** Prices are whole pence, so the two-decimal rounding of the totals is exact. */
  datatype Product = Product(active: bool, price: Option<nat>)

  datatype OrderStatus = Completed | Delivered | OtherStatus(text: string)

  datatype Order = Order(
    customerId: string, placedAt: int, status: OrderStatus, total: nat, sourceEventId: Option<string>)

  datatype OrderLine = OrderLine(orderId: string, sku: string, quantity: nat, unitPrice: nat, lineTotal: nat)

  datatype Transition = Transition(
    previousSegment: Option<SegmentValue>, newSegment: Segment, previousLoyalty: Loyalty, newLoyalty: Loyalty,
    changed: bool)

  datatype PurchaseResult = PurchaseResult(
    eventId: string, replayed: bool, customerId: string, orderId: string, purchaseCount: nat,
    profileVersion: int, transition: Transition, points: Option<int>, outboxIds: seq<string>)

  datatype InboxStatus = PROCESSING | COMPLETED
  datatype InboxRow = InboxRow(payload: PurchaseEvent, status: InboxStatus, result: Option<PurchaseResult>)

  datatype HistoryRow = HistoryRow(
    customerId: string, previousSegment: Option<SegmentValue>, newSegment: Segment, previousLoyalty: Loyalty,
    newLoyalty: Loyalty, purchaseCount: nat, sourceEventId: string)

  datatype NoticeType = SegmentChanged | ProfileUpdated

  /** An outbox row as this service writes it. */
  datatype Notice = Notice(
    customerId: string, eventType: NoticeType, profileVersion: int, causationId: string, createdAt: int)

  datatype Store = Store(
    customers: map<string, Customer>, loyalty: map<string, LoyaltyRow>, products: map<string, Product>,
    orders: map<string, Order>, lines: map<string, OrderLine>, inbox: map<string, InboxRow>,
    history: seq<HistoryRow>, outbox: map<string, Notice>)

  datatype EventError =
    | IdempotencyConflict | AlreadyProcessing | CustomerNotFound | ProductNotFound(sku: string)
    | SegmentClassification | InvalidPolicy | IntegrityError

  // ---------------------------------------------------------------- the order

  function LineOf(products: map<string, Product>, orderId: string, item: Item): OrderLine
    requires item.sku in products
  {
    var price := match products[item.sku].price case None => 0 case Some(p) => p;
    OrderLine(orderId, item.sku, item.quantity, price, price * item.quantity)
  }

  predicate Sellable(products: map<string, Product>, sku: string) {
    sku in products && products[sku].active
  }

  ghost function Total(lines: seq<OrderLine>): nat {
    if lines == [] then 0 else Total(lines[..|lines| - 1]) + lines[|lines| - 1].lineTotal
  }

  function BuildLines(products: map<string, Product>, orderId: string, items: seq<Item>): seq<OrderLine>
    requires forall item :: item in items ==> Sellable(products, item.sku)
  {
    assert forall i :: 0 <= i < |items| ==> Sellable(products, items[i].sku);
    seq(|items|, i requires 0 <= i < |items| && items[i].sku in products => LineOf(products, orderId, items[i]))
  }

  /** Today's catalogue price in pence; a product without one costs nothing. */
  function PriceOf(products: map<string, Product>, sku: string): nat {
    if sku in products && products[sku].price.Some? then products[sku].price.value else 0
  }

  /** What the basket costs: quantity times price over its items. */
  ghost function Cost(products: map<string, Product>, items: seq<Item>): nat {
    if items == [] then 0
    else
      var last := items[|items| - 1];
      Cost(products, items[..|items| - 1]) + last.quantity * PriceOf(products, last.sku)
  }

  /** The line of one item, priced by quantity. */
  ghost predicate LinePriced(products: map<string, Product>, orderId: string, item: Item, line: OrderLine) {
    && line.orderId == orderId && line.sku == item.sku && line.quantity == item.quantity
    && line.unitPrice == PriceOf(products, item.sku)
    && line.lineTotal == item.quantity * PriceOf(products, item.sku)
  }

  lemma {:induction false} TotalIsCost(products: map<string, Product>, orderId: string, items: seq<Item>)
    requires forall item :: item in items ==> Sellable(products, item.sku)
    ensures Total(BuildLines(products, orderId, items)) == Cost(products, items)
    decreases |items|
  {
    if items != [] {
      var front, last := items[..|items| - 1], items[|items| - 1];
      TotalIsCost(products, orderId, front);
      var lines := BuildLines(products, orderId, items);
      assert lines[..|lines| - 1] == BuildLines(products, orderId, front);
      assert lines[|lines| - 1].lineTotal == last.quantity * PriceOf(products, last.sku);
    }
  }

  lemma BuiltLinePriced(products: map<string, Product>, orderId: string, items: seq<Item>, i: nat)
    requires i < |items| && forall item :: item in items ==> Sellable(products, item.sku)
    ensures LinePriced(products, orderId, items[i], BuildLines(products, orderId, items)[i])
  {
    assert items[i] in items;
  }

  /** The lines of the first items, priced one by one. */
  ghost predicate LinesUpTo(
    products: map<string, Product>, orderId: string, items: seq<Item>, lines: seq<OrderLine>, n: nat)
  {
    && n <= |items| && |lines| == n
    && forall k :: 0 <= k < n ==>
         Sellable(products, items[k].sku) && lines[k] == LineOf(products, orderId, items[k])
  }

  lemma LinesStep(
    products: map<string, Product>, orderId: string, items: seq<Item>, lines: seq<OrderLine>, n: nat)
    requires LinesUpTo(products, orderId, items, lines, n) && n < |items| && Sellable(products, items[n].sku)
    ensures
      var line := LineOf(products, orderId, items[n]);
      && LinesUpTo(products, orderId, items, lines + [line], n + 1)
      && Total(lines + [line]) == Total(lines) + line.lineTotal
  {
    assert (lines + [LineOf(products, orderId, items[n])])[..|lines|] == lines;
  }

  lemma FirstFrom(products: map<string, Product>, items: seq<Item>, n: nat)
    requires n < |items|
    ensures FirstUnsellable(products, items[n..]) ==
      if Sellable(products, items[n].sku) then FirstUnsellable(products, items[n + 1..]) else Some(items[n].sku)
  {
    assert items[n..][1..] == items[n + 1..];
  }

  lemma AllLinesPriced(products: map<string, Product>, orderId: string, items: seq<Item>, lines: seq<OrderLine>)
    requires LinesUpTo(products, orderId, items, lines, |items|)
    requires forall item :: item in items ==> Sellable(products, item.sku)
    ensures lines == BuildLines(products, orderId, items) && Total(lines) == Cost(products, items)
    ensures forall i :: 0 <= i < |items| ==> LinePriced(products, orderId, items[i], lines[i])
  {
    TotalIsCost(products, orderId, items);
    forall i | 0 <= i < |items| {
      BuiltLinePriced(products, orderId, items, i);
    }
  }

  /** The loop of `_build_order`: a line per item at today's catalogue price, added up, up to the first that fails. */
  method PriceLines(products: map<string, Product>, orderId: string, items: seq<Item>)
    returns (r: Result<seq<OrderLine>, EventError>, total: nat)
    ensures r.Ok? <==> FirstUnsellable(products, items).None?
    ensures r.Ok? ==> LinesUpTo(products, orderId, items, r.value, |items|) && total == Total(r.value)
    ensures r.Err? ==> r.error.ProductNotFound? && FirstUnsellable(products, items) == Some(r.error.sku)
  {
    var lines, i := [], 0;
    total := 0;
    while i < |items|
      invariant i <= |items| && LinesUpTo(products, orderId, items, lines, i) && total == Total(lines)
      invariant FirstUnsellable(products, items) == FirstUnsellable(products, items[i..])
    {
      FirstFrom(products, items, i);
      var item := items[i];
      if !Sellable(products, item.sku) {
        return Err(ProductNotFound(item.sku)), 0;
      }
      var line := LineOf(products, orderId, item);
      LinesStep(products, orderId, items, lines, i);
      lines, total, i := lines + [line], total + line.lineTotal, i + 1;
    }
    r := Ok(lines);
  }

  /** `_build_order`: each line priced by quantity, and the order with their sum. */
  method BuildOrder(products: map<string, Product>, e: PurchaseEvent)
    returns (r: Result<(Order, seq<OrderLine>), EventError>)
    ensures r.Ok? <==> FirstUnsellable(products, e.items).None?
    ensures r.Ok? ==>
      && r.value.1 == BuildLines(products, e.orderId, e.items)
      && r.value.0 == OrderFor(e, r.value.1)
    ensures r.Ok? ==>
      && r.value.0 == Order(e.customerId, e.occurredAt, Completed, Cost(products, e.items), Some(e.eventId))
      && |r.value.1| == |e.items|
      && forall i :: 0 <= i < |e.items| ==> LinePriced(products, e.orderId, e.items[i], r.value.1[i])
    ensures r.Err? ==> r.error.ProductNotFound? && FirstUnsellable(products, e.items) == Some(r.error.sku)
  {
    var priced, total := PriceLines(products, e.orderId, e.items);
    if priced.Err? {
      return Err(priced.error);
    }
    AllLinesPriced(products, e.orderId, e.items, priced.value);
    r := Ok((Order(e.customerId, e.occurredAt, Completed, total, Some(e.eventId)), priced.value));
  }

  ghost function OrderFor(e: PurchaseEvent, lines: seq<OrderLine>): Order {
    Order(e.customerId, e.occurredAt, Completed, Total(lines), Some(e.eventId))
  }

  /** The SKU named by the error: that of the first line nobody can buy. */
  function FirstUnsellable(products: map<string, Product>, items: seq<Item>): (r: Option<string>)
    ensures r.None? <==> forall item :: item in items ==> Sellable(products, item.sku)
    ensures r.Some? ==> !Sellable(products, r.value)
  {
    if items == [] then None
    else
      assert items == [items[0]] + items[1..];
      if !Sellable(products, items[0].sku) then Some(items[0].sku)
      else FirstUnsellable(products, items[1..])
  }

  // ---------------------------------------------------------------- the loyalty policy

  function Qualifying(orders: map<string, Order>, customerId: string, asOf: int, windowDays: int): set<string> {
    set id | id in orders && orders[id].customerId == customerId
             && (orders[id].status == Completed || orders[id].status == Delivered)
             && TextWindow.InWindow(orders[id].placedAt, asOf, windowDays)
  }

  function Promote(loyalty: Loyalty, count: nat, policy: Policy): Loyalty {
    if loyalty == New && count >= policy.threshold then Loyal else loyalty
  }

  function TransitionOf(c: Customer, count: nat, policy: Policy): Result<Transition, EventError> {
    match NormalizeLoyalty(c.loyalty)
    case None => Err(SegmentClassification)
    case Some(previous) =>
      var next := Promote(previous, count, policy);
      match Classify(c.affluence, next)
      case None => Err(SegmentClassification)
      case Some(segment) =>
        Ok(Transition(c.segment, segment, previous, next, c.segment != Some(Canonical(segment)) || previous != next))
  }

  function NextVersion(version: int): int {
    Max(version, 1) + 1
  }

  function ApplyTransition(s: Store, e: PurchaseEvent, count: nat, t: Transition, outboxId: string): Store
    requires e.customerId in s.customers
  {
    var id := e.customerId;
    var c := s.customers[id];
    var version := NextVersion(c.profileVersion);
    var updated := Customer(c.affluence, Some(LoyaltyText(t.newLoyalty)), Some(Canonical(t.newSegment)), version);
    var row := HistoryRow(
      id, t.previousSegment, t.newSegment, t.previousLoyalty, t.newLoyalty, count, e.eventId);
    s.(customers := s.customers[id := updated],
       loyalty := if id in s.loyalty
                  then s.loyalty[id := s.loyalty[id].(version := NextVersion(s.loyalty[id].version))] else s.loyalty,
       history := if t.changed
                  then s.history + [row]
                  else s.history,
       outbox := s.outbox[outboxId := Notice(id,
                   if t.changed then SegmentChanged else ProfileUpdated,
                   version, e.eventId, e.occurredAt)])
  }

  // ---------------------------------------------------------------- the transaction

  /** Unique columns of the order rows: item ids, and the source event. */
  predicate OrderKeysFree(s: Store, e: PurchaseEvent) {
    && (forall i, j :: 0 <= i < j < |e.items| ==> e.items[i].orderItemId != e.items[j].orderItemId)
    && (forall i :: 0 <= i < |e.items| ==> e.items[i].orderItemId !in s.lines)
    && (forall id :: id in s.orders ==> s.orders[id].sourceEventId != Some(e.eventId))
  }

  /** Unique columns of the history and outbox rows. */
  predicate EventKeysFree(s: Store, e: PurchaseEvent, changed: bool, outboxId: string) {
    && (changed ==> forall i :: 0 <= i < |s.history| ==> s.history[i].sourceEventId != e.eventId)
    && outboxId !in s.outbox
  }

  function AddLines(rows: map<string, OrderLine>, items: seq<Item>, lines: seq<OrderLine>): map<string, OrderLine>
    requires |items| == |lines|
    decreases |items|
  {
    if items == [] then rows
    else AddLines(rows[items[0].orderItemId := lines[0]], items[1..], lines[1..])
  }

  ghost function WithOrder(s: Store, e: PurchaseEvent): Store
    requires forall item :: item in e.items ==> Sellable(s.products, item.sku)
  {
    var lines := BuildLines(s.products, e.orderId, e.items);
    s.(orders := s.orders[e.orderId := OrderFor(e, lines)], lines := AddLines(s.lines, e.items, lines))
  }

  function ResultOf(s: Store, e: PurchaseEvent, count: nat, t: Transition, outboxId: string): PurchaseResult
    requires e.customerId in s.customers
  {
    PurchaseResult(
      e.eventId, false, e.customerId, e.orderId, count, NextVersion(s.customers[e.customerId].profileVersion), t,
      if e.customerId in s.loyalty then s.loyalty[e.customerId].points else None, [outboxId])
  }

  /** The rest of the transaction once the order is staged: count, transition, rows, result. */
  ghost function Settle(s: Store, staged: Store, e: PurchaseEvent, policy: Policy, outboxId: string)
    : Result<(Store, PurchaseResult), EventError>
    requires e.customerId in s.customers && e.customerId in staged.customers
  {
    var count := |Qualifying(staged.orders, e.customerId, e.occurredAt, policy.windowDays)|;
    match TransitionOf(s.customers[e.customerId], count, policy)
    case Err(error) => Err(error)
    case Ok(t) =>
      if !EventKeysFree(s, e, t.changed, outboxId) then Err(IntegrityError)
      else
        var result := ResultOf(s, e, count, t, outboxId);
        var applied := ApplyTransition(staged, e, count, t, outboxId);
        Ok((applied.(inbox := s.inbox[e.eventId := InboxRow(e, COMPLETED, Some(result))]), result))
  }

  /** The commit of a first submission, or the error that rolls it back. */
  ghost function Record(s: Store, e: PurchaseEvent, policy: Policy, outboxId: string)
    : Result<(Store, PurchaseResult), EventError>
  {
    if e.customerId !in s.customers then Err(CustomerNotFound)
    else if e.orderId in s.orders then Err(IdempotencyConflict)
    else if FirstUnsellable(s.products, e.items).Some? then
      Err(ProductNotFound(FirstUnsellable(s.products, e.items).value))
    else if !OrderKeysFree(s, e) then Err(IntegrityError)
    else if policy.windowDays < 1 then Err(InvalidPolicy)
    else Settle(s, WithOrder(s, e), e, policy, outboxId)
  }

  /** `process_purchase` inside its `session(write=True)`: replay, refuse, or record and commit. */
  ghost function Process(
    s: Store, e: PurchaseEvent, policy: Policy, outboxId: string): (Store, Result<PurchaseResult, EventError>)
  {
    if e.eventId in s.inbox then
      var row := s.inbox[e.eventId];
      if row.payload != e then (s, Err(IdempotencyConflict))
      else if row.status == COMPLETED && row.result.Some? then (s, Ok(row.result.value.(replayed := true)))
      else (s, Err(AlreadyProcessing))
    else
      match Record(s, e, policy, outboxId)
      case Ok(pair) => (pair.0, Ok(pair.1))
      case Err(error) => (s, Err(error))
  }
}
