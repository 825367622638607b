/** The transactional outbox and its in-process dispatcher: tables, transactions, step machine. */
module ContextBus {
  import opened Basics

  type Response = string
  type Key = (string, string)  // (outbox_id, subscriber_name)

  datatype EventStatus = PENDING | PUBLISHED
  datatype DeliveryStatus = PROCESSING | COMPLETED | FAILED

  datatype OutboxEvent = OutboxEvent(
    eventType: string, createdAt: int, status: EventStatus, attempts: nat, publishedAt: Option<int>)

  datatype Delivery = Delivery(
    status: DeliveryStatus, attempts: nat, response: Option<Response>, lastError: Option<string>)

  datatype Tables = Tables(events: map<string, OutboxEvent>, deliveries: map<Key, Delivery>)

  /** Registered subscriber names per event type, in registration order. */
  type SubscriberTable = map<string, seq<string>>

  datatype BusError = NoSubscriber | ClaimDisappeared | EventDisappeared | HandlerFailed(name: string)

  // ---------------------------------------------------------------- transactions

  function RecordEventAttempt(t: Tables, id: string): Tables {
    if id in t.events && t.events[id].status != PUBLISHED then
      t.(events := t.events[id := t.events[id].(attempts := t.events[id].attempts + 1)])
    else t
  }

  function CompletedDelivery(t: Tables, id: string, name: string): Option<Response> {
    if (id, name) in t.deliveries && t.deliveries[(id, name)].status == COMPLETED then
      t.deliveries[(id, name)].response
    else None
  }

  function ClaimDelivery(t: Tables, id: string, name: string): Tables {
    var row :=
      if (id, name) !in t.deliveries then Delivery(PROCESSING, 1, None, None)
      else
        var d := t.deliveries[(id, name)];
        d.(status := PROCESSING, attempts := d.attempts + 1, lastError := None);
    t.(deliveries := t.deliveries[(id, name) := row])
  }

  function CompleteDelivery(t: Tables, id: string, name: string, response: Response): Result<Tables, BusError> {
    if (id, name) !in t.deliveries then Err(ClaimDisappeared)
    else
      var d := t.deliveries[(id, name)].(status := COMPLETED, response := Some(response), lastError := None);
      Ok(t.(deliveries := t.deliveries[(id, name) := d]))
  }

  function FailDelivery(t: Tables, id: string, name: string, error: string): Tables {
    if (id, name) !in t.deliveries then t
    else
      var d := t.deliveries[(id, name)].(status := FAILED, lastError := Some(error));
      t.(deliveries := t.deliveries[(id, name) := d])
  }

  predicate Done(t: Tables, id: string, name: string) {
    (id, name) in t.deliveries && t.deliveries[(id, name)].status == COMPLETED
  }

  function MarkPublished(t: Tables, id: string, expected: seq<string>, now: int): Result<Tables, BusError> {
    if id !in t.events then Err(EventDisappeared)
    else if forall name | name in expected :: Done(t, id, name) then
      Ok(t.(events := t.events[id := t.events[id].(status := PUBLISHED, publishedAt := Some(now))]))
    else Ok(t)
  }

  function SubscribersOf(subs: SubscriberTable, eventType: string): seq<string> {
    if eventType in subs then subs[eventType] else []
  }

  // ---------------------------------------------------------------- step machine

  /** Where the one dispatcher stands inside `_dispatch_event`. A crash, an exception or a rolled
      back transaction leaves the tables as the last commit made them and returns to Idle. */
  datatype Pc =
    | Idle
    | Next(id: string, j: nat, responses: map<string, Response>)
    | Claimed(id: string, j: nat, responses: map<string, Response>)
    | Running(id: string, j: nat, responses: map<string, Response>)
    | Returned(id: string, j: nat, responses: map<string, Response>, response: Response)
    | Raised(id: string, j: nat, error: string)

  /** `starts` records every handler invocation ever made. */
  datatype State = State(t: Tables, pc: Pc, starts: multiset<Key>)

  datatype Label =
    | Enqueue(newId: string, eventType: string, createdAt: int)
    | Begin(beginId: string)
    | Skip
    | Claim
    | StartHandler
    | Return(response: Response)
    | Raise(error: string)
    | Complete
    | Fail
    | Publish(now: int)
    | Crash

  function Names(subs: SubscriberTable, events: map<string, OutboxEvent>, id: string): seq<string> {
    if id in events then SubscribersOf(subs, events[id].eventType) else []
  }

  /** One atomic step; a label that is not enabled changes nothing. */
  function Step(subs: SubscriberTable, s: State, l: Label): State {
    var names := if s.pc.Idle? then [] else Names(subs, s.t.events, s.pc.id);
    match l
    case Enqueue(id, eventType, createdAt) =>
      if id in s.t.events then s
      else s.(t := s.t.(events := s.t.events[id := OutboxEvent(eventType, createdAt, PENDING, 0, None)]))
    case Begin(id) =>
      if s.pc.Idle? && Names(subs, s.t.events, id) != [] then
        s.(t := RecordEventAttempt(s.t, id), pc := Next(id, 0, map[]))
      else s
    case Skip =>
      if s.pc.Next? && s.pc.j < |names| && CompletedDelivery(s.t, s.pc.id, names[s.pc.j]).Some? then
        var response := CompletedDelivery(s.t, s.pc.id, names[s.pc.j]).value;
        s.(pc := Next(s.pc.id, s.pc.j + 1, s.pc.responses[names[s.pc.j] := response]))
      else s
    case Claim =>
      if s.pc.Next? && s.pc.j < |names| && CompletedDelivery(s.t, s.pc.id, names[s.pc.j]).None? then
        s.(t := ClaimDelivery(s.t, s.pc.id, names[s.pc.j]), pc := Claimed(s.pc.id, s.pc.j, s.pc.responses))
      else s
    case StartHandler =>
      if s.pc.Claimed? && s.pc.j < |names| then
        s.(pc := Running(s.pc.id, s.pc.j, s.pc.responses),
           starts := s.starts + multiset{(s.pc.id, names[s.pc.j])})
      else s
    case Return(response) =>
      if s.pc.Running? then s.(pc := Returned(s.pc.id, s.pc.j, s.pc.responses, response)) else s
    case Raise(error) =>
      if s.pc.Running? then s.(pc := Raised(s.pc.id, s.pc.j, error)) else s
    case Complete =>
      if s.pc.Returned? && s.pc.j < |names| then
        match CompleteDelivery(s.t, s.pc.id, names[s.pc.j], s.pc.response)
        case Ok(t') =>
          State(t', Next(s.pc.id, s.pc.j + 1, s.pc.responses[names[s.pc.j] := s.pc.response]), s.starts)
        case Err(_) => s.(pc := Idle)
      else s
    case Fail =>
      if s.pc.Raised? && s.pc.j < |names| then
        s.(t := FailDelivery(s.t, s.pc.id, names[s.pc.j], s.pc.error), pc := Idle)
      else s
    case Publish(now) =>
      if s.pc.Next? && s.pc.j == |names| then
        match MarkPublished(s.t, s.pc.id, names, now)
        case Ok(t') => s.(t := t', pc := Idle)
        case Err(_) => s.(pc := Idle)
      else s
    case Crash => s.(pc := Idle)
  }

  function Exec(subs: SubscriberTable, s: State, labels: seq<Label>): State
    decreases |labels|
  {
    if labels == [] then s else Exec(subs, Step(subs, s, labels[0]), labels[1..])
  }

  const EMPTY := State(Tables(map[], map[]), Idle, multiset{})

  lemma {:induction false} ExecConcat(subs: SubscriberTable, s: State, xs: seq<Label>, ys: seq<Label>)
    ensures Exec(subs, s, xs + ys) == Exec(subs, Exec(subs, s, xs), ys)
    decreases |xs|
  {
    if xs == [] {
      assert xs + ys == ys;
    } else {
      assert (xs + ys)[0] == xs[0] && (xs + ys)[1..] == xs[1..] + ys;
      ExecConcat(subs, Step(subs, s, xs[0]), xs[1..], ys);
    }
  }

  // ---------------------------------------------------------------- invariant

  ghost predicate ValidTable(subs: SubscriberTable) {
    forall eventType :: eventType in subs ==> Distinct(subs[eventType])
  }

  function Attempts(t: Tables, id: string, name: string): nat {
    if (id, name) in t.deliveries then t.deliveries[(id, name)].attempts else 0
  }

  function EventAttempts(events: map<string, OutboxEvent>, id: string): nat {
    if id in events then events[id].attempts else 0
  }

  /** Every delivery belongs to a registered subscriber of a stored event, answers are kept, and an error is noted
      exactly while the delivery counts as failed. */
  ghost predicate DeliveriesOwned(subs: SubscriberTable, t: Tables) {
    forall k :: k in t.deliveries ==>
      && k.0 in t.events && k.1 in Names(subs, t.events, k.0)
      && (t.deliveries[k].status == COMPLETED ==> t.deliveries[k].response.Some?)
      && (t.deliveries[k].lastError.Some? <==> t.deliveries[k].status == FAILED)
  }

  /** A later subscriber is only ever tried once every earlier one has completed. */
  ghost predicate InOrder(subs: SubscriberTable, t: Tables) {
    forall id, i, j :: id in t.events && 0 <= i < j < |Names(subs, t.events, id)| ==>
      (id, Names(subs, t.events, id)[j]) in t.deliveries ==> Done(t, id, Names(subs, t.events, id)[i])
  }

  ghost predicate PublishedMeansDelivered(subs: SubscriberTable, t: Tables) {
    forall id :: id in t.events && t.events[id].status == PUBLISHED ==>
      Names(subs, t.events, id) != [] && forall name :: name in Names(subs, t.events, id) ==> Done(t, id, name)
  }

  ghost predicate Accounted(subs: SubscriberTable, s: State) {
    forall id, name ::
      s.starts[(id, name)] <= Attempts(s.t, id, name) <= EventAttempts(s.t.events, id)
  }

  /** The subscribers from index `from` on still have an unused attempt, or are complete. */
  ghost predicate Budget(subs: SubscriberTable, t: Tables, id: string, from: nat) {
    id in t.events &&
    forall i :: from <= i < |Names(subs, t.events, id)| ==>
      Done(t, id, Names(subs, t.events, id)[i]) ||
      Attempts(t, id, Names(subs, t.events, id)[i]) < t.events[id].attempts
  }

  ghost predicate PrefixDone(subs: SubscriberTable, t: Tables, id: string, j: nat, responses: map<string, Response>) {
    && j <= |Names(subs, t.events, id)|
    && (forall name :: name in responses ==> name in Names(subs, t.events, id)[..j])
    && forall i :: 0 <= i < j ==>
         && Done(t, id, Names(subs, t.events, id)[i])
         && Names(subs, t.events, id)[i] in responses
         && t.deliveries[(id, Names(subs, t.events, id)[i])].response == Some(responses[Names(subs, t.events, id)[i]])
  }

  ghost predicate AtSubscriber(subs: SubscriberTable, s: State, id: string, j: nat) {
    && id in s.t.events && j < |Names(subs, s.t.events, id)|
    && (id, Names(subs, s.t.events, id)[j]) in s.t.deliveries
    && s.t.deliveries[(id, Names(subs, s.t.events, id)[j])].status == PROCESSING
    && (forall i :: 0 <= i < j ==> Done(s.t, id, Names(subs, s.t.events, id)[i]))
    && Budget(subs, s.t, id, j + 1)
  }

  ghost predicate PcOk(subs: SubscriberTable, s: State) {
    match s.pc
    case Idle => true
    case Next(id, j, responses) =>
      id in s.t.events && Names(subs, s.t.events, id) != [] &&
      PrefixDone(subs, s.t, id, j, responses) && Budget(subs, s.t, id, j)
    case Claimed(id, j, responses) =>
      AtSubscriber(subs, s, id, j) && PrefixDone(subs, s.t, id, j, responses) &&
      s.starts[(id, Names(subs, s.t.events, id)[j])] < Attempts(s.t, id, Names(subs, s.t.events, id)[j])
    case Running(id, j, responses) =>
      AtSubscriber(subs, s, id, j) && PrefixDone(subs, s.t, id, j, responses)
    case Returned(id, j, responses, _) =>
      AtSubscriber(subs, s, id, j) && PrefixDone(subs, s.t, id, j, responses)
    case Raised(id, j, _) => AtSubscriber(subs, s, id, j)
  }

  ghost predicate Inv(subs: SubscriberTable, s: State) {
    && ValidTable(subs)
    && DeliveriesOwned(subs, s.t)
    && InOrder(subs, s.t)
    && PublishedMeansDelivered(subs, s.t)
    && Accounted(subs, s)
    && PcOk(subs, s)
  }

  /** Nothing that was delivered is ever changed, rerun or unpublished. */
  ghost predicate Extends(a: State, b: State) {
    && (forall id :: id in a.t.events ==>
          && id in b.t.events && b.t.events[id].eventType == a.t.events[id].eventType
          && b.t.events[id].createdAt == a.t.events[id].createdAt
          && a.t.events[id].attempts <= b.t.events[id].attempts
          && (a.t.events[id].status == PUBLISHED ==> b.t.events[id].status == PUBLISHED))
    && (forall id, name :: Done(a.t, id, name) ==>
          && Done(b.t, id, name)
          && b.t.deliveries[(id, name)] == a.t.deliveries[(id, name)]
          && b.starts[(id, name)] == a.starts[(id, name)])
  }

  ghost predicate Keeps(subs: SubscriberTable, s: State, l: Label) {
    Inv(subs, Step(subs, s, l)) && Extends(s, Step(subs, s, l))
  }

  lemma NewRowKeepsTables(subs: SubscriberTable, t: Tables, id: string, row: OutboxEvent)
    requires DeliveriesOwned(subs, t) && InOrder(subs, t) && PublishedMeansDelivered(subs, t)
    requires id !in t.events && row.status == PENDING
    ensures
      var t' := t.(events := t.events[id := row]);
      DeliveriesOwned(subs, t') && InOrder(subs, t') && PublishedMeansDelivered(subs, t')
  {
    var t' := t.(events := t.events[id := row]);
    assert forall e :: e in t.events ==> Names(subs, t'.events, e) == Names(subs, t.events, e);
    assert forall name :: (id, name) !in t.deliveries;
  }

  lemma NewRowKeepsPc(subs: SubscriberTable, s: State, s': State, id: string, row: OutboxEvent)
    requires PcOk(subs, s) && id !in s.t.events
    requires s' == s.(t := s.t.(events := s.t.events[id := row]))
    ensures PcOk(subs, s')
  {
    if !s.pc.Idle? {
      assert s.pc.id in s.t.events && s.pc.id != id;
      assert Names(subs, s'.t.events, s.pc.id) == Names(subs, s.t.events, s.pc.id);
    }
  }

  lemma EnqueueKeeps(subs: SubscriberTable, s: State, l: Label)
    requires Inv(subs, s) && l.Enqueue?
    ensures Keeps(subs, s, l)
  {
    if l.newId !in s.t.events {
      var row := OutboxEvent(l.eventType, l.createdAt, PENDING, 0, None);
      var s' := Step(subs, s, l);
      NewRowKeepsTables(subs, s.t, l.newId, row);
      assert Accounted(subs, s') by {
        assert forall name :: (l.newId, name) !in s.t.deliveries;
      }
      NewRowKeepsPc(subs, s, s', l.newId, row);
      assert Extends(s, s');
    }
  }

  /** Only attempts, status and publication time of one stored event differ. */
  lemma EventUpdateKeepsTables(subs: SubscriberTable, t: Tables, t': Tables, id: string)
    requires DeliveriesOwned(subs, t) && InOrder(subs, t) && PublishedMeansDelivered(subs, t)
    requires id in t.events && id in t'.events && t' == t.(events := t.events[id := t'.events[id]])
    requires t'.events[id].eventType == t.events[id].eventType
    requires t'.events[id].status == PUBLISHED ==>
      Names(subs, t.events, id) != [] && forall name :: name in Names(subs, t.events, id) ==> Done(t, id, name)
    ensures DeliveriesOwned(subs, t') && InOrder(subs, t') && PublishedMeansDelivered(subs, t')
  {
    assert forall e :: Names(subs, t'.events, e) == Names(subs, t.events, e);
    assert forall e, name :: Done(t', e, name) == Done(t, e, name);
  }

  lemma BeginKeeps(subs: SubscriberTable, s: State, l: Label)
    requires Inv(subs, s) && l.Begin?
    ensures Keeps(subs, s, l)
  {
    var s' := Step(subs, s, l);
    if s' != s {
      if s'.t.events != s.t.events {
        EventUpdateKeepsTables(subs, s.t, s'.t, l.beginId);
      }
      assert Names(subs, s'.t.events, l.beginId) == Names(subs, s.t.events, l.beginId);
      assert Budget(subs, s'.t, l.beginId, 0);
      assert Accounted(subs, s');
      assert Extends(s, s');
    }
  }

  lemma SkipKeeps(subs: SubscriberTable, s: State, l: Label)
    requires Inv(subs, s) && l.Skip?
    ensures Keeps(subs, s, l)
  {
    var s' := Step(subs, s, l);
    if s' != s {
      assert PrefixDone(subs, s'.t, s.pc.id, s.pc.j + 1, s'.pc.responses);
    }
  }

  lemma QuietKeeps(subs: SubscriberTable, s: State, l: Label)
    requires Inv(subs, s) && (l.Return? || l.Raise? || l.Crash?)
    ensures Keeps(subs, s, l)
  {
    var s' := Step(subs, s, l);
    assert s' == s.(pc := s'.pc);
    assert Accounted(subs, s');
    assert PcOk(subs, s');
  }

  lemma StartAccounted(subs: SubscriberTable, s: State, s': State, k: Key)
    requires Accounted(subs, s) && s.starts[k] < Attempts(s.t, k.0, k.1)
    requires s'.t == s.t && s'.starts == s.starts + multiset{k}
    ensures Accounted(subs, s')
  {
    assert s.starts[(k.0, k.1)] < Attempts(s.t, k.0, k.1);
  }

  lemma StartKeeps(subs: SubscriberTable, s: State, l: Label)
    requires Inv(subs, s) && l.StartHandler?
    ensures Keeps(subs, s, l)
  {
    if s.pc.Claimed? {
      var s' := Step(subs, s, l);
      StartAccounted(subs, s, s', (s.pc.id, Names(subs, s.t.events, s.pc.id)[s.pc.j]));
      assert PcOk(subs, s');
    }
  }

  /** Rewriting the row of the subscriber whose turn it is, unless it is complete already. */
  lemma RowUpdateKeepsTables(subs: SubscriberTable, t: Tables, id: string, j: nat, d: Delivery)
    requires ValidTable(subs) && DeliveriesOwned(subs, t) && InOrder(subs, t) && PublishedMeansDelivered(subs, t)
    requires j < |Names(subs, t.events, id)| && !Done(t, id, Names(subs, t.events, id)[j])
    requires forall i :: 0 <= i < j ==> Done(t, id, Names(subs, t.events, id)[i])
    requires (d.status == COMPLETED ==> d.response.Some?) && (d.lastError.Some? <==> d.status == FAILED)
    ensures
      var t' := t.(deliveries := t.deliveries[(id, Names(subs, t.events, id)[j]) := d]);
      DeliveriesOwned(subs, t') && InOrder(subs, t') && PublishedMeansDelivered(subs, t')
  {
    var t' := t.(deliveries := t.deliveries[(id, Names(subs, t.events, id)[j]) := d]);
    assert forall e, name :: Done(t, e, name) ==> Done(t', e, name);
    assert Distinct(Names(subs, t.events, id));
  }

  lemma RowUpdateKeepsPrefix(
    subs: SubscriberTable, t: Tables, id: string, j: nat, d: Delivery, responses: map<string, Response>)
    requires ValidTable(subs) && j < |Names(subs, t.events, id)|
    requires PrefixDone(subs, t, id, j, responses) && Budget(subs, t, id, j + 1)
    ensures
      var t' := t.(deliveries := t.deliveries[(id, Names(subs, t.events, id)[j]) := d]);
      PrefixDone(subs, t', id, j, responses) && Budget(subs, t', id, j + 1)
  {
    assert Distinct(Names(subs, t.events, id));
  }

  /** One unfinished row of a stored event is rewritten, with at least as many attempts. */
  lemma RowUpdateExtends(s: State, s': State, k: Key, d: Delivery)
    requires !Done(s.t, k.0, k.1) && s'.starts == s.starts && s'.t == s.t.(deliveries := s.t.deliveries[k := d])
    ensures Extends(s, s')
  {
  }

  lemma RowUpdateAccounted(subs: SubscriberTable, s: State, s': State, k: Key, d: Delivery)
    requires Accounted(subs, s) && s'.starts == s.starts && s'.t == s.t.(deliveries := s.t.deliveries[k := d])
    requires Attempts(s.t, k.0, k.1) <= d.attempts <= EventAttempts(s.t.events, k.0)
    ensures Accounted(subs, s')
  {
    assert s.starts[(k.0, k.1)] <= Attempts(s.t, k.0, k.1);
  }

  /** Everything but the dispatcher's place survives such a rewrite. */
  lemma RowUpdateKeeps(subs: SubscriberTable, s: State, s': State, id: string, j: nat, d: Delivery)
    requires Inv(subs, s) && j < |Names(subs, s.t.events, id)| && !Done(s.t, id, Names(subs, s.t.events, id)[j])
    requires forall i :: 0 <= i < j ==> Done(s.t, id, Names(subs, s.t.events, id)[i])
    requires (d.status == COMPLETED ==> d.response.Some?) && (d.lastError.Some? <==> d.status == FAILED)
    requires
      var name := Names(subs, s.t.events, id)[j];
      && Attempts(s.t, id, name) <= d.attempts <= EventAttempts(s.t.events, id) && s'.starts == s.starts
      && s'.t == s.t.(deliveries := s.t.deliveries[(id, name) := d])
    ensures DeliveriesOwned(subs, s'.t) && InOrder(subs, s'.t) && PublishedMeansDelivered(subs, s'.t)
    ensures Accounted(subs, s') && Extends(s, s')
  {
    var name := Names(subs, s.t.events, id)[j];
    RowUpdateKeepsTables(subs, s.t, id, j, d);
    RowUpdateExtends(s, s', (id, name), d);
    RowUpdateAccounted(subs, s, s', (id, name), d);
  }

  lemma ClaimedPlace(subs: SubscriberTable, s: State, s': State)
    requires Inv(subs, s) && s.pc.Next? && s.pc.j < |Names(subs, s.t.events, s.pc.id)|
    requires
      var name := Names(subs, s.t.events, s.pc.id)[s.pc.j];
      CompletedDelivery(s.t, s.pc.id, name).None? &&
      s' == State(ClaimDelivery(s.t, s.pc.id, name), Claimed(s.pc.id, s.pc.j, s.pc.responses), s.starts)
    ensures PcOk(subs, s')
  {
    var id, j, name := s.pc.id, s.pc.j, Names(subs, s.t.events, s.pc.id)[s.pc.j];
    RowUpdateKeepsPrefix(subs, s.t, id, j, s'.t.deliveries[(id, name)], s.pc.responses);
    assert s.starts[(id, name)] <= Attempts(s.t, id, name);
  }

  lemma ClaimKeeps(subs: SubscriberTable, s: State, l: Label)
    requires Inv(subs, s) && l.Claim?
    ensures Keeps(subs, s, l)
  {
    if s.pc.Next? && s.pc.j < |Names(subs, s.t.events, s.pc.id)| {
      var id, j, name := s.pc.id, s.pc.j, Names(subs, s.t.events, s.pc.id)[s.pc.j];
      if CompletedDelivery(s.t, id, name).None? {
        var s' := Step(subs, s, l);
        RowUpdateKeeps(subs, s, s', id, j, s'.t.deliveries[(id, name)]);
        ClaimedPlace(subs, s, s');
      }
    }
  }

  lemma CompletedPlace(
    subs: SubscriberTable, s: State, id: string, j: nat, responses: map<string, Response>, d: Delivery,
    response: Response, s': State)
    requires ValidTable(subs) && id in s.t.events && j < |Names(subs, s.t.events, id)|
    requires PrefixDone(subs, s.t, id, j, responses) && Budget(subs, s.t, id, j + 1)
    requires d.status == COMPLETED && d.response == Some(response)
    requires
      var name := Names(subs, s.t.events, id)[j];
      s' == State(s.t.(deliveries := s.t.deliveries[(id, name) := d]),
                  Next(id, j + 1, responses[name := response]), s.starts)
    ensures PcOk(subs, s')
  {
    RowUpdateKeepsPrefix(subs, s.t, id, j, d, responses);
    CompletedPrefix(subs, s.t, id, j, d, responses, response);
    assert Names(subs, s'.t.events, id) == Names(subs, s.t.events, id);
  }

  lemma CompleteKeeps(subs: SubscriberTable, s: State, l: Label)
    requires Inv(subs, s) && l.Complete?
    ensures Keeps(subs, s, l)
  {
    if s.pc.Returned? {
      var id, j, name := s.pc.id, s.pc.j, Names(subs, s.t.events, s.pc.id)[s.pc.j];
      var s' := Step(subs, s, l);
      assert Attempts(s.t, id, name) <= EventAttempts(s.t.events, id);
      RowUpdateKeeps(subs, s, s', id, j, s'.t.deliveries[(id, name)]);
      CompletedPlace(subs, s, id, j, s.pc.responses, s'.t.deliveries[(id, name)], s.pc.response, s');
    }
  }

  lemma CompletedPrefix(
    subs: SubscriberTable, t: Tables, id: string, j: nat, d: Delivery, responses: map<string, Response>,
    response: Response)
    requires ValidTable(subs) && j < |Names(subs, t.events, id)|
    requires PrefixDone(subs, t, id, j, responses) && d.status == COMPLETED && d.response == Some(response)
    ensures
      var name := Names(subs, t.events, id)[j];
      PrefixDone(subs, t.(deliveries := t.deliveries[(id, name) := d]), id, j + 1, responses[name := response])
  {
    assert Distinct(Names(subs, t.events, id));
  }

  lemma FailKeeps(subs: SubscriberTable, s: State, l: Label)
    requires Inv(subs, s) && l.Fail?
    ensures Keeps(subs, s, l)
  {
    if s.pc.Raised? {
      var id, j, name := s.pc.id, s.pc.j, Names(subs, s.t.events, s.pc.id)[s.pc.j];
      var s' := Step(subs, s, l);
      assert Attempts(s.t, id, name) <= EventAttempts(s.t.events, id);
      RowUpdateKeeps(subs, s, s', id, j, s'.t.deliveries[(id, name)]);
    }
  }

  lemma PublishKeeps(subs: SubscriberTable, s: State, l: Label)
    requires Inv(subs, s) && l.Publish?
    ensures Keeps(subs, s, l)
  {
    var s' := Step(subs, s, l);
    if s'.t != s.t {
      EventUpdateKeepsTables(subs, s.t, s'.t, s.pc.id);
      assert Accounted(subs, s');
    }
  }

  lemma StepKeepsInv(subs: SubscriberTable, s: State, l: Label)
    requires Inv(subs, s)
    ensures Inv(subs, Step(subs, s, l)) && Extends(s, Step(subs, s, l))
  {
    match l {
      case Enqueue(_, _, _) => EnqueueKeeps(subs, s, l);
      case Begin(_) => BeginKeeps(subs, s, l);
      case Skip => SkipKeeps(subs, s, l);
      case StartHandler => StartKeeps(subs, s, l);
      case Claim => ClaimKeeps(subs, s, l);
      case Complete => CompleteKeeps(subs, s, l);
      case Fail => FailKeeps(subs, s, l);
      case Publish(_) => PublishKeeps(subs, s, l);
      case _ => QuietKeeps(subs, s, l);
    }
  }

  // ---------------------------------------------------------------- every run

  lemma {:induction false} RunKeepsInv(subs: SubscriberTable, s: State, labels: seq<Label>)
    requires Inv(subs, s)
    ensures Inv(subs, Exec(subs, s, labels)) && Extends(s, Exec(subs, s, labels))
    decreases |labels|
  {
    if labels != [] {
      StepKeepsInv(subs, s, labels[0]);
      RunKeepsInv(subs, Step(subs, s, labels[0]), labels[1..]);
    }
  }

  /** Safety over every run: any order of arrivals, handler failures, retries and crashes. */
  lemma BusSafety(subs: SubscriberTable, labels: seq<Label>)
    requires ValidTable(subs)
    ensures
      var s := Exec(subs, EMPTY, labels);
      && (forall id, i, j :: id in s.t.events && 0 <= i < j < |Names(subs, s.t.events, id)| ==>
            (id, Names(subs, s.t.events, id)[j]) in s.t.deliveries ==> Done(s.t, id, Names(subs, s.t.events, id)[i]))
      && (forall id, name :: id in s.t.events && name in Names(subs, s.t.events, id) ==>
            s.t.events[id].status == PUBLISHED ==> Done(s.t, id, name))
      && (forall k :: k in s.t.deliveries ==>
            && (s.t.deliveries[k].status == COMPLETED ==> s.t.deliveries[k].response.Some?)
            && (s.t.deliveries[k].lastError.Some? <==> s.t.deliveries[k].status == FAILED))
  {
    assert Inv(subs, EMPTY);
    RunKeepsInv(subs, EMPTY, labels);
  }

  /** Handler starts <= delivery attempts <= event attempts, in every reachable state. */
  lemma AttemptAccounting(subs: SubscriberTable, labels: seq<Label>, id: string, name: string)
    requires ValidTable(subs)
    ensures
      var s := Exec(subs, EMPTY, labels);
      s.starts[(id, name)] <= Attempts(s.t, id, name) <= EventAttempts(s.t.events, id)
  {
    assert Inv(subs, EMPTY);
    RunKeepsInv(subs, EMPTY, labels);
  }

  /** Once delivered, a row, its stored answer and its handler's start count are final. */
  lemma DeliveredIsFinal(subs: SubscriberTable, before: seq<Label>, after: seq<Label>, id: string, name: string)
    requires ValidTable(subs)
    requires Done(Exec(subs, EMPTY, before).t, id, name)
    ensures
      var a, b := Exec(subs, EMPTY, before), Exec(subs, EMPTY, before + after);
      && Done(b.t, id, name) && b.t.deliveries[(id, name)] == a.t.deliveries[(id, name)]
      && b.starts[(id, name)] == a.starts[(id, name)]
  {
    assert Inv(subs, EMPTY);
    RunKeepsInv(subs, EMPTY, before);
    ExecConcat(subs, EMPTY, before, after);
    RunKeepsInv(subs, Exec(subs, EMPTY, before), after);
  }
}
