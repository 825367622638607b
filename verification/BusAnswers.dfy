/** What dispatching writes and answers, row by row: one event, and a batch that raises errors. */
module BusAnswers {
  import opened Basics
  import opened TextOrder
  import opened ContextBus
  import opened BusDelivery
  import opened BusPolling

  // ---------------------------------------------------------------- one event

  function StoredAnswer(t: Tables, id: string, name: string): Option<Response> {
    if (id, name) in t.deliveries then t.deliveries[(id, name)].response else None
  }

  /** What the handler of a subscriber says on its next attempt. */
  function NextReply(t: Tables, id: string, name: string, h: Handler): HandlerOutcome {
    h(id, name, Attempts(t, id, name) + 1)
  }

  /** A subscriber that was served: delivered before and left alone, or tried once and completed. */
  ghost predicate Served(
    t: Tables, starts: multiset<Key>, t': Tables, starts': multiset<Key>, id: string, name: string, h: Handler)
  {
    && (id, name) in t'.deliveries
    && if Done(t, id, name) then
         t'.deliveries[(id, name)] == t.deliveries[(id, name)] && starts'[(id, name)] == starts[(id, name)]
       else
         && NextReply(t, id, name, h).Returns?
         && t'.deliveries[(id, name)] ==
            Delivery(COMPLETED, Attempts(t, id, name) + 1, Some(NextReply(t, id, name, h).response), None)
         && starts'[(id, name)] == starts[(id, name)] + 1
  }

  /** A subscriber that was tried once and raised: an older answer is kept, the error is noted. */
  ghost predicate Refused(
    t: Tables, starts: multiset<Key>, t': Tables, starts': multiset<Key>, id: string, name: string, h: Handler)
  {
    && !Done(t, id, name) && NextReply(t, id, name, h).Raises?
    && (id, name) in t'.deliveries
    && t'.deliveries[(id, name)] ==
       Delivery(FAILED, Attempts(t, id, name) + 1, StoredAnswer(t, id, name), Some(NextReply(t, id, name, h).error))
    && starts'[(id, name)] == starts[(id, name)] + 1
  }

  ghost predicate SameRow(t: Tables, starts: multiset<Key>, t': Tables, starts': multiset<Key>, key: Key) {
    && (key in t.deliveries <==> key in t'.deliveries)
    && (key in t.deliveries ==> t'.deliveries[key] == t.deliveries[key])
    && starts'[key] == starts[key]
  }

  /** The subscribers from j on are served up to k, the k-th raised if there is one, and no other row changed. */
  ghost predicate ServedUpTo(
    names: seq<string>, t: Tables, starts: multiset<Key>, out: Outcome, id: string, j: nat, k: nat, h: Handler)
  {
    && j <= k <= |names|
    && (forall i :: j <= i < k ==> Served(t, starts, out.t, out.starts, id, names[i], h))
    && (k < |names| ==> Refused(t, starts, out.t, out.starts, id, names[k], h))
    && (forall i :: 0 <= i < |names| && (i < j || k < i) ==> SameRow(t, starts, out.t, out.starts, (id, names[i])))
    && forall key: Key :: key.0 != id || key.1 !in names ==> SameRow(t, starts, out.t, out.starts, key)
  }

  lemma ServedOn(
    names: seq<string>, t: Tables, starts: multiset<Key>, t1: Tables, starts1: multiset<Key>, out: Outcome,
    id: string, j: nat, k: nat, h: Handler)
    requires Distinct(names) && j < k <= |names|
    requires Served(t, starts, t1, starts1, id, names[j], h)
    requires forall key: Key :: key != (id, names[j]) ==> SameRow(t, starts, t1, starts1, key)
    requires ServedUpTo(names, t1, starts1, out, id, j + 1, k, h)
    ensures ServedUpTo(names, t, starts, out, id, j, k, h)
  {
    assert SameRow(t1, starts1, out.t, out.starts, (id, names[j]));
    forall i | 0 <= i < |names| && i != j ensures SameRow(t, starts, t1, starts1, (id, names[i])) {
      assert (id, names[i]) != (id, names[j]);
    }
    forall i | j < i < k ensures Served(t, starts, out.t, out.starts, id, names[i], h) {
      assert Served(t1, starts1, out.t, out.starts, id, names[i], h);
      assert SameRow(t, starts, t1, starts1, (id, names[i]));
    }
    if k < |names| {
      assert SameRow(t, starts, t1, starts1, (id, names[k]));
    }
    forall key: Key | key.0 != id || key.1 !in names ensures SameRow(t, starts, out.t, out.starts, key) {
      assert SameRow(t, starts, t1, starts1, key) && SameRow(t1, starts1, out.t, out.starts, key);
    }
  }

  lemma TriedRow(t: Tables, starts: multiset<Key>, id: string, name: string, h: Handler, response: Response)
    requires !Done(t, id, name) && NextReply(t, id, name, h) == Returns(response)
    ensures
      var t1 := CompleteDelivery(ClaimDelivery(t, id, name), id, name, response).value;
      var starts1 := starts + multiset{(id, name)};
      && Served(t, starts, t1, starts1, id, name, h) && t1.events == t.events
      && forall key: Key :: key != (id, name) ==> SameRow(t, starts, t1, starts1, key)
  {
  }

  /** Where the subscribers' turn ended: at the k-th, which raised, or after all of them. */
  ghost predicate EndedAt(
    names: seq<string>, events: map<string, OutboxEvent>, out: Outcome, id: string, k: nat, now: int)
    requires id in events
  {
    if k < |names| then out.result == Err(HandlerFailed(names[k])) && out.t.events == events
    else
      && out.result.Ok?
      && out.t.events == events[id := events[id].(status := PUBLISHED, publishedAt := Some(now))]
  }

  ghost predicate Answerable(t: Tables, id: string) {
    forall name :: Done(t, id, name) ==> t.deliveries[(id, name)].response.Some?
  }

  lemma DeliverRaises(
    names: seq<string>, t: Tables, starts: multiset<Key>, id: string, j: nat, responses: map<string, Response>,
    h: Handler, now: int)
    requires j < |names| && Distinct(names) && id in t.events
    requires !Done(t, id, names[j]) && NextReply(t, id, names[j], h).Raises?
    ensures
      var out := Deliver(names, t, starts, id, j, responses, h, now);
      ServedUpTo(names, t, starts, out, id, j, j, h) && EndedAt(names, t.events, out, id, j, now)
  {
  }

  /** Serving goes on after a subscriber that was delivered before, or that answers now. */
  lemma DeliverOn(
    names: seq<string>, t: Tables, starts: multiset<Key>, id: string, j: nat, responses: map<string, Response>,
    h: Handler, now: int) returns (t1: Tables, starts1: multiset<Key>, responses1: map<string, Response>)
    requires j < |names| && Distinct(names) && id in t.events && Answerable(t, id)
    requires Done(t, id, names[j]) || NextReply(t, id, names[j], h).Returns?
    ensures Deliver(names, t, starts, id, j, responses, h, now) ==
      Deliver(names, t1, starts1, id, j + 1, responses1, h, now)
    ensures Served(t, starts, t1, starts1, id, names[j], h) && t1.events == t.events && Done(t1, id, names[j])
    ensures forall key: Key :: key != (id, names[j]) ==> SameRow(t, starts, t1, starts1, key)
    ensures Answerable(t1, id)
  {
    var name := names[j];
    if Done(t, id, name) {
      t1, starts1, responses1 := t, starts, responses[name := CompletedDelivery(t, id, name).value];
    } else {
      var response := NextReply(t, id, name, h).response;
      t1 := CompleteDelivery(ClaimDelivery(t, id, name), id, name, response).value;
      starts1, responses1 := starts + multiset{(id, name)}, responses[name := response];
      TriedRow(t, starts, id, name, h, response);
    }
  }

  lemma {:induction false} DeliverRows(
    names: seq<string>, t: Tables, starts: multiset<Key>, id: string, j: nat, responses: map<string, Response>,
    h: Handler, now: int) returns (k: nat)
    requires j <= |names| && Distinct(names) && id in t.events && Answerable(t, id)
    requires forall i :: 0 <= i < j ==> Done(t, id, names[i])
    ensures
      var out := Deliver(names, t, starts, id, j, responses, h, now);
      ServedUpTo(names, t, starts, out, id, j, k, h) && EndedAt(names, t.events, out, id, k, now)
    decreases |names| - j
  {
    if j == |names| {
      return j;
    }
    if !Done(t, id, names[j]) && NextReply(t, id, names[j], h).Raises? {
      DeliverRaises(names, t, starts, id, j, responses, h, now);
      return j;
    }
    var t1, starts1, responses1 := DeliverOn(names, t, starts, id, j, responses, h, now);
    forall i | 0 <= i < j ensures Done(t1, id, names[i]) {
      assert SameRow(t, starts, t1, starts1, (id, names[i]));
    }
    k := DeliverRows(names, t1, starts1, id, j + 1, responses1, h, now);
    ServedOn(names, t, starts, t1, starts1, Deliver(names, t, starts, id, j, responses, h, now), id, j, k, h);
  }

  /** A published event keeps its row, any other has one more attempt on it. */
  function Counted(e: OutboxEvent): OutboxEvent {
    if e.status == PUBLISHED then e else OutboxEvent(e.eventType, e.createdAt, e.status, e.attempts + 1, e.publishedAt)
  }

  /** Everything one dispatch of a stored event writes: it serves the subscribers in registration order, runs
      only those not yet delivered, and stops at the first that raises. */
  lemma DispatchRows(subs: SubscriberTable, t: Tables, starts: multiset<Key>, id: string, h: Handler, now: int)
    requires Inv(subs, State(t, Idle, starts)) && id in t.events
    requires t.events[id].eventType in subs && subs[t.events[id].eventType] != []
    ensures
      var out := DispatchOne(subs, t, starts, id, h, now);
      var names := subs[t.events[id].eventType];
      && (out.result.Ok? ==> Stored(out.t, id, names, out.result.value))
      && exists k: nat ::
           && ServedUpTo(names, t, starts, out, id, 0, k, h)
           && EndedAt(names, t.events[id := Counted(t.events[id])], out, id, k, now)
  {
    var names := subs[t.events[id].eventType];
    var t1 := RecordEventAttempt(t, id);
    assert t1.events == t.events[id := Counted(t.events[id])];
    var k := DeliverRows(names, t1, starts, id, 0, map[], h, now);
    DispatchAnswers(subs, t, starts, id, h, now);
    var out := DispatchOne(subs, t, starts, id, h, now);
    SameDeliveries(names, t, t1, starts, out, id, k, h);
  }

  lemma SameDeliveries(
    names: seq<string>, t: Tables, t1: Tables, starts: multiset<Key>, out: Outcome, id: string, k: nat, h: Handler)
    requires t1.deliveries == t.deliveries && ServedUpTo(names, t1, starts, out, id, 0, k, h)
    ensures ServedUpTo(names, t, starts, out, id, 0, k, h)
  {
    forall i | 0 <= i < k ensures Served(t, starts, out.t, out.starts, id, names[i], h) {
      assert Served(t1, starts, out.t, out.starts, id, names[i], h);
    }
    forall key: Key | SameRow(t1, starts, out.t, out.starts, key) ensures SameRow(t, starts, out.t, out.starts, key) {
    }
  }

  /** An event nobody subscribed to is refused before anything is written. */
  lemma NobodySubscribed(subs: SubscriberTable, t: Tables, starts: multiset<Key>, id: string, h: Handler, now: int)
    requires id in t.events
    ensures
      DispatchOne(subs, t, starts, id, h, now) == Outcome(t, starts, Err(NoSubscriber)) <==>
      t.events[id].eventType !in subs || subs[t.events[id].eventType] == []
  {
    var names := Names(subs, t.events, id);
    if names != [] {
      assert DispatchOne(subs, t, starts, id, h, now) ==
        Deliver(names, RecordEventAttempt(t, id), starts, id, 0, map[], h, now);
      DeliverNamesSubscriber(names, RecordEventAttempt(t, id), starts, id, 0, map[], h, now);
    }
  }

  lemma {:induction false} DeliverNamesSubscriber(
    names: seq<string>, t: Tables, starts: multiset<Key>, id: string, j: nat, responses: map<string, Response>,
    h: Handler, now: int)
    requires j <= |names|
    ensures Deliver(names, t, starts, id, j, responses, h, now).result != Err(NoSubscriber)
    decreases |names| - j
  {
    if j < |names| {
      var name := names[j];
      match CompletedDelivery(t, id, name) {
        case Some(response) =>
          DeliverNamesSubscriber(names, t, starts, id, j + 1, responses[name := response], h, now);
        case None =>
          var t1 := ClaimDelivery(t, id, name);
          match h(id, name, t1.deliveries[(id, name)].attempts) {
            case Raises(_) =>
            case Returns(response) =>
              DeliverNamesSubscriber(names, CompleteDelivery(t1, id, name, response).value,
                starts + multiset{(id, name)}, id, j + 1, responses[name := response], h, now);
          }
      }
    }
  }

  // ---------------------------------------------------------------- a batch that raises errors

  ghost predicate Alone(subs: SubscriberTable, t: Tables, starts: multiset<Key>, id: string, h: Handler, now: int) {
    DispatchOne(subs, t, starts, id, h, now).result.Ok?
  }

  ghost predicate FaresAlone(
    subs: SubscriberTable, t: Tables, starts: multiset<Key>, out: BatchOutcome, id: string, h: Handler, now: int)
  {
    var alone := DispatchOne(subs, t, starts, id, h, now);
    AgreeOn(out.t, out.starts, alone.t, alone.starts, id)
  }

  /** The first event that fails alone, if any, is where the batch stops. */
  ghost predicate StopsAt(
    subs: SubscriberTable, t: Tables, starts: multiset<Key>, batch: seq<string>, k: nat, h: Handler, now: int)
  {
    && k <= |batch|
    && (forall i :: 0 <= i < k ==> Alone(subs, t, starts, batch[i], h, now))
    && (k < |batch| ==> !Alone(subs, t, starts, batch[k], h, now))
  }

  /** The answer of a batch that stopped there. */
  ghost predicate RaisedAt(
    subs: SubscriberTable, t: Tables, starts: multiset<Key>, batch: seq<string>, k: nat, h: Handler, now: int,
    acc: map<string, map<string, Response>>, out: BatchOutcome)
    requires k <= |batch|
  {
    if k < |batch| then
      var lone := DispatchOne(subs, t, starts, batch[k], h, now);
      lone.result.Err? && out.result == Err(lone.result.error)
    else
      && out.result.Ok?
      && (forall id :: id in out.result.value <==> id in batch || id in acc)
      && (forall id :: id in batch ==> Ok(out.result.value[id]) == DispatchOne(subs, t, starts, id, h, now).result)
      && (forall id :: id in acc && id !in batch ==> out.result.value[id] == acc[id])
  }

  /** The tables such a batch leaves: events up to k as if dispatched alone, all others untouched. */
  ghost predicate TouchedUpTo(
    subs: SubscriberTable, t: Tables, starts: multiset<Key>, batch: seq<string>, k: nat, h: Handler, now: int,
    out: BatchOutcome)
  {
    && (forall i :: 0 <= i < |batch| && i <= k ==> FaresAlone(subs, t, starts, out, batch[i], h, now))
    && (forall i :: k < i < |batch| ==> AgreeOn(t, starts, out.t, out.starts, batch[i]))
    && (forall id :: id !in batch ==> AgreeOn(t, starts, out.t, out.starts, id))
  }

  /** Dispatching the head first changes nothing for the others. */
  ghost predicate HeadApart(
    subs: SubscriberTable, t: Tables, starts: multiset<Key>, first: Outcome, head: string, h: Handler, now: int)
  {
    && first == DispatchOne(subs, t, starts, head, h, now)
    && (forall id :: id != head ==> AgreeOn(t, starts, first.t, first.starts, id))
    && forall id :: id != head ==>
         var lone := DispatchOne(subs, t, starts, id, h, now);
         var later := DispatchOne(subs, first.t, first.starts, id, h, now);
         lone.result == later.result && AgreeOn(lone.t, lone.starts, later.t, later.starts, id)
  }

  lemma HeadIsApart(subs: SubscriberTable, t: Tables, starts: multiset<Key>, head: string, h: Handler, now: int)
    ensures HeadApart(subs, t, starts, DispatchOne(subs, t, starts, head, h, now), head, h, now)
  {
    var first := DispatchOne(subs, t, starts, head, h, now);
    forall id | id != head ensures AgreeOn(t, starts, first.t, first.starts, id) {
      DispatchOneFrame(subs, t, starts, head, h, now, id);
    }
    forall id | id != head
      ensures
        var lone := DispatchOne(subs, t, starts, id, h, now);
        var later := DispatchOne(subs, first.t, first.starts, id, h, now);
        lone.result == later.result && AgreeOn(lone.t, lone.starts, later.t, later.starts, id)
    {
      DispatchOneLocal(subs, t, starts, first.t, first.starts, id, h, now);
    }
  }

  lemma HeadAnswered(
    subs: SubscriberTable, t: Tables, starts: multiset<Key>, first: Outcome, head: string, rest: seq<string>, l: nat,
    h: Handler, now: int, acc: map<string, map<string, Response>>, out: BatchOutcome)
    requires head !in rest && HeadApart(subs, t, starts, first, head, h, now) && first.result.Ok?
    requires StopsAt(subs, first.t, first.starts, rest, l, h, now)
    requires RaisedAt(subs, first.t, first.starts, rest, l, h, now, acc[head := first.result.value], out)
    ensures StopsAt(subs, t, starts, [head] + rest, l + 1, h, now)
    ensures RaisedAt(subs, t, starts, [head] + rest, l + 1, h, now, acc, out)
  {
    var batch := [head] + rest;
    assert forall id :: id in batch <==> id == head || id in rest;
    forall i | 0 < i < |batch|
      ensures batch[i] == rest[i - 1] && batch[i] != head
      ensures Alone(subs, t, starts, batch[i], h, now) == Alone(subs, first.t, first.starts, batch[i], h, now)
    {
    }
  }

  lemma HeadTouched(
    subs: SubscriberTable, t: Tables, starts: multiset<Key>, first: Outcome, head: string, rest: seq<string>, l: nat,
    h: Handler, now: int, out: BatchOutcome)
    requires head !in rest && HeadApart(subs, t, starts, first, head, h, now)
    requires TouchedUpTo(subs, first.t, first.starts, rest, l, h, now, out)
    ensures TouchedUpTo(subs, t, starts, [head] + rest, l + 1, h, now, out)
  {
    var batch := [head] + rest;
    forall i | 0 <= i < |batch| && i <= l + 1 ensures FaresAlone(subs, t, starts, out, batch[i], h, now) {
      if i > 0 {
        LaterFaresAlone(subs, t, starts, first, head, rest[i - 1], h, now, out);
      } else {
        assert AgreeOn(first.t, first.starts, out.t, out.starts, head);
      }
    }
    forall id | id != head && AgreeOn(first.t, first.starts, out.t, out.starts, id)
      ensures AgreeOn(t, starts, out.t, out.starts, id)
    {
      assert AgreeOn(t, starts, first.t, first.starts, id);
    }
    assert forall i :: l + 1 < i < |batch| ==> batch[i] == rest[i - 1];
    assert forall id :: id !in batch ==> id !in rest && id != head;
  }

  lemma LaterFaresAlone(
    subs: SubscriberTable, t: Tables, starts: multiset<Key>, first: Outcome, head: string, id: string, h: Handler,
    now: int, out: BatchOutcome)
    requires id != head && HeadApart(subs, t, starts, first, head, h, now)
    requires FaresAlone(subs, first.t, first.starts, out, id, h, now)
    ensures FaresAlone(subs, t, starts, out, id, h, now)
  {
    var lone := DispatchOne(subs, t, starts, id, h, now);
    var later := DispatchOne(subs, first.t, first.starts, id, h, now);
    assert AgreeOn(lone.t, lone.starts, later.t, later.starts, id);
  }

  lemma {:induction false} RaisingStops(
    subs: SubscriberTable, t: Tables, starts: multiset<Key>, batch: seq<string>, h: Handler, now: int,
    acc: map<string, map<string, Response>>) returns (k: nat)
    requires Distinct(batch)
    ensures StopsAt(subs, t, starts, batch, k, h, now)
    ensures
      var out := DispatchBatch(subs, t, starts, batch, true, h, now, acc);
      RaisedAt(subs, t, starts, batch, k, h, now, acc, out) && TouchedUpTo(subs, t, starts, batch, k, h, now, out)
    decreases |batch|
  {
    if batch == [] {
      return 0;
    }
    var head, rest := batch[0], batch[1..];
    var first := DispatchOne(subs, t, starts, head, h, now);
    assert batch == [head] + rest;
    HeadIsApart(subs, t, starts, head, h, now);
    DistinctTail(batch);
    if first.result.Err? {
      return 0;
    }
    var acc' := acc[head := first.result.value];
    var l := RaisingStops(subs, first.t, first.starts, rest, h, now, acc');
    var out := DispatchBatch(subs, first.t, first.starts, rest, true, h, now, acc');
    HeadAnswered(subs, t, starts, first, head, rest, l, h, now, acc, out);
    HeadTouched(subs, t, starts, first, head, rest, l, h, now, out);
    k := l + 1;
  }

  lemma FirstIsUnique(
    subs: SubscriberTable, t: Tables, starts: multiset<Key>, batch: seq<string>, k: nat, l: nat, h: Handler, now: int)
    requires StopsAt(subs, t, starts, batch, k, h, now) && StopsAt(subs, t, starts, batch, l, h, now)
    ensures k == l
  {
  }

  /** With errors raised a batch answers exactly when every event succeeds alone, and then with the lone answers;
      otherwise it stops at the first event that fails alone, with its error, and leaves the later ones untouched. */
  lemma RaisingBatch(
    subs: SubscriberTable, t: Tables, starts: multiset<Key>, batch: seq<string>, h: Handler, now: int)
    requires Distinct(batch) && Inv(subs, State(t, Idle, starts)) && forall id :: id in batch ==> id in t.events
    ensures
      var out := DispatchBatch(subs, t, starts, batch, true, h, now, map[]);
      && (out.result.Ok? <==> forall id :: id in batch ==> Alone(subs, t, starts, id, h, now))
      && (out.result.Ok? ==>
            && (forall id :: id in out.result.value <==> id in batch)
            && forall id :: id in batch ==>
                 && FaresAlone(subs, t, starts, out, id, h, now)
                 && Ok(out.result.value[id]) == DispatchOne(subs, t, starts, id, h, now).result
                 && id in out.t.events && out.t.events[id].status == PUBLISHED)
      && (forall k :: 0 <= k < |batch| && StopsAt(subs, t, starts, batch, k, h, now) ==>
            && DispatchOne(subs, t, starts, batch[k], h, now).result.Err?
            && out.result == Err(DispatchOne(subs, t, starts, batch[k], h, now).result.error)
            && (forall i :: 0 <= i <= k ==> FaresAlone(subs, t, starts, out, batch[i], h, now))
            && (forall i :: k < i < |batch| ==> AgreeOn(t, starts, out.t, out.starts, batch[i])))
      && (forall id :: id !in batch ==> AgreeOn(t, starts, out.t, out.starts, id))
  {
    var k := RaisingStops(subs, t, starts, batch, h, now, map[]);
    var out := DispatchBatch(subs, t, starts, batch, true, h, now, map[]);
    if k == |batch| {
      forall id | id in batch
        ensures FaresAlone(subs, t, starts, out, id, h, now) && Alone(subs, t, starts, id, h, now)
        ensures id in out.t.events && out.t.events[id].status == PUBLISHED
      {
        var i :| 0 <= i < |batch| && batch[i] == id;
        DispatchAnswers(subs, t, starts, id, h, now);
      }
    }
    forall l | 0 <= l < |batch| && StopsAt(subs, t, starts, batch, l, h, now) ensures l == k {
      FirstIsUnique(subs, t, starts, batch, k, l, h, now);
    }
  }

  // ---------------------------------------------------------------- which events a poll takes

  /** A poll takes pending events only, as many as it may, by creation time and then by id; an event it passes
      over is pending behind all it takes. */
  lemma OldestPendingFirst(t: Tables, limit: nat)
    ensures
      var taken := PendingOutbox(t, limit);
      && Distinct(taken) && |taken| <= limit
      && (forall id :: id in taken ==> id in t.events && t.events[id].status == PENDING)
      && (forall i, j :: 0 <= i < j < |taken| ==>
            && t.events[taken[i]].createdAt <= t.events[taken[j]].createdAt
            && (t.events[taken[i]].createdAt == t.events[taken[j]].createdAt ==> TextLt(taken[i], taken[j])))
      && forall id :: id in t.events && t.events[id].status == PENDING && id !in taken ==>
           && |taken| == limit
           && forall i :: 0 <= i < limit ==>
                && t.events[taken[i]].createdAt <= t.events[id].createdAt
                && (t.events[taken[i]].createdAt == t.events[id].createdAt ==> TextLt(taken[i], id))
  {
    var order := SortedIds(t.events, Pending(t.events));
    var taken := PendingOutbox(t, limit);
    assert taken == Take(order, limit) && taken <= order;
    forall id | id in taken ensures id in order {
      var k :| 0 <= k < |taken| && taken[k] == id;
      assert order[k] == id;
    }
    forall id | id in Pending(t.events) && id !in taken
      ensures |taken| == limit && forall i :: 0 <= i < limit ==> Before(t.events, taken[i], id)
    {
      var k :| 0 <= k < |order| && order[k] == id;
      assert forall i :: 0 <= i < |taken| ==> taken[i] == order[i];
    }
  }
}
