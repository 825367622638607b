/** The dispatcher object: it updates the outbox tables in place, one committed block at a time. */
module BusService {
  import opened Basics
  import opened ContextBus
  import opened BusDelivery
  import opened BusPolling
  import opened BusAnswers

  /** The ids `_load_events` keeps: first occurrences, in order, of ids that are stored. */
  function Selected(events: map<string, OutboxEvent>, ids: seq<string>): (r: seq<string>)
    ensures Distinct(r) && forall id :: id in r <==> id in ids && id in events
    decreases |ids|
  {
    if ids == [] then []
    else
      var front := Selected(events, ids[..|ids| - 1]);
      var last := ids[|ids| - 1];
      assert ids == ids[..|ids| - 1] + [last];
      if last in events && last !in front then front + [last] else front
  }

  function Loaded(t: Tables, outboxIds: Option<seq<string>>, limit: nat): seq<string> {
    match outboxIds
    case None => PendingOutbox(t, limit)
    case Some(ids) => Selected(t.events, ids)
  }

  /** In this list x comes up before y does, if y does at all. */
  ghost predicate ComesBefore(ids: seq<string>, x: string, y: string) {
    exists k :: 0 <= k < |ids| && ids[k] == x && y !in ids[..k]
  }

  lemma {:induction false} SelectedInOrder(events: map<string, OutboxEvent>, ids: seq<string>)
    ensures
      var r := Selected(events, ids);
      forall i, j :: 0 <= i < j < |r| ==> ComesBefore(ids, r[i], r[j])
    decreases |ids|
  {
    if ids != [] {
      var front := ids[..|ids| - 1];
      SelectedInOrder(events, front);
      var r := Selected(events, ids);
      forall i, j | 0 <= i < j < |r| ensures ComesBefore(ids, r[i], r[j]) {
        FrontOrder(events, front, ids[|ids| - 1], r[i], r[j]);
        assert front + [ids[|ids| - 1]] == ids;
      }
    }
  }

  lemma FrontOrder(events: map<string, OutboxEvent>, front: seq<string>, last: string, x: string, y: string)
    requires x in Selected(events, front) && y in events
    requires y in Selected(events, front) ==> ComesBefore(front, x, y)
    ensures ComesBefore(front + [last], x, y)
  {
    var ids := front + [last];
    var i :| 0 <= i < |front| && front[i] == x;
    assert ComesBefore(front, x, y) by {
      assert y !in front ==> y !in front[..i];
    }
    var k :| 0 <= k < |front| && front[k] == x && y !in front[..k];
    assert ids[k] == x && ids[..k] == front[..k];
  }

  /** What a dispatch works through is distinct and stored; pending events come oldest first, named
      ones in the order of their first mention. */
  lemma LoadedInOrder(t: Tables, outboxIds: Option<seq<string>>, limit: nat)
    ensures
      var loaded := Loaded(t, outboxIds, limit);
      && Distinct(loaded) && (forall id :: id in loaded ==> id in t.events)
      && (forall i, j :: 0 <= i < j < |loaded| ==>
            if outboxIds.None? then Before(t.events, loaded[i], loaded[j])
            else ComesBefore(outboxIds.value, loaded[i], loaded[j]))
  {
    if outboxIds.None? {
      var order := SortedIds(t.events, Pending(t.events));
      assert forall id :: id in Take(order, limit) ==> id in order;
    } else {
      var ids := outboxIds.value;
      SelectedInOrder(t.events, ids);
      assert Loaded(t, outboxIds, limit) == Selected(t.events, ids);
    }
  }

  /** Which events a dispatch answers for, and when it raises instead. */
  lemma BatchAnswers(
    subs: SubscriberTable, t: Tables, starts: multiset<Key>, batch: seq<string>, raiseErrors: bool, h: Handler,
    now: int)
    requires Distinct(batch) && Inv(subs, State(t, Idle, starts)) && forall id :: id in batch ==> id in t.events
    ensures
      var r := DispatchBatch(subs, t, starts, batch, raiseErrors, h, now, map[]).result;
      && (r.Ok? <==> (raiseErrors ==> forall id :: id in batch ==> Alone(subs, t, starts, id, h, now)))
      && (r.Ok? ==> forall id :: id in r.value <==> id in batch && Alone(subs, t, starts, id, h, now))
  {
    if raiseErrors {
      RaisingBatch(subs, t, starts, batch, h, now);
    } else {
      BatchIsolation(subs, t, starts, batch, h, now, map[], "");
      var r := DispatchBatch(subs, t, starts, batch, raiseErrors, h, now, map[]).result;
      forall id ensures r.Ok? && (id in r.value <==> id in batch && Alone(subs, t, starts, id, h, now)) {
        BatchIsolation(subs, t, starts, batch, h, now, map[], id);
      }
    }
  }

  class ContextBusDispatcher {
    var subscribers: SubscriberTable
    var events: map<string, OutboxEvent>
    var deliveries: map<Key, Delivery>
    ghost var starts: multiset<Key>  // every handler invocation made

    ghost predicate Valid()
      reads this
    {
      Inv(subscribers, State(Current(), Idle, starts))
    }

    function Current(): Tables
      reads this
    {
      Tables(events, deliveries)
    }

    constructor ()
      ensures Valid() && State(Current(), Idle, starts) == EMPTY && subscribers == map[]
    {
      subscribers, events, deliveries, starts := map[], map[], map[], multiset{};
    }

    /** Names stay distinct and in registration order; a second registration is refused. */
    method Subscribe(eventType: string, name: string) returns (added: bool)
      requires ValidTable(subscribers)
      modifies this`subscribers
      ensures ValidTable(subscribers)
      ensures added <==> name !in SubscribersOf(old(subscribers), eventType)
      ensures forall other ::
                SubscribersOf(subscribers, other) ==
                SubscribersOf(old(subscribers), other) + if added && other == eventType then [name] else []
    {
      var names := SubscribersOf(subscribers, eventType);
      added := name !in names;
      if added {
        subscribers := subscribers[eventType := names + [name]];
      }
    }

    method RecordAttempt(id: string)
      modifies this`events
      ensures Current() == RecordEventAttempt(old(Current()), id)
    {
      if id in events && events[id].status != PUBLISHED {
        var e := events[id];
        events := events[id := e.(attempts := e.attempts + 1)];
      }
    }

    method ClaimRow(id: string, name: string) returns (attempt: nat)
      modifies this`deliveries
      ensures Current() == ClaimDelivery(old(Current()), id, name)
      ensures attempt == Current().deliveries[(id, name)].attempts
    {
      if (id, name) !in deliveries {
        attempt := 1;
        deliveries := deliveries[(id, name) := Delivery(PROCESSING, attempt, None, None)];
      } else {
        var d := deliveries[(id, name)];
        attempt := d.attempts + 1;
        deliveries := deliveries[(id, name) := Delivery(PROCESSING, attempt, d.response, None)];
      }
    }

    method FinishRow(id: string, name: string, outcome: HandlerOutcome)
      requires (id, name) in deliveries
      modifies this`deliveries
      ensures outcome.Raises? ==> Current() == FailDelivery(old(Current()), id, name, outcome.error)
      ensures outcome.Returns? ==> Ok(Current()) == CompleteDelivery(old(Current()), id, name, outcome.response)
    {
      var d := deliveries[(id, name)];
      match outcome {
        case Raises(e) => d := d.(status := FAILED, lastError := Some(e));
        case Returns(response) => d := d.(status := COMPLETED, response := Some(response), lastError := None);
      }
      deliveries := deliveries[(id, name) := d];
    }

    method PublishIfDone(id: string, expected: seq<string>, now: int)
      requires id in events
      modifies this`events
      ensures Ok(Current()) == MarkPublished(old(Current()), id, expected, now)
    {
      var completed, i := true, 0;
      while i < |expected| && completed
        invariant i <= |expected|
        invariant completed <==> forall name :: name in expected[..i] ==> Done(Current(), id, name)
      {
        assert expected[..i + 1] == expected[..i] + [expected[i]];
        completed := Done(Current(), id, expected[i]);
        i := i + 1;
      }
      assert completed ==> expected[..i] == expected;
      if completed {
        events := events[id := events[id].(status := PUBLISHED, publishedAt := Some(now))];
      }
    }

    /** Serves the subscribers in turn, stopping at the first that raises, and then publishes. */
    method ServeAll(
      id: string, names: seq<string>, h: Handler, now: int)
      returns (r: Result<map<string, Response>, BusError>)
      requires id in events
      modifies this`events, this`deliveries, this`starts
      ensures Outcome(Current(), starts, r) == Deliver(names, old(Current()), old(starts), id, 0, map[], h, now)
    {
      ghost var expected := Deliver(names, Current(), starts, id, 0, map[], h, now);
      var responses, j := map[], 0;
      while j < |names|
        invariant j <= |names| && id in events
        invariant Deliver(names, Current(), starts, id, j, responses, h, now) == expected
      {
        var completed := CompletedDelivery(Current(), id, names[j]);
        if completed.Some? {
          responses := responses[names[j] := completed.value];
        } else {
          var attempt := ClaimRow(id, names[j]);
          starts := starts + multiset{(id, names[j])};
          var outcome := h(id, names[j], attempt);
          FinishRow(id, names[j], outcome);
          if outcome.Raises? {
            return Err(HandlerFailed(names[j]));
          }
          responses := responses[names[j] := outcome.response];
        }
        j := j + 1;
      }
      PublishIfDone(id, names, now);
      r := Ok(responses);
    }

    /** `_dispatch_event`: counts the attempt and serves the event's subscribers. */
    method DispatchEvent(id: string, h: Handler, now: int) returns (r: Result<map<string, Response>, BusError>)
      requires Valid() && id in events
      modifies this`events, this`deliveries, this`starts
      ensures Outcome(Current(), starts, r) == DispatchOne(subscribers, old(Current()), old(starts), id, h, now)
      ensures Valid() && Extends(old(State(Current(), Idle, starts)), State(Current(), Idle, starts))
    {
      DispatchOneIsRun(subscribers, Current(), starts, id, h, now);
      var names := SubscribersOf(subscribers, events[id].eventType);
      if names == [] {
        return Err(NoSubscriber);
      }
      RecordAttempt(id);
      r := ServeAll(id, names, h, now);
    }

    /** `dispatch`: named or pending events, collecting answers or stopping at the first failure. */
    method Dispatch(outboxIds: Option<seq<string>>, limit: nat, raiseErrors: bool, h: Handler, now: int)
      returns (r: Result<map<string, map<string, Response>>, BusError>)
      requires Valid()
      modifies this`events, this`deliveries, this`starts
      ensures BatchOutcome(Current(), starts, r) ==
        DispatchBatch(subscribers, old(Current()), old(starts), Loaded(old(Current()), outboxIds, limit), raiseErrors,
          h, now, map[])
      ensures Valid() && Extends(old(State(Current(), Idle, starts)), State(Current(), Idle, starts))
      ensures
        r.Ok? <==>
        (raiseErrors ==>
           forall id :: id in Loaded(old(Current()), outboxIds, limit) ==>
             Alone(subscribers, old(Current()), old(starts), id, h, now))
      ensures r.Ok? ==>
        forall id ::
          id in r.value <==>
          id in Loaded(old(Current()), outboxIds, limit) &&
          Alone(subscribers, old(Current()), old(starts), id, h, now)
    {
      var batch := Loaded(Current(), outboxIds, limit);
      LoadedInOrder(Current(), outboxIds, limit);
      BatchAnswers(subscribers, Current(), starts, batch, raiseErrors, h, now);
      BatchKeepsInv(subscribers, Current(), starts, batch, raiseErrors, h, now, map[]);
      ghost var expected := DispatchBatch(subscribers, Current(), starts, batch, raiseErrors, h, now, map[]);
      var results, i := map[], 0;
      while i < |batch|
        invariant i <= |batch| && Valid()
        invariant forall id :: id in batch ==> id in events
        invariant DispatchBatch(subscribers, Current(), starts, batch[i..], raiseErrors, h, now, results) == expected
      {
        assert batch[i..][1..] == batch[i + 1..];
        var one := DispatchEvent(batch[i], h, now);
        if one.Ok? {
          results := results[batch[i] := one.value];
        } else if raiseErrors {
          return Err(one.error);
        }
        i := i + 1;
      }
      r := Ok(results);
    }
  }
}
