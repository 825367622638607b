/** Batches and the recovery poll: isolation of failures, draining order. */
module BusPolling {
  import opened Basics
  import opened TextOrder
  import opened ContextBus
  import opened BusDelivery

  datatype BatchOutcome = BatchOutcome(
    t: Tables, starts: multiset<Key>, result: Result<map<string, map<string, Response>>, BusError>)

  function DispatchBatch(
    subs: SubscriberTable, t: Tables, starts: multiset<Key>, batch: seq<string>, raiseErrors: bool,
    h: Handler, now: int, acc: map<string, map<string, Response>>): BatchOutcome
    decreases |batch|
  {
    if batch == [] then BatchOutcome(t, starts, Ok(acc))
    else
      var out := DispatchOne(subs, t, starts, batch[0], h, now);
      match out.result
      case Ok(responses) =>
        DispatchBatch(subs, out.t, out.starts, batch[1..], raiseErrors, h, now, acc[batch[0] := responses])
      case Err(e) =>
        if raiseErrors then BatchOutcome(out.t, out.starts, Err(e))
        else DispatchBatch(subs, out.t, out.starts, batch[1..], raiseErrors, h, now, acc)
  }

  // ---------------------------------------------------------------- isolation

  /** The two table states and histories agree on everything about one event. */
  ghost predicate AgreeOn(t1: Tables, s1: multiset<Key>, t2: Tables, s2: multiset<Key>, id: string) {
    && (id in t1.events <==> id in t2.events)
    && (id in t1.events ==> t1.events[id] == t2.events[id])
    && forall name ::
         && ((id, name) in t1.deliveries <==> (id, name) in t2.deliveries)
         && ((id, name) in t1.deliveries ==> t1.deliveries[(id, name)] == t2.deliveries[(id, name)])
         && s1[(id, name)] == s2[(id, name)]
  }

  lemma TryLocal(
    t1: Tables, s1: multiset<Key>, t2: Tables, s2: multiset<Key>, id: string, name: string, response: Response,
    error: string)
    requires AgreeOn(t1, s1, t2, s2, id)
    ensures
      var c1, c2 := ClaimDelivery(t1, id, name), ClaimDelivery(t2, id, name);
      var n1, n2 := s1 + multiset{(id, name)}, s2 + multiset{(id, name)};
      && c1.deliveries[(id, name)] == c2.deliveries[(id, name)]
      && AgreeOn(FailDelivery(c1, id, name, error), n1, FailDelivery(c2, id, name, error), n2, id)
      && AgreeOn(CompleteDelivery(c1, id, name, response).value, n1,
                 CompleteDelivery(c2, id, name, response).value, n2, id)
  {
    assert (id, name) in t1.deliveries <==> (id, name) in t2.deliveries;
  }

  lemma {:induction false} DeliverLocal(
    names: seq<string>, t1: Tables, s1: multiset<Key>, t2: Tables, s2: multiset<Key>, id: string, j: nat,
    responses: map<string, Response>, h: Handler, now: int)
    requires j <= |names| && AgreeOn(t1, s1, t2, s2, id)
    ensures
      var a := Deliver(names, t1, s1, id, j, responses, h, now);
      var b := Deliver(names, t2, s2, id, j, responses, h, now);
      a.result == b.result && AgreeOn(a.t, a.starts, b.t, b.starts, id)
    decreases |names| - j
  {
    if j == |names| {
      assert forall name :: Done(t1, id, name) == Done(t2, id, name);
    } else {
      var name := names[j];
      match CompletedDelivery(t1, id, name) {
        case Some(response) =>
          DeliverLocal(names, t1, s1, t2, s2, id, j + 1, responses[name := response], h, now);
        case None =>
          var c1, c2 := ClaimDelivery(t1, id, name), ClaimDelivery(t2, id, name);
          TryLocal(t1, s1, t2, s2, id, name, "", "");
          match h(id, name, c1.deliveries[(id, name)].attempts) {
            case Raises(e) =>
              TryLocal(t1, s1, t2, s2, id, name, "", e);
            case Returns(response) =>
              TryLocal(t1, s1, t2, s2, id, name, response, "");
              DeliverLocal(names,
                CompleteDelivery(c1, id, name, response).value, s1 + multiset{(id, name)},
                CompleteDelivery(c2, id, name, response).value, s2 + multiset{(id, name)},
                id, j + 1, responses[name := response], h, now);
          }
      }
    }
  }

  lemma {:induction false} DeliverFrame(
    names: seq<string>, t: Tables, starts: multiset<Key>, id: string, j: nat,
    responses: map<string, Response>, h: Handler, now: int, other: string)
    requires j <= |names| && other != id
    ensures
      var out := Deliver(names, t, starts, id, j, responses, h, now);
      AgreeOn(t, starts, out.t, out.starts, other)
    decreases |names| - j
  {
    if j < |names| {
      var name := names[j];
      match CompletedDelivery(t, id, name) {
        case Some(response) =>
          DeliverFrame(names, t, starts, id, j + 1, responses[name := response], h, now, other);
        case None =>
          var t1 := ClaimDelivery(t, id, name);
          match h(id, name, t1.deliveries[(id, name)].attempts) {
            case Raises(_) =>
            case Returns(response) =>
              DeliverFrame(names, CompleteDelivery(t1, id, name, response).value, starts + multiset{(id, name)},
                id, j + 1, responses[name := response], h, now, other);
          }
      }
    }
  }

  lemma DispatchOneLocal(
    subs: SubscriberTable, t1: Tables, s1: multiset<Key>, t2: Tables, s2: multiset<Key>, id: string, h: Handler,
    now: int)
    requires AgreeOn(t1, s1, t2, s2, id)
    ensures
      var a, b := DispatchOne(subs, t1, s1, id, h, now), DispatchOne(subs, t2, s2, id, h, now);
      a.result == b.result && AgreeOn(a.t, a.starts, b.t, b.starts, id)
  {
    var names := Names(subs, t1.events, id);
    if names != [] {
      DeliverLocal(names, RecordEventAttempt(t1, id), s1, RecordEventAttempt(t2, id), s2, id, 0, map[], h, now);
    }
  }

  lemma DispatchOneFrame(
    subs: SubscriberTable, t: Tables, starts: multiset<Key>, id: string, h: Handler, now: int, other: string)
    requires other != id
    ensures
      var out := DispatchOne(subs, t, starts, id, h, now);
      AgreeOn(t, starts, out.t, out.starts, other)
  {
    var names := Names(subs, t.events, id);
    if names != [] {
      DeliverFrame(names, RecordEventAttempt(t, id), starts, id, 0, map[], h, now, other);
    }
  }

  /** With `raise_errors=False` every event of a batch fares exactly as if dispatched alone:
      a failing event neither stops nor alters another, and events outside are untouched. */
  lemma {:induction false} BatchIsolation(
    subs: SubscriberTable, t: Tables, starts: multiset<Key>, batch: seq<string>,
    h: Handler, now: int, acc: map<string, map<string, Response>>, id: string)
    requires Distinct(batch) && forall other :: other in batch ==> other !in acc
    ensures
      var out := DispatchBatch(subs, t, starts, batch, false, h, now, acc);
      var alone := DispatchOne(subs, t, starts, id, h, now);
      && out.result.Ok?
      && (id in batch ==>
            && AgreeOn(out.t, out.starts, alone.t, alone.starts, id)
            && (id in out.result.value <==> alone.result.Ok?)
            && (alone.result.Ok? ==> out.result.value[id] == alone.result.value))
      && (id !in batch ==>
            && AgreeOn(out.t, out.starts, t, starts, id)
            && (id in out.result.value <==> id in acc)
            && (id in acc ==> out.result.value[id] == acc[id]))
    decreases |batch|
  {
    if batch != [] {
      var head, rest := batch[0], batch[1..];
      var first := DispatchOne(subs, t, starts, head, h, now);
      var acc' := if first.result.Ok? then acc[head := first.result.value] else acc;
      assert batch == [head] + rest;
      DistinctTail(batch);
      BatchIsolation(subs, first.t, first.starts, rest, h, now, acc', id);
      if id != head {
        DispatchOneFrame(subs, t, starts, head, h, now, id);
        DispatchOneLocal(subs, t, starts, first.t, first.starts, id, h, now);
      }
    }
  }

  // ---------------------------------------------------------------- pending order

  function Pending(events: map<string, OutboxEvent>): set<string> {
    set id | id in events && events[id].status == PENDING
  }

  /** `ORDER BY created_at, outbox_id`. */
  predicate Before(events: map<string, OutboxEvent>, a: string, b: string)
    requires a in events && b in events
  {
    events[a].createdAt < events[b].createdAt ||
    (events[a].createdAt == events[b].createdAt && TextLt(a, b))
  }

  predicate IsFirst(events: map<string, OutboxEvent>, ids: set<string>, m: string)
    requires ids <= events.Keys
  {
    m in ids && forall x :: x in ids && x != m ==> Before(events, m, x)
  }

  lemma BeforeIsStrictOrder(events: map<string, OutboxEvent>, a: string, b: string, c: string)
    requires a in events && b in events && c in events
    ensures a == b || Before(events, a, b) || Before(events, b, a)
    ensures !(Before(events, a, b) && Before(events, b, a))
    ensures Before(events, a, b) && Before(events, b, c) ==> Before(events, a, c)
  {
    TextTotal(a, b);
    if TextLt(a, b) && TextLt(b, c) {
      TextTransitive(a, b, c);
    }
  }

  lemma {:induction false} FirstExists(events: map<string, OutboxEvent>, ids: set<string>) returns (m: string)
    requires ids <= events.Keys && ids != {}
    ensures IsFirst(events, ids, m)
  {
    var x :| x in ids;
    if ids == {x} {
      m := x;
    } else {
      var y := FirstExists(events, ids - {x});
      m := if Before(events, x, y) then x else y;
      BeforeIsStrictOrder(events, x, y, y);
      forall z | z in ids && z != m ensures Before(events, m, z) {
        if z != x && z != y {
          BeforeIsStrictOrder(events, x, y, z);
        }
      }
    }
  }

  lemma FirstUnique(events: map<string, OutboxEvent>, ids: set<string>)
    requires ids <= events.Keys && ids != {}
    ensures exists m :: IsFirst(events, ids, m)
    ensures forall m, n :: IsFirst(events, ids, m) && IsFirst(events, ids, n) ==> m == n
  {
    var m := FirstExists(events, ids);
    forall n | IsFirst(events, ids, n) ensures m == n {
      if m != n {
        BeforeIsStrictOrder(events, m, n, n);
      }
    }
  }

  function SortedIds(events: map<string, OutboxEvent>, ids: set<string>): (r: seq<string>)
    requires ids <= events.Keys
    ensures Distinct(r) && (forall id :: id in r <==> id in ids)
    ensures forall i, j :: 0 <= i < j < |r| ==> Before(events, r[i], r[j])
  {
    if ids == {} then []
    else
      FirstUnique(events, ids);
      var m :| IsFirst(events, ids, m);
      [m] + SortedIds(events, ids - {m})
  }

  function Take(order: seq<string>, n: nat): (r: seq<string>)
    ensures r <= order
  {
    if |order| <= n then order else order[..n]
  }

  function Drop(order: seq<string>, n: nat): seq<string> {
    if |order| <= n then [] else order[n..]
  }

  function PendingOutbox(t: Tables, limit: nat): seq<string> {
    Take(SortedIds(t.events, Pending(t.events)), limit)
  }

  ghost function SetOf(s: seq<string>): set<string> {
    set x | x in s
  }

  lemma {:induction false} DistinctCount(s: seq<string>)
    ensures |SetOf(s)| <= |s| && (Distinct(s) ==> |SetOf(s)| == |s|)
    decreases |s|
  {
    if s != [] {
      var front, last := s[..|s| - 1], s[|s| - 1];
      DistinctCount(front);
      assert s == front + [last];
      assert SetOf(s) == SetOf(front) + {last};
    }
  }

  lemma SubsetCount(a: set<string>, b: set<string>)
    requires a <= b
    ensures |a| <= |b|
  {
    assert b == a + (b - a);
  }

  lemma TakeDropCons(m: string, rest: seq<string>, n: nat)
    requires n > 0
    ensures Take([m] + rest, n) == [m] + Take(rest, n - 1)
    ensures Drop([m] + rest, n) == Drop(rest, n - 1)
  {
  }

  lemma SortedCons(events: map<string, OutboxEvent>, ids: set<string>) returns (m: string)
    requires ids <= events.Keys && ids != {}
    ensures m in ids && SortedIds(events, ids) == [m] + SortedIds(events, ids - {m})
  {
    FirstUnique(events, ids);
    m :| IsFirst(events, ids, m);
  }

  lemma {:induction false} SortedRest(events: map<string, OutboxEvent>, ids: set<string>, n: nat)
    requires ids <= events.Keys
    ensures
      var order := SortedIds(events, ids);
      SortedIds(events, ids - SetOf(Take(order, n))) == Drop(order, n)
  {
    if ids == {} {
      assert ids - SetOf(Take(SortedIds(events, ids), n)) == {};
    } else if n == 0 {
      assert ids - SetOf(Take(SortedIds(events, ids), 0)) == ids;
    } else {
      var m := SortedCons(events, ids);
      var rest := SortedIds(events, ids - {m});
      SortedRest(events, ids - {m}, n - 1);
      TakeDropCons(m, rest, n);
      assert ids - SetOf([m] + Take(rest, n - 1)) == ids - {m} - SetOf(Take(rest, n - 1));
    }
  }

  lemma {:induction false} SortedSame(e1: map<string, OutboxEvent>, e2: map<string, OutboxEvent>, ids: set<string>)
    requires ids <= e1.Keys && ids <= e2.Keys
    requires forall id :: id in ids ==> e1[id].createdAt == e2[id].createdAt
    ensures SortedIds(e1, ids) == SortedIds(e2, ids)
  {
    if ids != {} {
      FirstUnique(e1, ids);
      FirstUnique(e2, ids);
      var m :| IsFirst(e1, ids, m);
      assert IsFirst(e2, ids, m);
      SortedSame(e1, e2, ids - {m});
    }
  }

  // ---------------------------------------------------------------- the recovery poll

  function Poll(
    subs: SubscriberTable, t: Tables, starts: multiset<Key>, limit: nat, h: Handler, now: int): BatchOutcome
  {
    DispatchBatch(subs, t, starts, PendingOutbox(t, limit), false, h, now, map[])
  }

  function Polls(
    subs: SubscriberTable, t: Tables, starts: multiset<Key>, k: nat, limit: nat, h: Handler, now: int): State
    decreases k
  {
    if k == 0 then State(t, Idle, starts)
    else
      var out := Poll(subs, t, starts, limit, h, now);
      Polls(subs, out.t, out.starts, k - 1, limit, h, now)
  }

  lemma {:induction false} BatchKeepsInv(
    subs: SubscriberTable, t: Tables, starts: multiset<Key>, batch: seq<string>, raiseErrors: bool,
    h: Handler, now: int, acc: map<string, map<string, Response>>)
    requires Inv(subs, State(t, Idle, starts))
    ensures
      var out := DispatchBatch(subs, t, starts, batch, raiseErrors, h, now, acc);
      && Reaches(subs, t, starts, out.t, out.starts)
      && Inv(subs, State(out.t, Idle, out.starts))
      && Extends(State(t, Idle, starts), State(out.t, Idle, out.starts))
    decreases |batch|
  {
    if batch == [] {
      ReachesItself(subs, t, starts);
    } else {
      DispatchOneIsRun(subs, t, starts, batch[0], h, now);
      var out := DispatchOne(subs, t, starts, batch[0], h, now);
      if out.result.Ok? || !raiseErrors {
        var acc' := if out.result.Ok? then acc[batch[0] := out.result.value] else acc;
        BatchKeepsInv(subs, out.t, out.starts, batch[1..], raiseErrors, h, now, acc');
        var end := DispatchBatch(subs, out.t, out.starts, batch[1..], raiseErrors, h, now, acc');
        ReachesOn(subs, t, starts, out.t, out.starts, end.t, end.starts);
      }
    }
  }

  ghost predicate NeverRaises(h: Handler) {
    forall id, name, n :: h(id, name, n).Returns?
  }

  lemma {:induction false} NoRaiseNoFailure(
    names: seq<string>, t: Tables, starts: multiset<Key>, id: string, j: nat,
    responses: map<string, Response>, h: Handler, now: int)
    requires j <= |names| && NeverRaises(h) && id in t.events
    ensures Deliver(names, t, starts, id, j, responses, h, now).result.Ok?
    decreases |names| - j
  {
    if j < |names| {
      var name := names[j];
      match CompletedDelivery(t, id, name) {
        case Some(response) =>
          NoRaiseNoFailure(names, t, starts, id, j + 1, responses[name := response], h, now);
        case None =>
          var t1 := ClaimDelivery(t, id, name);
          var response := h(id, name, t1.deliveries[(id, name)].attempts).response;
          NoRaiseNoFailure(names, CompleteDelivery(t1, id, name, response).value, starts + multiset{(id, name)},
            id, j + 1, responses[name := response], h, now);
      }
    }
  }

  ghost predicate AllSubscribed(subs: SubscriberTable, t: Tables) {
    forall id :: id in Pending(t.events) ==> Names(subs, t.events, id) != []
  }

  /** Exactly the first n pending events have been published, and the rest still wait in order. */
  ghost predicate Drained(t: Tables, t': Tables, n: nat) {
    var order := SortedIds(t.events, Pending(t.events));
    && t'.events.Keys == t.events.Keys
    && Pending(t'.events) == Pending(t.events) - SetOf(Take(order, n))
    && SortedIds(t'.events, Pending(t'.events)) == Drop(order, n)
  }

  /** With every subscriber present and no failure, a poll publishes exactly the first `limit`
      pending events in (created_at, outbox_id) order. */
  lemma PollDrains(subs: SubscriberTable, t: Tables, starts: multiset<Key>, limit: nat, h: Handler, now: int)
    requires Inv(subs, State(t, Idle, starts)) && NeverRaises(h) && AllSubscribed(subs, t)
    ensures
      var out := Poll(subs, t, starts, limit, h, now);
      && Inv(subs, State(out.t, Idle, out.starts)) && AllSubscribed(subs, out.t)
      && Drained(t, out.t, limit)
  {
    var batch := PendingOutbox(t, limit);
    var order := SortedIds(t.events, Pending(t.events));
    assert batch == Take(order, limit);
    var out := Poll(subs, t, starts, limit, h, now);
    BatchKeepsInv(subs, t, starts, batch, false, h, now, map[]);
    forall id
      ensures id in out.t.events <==> id in t.events
      ensures id in t.events ==>
        && out.t.events[id].eventType == t.events[id].eventType
        && out.t.events[id].createdAt == t.events[id].createdAt
        && out.t.events[id].status == if id in batch then PUBLISHED else t.events[id].status
    {
      BatchIsolation(subs, t, starts, batch, h, now, map[], id);
      if id in batch {
        NoRaiseNoFailure(Names(subs, t.events, id), RecordEventAttempt(t, id), starts, id, 0, map[], h, now);
        DispatchAnswers(subs, t, starts, id, h, now);
        DispatchOneIsRun(subs, t, starts, id, h, now);
      }
    }
    assert Pending(out.t.events) == Pending(t.events) - SetOf(batch);
    SortedSame(t.events, out.t.events, Pending(out.t.events));
    SortedRest(t.events, Pending(t.events), limit);
  }

  lemma TakeDrop(order: seq<string>, a: nat, b: nat)
    ensures Drop(Drop(order, a), b) == Drop(order, a + b)
    ensures SetOf(Take(order, a)) + SetOf(Take(Drop(order, a), b)) == SetOf(Take(order, a + b))
  {
    assert Take(order, a + b) == Take(order, a) + Take(Drop(order, a), b);
  }

  lemma DrainedTwice(t0: Tables, t1: Tables, t2: Tables, a: nat, b: nat)
    requires Drained(t0, t1, a) && Drained(t1, t2, b)
    ensures Drained(t0, t2, a + b)
  {
    TakeDrop(SortedIds(t0.events, Pending(t0.events)), a, b);
  }

  lemma NothingDrained(t: Tables)
    ensures Drained(t, t, 0)
  {
    var order := SortedIds(t.events, Pending(t.events));
    assert Drop(order, 0) == order && SetOf(Take(order, 0)) == {};
  }

  ghost function Quota(k: nat, limit: nat): nat {
    if k == 0 then 0 else limit + Quota(k - 1, limit)
  }

  lemma {:induction false} QuotaIsProduct(k: nat, limit: nat)
    ensures Quota(k, limit) == k * limit
  {
    if k > 0 {
      QuotaIsProduct(k - 1, limit);
    }
  }

  /** The tables between the first poll and the k - 1 others. */
  lemma PollsOnce(subs: SubscriberTable, t: Tables, starts: multiset<Key>, k: nat, limit: nat, h: Handler, now: int)
    returns (t1: Tables, starts1: multiset<Key>)
    requires Inv(subs, State(t, Idle, starts)) && NeverRaises(h) && AllSubscribed(subs, t) && k > 0
    ensures Inv(subs, State(t1, Idle, starts1)) && AllSubscribed(subs, t1) && Drained(t, t1, limit)
    ensures Polls(subs, t, starts, k, limit, h, now) == Polls(subs, t1, starts1, k - 1, limit, h, now)
  {
    PollDrains(subs, t, starts, limit, h, now);
    var out := Poll(subs, t, starts, limit, h, now);
    t1, starts1 := out.t, out.starts;
  }

  /** A poll that drains `limit` events, and polls after it that drain q. */
  lemma DrainedQuota(t: Tables, t1: Tables, end: Tables, k: nat, limit: nat)
    requires k > 0 && Drained(t, t1, limit) && Drained(t1, end, Quota(k - 1, limit))
    ensures Drained(t, end, Quota(k, limit))
  {
    DrainedTwice(t, t1, end, limit, Quota(k - 1, limit));
  }

  lemma {:induction false} PollsDrainQuota(
    subs: SubscriberTable, t: Tables, starts: multiset<Key>, k: nat, limit: nat, h: Handler, now: int, end: Tables)
    requires Inv(subs, State(t, Idle, starts)) && NeverRaises(h) && AllSubscribed(subs, t)
    requires end == Polls(subs, t, starts, k, limit, h, now).t
    ensures Drained(t, end, Quota(k, limit))
    decreases k
  {
    if k == 0 {
      NothingDrained(t);
    } else {
      var t1, starts1 := PollsOnce(subs, t, starts, k, limit, h, now);
      PollsDrainQuota(subs, t1, starts1, k - 1, limit, h, now, end);
      DrainedQuota(t, t1, end, k, limit);
    }
  }

  /** k polls publish exactly the first min(n, k * limit) pending events, oldest first. */
  lemma PollsDrain(
    subs: SubscriberTable, t: Tables, starts: multiset<Key>, k: nat, limit: nat, h: Handler, now: int)
    requires Inv(subs, State(t, Idle, starts)) && NeverRaises(h) && AllSubscribed(subs, t)
    ensures Drained(t, Polls(subs, t, starts, k, limit, h, now).t, k * limit)
  {
    PollsDrainQuota(subs, t, starts, k, limit, h, now, Polls(subs, t, starts, k, limit, h, now).t);
    QuotaIsProduct(k, limit);
  }
}
