/** Which pending events the recovery poll ever tries: exactly when too many stuck ones precede them. */
module BusStarvation {
  import opened Basics
  import opened ContextBus
  import opened BusDelivery
  import opened BusPolling

  // ---------------------------------------------------------------- stuck events

  /** An unfinished subscriber that raises at every attempt still to come. */
  ghost predicate Hopeless(t: Tables, h: Handler, id: string, name: string) {
    !Done(t, id, name) && forall n: nat :: n > Attempts(t, id, name) ==> h(id, name, n).Raises?
  }

  /** The event cannot get through: nobody subscribes, or a subscriber is hopeless. */
  ghost predicate Stuck(subs: SubscriberTable, t: Tables, h: Handler, id: string) {
    var names := Names(subs, t.events, id);
    names == [] || exists name :: name in names && Hopeless(t, h, id, name)
  }

  /** What a dispatch may do to one subscriber's row: nothing, or one attempt with its outcome. */
  ghost predicate Tried(t: Tables, t': Tables, h: Handler, id: string, name: string) {
    var before, after := Attempts(t, id, name), Attempts(t', id, name);
    if Done(t, id, name) then Done(t', id, name)
    else
      || (after == before && !Done(t', id, name))
      || (after == before + 1 && (Done(t', id, name) <==> h(id, name, before + 1).Returns?))
  }

  /** One attempt that raised. */
  ghost predicate Failed(t: Tables, t': Tables, id: string, name: string) {
    !Done(t, id, name) && !Done(t', id, name) && Attempts(t', id, name) == Attempts(t, id, name) + 1
  }

  lemma TrySucceedsTried(t: Tables, h: Handler, id: string, name: string, response: Response)
    requires !Done(t, id, name) && h(id, name, Attempts(t, id, name) + 1) == Returns(response)
    ensures
      var t2 := CompleteDelivery(ClaimDelivery(t, id, name), id, name, response).value;
      forall other :: Tried(t, t2, h, id, other)
  {
  }

  lemma TryFailsTried(t: Tables, h: Handler, id: string, name: string, error: string)
    requires !Done(t, id, name) && h(id, name, Attempts(t, id, name) + 1) == Raises(error)
    ensures
      var t2 := FailDelivery(ClaimDelivery(t, id, name), id, name, error);
      Failed(t, t2, id, name) && forall other :: Tried(t, t2, h, id, other)
  {
  }

  /** Serving the subscribers from j on tries each row at most once. */
  lemma {:induction false} DeliverTries(
    names: seq<string>, t: Tables, starts: multiset<Key>, id: string, j: nat,
    responses: map<string, Response>, h: Handler, now: int)
    requires j <= |names| && Distinct(names)
    requires forall name :: Done(t, id, name) ==> t.deliveries[(id, name)].response.Some?
    ensures
      var out := Deliver(names, t, starts, id, j, responses, h, now);
      && (forall name :: Tried(t, out.t, h, id, name))
      && (forall i :: 0 <= i < j ==> Attempts(out.t, id, names[i]) == Attempts(t, id, names[i]))
      && (out.result.Err? && out.result.error.HandlerFailed? ==>
            exists i :: j <= i < |names| && Failed(t, out.t, id, names[i]))
    decreases |names| - j
  {
    if j < |names| {
      var name := names[j];
      var out := Deliver(names, t, starts, id, j, responses, h, now);
      match CompletedDelivery(t, id, name) {
        case Some(response) =>
          DeliverTries(names, t, starts, id, j + 1, responses[name := response], h, now);
        case None =>
          var t1 := ClaimDelivery(t, id, name);
          match h(id, name, t1.deliveries[(id, name)].attempts) {
            case Raises(error) => TryFailsTried(t, h, id, name, error);
            case Returns(response) =>
              var t2 := CompleteDelivery(t1, id, name, response).value;
              TrySucceedsTried(t, h, id, name, response);
              DeliverTries(names, t2, starts + multiset{(id, name)}, id, j + 1, responses[name := response], h, now);
              TriedThenRest(names, t, t2, out.t, h, id, j);
          }
      }
    }
  }

  lemma TriedThenRest(names: seq<string>, t: Tables, t2: Tables, t3: Tables, h: Handler, id: string, j: nat)
    requires j < |names| && Distinct(names) && Done(t2, id, names[j])
    requires !Done(t, id, names[j]) && Attempts(t2, id, names[j]) == Attempts(t, id, names[j]) + 1
    requires h(id, names[j], Attempts(t, id, names[j]) + 1).Returns?
    requires forall other :: other != names[j] ==>
      Attempts(t2, id, other) == Attempts(t, id, other) && Done(t2, id, other) == Done(t, id, other)
    requires forall name :: Tried(t2, t3, h, id, name)
    requires forall i :: 0 <= i < j + 1 ==> Attempts(t3, id, names[i]) == Attempts(t2, id, names[i])
    ensures forall name :: Tried(t, t3, h, id, name)
    ensures forall i :: 0 <= i < j ==> Attempts(t3, id, names[i]) == Attempts(t, id, names[i])
    ensures forall i :: j < i < |names| && Failed(t2, t3, id, names[i]) ==> Failed(t, t3, id, names[i])
  {
    forall name ensures Tried(t, t3, h, id, name) {
      assert Tried(t2, t3, h, id, name);
    }
  }

  lemma HopelessStays(t: Tables, t': Tables, h: Handler, id: string, name: string)
    requires Tried(t, t', h, id, name)
    ensures Hopeless(t', h, id, name) <==> Hopeless(t, h, id, name)
  {
  }

  /** One dispatch of a stored event. */
  lemma DispatchTries(subs: SubscriberTable, t: Tables, starts: multiset<Key>, id: string, h: Handler, now: int)
    requires Inv(subs, State(t, Idle, starts)) && id in t.events
    ensures
      var out := DispatchOne(subs, t, starts, id, h, now);
      var names := Names(subs, t.events, id);
      && id in out.t.events && Names(subs, out.t.events, id) == names
      && (forall name :: Tried(t, out.t, h, id, name))
      && (out.result.Err? && names != [] ==> exists i :: 0 <= i < |names| && Failed(t, out.t, id, names[i]))
  {
    var names := Names(subs, t.events, id);
    DispatchOneIsRun(subs, t, starts, id, h, now);
    DispatchAnswers(subs, t, starts, id, h, now);
    if names != [] {
      var t1 := RecordEventAttempt(t, id);
      DeliverTries(names, t1, starts, id, 0, map[], h, now);
      AttemptRecorded(t, id);
      var out := DispatchOne(subs, t, starts, id, h, now);
      forall name ensures Tried(t, out.t, h, id, name) { assert Tried(t1, out.t, h, id, name); }
    }
  }

  lemma AttemptRecorded(t: Tables, id: string)
    ensures RecordEventAttempt(t, id).deliveries == t.deliveries
  {
  }

  /** Being stuck is for good, and so is not being stuck. */
  lemma StuckStays(subs: SubscriberTable, t: Tables, starts: multiset<Key>, id: string, h: Handler, now: int)
    requires Inv(subs, State(t, Idle, starts)) && id in t.events
    ensures
      var out := DispatchOne(subs, t, starts, id, h, now);
      && (Stuck(subs, out.t, h, id) <==> Stuck(subs, t, h, id))
      && (Stuck(subs, t, h, id) ==> id in out.t.events && out.t.events[id].status == t.events[id].status)
  {
    var out := DispatchOne(subs, t, starts, id, h, now);
    var names := Names(subs, t.events, id);
    DispatchTries(subs, t, starts, id, h, now);
    DispatchAnswers(subs, t, starts, id, h, now);
    forall name ensures Hopeless(out.t, h, id, name) <==> Hopeless(t, h, id, name) {
      HopelessStays(t, out.t, h, id, name);
    }
    if names != [] && out.result.Ok? {
      assert forall name :: name in names ==> Done(out.t, id, name);
    }
  }

  // ---------------------------------------------------------------- work left on an event

  ghost predicate NextSuccess(t: Tables, h: Handler, id: string, name: string, n: nat) {
    && n > Attempts(t, id, name) && h(id, name, n).Returns?
    && forall m: nat :: Attempts(t, id, name) < m < n ==> h(id, name, m).Raises?
  }

  lemma {:induction false} FirstSuccess(t: Tables, h: Handler, id: string, name: string, n: nat) returns (first: nat)
    requires n > Attempts(t, id, name) && h(id, name, n).Returns?
    ensures NextSuccess(t, h, id, name, first)
    decreases n
  {
    if m: nat :| Attempts(t, id, name) < m < n && h(id, name, m).Returns? {
      first := FirstSuccess(t, h, id, name, m);
    } else {
      first := n;
    }
  }

  /** The attempts an unfinished subscriber has still to make, if it will ever succeed. */
  ghost function Gap(t: Tables, h: Handler, id: string, name: string): nat {
    if Done(t, id, name) then 0
    else if exists n: nat :: NextSuccess(t, h, id, name, n) then
      var n: nat :| NextSuccess(t, h, id, name, n);
      n - Attempts(t, id, name)
    else 0
  }

  lemma GapShrinks(t: Tables, t': Tables, h: Handler, id: string, name: string)
    requires Tried(t, t', h, id, name)
    ensures Gap(t', h, id, name) <= Gap(t, h, id, name)
    ensures Failed(t, t', id, name) && !Hopeless(t, h, id, name) ==> Gap(t', h, id, name) < Gap(t, h, id, name)
  {
    if !Done(t, id, name) && !Done(t', id, name) {
      if n: nat :| n > Attempts(t, id, name) && h(id, name, n).Returns? {
        var first := FirstSuccess(t, h, id, name, n);
        assert NextSuccess(t, h, id, name, first);
        assert first > Attempts(t', id, name);
        assert NextSuccess(t', h, id, name, first);
      }
    }
  }

  ghost function Left(names: seq<string>, t: Tables, h: Handler, id: string): nat {
    if names == [] then 0 else Left(names[..|names| - 1], t, h, id) + Gap(t, h, id, names[|names| - 1])
  }

  lemma {:induction false} LeftShrinks(names: seq<string>, t: Tables, t': Tables, h: Handler, id: string)
    requires forall name :: Tried(t, t', h, id, name)
    ensures Left(names, t', h, id) <= Left(names, t, h, id)
    ensures (exists i :: 0 <= i < |names| && Failed(t, t', id, names[i]) && !Hopeless(t, h, id, names[i])) ==>
      Left(names, t', h, id) < Left(names, t, h, id)
    decreases |names|
  {
    if names != [] {
      var front, last := names[..|names| - 1], names[|names| - 1];
      LeftShrinks(front, t, t', h, id);
      GapShrinks(t, t', h, id, last);
      if i :| 0 <= i < |names| && Failed(t, t', id, names[i]) && !Hopeless(t, h, id, names[i]) {
        if i < |front| { assert front[i] == names[i]; }
      }
    }
  }

  /** What a pending event costs before it is published, at most. */
  ghost function Work(subs: SubscriberTable, t: Tables, h: Handler, id: string): nat {
    if id in Pending(t.events) then 1 + Left(Names(subs, t.events, id), t, h, id) else 0
  }

  lemma DispatchWorks(subs: SubscriberTable, t: Tables, starts: multiset<Key>, id: string, h: Handler, now: int)
    requires Inv(subs, State(t, Idle, starts)) && id in Pending(t.events)
    ensures
      var out := DispatchOne(subs, t, starts, id, h, now);
      && Work(subs, out.t, h, id) <= Work(subs, t, h, id)
      && (!Stuck(subs, t, h, id) ==> Work(subs, out.t, h, id) < Work(subs, t, h, id))
  {
    var out := DispatchOne(subs, t, starts, id, h, now);
    var names := Names(subs, t.events, id);
    DispatchTries(subs, t, starts, id, h, now);
    DispatchAnswers(subs, t, starts, id, h, now);
    LeftShrinks(names, t, out.t, h, id);
  }

  // ---------------------------------------------------------------- one poll

  lemma AgreeingEvents(
    subs: SubscriberTable, t1: Tables, s1: multiset<Key>, t2: Tables, s2: multiset<Key>, h: Handler, id: string)
    requires AgreeOn(t1, s1, t2, s2, id)
    ensures Names(subs, t1.events, id) == Names(subs, t2.events, id)
    ensures Stuck(subs, t1, h, id) <==> Stuck(subs, t2, h, id)
    ensures Work(subs, t1, h, id) == Work(subs, t2, h, id)
  {
    forall name ensures Attempts(t1, id, name) == Attempts(t2, id, name) && Done(t1, id, name) == Done(t2, id, name) {
      assert (id, name) in t1.deliveries <==> (id, name) in t2.deliveries;
    }
    assert forall name :: Hopeless(t1, h, id, name) == Hopeless(t2, h, id, name);
    AgreeingLeft(Names(subs, t1.events, id), t1, t2, h, id);
  }

  lemma {:induction false} AgreeingLeft(names: seq<string>, t1: Tables, t2: Tables, h: Handler, id: string)
    requires forall name :: Attempts(t1, id, name) == Attempts(t2, id, name) && Done(t1, id, name) == Done(t2, id, name)
    ensures Left(names, t1, h, id) == Left(names, t2, h, id)
    decreases |names|
  {
    if names != [] {
      AgreeingLeft(names[..|names| - 1], t1, t2, h, id);
      AgreeingGap(t1, t2, h, id, names[|names| - 1]);
    }
  }

  lemma AgreeingGap(t1: Tables, t2: Tables, h: Handler, id: string, name: string)
    requires Attempts(t1, id, name) == Attempts(t2, id, name) && Done(t1, id, name) == Done(t2, id, name)
    ensures Gap(t1, h, id, name) == Gap(t2, h, id, name)
  {
    assert forall n: nat :: NextSuccess(t1, h, id, name, n) == NextSuccess(t2, h, id, name, n);
  }

  /** What one poll does to one stored event. */
  ghost predicate Polled(subs: SubscriberTable, t: Tables, t': Tables, h: Handler, batch: seq<string>, id: string)
    requires id in t.events
  {
    && id in t'.events && t'.events[id].createdAt == t.events[id].createdAt
    && (Stuck(subs, t', h, id) <==> Stuck(subs, t, h, id))
    && (id !in batch || Stuck(subs, t, h, id) ==> t'.events[id].status == t.events[id].status)
    && (t'.events[id].status == PENDING ==> t.events[id].status == PENDING)
    && Work(subs, t', h, id) <= Work(subs, t, h, id)
    && (id in batch && !Stuck(subs, t, h, id) ==> Work(subs, t', h, id) < Work(subs, t, h, id))
  }

  lemma PollEffect(
    subs: SubscriberTable, t: Tables, starts: multiset<Key>, limit: nat, h: Handler, now: int, id: string)
    requires Inv(subs, State(t, Idle, starts))
    ensures
      var out := Poll(subs, t, starts, limit, h, now);
      && (id in out.t.events <==> id in t.events)
      && (id in t.events ==> Polled(subs, t, out.t, h, PendingOutbox(t, limit), id))
  {
    var batch := PendingOutbox(t, limit);
    var out := Poll(subs, t, starts, limit, h, now);
    BatchIsolation(subs, t, starts, batch, h, now, map[], id);
    if id in batch {
      var alone := DispatchOne(subs, t, starts, id, h, now);
      assert id in Pending(t.events);
      AgreeingEvents(subs, out.t, out.starts, alone.t, alone.starts, h, id);
      DispatchOneIsRun(subs, t, starts, id, h, now);
      StuckStays(subs, t, starts, id, h, now);
      DispatchWorks(subs, t, starts, id, h, now);
    } else if id in t.events {
      AgreeingEvents(subs, out.t, out.starts, t, starts, h, id);
    }
  }

  // ---------------------------------------------------------------- who is ahead

  /** The stuck events that are served before this one. */
  ghost function StuckBefore(subs: SubscriberTable, t: Tables, h: Handler, other: string): set<string>
    requires other in t.events
  {
    set id | id in Pending(t.events) && Before(t.events, id, other) && Stuck(subs, t, h, id)
  }

  lemma PolledKeepsStuckBefore(
    subs: SubscriberTable, t: Tables, t': Tables, h: Handler, batch: seq<string>, other: string)
    requires other in Pending(t.events) && other !in batch && t'.events.Keys == t.events.Keys
    requires forall id :: id in t.events ==> Polled(subs, t, t', h, batch, id)
    ensures other in Pending(t'.events) && StuckBefore(subs, t', h, other) == StuckBefore(subs, t, h, other)
    ensures forall id :: id in Pending(t'.events) && Before(t'.events, id, other) ==>
      id in Pending(t.events) && Before(t.events, id, other)
  {
    assert Polled(subs, t, t', h, batch, other);
    forall id | id in t.events
      ensures Before(t'.events, id, other) == Before(t.events, id, other)
      ensures id in StuckBefore(subs, t', h, other) <==> id in StuckBefore(subs, t, h, other)
    {
      assert Polled(subs, t, t', h, batch, id);
    }
  }

  /** A full head of stuck events keeps everything after it out. */
  lemma StuckHeadIsFull(subs: SubscriberTable, t: Tables, limit: nat, h: Handler, other: string)
    requires other in Pending(t.events) && other in PendingOutbox(t, limit)
    ensures |StuckBefore(subs, t, h, other)| < limit
  {
    var order := SortedIds(t.events, Pending(t.events));
    var p :| 0 <= p < |PendingOutbox(t, limit)| && PendingOutbox(t, limit)[p] == other;
    assert order[p] == other;
    forall id | id in StuckBefore(subs, t, h, other) ensures id in order[..p] {
      var i :| 0 <= i < |order| && order[i] == id;
      BeforeIsStrictOrder(t.events, id, other, other);
    }
    assert StuckBefore(subs, t, h, other) <= SetOf(order[..p]);
    SubsetCount(StuckBefore(subs, t, h, other), SetOf(order[..p]));
    DistinctCount(order[..p]);
  }

  /** With fewer than `limit` stuck events ahead, each poll that does not reach this event works on
      some event before it that can still get through. */
  lemma HeadWorks(subs: SubscriberTable, t: Tables, limit: nat, h: Handler, other: string) returns (id: string)
    requires other in Pending(t.events) && other !in PendingOutbox(t, limit)
    requires |StuckBefore(subs, t, h, other)| < limit
    ensures id in PendingOutbox(t, limit) && id in Pending(t.events)
    ensures Before(t.events, id, other) && !Stuck(subs, t, h, id)
  {
    var order := SortedIds(t.events, Pending(t.events));
    var head := PendingOutbox(t, limit);
    var p :| 0 <= p < |order| && order[p] == other;
    assert head == order[..limit] && limit <= p;
    forall x | x in head ensures x in Pending(t.events) && Before(t.events, x, other) {
      var i :| 0 <= i < |head| && head[i] == x;
      assert order[i] == x;
    }
    if forall x :: x in head ==> Stuck(subs, t, h, x) {
      assert SetOf(head) <= StuckBefore(subs, t, h, other);
      SubsetCount(SetOf(head), StuckBefore(subs, t, h, other));
      DistinctCount(head);
      assert false;
    }
    id :| id in head && !Stuck(subs, t, h, id);
  }

  ghost function TotalWork(subs: SubscriberTable, t: Tables, h: Handler, ahead: seq<string>): nat {
    if ahead == [] then 0
    else TotalWork(subs, t, h, ahead[..|ahead| - 1]) + Work(subs, t, h, ahead[|ahead| - 1])
  }

  lemma {:induction false} TotalWorkShrinks(
    subs: SubscriberTable, t: Tables, t': Tables, h: Handler, ahead: seq<string>)
    requires forall id :: Work(subs, t', h, id) <= Work(subs, t, h, id)
    ensures TotalWork(subs, t', h, ahead) <= TotalWork(subs, t, h, ahead)
    ensures (exists id :: id in ahead && Work(subs, t', h, id) < Work(subs, t, h, id)) ==>
      TotalWork(subs, t', h, ahead) < TotalWork(subs, t, h, ahead)
    decreases |ahead|
  {
    if ahead != [] {
      TotalWorkShrinks(subs, t, t', h, ahead[..|ahead| - 1]);
      assert ahead == ahead[..|ahead| - 1] + [ahead[|ahead| - 1]];
    }
  }

  /** These are all the events before this one. */
  ghost predicate Ahead(t: Tables, other: string, ahead: seq<string>)
    requires other in t.events
  {
    forall id :: id in Pending(t.events) && Before(t.events, id, other) ==> id in ahead
  }

  lemma PollWorks(
    subs: SubscriberTable, t: Tables, starts: multiset<Key>, limit: nat, h: Handler, now: int, other: string,
    ahead: seq<string>)
    requires Inv(subs, State(t, Idle, starts)) && other in Pending(t.events) && other !in PendingOutbox(t, limit)
    requires |StuckBefore(subs, t, h, other)| < limit && Ahead(t, other, ahead)
    ensures TotalWork(subs, Poll(subs, t, starts, limit, h, now).t, h, ahead) < TotalWork(subs, t, h, ahead)
  {
    var out := Poll(subs, t, starts, limit, h, now);
    forall id ensures Work(subs, out.t, h, id) <= Work(subs, t, h, id) {
      PollEffect(subs, t, starts, limit, h, now, id);
    }
    var id := HeadWorks(subs, t, limit, h, other);
    PollEffect(subs, t, starts, limit, h, now, id);
    assert id in ahead && Work(subs, out.t, h, id) < Work(subs, t, h, id);
    TotalWorkShrinks(subs, t, out.t, h, ahead);
  }

  // ---------------------------------------------------------------- every number of polls

  ghost predicate TriedAfter(
    subs: SubscriberTable, t: Tables, starts: multiset<Key>, k: nat, limit: nat, h: Handler, now: int, other: string)
  {
    other in PendingOutbox(Polls(subs, t, starts, k, limit, h, now).t, limit)
  }

  lemma LaterPoll(
    subs: SubscriberTable, t: Tables, starts: multiset<Key>, k: nat, limit: nat, h: Handler, now: int, other: string)
    ensures
      var out := Poll(subs, t, starts, limit, h, now);
      TriedAfter(subs, t, starts, k + 1, limit, h, now, other) <==>
      TriedAfter(subs, out.t, out.starts, k, limit, h, now, other)
  {
  }

  lemma PollAll(subs: SubscriberTable, t: Tables, starts: multiset<Key>, limit: nat, h: Handler, now: int)
    requires Inv(subs, State(t, Idle, starts))
    ensures
      var t' := Poll(subs, t, starts, limit, h, now).t;
      && t'.events.Keys == t.events.Keys
      && forall id :: id in t.events ==> Polled(subs, t, t', h, PendingOutbox(t, limit), id)
  {
    var t' := Poll(subs, t, starts, limit, h, now).t;
    forall id
      ensures id in t'.events <==> id in t.events
      ensures id in t.events ==> Polled(subs, t, t', h, PendingOutbox(t, limit), id)
    {
      PollEffect(subs, t, starts, limit, h, now, id);
    }
  }

  lemma AheadStays(t: Tables, t': Tables, other: string)
    requires other in t.events && other in t'.events
    requires forall id :: id in Pending(t'.events) && Before(t'.events, id, other) ==>
      id in Pending(t.events) && Before(t.events, id, other)
    ensures forall ahead :: Ahead(t, other, ahead) ==> Ahead(t', other, ahead)
  {
  }

  /** A poll that does not reach this event: the same events are stuck before it. */
  lemma PollPasses(
    subs: SubscriberTable, t: Tables, starts: multiset<Key>, limit: nat, h: Handler, now: int, other: string)
    requires Inv(subs, State(t, Idle, starts)) && other in Pending(t.events) && other !in PendingOutbox(t, limit)
    ensures
      var out := Poll(subs, t, starts, limit, h, now);
      && Inv(subs, State(out.t, Idle, out.starts)) && other in Pending(out.t.events)
      && StuckBefore(subs, out.t, h, other) == StuckBefore(subs, t, h, other)
      && forall ahead :: Ahead(t, other, ahead) ==> Ahead(out.t, other, ahead)
  {
    var batch, out := PendingOutbox(t, limit), Poll(subs, t, starts, limit, h, now);
    BatchKeepsInv(subs, t, starts, batch, false, h, now, map[]);
    PollAll(subs, t, starts, limit, h, now);
    PolledKeepsStuckBefore(subs, t, out.t, h, batch, other);
    AheadStays(t, out.t, other);
  }

  ghost predicate EverTried(
    subs: SubscriberTable, t: Tables, starts: multiset<Key>, limit: nat, h: Handler, now: int, other: string)
  {
    exists k: nat :: TriedAfter(subs, t, starts, k, limit, h, now, other)
  }

  lemma TriedNow(
    subs: SubscriberTable, t: Tables, starts: multiset<Key>, limit: nat, h: Handler, now: int, other: string)
    requires other in PendingOutbox(t, limit)
    ensures EverTried(subs, t, starts, limit, h, now, other)
  {
    assert TriedAfter(subs, t, starts, 0, limit, h, now, other);
  }

  lemma TriedLater(
    subs: SubscriberTable, t: Tables, starts: multiset<Key>, limit: nat, h: Handler, now: int, other: string)
    ensures
      var out := Poll(subs, t, starts, limit, h, now);
      EverTried(subs, out.t, out.starts, limit, h, now, other) ==> EverTried(subs, t, starts, limit, h, now, other)
  {
    var out := Poll(subs, t, starts, limit, h, now);
    if k: nat :| TriedAfter(subs, out.t, out.starts, k, limit, h, now, other) {
      LaterPoll(subs, t, starts, k, limit, h, now, other);
      assert TriedAfter(subs, t, starts, k + 1, limit, h, now, other);
    }
  }

  /** With fewer than `limit` stuck events ahead: a poll leaves less work ahead, or reaches the event. */
  lemma OnePoll(
    subs: SubscriberTable, t: Tables, starts: multiset<Key>, limit: nat, h: Handler, now: int, other: string,
    ahead: seq<string>)
    returns (t1: Tables, starts1: multiset<Key>)
    requires Inv(subs, State(t, Idle, starts)) && other in Pending(t.events) && other !in PendingOutbox(t, limit)
    requires Ahead(t, other, ahead) && |StuckBefore(subs, t, h, other)| < limit
    ensures Inv(subs, State(t1, Idle, starts1)) && other in Pending(t1.events) && Ahead(t1, other, ahead)
    ensures |StuckBefore(subs, t1, h, other)| < limit && TotalWork(subs, t1, h, ahead) < TotalWork(subs, t, h, ahead)
    ensures EverTried(subs, t1, starts1, limit, h, now, other) ==> EverTried(subs, t, starts, limit, h, now, other)
  {
    var out := Poll(subs, t, starts, limit, h, now);
    t1, starts1 := out.t, out.starts;
    PollPasses(subs, t, starts, limit, h, now, other);
    PollWorks(subs, t, starts, limit, h, now, other, ahead);
    TriedLater(subs, t, starts, limit, h, now, other);
  }

  lemma {:induction false} EventuallyTried(
    subs: SubscriberTable, t: Tables, starts: multiset<Key>, limit: nat, h: Handler, now: int, other: string,
    ahead: seq<string>)
    requires Inv(subs, State(t, Idle, starts)) && other in Pending(t.events)
    requires |StuckBefore(subs, t, h, other)| < limit && Ahead(t, other, ahead)
    ensures EverTried(subs, t, starts, limit, h, now, other)
    decreases TotalWork(subs, t, h, ahead)
  {
    if other in PendingOutbox(t, limit) {
      TriedNow(subs, t, starts, limit, h, now, other);
    } else {
      var t1, starts1 := OnePoll(subs, t, starts, limit, h, now, other, ahead);
      EventuallyTried(subs, t1, starts1, limit, h, now, other, ahead);
    }
  }

  ghost predicate Starved(
    subs: SubscriberTable, t: Tables, starts: multiset<Key>, limit: nat, h: Handler, other: string)
  {
    && Inv(subs, State(t, Idle, starts)) && other in Pending(t.events)
    && |StuckBefore(subs, t, h, other)| >= limit
  }

  /** With `limit` stuck events ahead: a poll does not reach the event, and leaves them there. */
  lemma StarvedPoll(
    subs: SubscriberTable, t: Tables, starts: multiset<Key>, limit: nat, h: Handler, now: int, other: string)
    requires Starved(subs, t, starts, limit, h, other)
    ensures
      var out := Poll(subs, t, starts, limit, h, now);
      other !in PendingOutbox(t, limit) && Starved(subs, out.t, out.starts, limit, h, other)
  {
    if other in PendingOutbox(t, limit) { StuckHeadIsFull(subs, t, limit, h, other); }
    PollPasses(subs, t, starts, limit, h, now, other);
  }

  /** The last of k + 1 polls runs on what the first k left. */
  lemma {:induction false} LastPoll(
    subs: SubscriberTable, t: Tables, starts: multiset<Key>, k: nat, limit: nat, h: Handler, now: int)
    ensures
      var s, s' := Polls(subs, t, starts, k, limit, h, now), Polls(subs, t, starts, k + 1, limit, h, now);
      var out := Poll(subs, s.t, s.starts, limit, h, now);
      s'.t == out.t && s'.starts == out.starts
    decreases k
  {
    if k > 0 {
      var out := Poll(subs, t, starts, limit, h, now);
      LastPoll(subs, out.t, out.starts, k - 1, limit, h, now);
    }
  }

  lemma StarvedStep(
    subs: SubscriberTable, t: Tables, starts: multiset<Key>, k: nat, limit: nat, h: Handler, now: int, other: string,
    s: ContextBus.State, s': ContextBus.State)
    requires s == Polls(subs, t, starts, k, limit, h, now) && s' == Polls(subs, t, starts, k + 1, limit, h, now)
    requires Starved(subs, s.t, s.starts, limit, h, other)
    ensures Starved(subs, s'.t, s'.starts, limit, h, other)
  {
    LastPoll(subs, t, starts, k, limit, h, now);
    StarvedPoll(subs, s.t, s.starts, limit, h, now, other);
  }

  lemma {:induction false} EveryPoll(holds: nat -> bool, k: nat)
    requires holds(0) && forall i: nat :: holds(i) ==> holds(i + 1)
    ensures holds(k)
  {
    if k > 0 {
      EveryPoll(holds, k - 1);
      assert holds(k - 1 + 1);
    }
  }

  /** Nothing the polls do ends the starvation. */
  lemma StaysStarved(
    subs: SubscriberTable, t: Tables, starts: multiset<Key>, k: nat, limit: nat, h: Handler, now: int, other: string)
    requires Starved(subs, t, starts, limit, h, other)
    ensures
      var s := Polls(subs, t, starts, k, limit, h, now);
      Starved(subs, s.t, s.starts, limit, h, other)
  {
    ghost var after := (i: nat) => Polls(subs, t, starts, i, limit, h, now);
    ghost var holds := (i: nat) => Starved(subs, after(i).t, after(i).starts, limit, h, other);
    forall i: nat | holds(i) ensures holds(i + 1) {
      StarvedStep(subs, t, starts, i, limit, h, now, other, after(i), after(i + 1));
    }
    EveryPoll(holds, k);
  }

  lemma StarvedIsNotTried(
    subs: SubscriberTable, t: Tables, starts: multiset<Key>, k: nat, limit: nat, h: Handler, now: int, other: string)
    requires Starved(subs, t, starts, limit, h, other)
    ensures !TriedAfter(subs, t, starts, k, limit, h, now, other)
  {
    StaysStarved(subs, t, starts, k, limit, h, now, other);
    var s := Polls(subs, t, starts, k, limit, h, now);
    if other in PendingOutbox(s.t, limit) { StuckHeadIsFull(subs, s.t, limit, h, other); }
  }

  /** A pending event is tried by some poll if and only if fewer than `limit` events before it are stuck. */
  lemma TriedIff(
    subs: SubscriberTable, t: Tables, starts: multiset<Key>, limit: nat, h: Handler, now: int, other: string)
    requires Inv(subs, State(t, Idle, starts)) && other in Pending(t.events)
    ensures EverTried(subs, t, starts, limit, h, now, other) <==> |StuckBefore(subs, t, h, other)| < limit
  {
    if |StuckBefore(subs, t, h, other)| < limit {
      EventuallyTried(subs, t, starts, limit, h, now, other, SortedIds(t.events, Pending(t.events)));
    } else {
      forall k: nat ensures !TriedAfter(subs, t, starts, k, limit, h, now, other) {
        StarvedIsNotTried(subs, t, starts, k, limit, h, now, other);
      }
    }
  }

  // ---------------------------------------------------------------- a backlog that starves

  const UNKNOWN := "UNKNOWN"

  /** Distinct event ids. */
  function Mark(i: nat): (r: string)
    ensures |r| == i && forall k :: 0 <= k < i ==> r[k] == 'x'
  {
    seq(i, _ => 'x')
  }

  /** n events of a type nobody subscribes to. */
  function Backlog(n: nat): seq<Label> {
    if n == 0 then [] else Backlog(n - 1) + [Enqueue(Mark(n - 1), UNKNOWN, n - 1)]
  }

  /** The tables after that backlog. */
  ghost predicate Unsubscribed(s: State, n: nat) {
    && s.pc == Idle && s.starts == multiset{} && s.t.deliveries == map[]
    && (forall i: nat :: i < n ==>
          Mark(i) in s.t.events && s.t.events[Mark(i)] == OutboxEvent(UNKNOWN, i, PENDING, 0, None))
    && forall id :: id in s.t.events ==> |id| < n && id == Mark(|id|)
  }

  lemma ExecSnoc(subs: SubscriberTable, s: State, labels: seq<Label>, l: Label)
    ensures Exec(subs, s, labels + [l]) == Step(subs, Exec(subs, s, labels), l)
  {
    ExecConcat(subs, s, labels, [l]);
    assert [l][1..] == [];
  }

  lemma {:induction false} BacklogStands(subs: SubscriberTable, n: nat)
    ensures Unsubscribed(Exec(subs, EMPTY, Backlog(n)), n)
  {
    if n > 0 {
      BacklogStands(subs, n - 1);
      var s := Exec(subs, EMPTY, Backlog(n - 1));
      ExecSnoc(subs, EMPTY, Backlog(n - 1), Enqueue(Mark(n - 1), UNKNOWN, n - 1));
      assert Mark(n - 1) !in s.t.events;
    }
  }

  lemma {:induction false} Marks(n: nat) returns (ids: seq<string>)
    ensures |ids| == n && Distinct(ids) && forall i :: 0 <= i < n ==> ids[i] == Mark(i)
  {
    if n == 0 {
      ids := [];
    } else {
      var front := Marks(n - 1);
      ids := front + [Mark(n - 1)];
    }
  }

  lemma LateArrives(subs: SubscriberTable, s: State, limit: nat, eventType: string, h: Handler)
    requires Unsubscribed(s, limit) && UNKNOWN !in subs
    ensures
      var s' := Step(subs, s, Enqueue("late", eventType, limit));
      && s'.pc == Idle && "late" in Pending(s'.t.events) && s'.t.events["late"].eventType == eventType
      && forall i: nat :: i < limit ==> Mark(i) in StuckBefore(subs, s'.t, h, "late")
  {
    assert "late"[0] == 'l';
    assert "late" !in s.t.events;
    var s' := Step(subs, s, Enqueue("late", eventType, limit));
    forall i: nat | i < limit ensures Mark(i) in StuckBefore(subs, s'.t, h, "late") {
      assert Mark(i) in s.t.events;
    }
  }

  /** For every batch size there is such an input: after `limit` events of an unsubscribed type, an
      event whose one subscriber never raises is never tried. */
  lemma BacklogStarves(limit: nat, eventType: string, name: string, h: Handler, now: int)
    requires eventType != UNKNOWN
    ensures
      var subs := map[eventType := [name]];
      var s := Exec(subs, EMPTY, Backlog(limit) + [Enqueue("late", eventType, limit)]);
      && s.pc == Idle && "late" in Pending(s.t.events) && Names(subs, s.t.events, "late") == [name]
      && !EverTried(subs, s.t, s.starts, limit, h, now, "late")
  {
    var subs := map[eventType := [name]];
    var labels := Backlog(limit) + [Enqueue("late", eventType, limit)];
    BacklogStands(subs, limit);
    ExecSnoc(subs, EMPTY, Backlog(limit), Enqueue("late", eventType, limit));
    LateArrives(subs, Exec(subs, EMPTY, Backlog(limit)), limit, eventType, h);
    var s := Exec(subs, EMPTY, labels);
    assert Inv(subs, EMPTY);
    RunKeepsInv(subs, EMPTY, labels);
    MarksCount(limit, StuckBefore(subs, s.t, h, "late"));
    TriedIff(subs, s.t, s.starts, limit, h, now, "late");
  }

  lemma MarksCount(n: nat, ids: set<string>)
    requires forall i: nat :: i < n ==> Mark(i) in ids
    ensures |ids| >= n
  {
    var marks := Marks(n);
    assert SetOf(marks) <= ids;
    SubsetCount(SetOf(marks), ids);
    DistinctCount(marks);
  }
}
