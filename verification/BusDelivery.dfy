/** Dispatching one outbox event to its subscribers, and what that call answers. */
module BusDelivery {
  import opened Basics
  import opened ContextBus

  // ---------------------------------------------------------------- dispatching one event

  datatype HandlerOutcome = Returns(response: Response) | Raises(error: string)

  /** What the handler of a subscriber does on its n-th attempt at an event. */
  type Handler = (string, string, nat) -> HandlerOutcome

  datatype Outcome = Outcome(t: Tables, starts: multiset<Key>, result: Result<map<string, Response>, BusError>)

  function Deliver(
    names: seq<string>, t: Tables, starts: multiset<Key>, id: string, j: nat,
    responses: map<string, Response>, h: Handler, now: int): Outcome
    requires j <= |names|
    decreases |names| - j
  {
    if j == |names| then
      match MarkPublished(t, id, names, now)
      case Ok(t') => Outcome(t', starts, Ok(responses))
      case Err(e) => Outcome(t, starts, Err(e))
    else
      match CompletedDelivery(t, id, names[j])
      case Some(response) => Deliver(names, t, starts, id, j + 1, responses[names[j] := response], h, now)
      case None =>
        var t1 := ClaimDelivery(t, id, names[j]);
        var starts1 := starts + multiset{(id, names[j])};
        match h(id, names[j], t1.deliveries[(id, names[j])].attempts)
        case Raises(e) => Outcome(FailDelivery(t1, id, names[j], e), starts1, Err(HandlerFailed(names[j])))
        case Returns(response) =>
          match CompleteDelivery(t1, id, names[j], response)
          case Err(e) => Outcome(t1, starts1, Err(e))
          case Ok(t2) => Deliver(names, t2, starts1, id, j + 1, responses[names[j] := response], h, now)
  }

  function DispatchOne(
    subs: SubscriberTable, t: Tables, starts: multiset<Key>, id: string, h: Handler, now: int): Outcome
  {
    var names := Names(subs, t.events, id);
    if names == [] then Outcome(t, starts, Err(NoSubscriber))
    else Deliver(names, RecordEventAttempt(t, id), starts, id, 0, map[], h, now)
  }

  /** The machine labels one call of `_dispatch_event` goes through from subscriber j on. */
  ghost function DeliverLabels(
    names: seq<string>, t: Tables, id: string, j: nat, h: Handler, now: int): seq<Label>
    requires j <= |names|
    decreases |names| - j
  {
    if j == |names| then [Publish(now)]
    else if CompletedDelivery(t, id, names[j]).Some? then [Skip] + DeliverLabels(names, t, id, j + 1, h, now)
    else
      var t1 := ClaimDelivery(t, id, names[j]);
      match h(id, names[j], t1.deliveries[(id, names[j])].attempts)
      case Raises(e) => [Claim, StartHandler, Raise(e), Fail]
      case Returns(response) =>
        [Claim, StartHandler, Return(response), Complete] +
        DeliverLabels(names, CompleteDelivery(t1, id, names[j], response).value, id, j + 1, h, now)
  }

  lemma ExecCons(subs: SubscriberTable, s: State, l: Label, rest: seq<Label>)
    ensures Exec(subs, s, [l] + rest) == Exec(subs, Step(subs, s, l), rest)
  {
    assert ([l] + rest)[1..] == rest;
  }

  lemma Exec4(subs: SubscriberTable, s: State, a: Label, b: Label, c: Label, d: Label)
    ensures Exec(subs, s, [a, b, c, d]) == Step(subs, Step(subs, Step(subs, Step(subs, s, a), b), c), d)
  {
    var s1 := Step(subs, s, a);
    var s2 := Step(subs, s1, b);
    var s3 := Step(subs, s2, c);
    assert [a, b, c, d] == [a] + ([b] + ([c] + ([d] + [])));
    ExecCons(subs, s, a, [b] + ([c] + ([d] + [])));
    ExecCons(subs, s1, b, [c] + ([d] + []));
    ExecCons(subs, s2, c, [d] + []);
    ExecCons(subs, s3, d, []);
  }

  /** The four steps that try a subscriber whose handler answers. */
  lemma TrySucceeds(subs: SubscriberTable, s: State, name: string, response: Response)
    requires s.pc.Next? && s.pc.id in s.t.events
    requires s.pc.j < |Names(subs, s.t.events, s.pc.id)| && name == Names(subs, s.t.events, s.pc.id)[s.pc.j]
    requires CompletedDelivery(s.t, s.pc.id, name).None?
    ensures
      var t2 := CompleteDelivery(ClaimDelivery(s.t, s.pc.id, name), s.pc.id, name, response).value;
      Exec(subs, s, [Claim, StartHandler, Return(response), Complete]) ==
        State(t2, Next(s.pc.id, s.pc.j + 1, s.pc.responses[name := response]), s.starts + multiset{(s.pc.id, name)})
  {
    Exec4(subs, s, Claim, StartHandler, Return(response), Complete);
  }

  /** The four steps that try a subscriber whose handler raises. */
  lemma TryFails(subs: SubscriberTable, s: State, name: string, error: string)
    requires s.pc.Next? && s.pc.id in s.t.events
    requires s.pc.j < |Names(subs, s.t.events, s.pc.id)| && name == Names(subs, s.t.events, s.pc.id)[s.pc.j]
    requires CompletedDelivery(s.t, s.pc.id, name).None?
    ensures
      Exec(subs, s, [Claim, StartHandler, Raise(error), Fail]) ==
        State(FailDelivery(ClaimDelivery(s.t, s.pc.id, name), s.pc.id, name, error), Idle,
              s.starts + multiset{(s.pc.id, name)})
  {
    Exec4(subs, s, Claim, StartHandler, Raise(error), Fail);
  }

  /** The code between two commits follows the machine, so every run theorem applies to it. */
  lemma {:induction false} DeliverIsRun(
    subs: SubscriberTable, s: State, names: seq<string>, id: string, j: nat,
    responses: map<string, Response>, h: Handler, now: int)
    requires s.pc == Next(id, j, responses) && id in s.t.events
    requires names == Names(subs, s.t.events, id) && j <= |names|
    ensures
      var out := Deliver(names, s.t, s.starts, id, j, responses, h, now);
      Exec(subs, s, DeliverLabels(names, s.t, id, j, h, now)) == State(out.t, Idle, out.starts)
    decreases |names| - j
  {
    if j == |names| {
      assert [Publish(now)] == [Publish(now)] + [];
      ExecCons(subs, s, Publish(now), []);
    } else if CompletedDelivery(s.t, id, names[j]).Some? {
      var rest := DeliverLabels(names, s.t, id, j + 1, h, now);
      var response := CompletedDelivery(s.t, id, names[j]).value;
      ExecCons(subs, s, Skip, rest);
      DeliverIsRun(subs, Step(subs, s, Skip), names, id, j + 1, responses[names[j] := response], h, now);
    } else {
      var t1 := ClaimDelivery(s.t, id, names[j]);
      match h(id, names[j], t1.deliveries[(id, names[j])].attempts) {
        case Raises(e) =>
          TryFails(subs, s, names[j], e);
        case Returns(response) =>
          var t2 := CompleteDelivery(t1, id, names[j], response).value;
          var rest := DeliverLabels(names, t2, id, j + 1, h, now);
          ExecConcat(subs, s, [Claim, StartHandler, Return(response), Complete], rest);
          TrySucceeds(subs, s, names[j], response);
          var s' := Exec(subs, s, [Claim, StartHandler, Return(response), Complete]);
          DeliverIsRun(subs, s', names, id, j + 1, responses[names[j] := response], h, now);
      }
    }
  }

  /** The labels of a dispatcher: whatever the clients and subscribers do, no event arrives. */
  ghost predicate NoArrivals(labels: seq<Label>) {
    forall i :: 0 <= i < |labels| ==> !labels[i].Enqueue?
  }

  /** Some run of the dispatcher leads from one state of the tables and starts to the other. */
  ghost predicate Reaches(subs: SubscriberTable, t: Tables, starts: multiset<Key>, t': Tables, starts': multiset<Key>) {
    exists labels ::
      NoArrivals(labels) && Exec(subs, State(t, Idle, starts), labels) == State(t', Idle, starts')
  }

  lemma ReachesKeepsInv(subs: SubscriberTable, t: Tables, starts: multiset<Key>, t': Tables, starts': multiset<Key>)
    requires Inv(subs, State(t, Idle, starts)) && Reaches(subs, t, starts, t', starts')
    ensures Inv(subs, State(t', Idle, starts')) && Extends(State(t, Idle, starts), State(t', Idle, starts'))
  {
    var labels :| NoArrivals(labels) && Exec(subs, State(t, Idle, starts), labels) == State(t', Idle, starts');
    RunKeepsInv(subs, State(t, Idle, starts), labels);
  }

  lemma ReachesItself(subs: SubscriberTable, t: Tables, starts: multiset<Key>)
    ensures Reaches(subs, t, starts, t, starts)
  {
    assert NoArrivals([]) && Exec(subs, State(t, Idle, starts), []) == State(t, Idle, starts);
  }

  lemma ReachesOn(
    subs: SubscriberTable, t: Tables, starts: multiset<Key>, t1: Tables, starts1: multiset<Key>,
    t2: Tables, starts2: multiset<Key>)
    requires Reaches(subs, t, starts, t1, starts1) && Reaches(subs, t1, starts1, t2, starts2)
    ensures Reaches(subs, t, starts, t2, starts2)
  {
    var xs :| NoArrivals(xs) && Exec(subs, State(t, Idle, starts), xs) == State(t1, Idle, starts1);
    var ys :| NoArrivals(ys) && Exec(subs, State(t1, Idle, starts1), ys) == State(t2, Idle, starts2);
    ExecConcat(subs, State(t, Idle, starts), xs, ys);
    assert NoArrivals(xs + ys);
  }

  lemma {:induction false} DeliverHasNoArrivals(names: seq<string>, t: Tables, id: string, j: nat, h: Handler, now: int)
    requires j <= |names|
    ensures NoArrivals(DeliverLabels(names, t, id, j, h, now))
    decreases |names| - j
  {
    if j < |names| {
      if CompletedDelivery(t, id, names[j]).Some? {
        DeliverHasNoArrivals(names, t, id, j + 1, h, now);
      } else {
        var t1 := ClaimDelivery(t, id, names[j]);
        match h(id, names[j], t1.deliveries[(id, names[j])].attempts) {
          case Raises(_) =>
          case Returns(response) =>
            DeliverHasNoArrivals(names, CompleteDelivery(t1, id, names[j], response).value, id, j + 1, h, now);
        }
      }
    }
  }

  /** A whole `_dispatch_event` is a run of the machine and so keeps its invariant. */
  lemma DispatchOneIsRun(subs: SubscriberTable, t: Tables, starts: multiset<Key>, id: string, h: Handler, now: int)
    requires Inv(subs, State(t, Idle, starts))
    ensures
      var out := DispatchOne(subs, t, starts, id, h, now);
      && Reaches(subs, t, starts, out.t, out.starts)
      && Inv(subs, State(out.t, Idle, out.starts))
      && Extends(State(t, Idle, starts), State(out.t, Idle, out.starts))
  {
    var s := State(t, Idle, starts);
    var out := DispatchOne(subs, t, starts, id, h, now);
    var names := Names(subs, t.events, id);
    if names == [] {
      ReachesItself(subs, t, starts);
    } else {
      var s1 := Step(subs, s, Begin(id));
      var rest := DeliverLabels(names, s1.t, id, 0, h, now);
      DeliverHasNoArrivals(names, s1.t, id, 0, h, now);
      ExecCons(subs, s, Begin(id), rest);
      DeliverIsRun(subs, s1, names, id, 0, map[], h, now);
      assert NoArrivals([Begin(id)] + rest);
    }
    ReachesKeepsInv(subs, t, starts, out.t, out.starts);
  }

  // ---------------------------------------------------------------- what one dispatch answers

  /** `responses` holds exactly the stored answers of the given subscribers. */
  ghost predicate Stored(t: Tables, id: string, names: seq<string>, responses: map<string, Response>) {
    && (forall name :: name in responses ==> name in names)
    && forall name :: name in names ==>
         && Done(t, id, name) && name in responses
         && t.deliveries[(id, name)].response == Some(responses[name])
  }

  lemma StoredSkip(
    t: Tables, id: string, names: seq<string>, name: string, responses: map<string, Response>, response: Response)
    requires Stored(t, id, names, responses) && CompletedDelivery(t, id, name) == Some(response)
    ensures Stored(t, id, names + [name], responses[name := response])
  {
  }

  lemma StoredAfterTry(
    t: Tables, t': Tables, id: string, names: seq<string>, name: string, responses: map<string, Response>,
    response: Response)
    requires Stored(t, id, names, responses) && name !in names
    requires CompleteDelivery(ClaimDelivery(t, id, name), id, name, response) == Ok(t')
    ensures Stored(t', id, names + [name], responses[name := response])
  {
    assert forall other :: other in names ==> t'.deliveries[(id, other)] == t.deliveries[(id, other)];
  }

  lemma {:induction false} DeliverAnswers(
    names: seq<string>, t: Tables, starts: multiset<Key>, id: string, j: nat,
    responses: map<string, Response>, h: Handler, now: int)
    requires j <= |names| && Distinct(names) && id in t.events
    requires Stored(t, id, names[..j], responses)
    requires forall name :: Done(t, id, name) ==> t.deliveries[(id, name)].response.Some?
    ensures
      var out := Deliver(names, t, starts, id, j, responses, h, now);
      && (out.result.Ok? ==>
            && Stored(out.t, id, names, out.result.value)
            && id in out.t.events && out.t.events[id].status == PUBLISHED)
      && (out.result.Err? ==> out.result.error.HandlerFailed? && out.t.events == t.events)
    decreases |names| - j
  {
    if j == |names| {
      assert names[..j] == names;
    } else {
      assert names[..j + 1] == names[..j] + [names[j]];
      var name := names[j];
      match CompletedDelivery(t, id, name) {
        case Some(response) =>
          StoredSkip(t, id, names[..j], name, responses, response);
          DeliverAnswers(names, t, starts, id, j + 1, responses[name := response], h, now);
        case None =>
          var t1 := ClaimDelivery(t, id, name);
          match h(id, name, t1.deliveries[(id, name)].attempts) {
            case Raises(_) =>
            case Returns(response) =>
              var t2 := CompleteDelivery(t1, id, name, response).value;
              StoredAfterTry(t, t2, id, names[..j], name, responses, response);
              DeliverAnswers(names, t2, starts + multiset{(id, name)}, id, j + 1, responses[name := response], h, now);
          }
      }
    }
  }

  /** Success publishes the event and answers with what every subscriber stored; a failure can
      only be a missing subscriber or a handler that raised, and leaves the event unpublished. */
  lemma DispatchAnswers(subs: SubscriberTable, t: Tables, starts: multiset<Key>, id: string, h: Handler, now: int)
    requires Inv(subs, State(t, Idle, starts)) && id in t.events
    ensures
      var out := DispatchOne(subs, t, starts, id, h, now);
      var names := Names(subs, t.events, id);
      && id in out.t.events
      && (out.result.Ok? ==>
            && names != [] && Stored(out.t, id, names, out.result.value)
            && out.t.events[id].status == PUBLISHED)
      && (out.result.Err? ==>
            && (out.result.error.HandlerFailed? || (out.result.error.NoSubscriber? && names == []))
            && out.t.events[id].status == t.events[id].status)
  {
    var names := Names(subs, t.events, id);
    if names != [] {
      var t1 := RecordEventAttempt(t, id);
      assert Names(subs, t1.events, id) == names;
      assert names[..0] == [];
      DeliverAnswers(names, t1, starts, id, 0, map[], h, now);
    }
  }

  lemma {:induction false} AllDoneRunsNothing(
    names: seq<string>, t: Tables, starts: multiset<Key>, id: string, j: nat,
    responses: map<string, Response>, h: Handler, now: int)
    requires j <= |names| && id in t.events
    requires forall name :: name in names ==> Done(t, id, name) && t.deliveries[(id, name)].response.Some?
    ensures
      var out := Deliver(names, t, starts, id, j, responses, h, now);
      && out.result.Ok? && out.starts == starts
      && out.t == t.(events := t.events[id := t.events[id].(status := PUBLISHED, publishedAt := Some(now))])
    decreases |names| - j
  {
    if j < |names| {
      var response := CompletedDelivery(t, id, names[j]).value;
      AllDoneRunsNothing(names, t, starts, id, j + 1, responses[names[j] := response], h, now);
    }
  }

  /** Re-dispatching a published event replays the stored answers: no handler starts, no row
      changes but `published_at`, which is rewritten. */
  lemma RedispatchRunsNothing(subs: SubscriberTable, t: Tables, starts: multiset<Key>, id: string, h: Handler, now: int)
    requires Inv(subs, State(t, Idle, starts))
    requires id in t.events && t.events[id].status == PUBLISHED
    ensures
      var out := DispatchOne(subs, t, starts, id, h, now);
      && out.result.Ok? && out.starts == starts
      && Stored(t, id, Names(subs, t.events, id), out.result.value)
      && out.t == t.(events := t.events[id := t.events[id].(publishedAt := Some(now))])
  {
    AllDoneRunsNothing(Names(subs, t.events, id), t, starts, id, 0, map[], h, now);
    DispatchAnswers(subs, t, starts, id, h, now);
  }
}
