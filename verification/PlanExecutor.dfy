/** Building an agent plan, and executing it over a queue that grows while it is consumed. */
module PlanExecutor {
  import opened Basics

  datatype Agent = PROFILING | DISCOVERY | FIT | UPSELL
  datatype Intent = ProductDiscovery | FitQuery | ServiceQuery | CustomerContextQuery | GeneralQuery

  const MIN_CONFIDENCE := 0.65

  // ---------------------------------------------------------------- the plan

  function RouteOf(intent: Intent): Option<Agent> {
    match intent
    case ProductDiscovery => Some(DISCOVERY)
    case FitQuery => Some(FIT)
    case ServiceQuery => Some(UPSELL)
    case _ => None
  }

  ghost predicate Requested(intents: seq<Intent>, a: Agent) {
    exists i :: 0 <= i < |intents| && RouteOf(intents[i]) == Some(a)
  }

  ghost predicate NeedsSpecialist(intents: seq<Intent>) {
    exists i :: 0 <= i < |intents| && intents[i] != GeneralQuery
  }

  /** Agents a and b were first requested in this order. */
  ghost predicate RequestedBefore(intents: seq<Intent>, a: Agent, b: Agent) {
    exists i :: 0 <= i < |intents| && RouteOf(intents[i]) == Some(a) && !Requested(intents[..i], b)
  }

  lemma RequestedNext(intents: seq<Intent>, i: nat, a: Agent)
    requires i < |intents|
    ensures Requested(intents[..i + 1], a) <==> Requested(intents[..i], a) || RouteOf(intents[i]) == Some(a)
  {
    var now, next := intents[..i], intents[..i + 1];
    if k :| 0 <= k < |now| && RouteOf(now[k]) == Some(a) {
      assert next[k] == now[k];
    }
    if k :| 0 <= k < |next| && RouteOf(next[k]) == Some(a) {
      assert k < i ==> now[k] == next[k];
    }
    assert next[i] == intents[i];
  }

  lemma FirstRequested(intents: seq<Intent>, i: nat, a: Agent, b: Agent)
    requires i <= |intents| && Requested(intents[..i], a) && !Requested(intents[..i], b)
    ensures RequestedBefore(intents, a, b)
  {
    var front := intents[..i];
    var k :| 0 <= k < |front| && RouteOf(front[k]) == Some(a);
    assert intents[k] == front[k];
    forall m | 0 <= m < k ensures RouteOf(intents[..k][m]) != Some(b) {
      assert intents[..k][m] == front[m];
    }
  }

  /** x is mentioned, and y not before it. */
  ghost predicate MentionedFirst(intents: seq<Intent>, x: Intent, y: Intent) {
    exists i :: 0 <= i < |intents| && intents[i] == x && forall k :: 0 <= k < i ==> intents[k] != y
  }

  ghost predicate Earlier(steps: seq<Agent>, a: Agent, b: Agent) {
    exists p, q :: 0 <= p < q < |steps| && steps[p] == a && steps[q] == b
  }

  /** Of two intents with agents, the one mentioned first has its agent earlier in the plan. */
  ghost predicate FollowsMentions(intents: seq<Intent>, steps: seq<Agent>, x: Intent, a: Agent, y: Intent, b: Agent) {
    && (x in intents && MentionedFirst(intents, y, x) ==> Earlier(steps, b, a))
    && (y in intents && MentionedFirst(intents, x, y) ==> Earlier(steps, a, b))
  }

  lemma RoutedIsMentioned(intents: seq<Intent>)
    ensures Requested(intents, DISCOVERY) <==> ProductDiscovery in intents
    ensures Requested(intents, FIT) <==> FitQuery in intents
    ensures Requested(intents, UPSELL) <==> ServiceQuery in intents
  {
  }

  lemma RequestedInOrder(intents: seq<Intent>, x: Intent, a: Agent, y: Intent, b: Agent)
    requires RouteOf(x) == Some(a) && (forall z :: RouteOf(z) == Some(a) ==> z == x)
    requires RouteOf(y) == Some(b) && (forall z :: RouteOf(z) == Some(b) ==> z == y)
    requires x != y && MentionedFirst(intents, x, y)
    ensures !RequestedBefore(intents, b, a)
  {
    var i :| 0 <= i < |intents| && intents[i] == x && forall k :: 0 <= k < i ==> intents[k] != y;
    forall j | 0 <= j < |intents| && RouteOf(intents[j]) == Some(b) ensures Requested(intents[..j], a) {
      assert intents[..j][i] == x;
    }
  }

  lemma PlanFollowsMentions(intents: seq<Intent>, steps: seq<Agent>, x: Intent, a: Agent, y: Intent, b: Agent)
    requires RouteOf(x) == Some(a) && (forall z :: RouteOf(z) == Some(a) ==> z == x)
    requires RouteOf(y) == Some(b) && (forall z :: RouteOf(z) == Some(b) ==> z == y)
    requires x != y && a != b && (a in steps <==> x in intents) && (b in steps <==> y in intents)
    requires forall i, j :: 0 <= i < j < |steps| && steps[i] in {a, b} ==> RequestedBefore(intents, steps[i], steps[j])
    ensures FollowsMentions(intents, steps, x, a, y, b)
  {
    if x in intents && y in intents {
      var p :| 0 <= p < |steps| && steps[p] == a;
      var q :| 0 <= q < |steps| && steps[q] == b;
      if MentionedFirst(intents, x, y) {
        RequestedInOrder(intents, x, a, y, b);
        assert p < q;
      }
      if MentionedFirst(intents, y, x) {
        RequestedInOrder(intents, y, b, x, a);
        assert q < p;
      }
    }
  }

  /** `_build_plan`: no duplicates, exactly the requested agents in order of first request, and
      profiling in front exactly when a specialist is needed without a cached context. */
  method BuildPlan(intents: seq<Intent>, confidence: real, context: Option<string>) returns (steps: seq<Agent>)
    ensures Distinct(steps)
    ensures confidence < 0.65 ==> steps == []
    ensures confidence >= 0.65 ==>
      && (DISCOVERY in steps <==> ProductDiscovery in intents)
      && (FIT in steps <==> FitQuery in intents)
      && (UPSELL in steps <==> ServiceQuery in intents)
      && (PROFILING in steps <==> context.None? && exists i :: 0 <= i < |intents| && intents[i] != GeneralQuery)
      && (PROFILING in steps ==> steps[0] == PROFILING)
      && FollowsMentions(intents, steps, ProductDiscovery, DISCOVERY, FitQuery, FIT)
      && FollowsMentions(intents, steps, ProductDiscovery, DISCOVERY, ServiceQuery, UPSELL)
      && FollowsMentions(intents, steps, FitQuery, FIT, ServiceQuery, UPSELL)
  {
    steps := [];
    if confidence < MIN_CONFIDENCE { return; }
    var needs, i := false, 0;
    while i < |intents|
      invariant 0 <= i <= |intents|
      invariant needs <==> exists k :: 0 <= k < i && intents[k] != GeneralQuery
    {
      needs := needs || intents[i] != GeneralQuery;
      i := i + 1;
    }
    if needs && context.None? { steps := [PROFILING]; }
    i := 0;
    while i < |intents|
      invariant 0 <= i <= |intents| && Distinct(steps)
      invariant PROFILING in steps <==> NeedsSpecialist(intents) && context.None?
      invariant PROFILING in steps ==> steps[0] == PROFILING
      invariant forall a :: a != PROFILING ==> (a in steps <==> Requested(intents[..i], a))
      invariant forall p, q :: 0 <= p < q < |steps| && steps[p] != PROFILING ==>
        RequestedBefore(intents, steps[p], steps[q])
    {
      var routed := RouteOf(intents[i]);
      forall a ensures Requested(intents[..i + 1], a) <==> Requested(intents[..i], a) || routed == Some(a) {
        RequestedNext(intents, i, a);
      }
      if routed.Some? && routed.value !in steps {
        forall p | 0 <= p < |steps| && steps[p] != PROFILING ensures RequestedBefore(intents, steps[p], routed.value) {
          FirstRequested(intents, i, steps[p], routed.value);
        }
        steps := steps + [routed.value];
      }
      i := i + 1;
    }
    assert intents[..|intents|] == intents;
    RoutedIsMentioned(intents);
    PlanFollowsMentions(intents, steps, ProductDiscovery, DISCOVERY, FitQuery, FIT);
    PlanFollowsMentions(intents, steps, ProductDiscovery, DISCOVERY, ServiceQuery, UPSELL);
    PlanFollowsMentions(intents, steps, FitQuery, FIT, ServiceQuery, UPSELL);
  }

  // ---------------------------------------------------------------- one visit

  datatype RunStatus = SUCCESS | PARTIAL | FAILED

  /** `context`: absent, or the value written. `upsellResult`: a structured offer is present.
      `signal`: the trigger parsed out of a discovery or fit result. */
  datatype Updates = Updates(context: Option<Option<string>>, upsellResult: bool, signal: Option<string>)

  /** What invoking an agent does. `escapes`: storing its offer or parsing its signal raises, outside
      the handlers around the invocation. */
  datatype Reply =
    | Unavailable
    | DependencyError
    | ExecutionError(kind: string)
    | Returned(status: RunStatus, error: Option<string>, updates: Updates, escapes: bool)

  datatype PlanError =
    | DependencyMissing(agent: Agent)
    | AgentUnavailable(agent: Agent)
    | AgentDependencyError(agent: Agent)
    | AgentExecutionError(agent: Agent, kind: string)
    | AgentPartial(agent: Agent, text: string)
    | AgentFailed(agent: Agent, text: string)

  /** One invocation: queue position, agent and the context it saw. */
  datatype Call = Call(position: nat, agent: Agent, context: Option<string>)

  /** The locals of `_execute_plan`; `calls`, `done` and `signals` record positions as history. */
  datatype Run = Run(
    queue: seq<Agent>, index: nat, context: Option<string>, completed: seq<Agent>, errors: seq<PlanError>,
    outputs: map<Agent, Updates>, trigger: Option<string>, offers: nat, escaped: bool,
    calls: seq<Call>, done: seq<nat>, signals: seq<nat>)

  function Start(plan: seq<Agent>, context: Option<string>, trigger: Option<string>): Run {
    Run(plan, 0, context, [], [], map[], trigger, 0, false, [], [], [])
  }

  function ErrorOf(a: Agent, r: Reply): seq<PlanError> {
    match r
    case Unavailable => [AgentUnavailable(a)]
    case DependencyError => [AgentDependencyError(a)]
    case ExecutionError(kind) => [AgentExecutionError(a, kind)]
    case Returned(status, error, _, _) =>
      if status == SUCCESS || error.None? || error.value == "" then []
      else if status == PARTIAL then [AgentPartial(a, error.value)] else [AgentFailed(a, error.value)]
  }

  predicate Stores(a: Agent, u: Updates) {
    a == UPSELL && u.upsellResult
  }

  predicate Signals(a: Agent, u: Updates) {
    (a == DISCOVERY || a == FIT) && u.signal.Some?
  }

  /** One loop iteration. */
  function Visit(s: Run, r: Reply): Run
    requires s.index < |s.queue|
  {
    var a, at := s.queue[s.index], s.index;
    var s1 := s.(index := at + 1);
    if a != PROFILING && s.context.None? then s1.(errors := s.errors + [DependencyMissing(a)])
    else
      var s2 := s1.(calls := s.calls + [Call(at, a, s.context)], errors := s.errors + ErrorOf(a, r));
      if r.Returned? then Collect(s2, a, r) else s2
  }

  /** What a returned reply adds: completion, updates, and for an offer or a signal its routing. */
  function Collect(s: Run, a: Agent, r: Reply): Run
    requires 0 < s.index <= |s.queue| && r.Returned?
  {
    var s1 := s.(
      completed := if r.status == SUCCESS then s.completed + [a] else s.completed,
      done := if r.status == SUCCESS then s.done + [s.index - 1] else s.done,
      context := if r.updates.context.Some? then r.updates.context.value else s.context,
      outputs := s.outputs[a := r.updates]);
    if r.escapes && (Stores(a, r.updates) || a == DISCOVERY || a == FIT) then s1.(escaped := true)
    else if Stores(a, r.updates) then s1.(offers := s.offers + 1)
    else if Signals(a, r.updates) then Route(s1, r.updates.signal)
    else s1
  }

  /** A specialist's signal: remember the trigger, and queue an upsell visit unless one is due or done. */
  function Route(s: Run, signal: Option<string>): Run
    requires 0 < s.index <= |s.queue|
  {
    s.(trigger := signal, signals := s.signals + [s.index - 1],
       queue := if UPSELL !in s.queue[s.index..] && UPSELL !in s.completed then s.queue + [UPSELL] else s.queue)
  }

  // ---------------------------------------------------------------- the whole run

  /** A visit pays for itself and for the one upsell visit a specialist may add. */
  function Weight(queue: seq<Agent>): nat {
    if queue == [] then 0
    else (if queue[0] == DISCOVERY || queue[0] == FIT then 2 else 1) + Weight(queue[1..])
  }

  lemma {:induction false} WeightAppend(queue: seq<Agent>)
    ensures Weight(queue + [UPSELL]) == Weight(queue) + 1
    decreases |queue|
  {
    if queue == [] {
      assert queue + [UPSELL] == [UPSELL];
    } else {
      assert (queue + [UPSELL])[1..] == queue[1..] + [UPSELL];
      WeightAppend(queue[1..]);
    }
  }

  function Remaining(s: Run): nat {
    if s.index <= |s.queue| then Weight(s.queue[s.index..]) else 0
  }

  lemma VisitQueue(s: Run, r: Reply)
    requires s.index < |s.queue|
    ensures
      var a, s' := s.queue[s.index], Visit(s, r);
      && s'.index == s.index + 1
      && (s'.queue == s.queue || (s'.queue == s.queue + [UPSELL] && (a == DISCOVERY || a == FIT)))
  {
  }

  lemma WeightNext(queue: seq<Agent>, index: nat)
    requires index < |queue|
    ensures
      var rest := queue[index + 1..];
      && Weight(queue[index..]) == Weight(rest) + (if queue[index] == DISCOVERY || queue[index] == FIT then 2 else 1)
      && Weight((queue + [UPSELL])[index + 1..]) == Weight(rest) + 1
  {
    var rest := queue[index + 1..];
    assert queue[index..][1..] == rest;
    WeightAppend(rest);
    assert (queue + [UPSELL])[index + 1..] == rest + [UPSELL];
  }

  lemma VisitShrinks(s: Run, r: Reply)
    requires s.index < |s.queue|
    ensures Remaining(Visit(s, r)) < Remaining(s)
  {
    VisitQueue(s, r);
    WeightNext(s.queue, s.index);
  }

  predicate Over(s: Run) {
    s.escaped || s.index >= |s.queue|
  }

  /** The loop to its end, for any replies by queue position. */
  function Finish(s: Run, reply: nat -> Reply): Run
    decreases Remaining(s)
  {
    if Over(s) then s
    else
      VisitShrinks(s, reply(s.index));
      Finish(Visit(s, reply(s.index)), reply)
  }

  /** What the graph state is updated with; the plan only when it grew, the trigger only when routed. */
  datatype Update = Update(
    completed: seq<Agent>, errors: seq<PlanError>, outputs: map<Agent, Updates>, context: Option<string>,
    plan: Option<seq<Agent>>, trigger: Option<string>)

  /** Collects a returned reply, and routes its signal. */
  method CollectReply(s: Run, a: Agent, r: Reply) returns (next: Run)
    requires 0 < s.index <= |s.queue| && r.Returned?
    ensures next == Collect(s, a, r)
  {
    next := s;
    if r.status == SUCCESS {
      next := next.(completed := s.completed + [a], done := s.done + [s.index - 1]);
    }
    if r.updates.context.Some? {
      next := next.(context := r.updates.context.value);
    }
    next := next.(outputs := s.outputs[a := r.updates]);
    if r.escapes && (Stores(a, r.updates) || a == DISCOVERY || a == FIT) {
      return next.(escaped := true);
    }
    if Stores(a, r.updates) {
      next := next.(offers := s.offers + 1);
    }
    if Signals(a, r.updates) {
      next := next.(trigger := r.updates.signal, signals := s.signals + [s.index - 1]);
      if UPSELL !in s.queue[s.index..] && UPSELL !in next.completed {
        next := next.(queue := s.queue + [UPSELL]);
      }
    }
  }

  /** The body of the loop: check the dependency, invoke, collect. */
  method VisitAgent(s: Run, r: Reply) returns (next: Run)
    requires s.index < |s.queue|
    ensures next == Visit(s, r)
  {
    var a := s.queue[s.index];
    next := s.(index := s.index + 1);
    if a != PROFILING && s.context.None? {
      return next.(errors := s.errors + [DependencyMissing(a)]);
    }
    next := next.(calls := s.calls + [Call(s.index, a, s.context)], errors := s.errors + ErrorOf(a, r));
    if r.Returned? {
      next := CollectReply(next, a, r);
    }
  }

  /** `_execute_plan`. None when an exception escapes the loop. */
  method ExecutePlan(plan: seq<Agent>, context: Option<string>, trigger: Option<string>, reply: nat -> Reply)
    returns (r: Option<Update>)
    ensures
      var end := Finish(Start(plan, context, trigger), reply);
      && (r.None? <==> end.escaped)
      && (r.Some? ==>
            && r.value.completed == end.completed && r.value.errors == end.errors
            && r.value.outputs == end.outputs && r.value.context == end.context
            && r.value.plan == (if end.queue == plan then None else Some(end.queue))
            && r.value.trigger == (if end.signals == [] then None else end.trigger))
  {
    var working := Start(plan, context, trigger);
    while working.index < |working.queue| && !working.escaped
      invariant Finish(working, reply) == Finish(Start(plan, context, trigger), reply)
      decreases Remaining(working)
    {
      VisitShrinks(working, reply(working.index));
      working := VisitAgent(working, reply(working.index));
    }
    if working.escaped {
      return None;
    }
    r := Some(Update(working.completed, working.errors, working.outputs, working.context,
      if working.queue != plan then Some(working.queue) else None,
      if working.signals != [] then working.trigger else None));
  }

  // ---------------------------------------------------------------- what every run keeps

  ghost predicate Bounded(plan: seq<Agent>, s: Run) {
    (s.queue == plan || s.queue == plan + [UPSELL]) && s.index <= |s.queue|
  }

  /** The completed agents are those at increasing visited positions of the queue. */
  ghost predicate InOrder(s: Run) {
    && |s.completed| == |s.done|
    && (forall i :: 0 <= i < |s.done| ==>
      s.done[i] < s.index && s.done[i] < |s.queue| && s.completed[i] == s.queue[s.done[i]])
    && (forall i, j :: 0 <= i < j < |s.done| ==> s.done[i] < s.done[j])
  }

  /** An added upsell visit is the only one that can complete. */
  ghost predicate AddedOnce(plan: seq<Agent>, s: Run) {
    |s.queue| > |plan| ==>
      forall k :: 0 <= k < |plan| && plan[k] == UPSELL ==> k < s.index && k !in s.done
  }

  /** No upsell visit was due after this signal, and none had completed before it. */
  ghost predicate Unserved(plan: seq<Agent>, s: Run, i: nat) {
    && i in s.signals && i < |plan| && UPSELL !in plan[i + 1..]
    && forall d :: d in s.done && d < i ==> d < |plan| && plan[d] != UPSELL
  }

  ghost predicate GrownIff(plan: seq<Agent>, s: Run) {
    && (forall i :: i in s.signals ==> i < s.index && i < |plan|)
    && (|s.queue| > |plan| <==> exists i: nat :: Unserved(plan, s, i))
  }

  ghost predicate CallsReady(s: Run) {
    && (forall i :: 0 <= i < |s.calls| ==>
          && s.calls[i].position < s.index <= |s.queue| && s.calls[i].agent == s.queue[s.calls[i].position]
          && (s.calls[i].agent != PROFILING ==> s.calls[i].context.Some?))
    && (forall i, j :: 0 <= i < j < |s.calls| ==> s.calls[i].position < s.calls[j].position)
  }

  /** Every visited position completed, or left the error its reply asks for. */
  ghost predicate NothingLost(s: Run, reply: nat -> Reply) {
    && |s.completed| + |s.errors| <= s.index <= |s.queue|
    && forall p: nat :: p < s.index ==>
         || p in s.done || DependencyMissing(s.queue[p]) in s.errors
         || (forall e :: e in ErrorOf(s.queue[p], reply(p)) ==> e in s.errors)
  }

  ghost predicate Inv(plan: seq<Agent>, s: Run, reply: nat -> Reply) {
    && Bounded(plan, s) && InOrder(s) && AddedOnce(plan, s) && GrownIff(plan, s) && CallsReady(s)
    && NothingLost(s, reply)
  }

  /** How one visit moves the queue and the histories. */
  ghost predicate Moved(s: Run, s': Run) {
    && s.index < |s.queue| && s'.index == s.index + 1
    && (|| (s'.done == s.done && s'.completed == s.completed)
        || (s'.done == s.done + [s.index] && s'.completed == s.completed + [s.queue[s.index]]))
    && (|| (s'.signals == s.signals && s'.queue == s.queue)
        || (&& s'.signals == s.signals + [s.index] && s.queue[s.index] != UPSELL
            && s'.queue ==
               if UPSELL !in s.queue[s.index + 1..] && UPSELL !in s'.completed then s.queue + [UPSELL] else s.queue))
  }

  lemma VisitMoves(s: Run, r: Reply)
    requires s.index < |s.queue|
    ensures Moved(s, Visit(s, r))
  {
  }

  lemma MovedBounded(plan: seq<Agent>, s: Run, s': Run)
    requires Bounded(plan, s) && Moved(s, s')
    ensures Bounded(plan, s')
  {
    if s.queue == plan + [UPSELL] && s.index < |plan| {
      assert s.queue[s.index + 1..][|plan| - s.index - 1] == UPSELL;
    }
  }

  lemma MovedInOrder(s: Run, s': Run)
    requires InOrder(s) && Moved(s, s')
    ensures InOrder(s')
  {
    assert forall p :: 0 <= p < |s.queue| ==> s'.queue[p] == s.queue[p];
  }

  lemma MovedAddedOnce(plan: seq<Agent>, s: Run, s': Run)
    requires Bounded(plan, s) && InOrder(s') && AddedOnce(plan, s) && Moved(s, s')
    ensures AddedOnce(plan, s')
  {
    if |s'.queue| > |s.queue| == |plan| {
      forall k | s'.index <= k < |plan| ensures plan[k] in plan[s'.index..] {
        assert plan[s'.index..][k - s'.index] == plan[k];
      }
      assert forall i :: 0 <= i < |s'.done| ==> s'.completed[i] in s'.completed;
    }
  }

  lemma MovedGrown(plan: seq<Agent>, s: Run, s': Run)
    requires Bounded(plan, s) && InOrder(s') && AddedOnce(plan, s) && GrownIff(plan, s) && Moved(s, s')
    ensures GrownIff(plan, s')
  {
    var at := s.index;
    forall i: nat | i != at ensures Unserved(plan, s', i) == Unserved(plan, s, i) {
    }
    if s'.signals != s.signals {
      assert at < |plan|;
      if |s.queue| > |plan| {
        assert s.queue[at + 1..][|plan| - at - 1] == UPSELL;
        var i: nat :| Unserved(plan, s, i);
        assert Unserved(plan, s', i);
      } else {
        UnservedNow(plan, s, s');
      }
    }
  }

  lemma UnservedNow(plan: seq<Agent>, s: Run, s': Run)
    requires Bounded(plan, s) && InOrder(s') && Moved(s, s') && s'.signals != s.signals && s.index < |plan|
    requires |s.queue| == |plan|
    ensures Unserved(plan, s', s.index) <==> |s'.queue| > |plan|
  {
    forall d | d in s'.done && d < s.index ensures plan[d] in s'.completed {
      var i :| 0 <= i < |s'.done| && s'.done[i] == d;
      assert s'.completed[i] == plan[d];
    }
    if UPSELL in s'.completed {
      var i :| 0 <= i < |s'.completed| && s'.completed[i] == UPSELL;
      assert s'.done[i] in s'.done;
    }
  }

  /** A visit calls the agent, once, exactly when it is profiling or a context is there. */
  lemma VisitCalls(s: Run, r: Reply)
    requires s.index < |s.queue|
    ensures Visit(s, r).calls ==
      if s.queue[s.index] != PROFILING && s.context.None? then s.calls
      else s.calls + [Call(s.index, s.queue[s.index], s.context)]
  {
  }

  lemma MovedCallsReady(s: Run, s': Run)
    requires CallsReady(s) && Moved(s, s')
    requires
      s'.calls == if s.queue[s.index] != PROFILING && s.context.None? then s.calls
                  else s.calls + [Call(s.index, s.queue[s.index], s.context)]
    ensures CallsReady(s')
  {
    assert forall p :: 0 <= p < |s.queue| ==> s'.queue[p] == s.queue[p];
  }

  /** A visit completes the agent or adds the errors of its reply; it takes no error away. */
  lemma VisitErrors(s: Run, r: Reply)
    requires s.index < |s.queue|
    ensures
      var a, s' := s.queue[s.index], Visit(s, r);
      || (s'.errors == s.errors + [DependencyMissing(a)] && s'.completed == s.completed && s'.done == s.done)
      || (s'.errors == s.errors && s'.completed == s.completed + [a] && s'.done == s.done + [s.index])
      || (s'.errors == s.errors + ErrorOf(a, r) && |ErrorOf(a, r)| <= 1 && s'.completed == s.completed &&
        s'.done == s.done)
  {
  }

  lemma NothingLostOn(s: Run, s': Run, reply: nat -> Reply)
    requires NothingLost(s, reply) && Moved(s, s')
    requires
      var a, r := s.queue[s.index], reply(s.index);
      || (s'.errors == s.errors + [DependencyMissing(a)] && s'.completed == s.completed && s'.done == s.done)
      || (s'.errors == s.errors && s'.completed == s.completed + [a] && s'.done == s.done + [s.index])
      || (s'.errors == s.errors + ErrorOf(a, r) && |ErrorOf(a, r)| <= 1 && s'.completed == s.completed &&
        s'.done == s.done)
    ensures NothingLost(s', reply)
  {
    assert forall p: nat :: p < |s.queue| ==> s'.queue[p] == s.queue[p];
    assert forall e :: e in s.errors ==> e in s'.errors;
    assert forall d :: d in s.done ==> d in s'.done;
  }

  lemma VisitNothingLost(s: Run, s': Run, reply: nat -> Reply)
    requires NothingLost(s, reply) && s.index < |s.queue| && s' == Visit(s, reply(s.index))
    ensures NothingLost(s', reply)
  {
    VisitErrors(s, reply(s.index));
    VisitMoves(s, reply(s.index));
    NothingLostOn(s, s', reply);
  }

  lemma VisitKeepsInv(plan: seq<Agent>, s: Run, reply: nat -> Reply)
    requires Inv(plan, s, reply) && s.index < |s.queue|
    ensures Inv(plan, Visit(s, reply(s.index)), reply)
  {
    var s' := Visit(s, reply(s.index));
    VisitMoves(s, reply(s.index));
    MovedBounded(plan, s, s');
    MovedInOrder(s, s');
    MovedAddedOnce(plan, s, s');
    MovedGrown(plan, s, s');
    VisitCalls(s, reply(s.index));
    MovedCallsReady(s, s');
    VisitNothingLost(s, s', reply);
  }

  lemma {:induction false} FinishKeepsInv(plan: seq<Agent>, s: Run, reply: nat -> Reply)
    requires Inv(plan, s, reply)
    ensures Inv(plan, Finish(s, reply), reply) && Over(Finish(s, reply))
    decreases Remaining(s)
  {
    if !Over(s) {
      VisitShrinks(s, reply(s.index));
      VisitKeepsInv(plan, s, reply);
      FinishKeepsInv(plan, Visit(s, reply(s.index)), reply);
    }
  }

  lemma EveryRun(plan: seq<Agent>, context: Option<string>, trigger: Option<string>, reply: nat -> Reply)
    ensures
      var end := Finish(Start(plan, context, trigger), reply);
      Inv(plan, end, reply) && Over(end)
  {
    var s := Start(plan, context, trigger);
    assert forall i: nat :: !Unserved(plan, s, i);
    FinishKeepsInv(plan, s, reply);
  }

  /** For every plan and every pattern of failures and signals the loop ends with the plan, or the
      plan and one upsell visit; it grew exactly when some specialist's signal had no upsell visit
      ahead of it and none completed before it. */
  lemma PlanIsBounded(plan: seq<Agent>, context: Option<string>, trigger: Option<string>, reply: nat -> Reply)
    ensures
      var end := Finish(Start(plan, context, trigger), reply);
      && (end.queue == plan || end.queue == plan + [UPSELL])
      && (end.queue == plan + [UPSELL] <==> exists i: nat :: Unserved(plan, end, i))
      && (!end.escaped ==> end.index == |end.queue|)
  {
    EveryRun(plan, context, trigger, reply);
    var end := Finish(Start(plan, context, trigger), reply);
    assert |plan + [UPSELL]| == |plan| + 1;
  }

  /** No signal is dropped: an upsell visit follows it, or one had completed before it. */
  lemma SignalsAreServed(
    plan: seq<Agent>, context: Option<string>, trigger: Option<string>, reply: nat -> Reply, i: nat)
    requires i in Finish(Start(plan, context, trigger), reply).signals
    ensures
      var end := Finish(Start(plan, context, trigger), reply);
      || (exists k :: i < k < |end.queue| && end.queue[k] == UPSELL)
      || (exists d :: d in end.done && d < i && d < |end.queue| && end.queue[d] == UPSELL)
  {
    EveryRun(plan, context, trigger, reply);
    var end := Finish(Start(plan, context, trigger), reply);
    if end.queue == plan + [UPSELL] {
      assert end.queue[|plan|] == UPSELL;
    } else {
      assert !Unserved(plan, end, i);
      if UPSELL in plan[i + 1..] {
        var k :| 0 <= k < |plan[i + 1..]| && plan[i + 1..][k] == UPSELL;
        assert end.queue[i + 1 + k] == UPSELL;
      }
    }
  }

  /** Completed agents are visited positions of the queue in order, without duplicates when the plan
      has none; only profiling is ever invoked without a customer context; nothing is lost. */
  lemma RunIsAccounted(plan: seq<Agent>, context: Option<string>, trigger: Option<string>, reply: nat -> Reply)
    ensures
      var end := Finish(Start(plan, context, trigger), reply);
      && InOrder(end) && CallsReady(end) && NothingLost(end, reply)
      && (Distinct(plan) ==> Distinct(end.completed))
  {
    EveryRun(plan, context, trigger, reply);
    var end := Finish(Start(plan, context, trigger), reply);
    if Distinct(plan) {
      forall i, j | 0 <= i < j < |end.completed| ensures end.completed[i] != end.completed[j] {
        assert end.done[i] < end.done[j] && end.done[i] in end.done;
      }
    }
  }
}
