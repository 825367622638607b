/** What the run of a plan leaves behind, as a function of the calls it made and the replies it got. */
module PlanAnswers {
  import opened Basics
  import opened PlanExecutor

  // ---------------------------------------------------------------- one visit

  /** The error line of a reply, if it leaves one. */
  ghost function Complaint(a: Agent, r: Reply): seq<PlanError> {
    match r
    case Unavailable => [AgentUnavailable(a)]
    case DependencyError => [AgentDependencyError(a)]
    case ExecutionError(kind) => [AgentExecutionError(a, kind)]
    case Returned(SUCCESS, _, _, _) => []
    case Returned(PARTIAL, error, _, _) =>
      if error.Some? && error.value != "" then [AgentPartial(a, error.value)] else []
    case Returned(FAILED, error, _, _) =>
      if error.Some? && error.value != "" then [AgentFailed(a, error.value)] else []
  }

  ghost predicate Skips(s: Run)
    requires s.index < |s.queue|
  {
    s.queue[s.index] != PROFILING && s.context.None?
  }

  /** A reply that did not return changes nothing but the errors. */
  ghost predicate OnlyErrors(s: Run, s': Run) {
    && s'.completed == s.completed && s'.context == s.context && s'.outputs == s.outputs
    && s'.trigger == s.trigger && s'.offers == s.offers && s'.escaped == s.escaped && s'.queue == s.queue
    && s'.signals == s.signals
  }

  /** What a returned reply writes: completion on success only, its updates always. */
  ghost predicate Writes(s: Run, r: Reply, s': Run)
    requires s.index < |s.queue| && r.Returned?
  {
    var a := s.queue[s.index];
    && s'.completed == (if r.status == SUCCESS then s.completed + [a] else s.completed)
    && s'.context == (if r.updates.context.Some? then r.updates.context.value else s.context)
    && s'.outputs == s.outputs[a := r.updates]
  }

  /** Which agents' replies may raise while they are collected: an offer's, or a specialist's. */
  ghost predicate Breaks(a: Agent, r: Reply)
    requires r.Returned?
  {
    r.escapes && (a in {DISCOVERY, FIT} || (a == UPSELL && r.updates.upsellResult))
  }

  /** A reply that raised while it was collected ends the run and sets nothing off. */
  ghost predicate Broken(s: Run, s': Run) {
    s'.escaped && s'.offers == s.offers && s'.trigger == s.trigger && s'.signals == s.signals && s'.queue == s.queue
  }

  /** What a collected reply sets off: an offer of the upsell agent is stored, and a specialist's signal becomes the
      trigger and queues an upsell visit if none is due and none has completed. */
  ghost predicate SetsOff(s: Run, r: Reply, s': Run)
    requires s.index < |s.queue| && r.Returned?
  {
    var a := s.queue[s.index];
    var signals := a in {DISCOVERY, FIT} && r.updates.signal.Some?;
    && !s'.escaped
    && s'.offers == (if a == UPSELL && r.updates.upsellResult then s.offers + 1 else s.offers)
    && s'.trigger == (if signals then r.updates.signal else s.trigger)
    && s'.signals == (if signals then s.signals + [s.index] else s.signals)
    && s'.queue == if signals && UPSELL !in s.queue[s.index + 1..] && UPSELL !in s'.completed
                   then s.queue + [UPSELL] else s.queue
  }

  /** One visit: an agent without its context is passed over with an error; otherwise it is called with the
      context, its complaint noted, and what it returned collected. */
  lemma VisitSays(s: Run, r: Reply)
    requires s.index < |s.queue| && !s.escaped
    ensures
      var a, s' := s.queue[s.index], Visit(s, r);
      && s'.index == s.index + 1
      && (Skips(s) ==> OnlyErrors(s, s') && s'.calls == s.calls && s'.errors == s.errors + [DependencyMissing(a)])
      && (!Skips(s) ==>
            && s'.calls == s.calls + [Call(s.index, a, s.context)]
            && s'.errors == s.errors + Complaint(a, r)
            && (!r.Returned? ==> OnlyErrors(s, s'))
            && (r.Returned? ==> Writes(s, r, s') && if Breaks(a, r) then Broken(s, s') else SetsOff(s, r, s')))
  {
    ComplaintIs(s.queue[s.index], r);
    if !Skips(s) && r.Returned? {
      CollectWrites(s, r);
    }
  }

  lemma ComplaintIs(a: Agent, r: Reply)
    ensures ErrorOf(a, r) == Complaint(a, r)
  {
  }

  lemma CollectWrites(s: Run, r: Reply)
    requires s.index < |s.queue| && !s.escaped && !Skips(s) && r.Returned?
    ensures Writes(s, r, Visit(s, r))
    ensures if Breaks(s.queue[s.index], r) then Broken(s, Visit(s, r)) else SetsOff(s, r, Visit(s, r))
  {
  }

  // ---------------------------------------------------------------- the whole run

  /** The context as the calls left it: what the last reply that wrote one wrote. */
  ghost function LastContext(calls: seq<Call>, start: Option<string>, reply: nat -> Reply): Option<string> {
    if calls == [] then start
    else
      var r := reply(calls[|calls| - 1].position);
      if r.Returned? && r.updates.context.Some? then r.updates.context.value
      else LastContext(calls[..|calls| - 1], start, reply)
  }

  /** The output kept for each agent: the updates of its last reply that returned. */
  ghost function LastOutputs(calls: seq<Call>, reply: nat -> Reply): map<Agent, Updates> {
    if calls == [] then map[]
    else
      var call, before := calls[|calls| - 1], LastOutputs(calls[..|calls| - 1], reply);
      if reply(call.position).Returned? then before[call.agent := reply(call.position).updates] else before
  }

  /** The trigger: the last signal a specialist gave. */
  ghost function LastSignal(calls: seq<Call>, start: Option<string>, reply: nat -> Reply): Option<string> {
    if calls == [] then start
    else
      var call, r := calls[|calls| - 1], reply(calls[|calls| - 1].position);
      if call.agent in {DISCOVERY, FIT} && r.Returned? && !r.escapes && r.updates.signal.Some? then r.updates.signal
      else LastSignal(calls[..|calls| - 1], start, reply)
  }

  /** The errors of the first n visits: a missing dependency where no call was made, and else the complaint. */
  ghost function Faults(queue: seq<Agent>, calls: seq<Call>, reply: nat -> Reply, n: nat): seq<PlanError>
    requires n <= |queue|
  {
    if n == 0 then []
    else
      Faults(queue, calls, reply, n - 1) +
      if exists i :: 0 <= i < |calls| && calls[i].position == n - 1 then Complaint(queue[n - 1], reply(n - 1))
      else [DependencyMissing(queue[n - 1])]
  }

  /** The context is the latest written, for the run and for each call at its time. */
  ghost predicate ContextLatest(s: Run, start: Option<string>, reply: nat -> Reply) {
    && s.context == LastContext(s.calls, start, reply)
    && forall i :: 0 <= i < |s.calls| ==> s.calls[i].context == LastContext(s.calls[..i], start, reply)
  }

  /** The errors are those of the visits made, each call of which was made at its own position. */
  ghost predicate ErrorsAre(s: Run, reply: nat -> Reply) {
    && s.index <= |s.queue| && s.errors == Faults(s.queue, s.calls, reply, s.index)
    && forall i :: 0 <= i < |s.calls| ==> s.calls[i].position < s.index
  }

  ghost predicate FollowsCalls(s: Run, start: Option<string>, trigger: Option<string>, reply: nat -> Reply) {
    && ContextLatest(s, start, reply) && s.outputs == LastOutputs(s.calls, reply)
    && s.trigger == LastSignal(s.calls, trigger, reply) && ErrorsAre(s, reply)
  }

  lemma CallAppended(
    calls: seq<Call>, call: Call, start: Option<string>, trigger: Option<string>, reply: nat -> Reply)
    ensures
      var r := reply(call.position);
      && LastContext(calls + [call], start, reply) ==
         (if r.Returned? && r.updates.context.Some? then r.updates.context.value else LastContext(calls, start, reply))
      && LastOutputs(calls + [call], reply) ==
         (if r.Returned? then LastOutputs(calls, reply)[call.agent := r.updates] else LastOutputs(calls, reply))
      && LastSignal(calls + [call], trigger, reply) ==
         if call.agent in {DISCOVERY, FIT} && r.Returned? && !r.escapes && r.updates.signal.Some? then r.updates.signal
         else LastSignal(calls, trigger, reply)
  {
    assert (calls + [call])[..|calls|] == calls;
  }

  /** A longer queue and later calls do not change the faults of the visits before. */
  lemma {:induction false} FaultsStay(
    queue: seq<Agent>, calls: seq<Call>, queue': seq<Agent>, calls': seq<Call>, reply: nat -> Reply, n: nat)
    requires n <= |queue| && queue <= queue' && calls <= calls'
    requires forall i :: |calls| <= i < |calls'| ==> calls'[i].position >= n
    ensures Faults(queue, calls, reply, n) == Faults(queue', calls', reply, n)
    decreases n
  {
    if n > 0 {
      FaultsStay(queue, calls, queue', calls', reply, n - 1);
      assert forall i :: 0 <= i < |calls| ==> calls'[i] == calls[i];
    }
  }

  lemma VisitErrorsAre(s: Run, reply: nat -> Reply)
    requires s.index < |s.queue| && !s.escaped && ErrorsAre(s, reply)
    ensures ErrorsAre(Visit(s, reply(s.index)), reply)
  {
    var s' := Visit(s, reply(s.index));
    VisitSays(s, reply(s.index));
    VisitQueue(s, reply(s.index));
    FaultsStay(s.queue, s.calls, s'.queue, s'.calls, reply, s.index);
    assert s'.queue[s.index] == s.queue[s.index];
    if !Skips(s) {
      assert s'.calls[|s.calls|].position == s.index;
    }
  }

  lemma VisitFollows(s: Run, start: Option<string>, trigger: Option<string>, reply: nat -> Reply)
    requires s.index < |s.queue| && !s.escaped && FollowsCalls(s, start, trigger, reply)
    ensures FollowsCalls(Visit(s, reply(s.index)), start, trigger, reply)
  {
    var r := reply(s.index);
    var s' := Visit(s, r);
    VisitSays(s, r);
    VisitErrorsAre(s, reply);
    if !Skips(s) {
      var call := Call(s.index, s.queue[s.index], s.context);
      CallAppended(s.calls, call, start, trigger, reply);
      forall i | 0 <= i < |s'.calls| ensures s'.calls[i].context == LastContext(s'.calls[..i], start, reply) {
        assert i < |s.calls| ==> s'.calls[..i] == s.calls[..i];
        assert i == |s.calls| ==> s'.calls[..i] == s.calls;
      }
    }
  }

  lemma {:induction false} FinishFollows(
    s: Run, start: Option<string>, trigger: Option<string>, reply: nat -> Reply)
    requires FollowsCalls(s, start, trigger, reply)
    ensures FollowsCalls(Finish(s, reply), start, trigger, reply)
    decreases Remaining(s)
  {
    if !Over(s) {
      VisitShrinks(s, reply(s.index));
      VisitFollows(s, start, trigger, reply);
      FinishFollows(Visit(s, reply(s.index)), start, trigger, reply);
    }
  }

  /** Over every run each agent is called with the latest context written before it; and the run ends with the
      latest context, for each agent the updates it last returned, the last signal, and the errors of its visits. */
  lemma RunFollowsItsCalls(plan: seq<Agent>, context: Option<string>, trigger: Option<string>, reply: nat -> Reply)
    ensures FollowsCalls(Finish(Start(plan, context, trigger), reply), context, trigger, reply)
  {
    FinishFollows(Start(plan, context, trigger), context, trigger, reply);
  }
}
