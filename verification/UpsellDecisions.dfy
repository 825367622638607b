/** Durable upsell decisions and the claim, complete and abort protocol of customer responses. */
module UpsellDecisions {
  import opened Basics

  type Response = string

  datatype EventType = Accepted | Declined | Dismissed
  datatype DecisionStatus = PENDING | Resolved(response: EventType)
  datatype EventStatus = PROCESSING | COMPLETED | FAILED

  datatype Decision = Decision(
    customerId: string, sessionId: string, offerType: string, triggerType: string, status: DecisionStatus,
    result: string, source: Option<string>, trace: Option<string>)

  datatype Fingerprint = Fingerprint(decisionId: string, customerId: string, sessionId: string, eventType: EventType)

  datatype EventRow = EventRow(fingerprint: Fingerprint, status: EventStatus, response: Option<Response>)

  datatype Tables = Tables(decisions: map<string, Decision>, events: map<string, EventRow>)

  datatype OfferResult = OfferResult(
    available: bool, offerType: Option<string>, triggerType: Option<string>, decisionId: Option<string>, body: string)

  datatype DecisionError =
    | DecisionNotFound | IdempotencyConflict | InProgress | AlreadyResolved | CustomerMismatch | IntegrityError

  // ---------------------------------------------------------------- transactions

  predicate Actionable(r: OfferResult) {
    r.available && r.offerType.Some? && r.triggerType.Some? && r.decisionId.Some?
  }

  function WithSource(decisions: map<string, Decision>, source: Option<string>): set<string> {
    set id | id in decisions && decisions[id].source == source
  }

  /** The row an offer is stored in: its own id, or the decision its source event already has. */
  ghost function Locate(decisions: map<string, Decision>, id: string, source: Option<string>): Option<string> {
    if id in decisions then Some(id)
    else if Given(source) && WithSource(decisions, source) != {} then
      var found :| found in WithSource(decisions, source);
      Some(found)
    else None
  }

  function Refreshed(d: Decision, body: string, source: Option<string>, trace: Option<string>): Decision {
    d.(result := body,
       source := if Given(source) && d.source.None? then source else d.source,
       trace := if Given(trace) && d.trace.None? then trace else d.trace)
  }

  /** No other row holds this source event. */
  predicate SourceFree(decisions: map<string, Decision>, id: string, source: Option<string>) {
    source.Some? ==> WithSource(decisions, source) <= {id}
  }

  /** `record_decision`; an error rolls back. The value is the id of the row written, if any. */
  ghost function RecordDecision(
    t: Tables, customerId: string, sessionId: string, r: OfferResult, source: Option<string>, trace: Option<string>)
    : Result<(Tables, Option<string>), DecisionError>
  {
    if !Actionable(r) then Ok((t, None))
    else
      match Locate(t.decisions, r.decisionId.value, source)
      case None =>
        var id := r.decisionId.value;
        var row := Decision(customerId, sessionId, r.offerType.value, r.triggerType.value, PENDING, r.body, source,
          trace);
        if !SourceFree(t.decisions, id, source) then Err(IntegrityError)
        else Ok((t.(decisions := t.decisions[id := row]), Some(id)))
      case Some(id) =>
        var row := Refreshed(t.decisions[id], r.body, source, trace);
        if t.decisions[id].customerId != customerId then Err(CustomerMismatch)
        else if !SourceFree(t.decisions, id, row.source) then Err(IntegrityError)
        else Ok((t.(decisions := t.decisions[id := row]), Some(id)))
  }

  /** `claim_decision_event`: the replayed answer, or None once the key is claimed. */
  function Claim(t: Tables, f: Fingerprint, key: string): Result<(Tables, Option<Response>), DecisionError> {
    if f.decisionId !in t.decisions then Err(DecisionNotFound)
    else
      var d := t.decisions[f.decisionId];
      if d.customerId != f.customerId || d.sessionId != f.sessionId then Err(DecisionNotFound)
      else if key in t.events then
        var e := t.events[key];
        if e.fingerprint != f then Err(IdempotencyConflict)
        else if e.status == COMPLETED && e.response.Some? then Ok((t, e.response))
        else if e.status == PROCESSING then Err(InProgress)
        else Ok((t.(events := t.events[key := e.(status := PROCESSING)]), None))
      else if d.status != PENDING then Err(AlreadyResolved)
      else Ok((t.(events := t.events[key := EventRow(f, PROCESSING, None)]), None))
  }

  function Complete(t: Tables, decisionId: string, key: string, eventType: EventType, response: Response)
    : Result<Tables, DecisionError>
  {
    if key !in t.events || decisionId !in t.decisions then Err(DecisionNotFound)
    else
      Ok(Tables(
        t.decisions[decisionId := t.decisions[decisionId].(status := Resolved(eventType))],
        t.events[key := t.events[key].(status := COMPLETED, response := Some(response))]))
  }

  function Abort(t: Tables, key: string): Tables {
    if key in t.events && t.events[key].status == PROCESSING then
      t.(events := t.events[key := t.events[key].(status := FAILED)])
    else t
  }

  // ---------------------------------------------------------------- requests in flight

  /** What one response request holds between its claim and its completion or abort. */
  datatype Held = Held(key: string, fingerprint: Fingerprint)

  datatype Completion = Completion(decisionId: string, key: string, eventType: EventType)

  /** `log` lists the completions that were committed, oldest first. */
  datatype State = State(t: Tables, held: map<nat, Held>, log: seq<Completion>)

  datatype Label =
    | Offer(customerId: string, sessionId: string, r: OfferResult, source: Option<string>, trace: Option<string>)
    | Ask(request: nat, fingerprint: Fingerprint, key: string)
    | Finish(request: nat, response: Response)
    | GiveUp(request: nat)
    | Vanish(request: nat)

  const EMPTY := State(Tables(map[], map[]), map[], [])

  /** `Ask` opens a request, `Finish` and `GiveUp` end it, `Vanish` is a crash or a cancellation. */
  ghost function Step(s: State, l: Label): State {
    match l
    case Offer(customerId, sessionId, r, source, trace) =>
      (match RecordDecision(s.t, customerId, sessionId, r, source, trace)
       case Ok(pair) => s.(t := pair.0)
       case Err(_) => s)
    case Ask(request, f, key) =>
      if request in s.held then s
      else
        (match Claim(s.t, f, key)
         case Ok(pair) => if pair.1.None? then s.(t := pair.0, held := s.held[request := Held(key, f)]) else s
         case Err(_) => s)
    case Finish(request, response) =>
      if request !in s.held then s
      else
        var h := s.held[request];
        (match Complete(s.t, h.fingerprint.decisionId, h.key, h.fingerprint.eventType, response)
         case Ok(t') =>
           State(t', s.held - {request}, s.log + [Completion(h.fingerprint.decisionId, h.key, h.fingerprint.eventType)])
         case Err(_) => s)
    case GiveUp(request) =>
      if request !in s.held then s else s.(t := Abort(s.t, s.held[request].key), held := s.held - {request})
    case Vanish(request) => s.(held := s.held - {request})
  }

  ghost function Exec(s: State, labels: seq<Label>): State
    decreases |labels|
  {
    if labels == [] then s else Exec(Step(s, labels[0]), labels[1..])
  }

  // ---------------------------------------------------------------- invariant

  /** The event type of a decision's most recent completion. */
  ghost function LastCompletion(log: seq<Completion>, id: string): Option<EventType> {
    if log == [] then None
    else if log[|log| - 1].decisionId == id then Some(log[|log| - 1].eventType)
    else LastCompletion(log[..|log| - 1], id)
  }

  ghost predicate OneHolderPerKey(s: State) {
    && (forall q :: q in s.held ==>
          && s.held[q].key in s.t.events && s.t.events[s.held[q].key].status == PROCESSING
          && s.t.events[s.held[q].key].fingerprint == s.held[q].fingerprint)
    && (forall q, r :: q in s.held && r in s.held && s.held[q].key == s.held[r].key ==> q == r)
  }

  ghost predicate EventsOwned(t: Tables) {
    forall key :: key in t.events ==>
      && t.events[key].fingerprint.decisionId in t.decisions
      && t.decisions[t.events[key].fingerprint.decisionId].customerId == t.events[key].fingerprint.customerId
      && t.decisions[t.events[key].fingerprint.decisionId].sessionId == t.events[key].fingerprint.sessionId
      && (t.events[key].status == COMPLETED ==> t.events[key].response.Some?)
  }

  /** Each completed key completed once, and a decision's status is its last completion. */
  ghost predicate LogExplains(s: State) {
    && (forall i, j :: 0 <= i < j < |s.log| ==> s.log[i].key != s.log[j].key)
    && (forall i :: 0 <= i < |s.log| ==>
          s.log[i].key in s.t.events && s.t.events[s.log[i].key].status == COMPLETED)
    && (forall id :: id in s.t.decisions ==>
          s.t.decisions[id].status ==
            match LastCompletion(s.log, id) case None => PENDING case Some(eventType) => Resolved(eventType))
    && (forall i :: 0 <= i < |s.log| ==> s.log[i].decisionId in s.t.decisions)
  }

  ghost predicate UniqueSources(decisions: map<string, Decision>) {
    forall a, b :: a in decisions && b in decisions ==>
      decisions[a].source.Some? && decisions[a].source == decisions[b].source ==> a == b
  }

  ghost predicate Inv(s: State) {
    OneHolderPerKey(s) && EventsOwned(s.t) && LogExplains(s) && UniqueSources(s.t.decisions)
  }

  /** What is final: identities, sources, resolution as such, and completed events with their answers. */
  ghost predicate Extends(a: State, b: State) {
    && (forall id :: id in a.t.decisions ==>
          && id in b.t.decisions
          && b.t.decisions[id].customerId == a.t.decisions[id].customerId
          && b.t.decisions[id].sessionId == a.t.decisions[id].sessionId
          && (a.t.decisions[id].source.Some? ==> b.t.decisions[id].source == a.t.decisions[id].source)
          && (a.t.decisions[id].status != PENDING ==> b.t.decisions[id].status != PENDING))
    && (forall key :: key in a.t.events ==>
          && key in b.t.events && b.t.events[key].fingerprint == a.t.events[key].fingerprint
          && (a.t.events[key].status == COMPLETED ==> b.t.events[key] == a.t.events[key]))
  }

  lemma LogAppend(log: seq<Completion>, c: Completion, id: string)
    ensures LastCompletion(log + [c], id) == if c.decisionId == id then Some(c.eventType) else LastCompletion(log, id)
  {
    assert (log + [c])[..|log|] == log;
  }

  lemma NothingLogged(log: seq<Completion>, id: string)
    requires forall i :: 0 <= i < |log| ==> log[i].decisionId != id
    ensures LastCompletion(log, id) == None
  {
  }

  /** An offer stored or refreshed under `id`. */
  ghost predicate Stored(s: State, s': State, id: string, row: Decision) {
    && s' == s.(t := s.t.(decisions := s.t.decisions[id := row])) && SourceFree(s.t.decisions, id, row.source)
    && if id in s.t.decisions then
         var was := s.t.decisions[id];
         && row.customerId == was.customerId && row.sessionId == was.sessionId && row.status == was.status
         && (was.source.Some? ==> row.source == was.source)
       else row.status == PENDING
  }

  lemma OfferStores(s: State, l: Label) returns (id: string, row: Decision)
    requires l.Offer? && Step(s, l) != s
    ensures Stored(s, Step(s, l), id, row)
  {
    var outcome := RecordDecision(s.t, l.customerId, l.sessionId, l.r, l.source, l.trace);
    id := outcome.value.1.value;
    row := outcome.value.0.decisions[id];
  }

  lemma StoredKeepsLog(s: State, s': State, id: string, row: Decision)
    requires Stored(s, s', id, row) && LogExplains(s)
    ensures LogExplains(s')
  {
    if id !in s.t.decisions { NothingLogged(s.log, id); }
  }

  lemma StoredExtends(s: State, s': State, id: string, row: Decision)
    requires Stored(s, s', id, row)
    ensures Extends(s, s')
  {
  }

  lemma StoredKeepsUnique(s: State, s': State, id: string, row: Decision)
    requires Stored(s, s', id, row) && UniqueSources(s.t.decisions)
    ensures UniqueSources(s'.t.decisions)
  {
    forall a, b | a in s'.t.decisions && b in s'.t.decisions && s'.t.decisions[a].source.Some? &&
                  s'.t.decisions[a].source == s'.t.decisions[b].source
      ensures a == b
    {
      assert a != id && b == id ==> a in WithSource(s.t.decisions, row.source);
      assert b != id && a == id ==> b in WithSource(s.t.decisions, row.source);
    }
  }

  lemma StoredKeeps(s: State, s': State, id: string, row: Decision)
    requires Stored(s, s', id, row) && Inv(s)
    ensures Inv(s') && Extends(s, s')
  {
    StoredKeepsLog(s, s', id, row);
    StoredKeepsUnique(s, s', id, row);
    StoredExtends(s, s', id, row);
  }

  /** The key is claimed: new for a pending decision, or failed before. */
  ghost predicate Asked(s: State, s': State, q: nat, f: Fingerprint, key: string) {
    && q !in s.held && s'.held == s.held[q := Held(key, f)] && s'.log == s.log
    && s'.t.decisions == s.t.decisions && f.decisionId in s.t.decisions
    && s.t.decisions[f.decisionId].customerId == f.customerId && s.t.decisions[f.decisionId].sessionId == f.sessionId
    && (if key in s.t.events
        then s.t.events[key].fingerprint == f && s.t.events[key].status != PROCESSING &&
             !(s.t.events[key].status == COMPLETED && s.t.events[key].response.Some?)
        else s.t.decisions[f.decisionId].status == PENDING)
    && s'.t.events ==
      s.t.events[key := EventRow(f, PROCESSING, if key in s.t.events then s.t.events[key].response else None)]
  }

  lemma AskClaims(s: State, l: Label)
    requires l.Ask?
    ensures Step(s, l) == s || Asked(s, Step(s, l), l.request, l.fingerprint, l.key)
  {
  }

  lemma AskedLog(s: State, s': State, q: nat, f: Fingerprint, key: string)
    requires Asked(s, s', q, f, key) && LogExplains(s) && EventsOwned(s.t)
    ensures LogExplains(s')
  {
    forall i | 0 <= i < |s.log| ensures s.log[i].key != key {
    }
  }

  lemma AskedHolds(s: State, s': State, q: nat, f: Fingerprint, key: string)
    requires Asked(s, s', q, f, key) && OneHolderPerKey(s)
    ensures OneHolderPerKey(s')
  {
    forall r | r in s.held ensures s'.held[r] == s.held[r] && s.held[r].key != key {
    }
  }

  lemma AskedExtends(s: State, s': State, q: nat, f: Fingerprint, key: string)
    requires Asked(s, s', q, f, key) && EventsOwned(s.t)
    ensures Extends(s, s') && (key in s.t.events ==> s.t.events[key].status == FAILED)
  {
  }

  lemma AskedKeeps(s: State, s': State, q: nat, f: Fingerprint, key: string)
    requires Asked(s, s', q, f, key) && Inv(s)
    ensures Inv(s') && Extends(s, s')
  {
    AskedExtends(s, s', q, f, key);
    AskedHolds(s, s', q, f, key);
    AskedLog(s, s', q, f, key);
  }

  ghost predicate Finished(s: State, s': State, q: nat, response: Response) {
    q in s.held && s.held[q].key in s.t.events &&
    var h, e := s.held[q], s.t.events[s.held[q].key];
    var id := h.fingerprint.decisionId;
    && id in s.t.decisions && s'.held == s.held - {q}
    && s'.log == s.log + [Completion(id, h.key, h.fingerprint.eventType)]
    && s'.t.decisions == s.t.decisions[id := s.t.decisions[id].(status := Resolved(h.fingerprint.eventType))]
    && s'.t.events == s.t.events[h.key := EventRow(e.fingerprint, COMPLETED, Some(response))]
  }

  lemma FinishCompletes(s: State, l: Label)
    requires l.Finish?
    ensures Step(s, l) == s || Finished(s, Step(s, l), l.request, l.response)
  {
  }

  lemma FinishedExplained(s: State, s': State, q: nat, response: Response)
    requires Finished(s, s', q, response) && OneHolderPerKey(s) && LogExplains(s)
    ensures LogExplains(s')
  {
    var c := s'.log[|s.log|];
    assert s'.log == s.log + [c];
    forall id
      ensures LastCompletion(s'.log, id) ==
        if c.decisionId == id then Some(c.eventType) else LastCompletion(s.log, id)
    {
      LogAppend(s.log, c, id);
    }
  }

  lemma FinishedHolds(s: State, s': State, q: nat, response: Response)
    requires Finished(s, s', q, response) && Inv(s)
    ensures OneHolderPerKey(s')
  {
    forall r | r in s'.held ensures s'.held[r] == s.held[r] && s.held[r].key != s.held[q].key {
    }
  }

  lemma FinishedExtends(s: State, s': State, q: nat, response: Response)
    requires Finished(s, s', q, response) && OneHolderPerKey(s)
    ensures Extends(s, s')
  {
  }

  lemma FinishedOwned(s: State, s': State, q: nat, response: Response)
    requires Finished(s, s', q, response) && EventsOwned(s.t)
    ensures EventsOwned(s'.t)
  {
  }

  lemma FinishedUnique(s: State, s': State, q: nat, response: Response)
    requires Finished(s, s', q, response) && UniqueSources(s.t.decisions)
    ensures UniqueSources(s'.t.decisions)
  {
    assert forall id :: id in s'.t.decisions ==> s'.t.decisions[id].source == s.t.decisions[id].source;
  }

  lemma FinishedKeeps(s: State, s': State, q: nat, response: Response)
    requires Finished(s, s', q, response) && Inv(s)
    ensures Inv(s') && Extends(s, s')
  {
    FinishedExplained(s, s', q, response);
    FinishedHolds(s, s', q, response);
    FinishedOwned(s, s', q, response);
    FinishedUnique(s, s', q, response);
    FinishedExtends(s, s', q, response);
  }

  /** A request ends without completing: its key fails, or stays as it is. */
  ghost predicate Ended(s: State, s': State, q: nat) {
    && q in s.held && s'.held == s.held - {q} && s'.log == s.log && s'.t.decisions == s.t.decisions
    && (s'.t.events == s.t.events ||
        (s.held[q].key in s.t.events && s.t.events[s.held[q].key].status == PROCESSING &&
         s'.t.events == s.t.events[s.held[q].key := s.t.events[s.held[q].key].(status := FAILED)]))
  }

  lemma EndsQuietly(s: State, l: Label)
    requires l.GiveUp? || l.Vanish?
    ensures Step(s, l) == s || Ended(s, Step(s, l), l.request)
  {
  }

  lemma EndedHolds(s: State, s': State, q: nat)
    requires Ended(s, s', q) && OneHolderPerKey(s)
    ensures OneHolderPerKey(s')
  {
    forall r | r in s'.held ensures s'.held[r] == s.held[r] && s.held[r].key != s.held[q].key {
    }
  }

  lemma EndedLog(s: State, s': State, q: nat)
    requires Ended(s, s', q) && LogExplains(s)
    ensures LogExplains(s')
  {
    forall i | 0 <= i < |s.log| ensures s'.t.events[s.log[i].key] == s.t.events[s.log[i].key] {
    }
  }

  lemma EndedKeeps(s: State, s': State, q: nat)
    requires Ended(s, s', q) && Inv(s)
    ensures Inv(s') && Extends(s, s')
  {
    EndedHolds(s, s', q);
    EndedLog(s, s', q);
  }

  lemma StepKeepsInv(s: State, l: Label)
    requires Inv(s)
    ensures Inv(Step(s, l)) && Extends(s, Step(s, l))
  {
    var s' := Step(s, l);
    if s' != s {
      match l {
        case Offer(_, _, _, _, _) =>
          var id, row := OfferStores(s, l);
          StoredKeeps(s, s', id, row);
        case Ask(q, f, key) => AskClaims(s, l); AskedKeeps(s, s', q, f, key);
        case Finish(q, response) => FinishCompletes(s, l); FinishedKeeps(s, s', q, response);
        case _ => EndsQuietly(s, l); EndedKeeps(s, s', l.request);
      }
    }
  }

  lemma {:induction false} RunKeepsInv(s: State, labels: seq<Label>)
    requires Inv(s)
    ensures Inv(Exec(s, labels)) && Extends(s, Exec(s, labels))
    decreases |labels|
  {
    if labels != [] {
      StepKeepsInv(s, labels[0]);
      RunKeepsInv(Step(s, labels[0]), labels[1..]);
    }
  }

  // ---------------------------------------------------------------- every run

  /** In every reachable state: one live holder per key, at most one decision per source event,
      each key completed at most once, and a decision's status is that of its last completion. */
  lemma ResponseSafety(labels: seq<Label>)
    ensures
      var s := Exec(EMPTY, labels);
      && (forall q, r :: q in s.held && r in s.held && s.held[q].key == s.held[r].key ==> q == r)
      && UniqueSources(s.t.decisions)
      && (forall i, j :: 0 <= i < j < |s.log| ==> s.log[i].key != s.log[j].key)
      && (forall id :: id in s.t.decisions ==>
            s.t.decisions[id].status ==
              match LastCompletion(s.log, id) case None => PENDING case Some(eventType) => Resolved(eventType))
  {
    RunKeepsInv(EMPTY, labels);
  }

  /** A completed key answers every later claim with its stored response and opens no request,
      whatever runs between; another payload under that key is refused. */
  lemma CompletedKeyReplays(before: seq<Label>, after: seq<Label>, key: string, f: Fingerprint)
    requires
      var a := Exec(EMPTY, before);
      key in a.t.events && a.t.events[key].status == COMPLETED
    ensures
      var a, s := Exec(EMPTY, before), Exec(Exec(EMPTY, before), after);
      && key in s.t.events && s.t.events[key] == a.t.events[key]
      && (forall q :: q in s.held ==> s.held[q].key != key)
      && (f == a.t.events[key].fingerprint ==> Claim(s.t, f, key) == Ok((s.t, a.t.events[key].response)))
      && (f != a.t.events[key].fingerprint ==> Claim(s.t, f, key).Err?)
      && forall q :: Step(s, Ask(q, f, key)) == s
  {
    RunKeepsInv(EMPTY, before);
    RunKeepsInv(Exec(EMPTY, before), after);
    AskCompleted(Exec(Exec(EMPTY, before), after), key, f);
  }

  lemma AskCompleted(s: State, key: string, f: Fingerprint)
    requires Inv(s) && key in s.t.events && s.t.events[key].status == COMPLETED
    ensures f == s.t.events[key].fingerprint ==> Claim(s.t, f, key) == Ok((s.t, s.t.events[key].response))
    ensures f != s.t.events[key].fingerprint ==> Claim(s.t, f, key).Err?
    ensures forall q :: Step(s, Ask(q, f, key)) == s
  {
  }

  /** Once resolved a decision never returns to pending, and no key it has not seen is claimable. */
  lemma ResolvedRefusesFreshKeys(before: seq<Label>, after: seq<Label>, f: Fingerprint, key: string)
    requires
      var a := Exec(EMPTY, before);
      f.decisionId in a.t.decisions && a.t.decisions[f.decisionId].status != PENDING
    requires key !in Exec(Exec(EMPTY, before), after).t.events
    ensures
      var s := Exec(Exec(EMPTY, before), after);
      f.decisionId in s.t.decisions && s.t.decisions[f.decisionId].status != PENDING && Claim(s.t, f, key).Err?
  {
    RunKeepsInv(EMPTY, before);
    RunKeepsInv(Exec(EMPTY, before), after);
  }

  // ---------------------------------------------------------------- when a terminal status is final

  /** An event of another type that can still complete: failed, or claimed by a live request. An
      event left in PROCESSING by a crash cannot. */
  ghost predicate Outstanding(s: State, id: string, key: string) {
    && id in s.t.decisions && key in s.t.events && s.t.events[key].fingerprint.decisionId == id
    && Resolved(s.t.events[key].fingerprint.eventType) != s.t.decisions[id].status
    && (s.t.events[key].status == FAILED ||
        (s.t.events[key].status == PROCESSING && exists q :: q in s.held && s.held[q].key == key))
  }

  ghost predicate Settled(s: State, id: string) {
    id in s.t.decisions && s.t.decisions[id].status != PENDING && forall key :: !Outstanding(s, id, key)
  }

  lemma AskedKeepsSettled(s: State, s': State, q: nat, f: Fingerprint, key: string, id: string)
    requires Asked(s, s', q, f, key) && Inv(s) && Settled(s, id)
    ensures Settled(s', id)
  {
    forall k ensures Outstanding(s', id, k) ==> Outstanding(s, id, k) {
    }
  }

  lemma FinishedKeepsSettled(s: State, s': State, q: nat, response: Response, id: string)
    requires Finished(s, s', q, response) && Inv(s) && Settled(s, id)
    ensures Settled(s', id) && s'.t.decisions[id].status == s.t.decisions[id].status
  {
    assert !Outstanding(s, id, s.held[q].key);
    forall k ensures Outstanding(s', id, k) ==> Outstanding(s, id, k) {
    }
  }

  lemma EndedKeepsSettled(s: State, s': State, q: nat, id: string)
    requires Ended(s, s', q) && Inv(s) && Settled(s, id)
    ensures Settled(s', id)
  {
    forall k ensures Outstanding(s', id, k) ==> Outstanding(s, id, k) {
    }
  }

  lemma StoredKeepsSettled(s: State, s': State, d: string, row: Decision, id: string)
    requires Stored(s, s', d, row) && Inv(s) && Settled(s, id)
    ensures Settled(s', id) && s'.t.decisions[id].status == s.t.decisions[id].status
  {
    forall k ensures Outstanding(s', id, k) ==> Outstanding(s, id, k) {
    }
  }

  lemma StepKeepsSettled(s: State, l: Label, id: string)
    requires Inv(s) && Settled(s, id)
    ensures Settled(Step(s, l), id) && Step(s, l).t.decisions[id].status == s.t.decisions[id].status
  {
    var s' := Step(s, l);
    if s' != s {
      match l {
        case Offer(_, _, _, _, _) =>
          var d, row := OfferStores(s, l);
          StoredKeepsSettled(s, s', d, row, id);
        case Ask(q, f, key) => AskClaims(s, l); AskedKeepsSettled(s, s', q, f, key, id);
        case Finish(q, response) => FinishCompletes(s, l); FinishedKeepsSettled(s, s', q, response, id);
        case _ => EndsQuietly(s, l); EndedKeepsSettled(s, s', l.request, id);
      }
    }
  }

  lemma {:induction false} RunKeepsSettled(s: State, labels: seq<Label>, id: string)
    requires Inv(s) && Settled(s, id)
    ensures id in Exec(s, labels).t.decisions && Exec(s, labels).t.decisions[id].status == s.t.decisions[id].status
    decreases |labels|
  {
    if labels != [] {
      StepKeepsInv(s, labels[0]);
      StepKeepsSettled(s, labels[0], id);
      RunKeepsSettled(Step(s, labels[0]), labels[1..], id);
    }
  }

  lemma FreshRequest(s: State) returns (q: nat)
    ensures q !in s.held
  {
    var used := s.held.Keys;
    q := 0;
    if used != {} {
      q := MaxOf(used);
      q := q + 1;
    }
  }

  lemma MaxOf(used: set<nat>) returns (m: nat)
    requires used != {}
    ensures m in used && forall q :: q in used ==> q <= m
  {
    var x :| x in used;
    if used == {x} {
      m := x;
    } else {
      var rest := MaxOf(used - {x});
      m := if rest < x then x else rest;
      assert forall q :: q in used ==> q == x || q in used - {x};
    }
  }

  /** The run in which an outstanding event completes. */
  lemma OutstandingCompletes(s: State, id: string, key: string, response: Response) returns (labels: seq<Label>)
    requires Inv(s) && Outstanding(s, id, key)
    ensures id in Exec(s, labels).t.decisions && Exec(s, labels).t.decisions[id].status != s.t.decisions[id].status
  {
    if s.t.events[key].status == FAILED {
      var q := FreshRequest(s);
      var ask := Ask(q, s.t.events[key].fingerprint, key);
      var s1 := Step(s, ask);
      assert q in s1.held && s1.held[q] == Held(key, s.t.events[key].fingerprint);
      labels := [ask, Finish(q, response)];
      assert labels[1..] == [Finish(q, response)] && labels[1..][1..] == [];
      assert Exec(s, labels) == Exec(s1, labels[1..]) == Exec(Step(s1, Finish(q, response)), []);
    } else {
      var q :| q in s.held && s.held[q].key == key;
      labels := [Finish(q, response)];
      assert Exec(s, labels) == Exec(Step(s, Finish(q, response)), []);
    }
  }

  /** A resolved decision's terminal status can still be replaced in some later run if and only if
      an event of another type is outstanding for it. */
  lemma TerminalStatusFinalIff(before: seq<Label>, id: string)
    requires
      var s := Exec(EMPTY, before);
      id in s.t.decisions && s.t.decisions[id].status != PENDING
    ensures
      var s := Exec(EMPTY, before);
      (exists key :: Outstanding(s, id, key)) <==>
      (exists labels :: id !in Exec(s, labels).t.decisions ||
                        Exec(s, labels).t.decisions[id].status != s.t.decisions[id].status)
  {
    var s := Exec(EMPTY, before);
    RunKeepsInv(EMPTY, before);
    if key :| Outstanding(s, id, key) {
      var labels := OutstandingCompletes(s, id, key, "{}");
      assert Exec(s, labels).t.decisions[id].status != s.t.decisions[id].status;
    } else {
      assert Settled(s, id);
      forall labels
        ensures id in Exec(s, labels).t.decisions && Exec(s, labels).t.decisions[id].status == s.t.decisions[id].status
      {
        RunKeepsSettled(s, labels, id);
      }
    }
  }

  const OFFER := OfferResult(true, Some("STYLING_ADVISORY"), Some("CART_ABANDONMENT"), Some("d"), "{}")
  const ACCEPT := Fingerprint("d", "c", "s", Accepted)
  const DECLINE := Fingerprint("d", "c", "s", Declined)

  /** One offer, two live requests with different answers, and the first of them completed. */
  const ACCEPTED_RUN := [
    Offer("c", "s", OFFER, None, None), Ask(0, ACCEPT, "k"), Ask(1, DECLINE, "l"), Finish(0, "accepted")]

  lemma ExecStep(s: State, l: Label, rest: seq<Label>)
    ensures Exec(s, [l] + rest) == Exec(Step(s, l), rest)
  {
    assert ([l] + rest)[1..] == rest;
  }

  /** The two claims of one pending decision. */
  ghost predicate BothAsked(s: State) {
    && s.t.decisions.Keys == {"d"} && s.t.decisions["d"].status == PENDING
    && s.t.events == map["k" := EventRow(ACCEPT, PROCESSING, None), "l" := EventRow(DECLINE, PROCESSING, None)]
    && s.held == map[0 := Held("k", ACCEPT), 1 := Held("l", DECLINE)] && s.log == []
  }

  lemma BothCanAsk()
    ensures BothAsked(Exec(EMPTY, ACCEPTED_RUN[..3]))
  {
    var offer, ask0, ask1 := ACCEPTED_RUN[0], ACCEPTED_RUN[1], ACCEPTED_RUN[2];
    var s1 := Step(EMPTY, offer);
    assert s1.t.decisions.Keys == {"d"} && s1.t.events == map[] && s1.held == map[] && s1.log == [];
    var s2 := Step(s1, ask0);
    assert s2.t.decisions == s1.t.decisions && s2.held == map[0 := Held("k", ACCEPT)];
    assert s2.t.events == map["k" := EventRow(ACCEPT, PROCESSING, None)];
    assert ACCEPTED_RUN[..3] == [offer] + ([ask0] + ([ask1] + []));
    ExecStep(EMPTY, offer, [ask0] + ([ask1] + []));
    ExecStep(s1, ask0, [ask1] + []);
    ExecStep(s2, ask1, []);
  }

  /** Such a decision is reachable: accepted, with the decline of another live request outstanding; and
      when that request finishes too, the decision reads declined. */
  lemma AcceptedThenDeclined()
    ensures
      var s, s' := Exec(EMPTY, ACCEPTED_RUN), Exec(EMPTY, ACCEPTED_RUN + [Finish(1, "declined")]);
      && "d" in s.t.decisions && s.t.decisions["d"].status == Resolved(Accepted) && Outstanding(s, "d", "l")
      && "d" in s'.t.decisions && s'.t.decisions["d"].status == Resolved(Declined)
  {
    var s3 := Exec(EMPTY, ACCEPTED_RUN[..3]);
    BothCanAsk();
    var finish0, finish1 := Finish(0, "accepted"), Finish(1, "declined");
    assert ACCEPTED_RUN == ACCEPTED_RUN[..3] + ([finish0] + []);
    assert ACCEPTED_RUN + [finish1] == ACCEPTED_RUN[..3] + ([finish0] + ([finish1] + []));
    ExecConcat(EMPTY, ACCEPTED_RUN[..3], [finish0] + []);
    ExecConcat(EMPTY, ACCEPTED_RUN[..3], [finish0] + ([finish1] + []));
    ExecStep(s3, finish0, []);
    ExecStep(s3, finish0, [finish1] + []);
    ExecStep(Step(s3, finish0), finish1, []);
    var s := Step(s3, finish0);
    assert 1 in s.held && s.held[1].key == "l";
  }

  lemma {:induction false} ExecConcat(s: State, xs: seq<Label>, ys: seq<Label>)
    ensures Exec(s, xs + ys) == Exec(Exec(s, xs), ys)
    decreases |xs|
  {
    if xs == [] {
      assert xs + ys == ys;
    } else {
      assert (xs + ys)[0] == xs[0] && (xs + ys)[1..] == xs[1..] + ys;
      ExecConcat(Step(s, xs[0]), xs[1..], ys);
    }
  }
}
