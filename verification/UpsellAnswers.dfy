/** What recording an offer and answering a response do to the rows, field by field. */
module UpsellAnswers {
  import opened Basics
  import opened UpsellDecisions

  // ---------------------------------------------------------------- recording an offer

  ghost predicate HeldBy(decisions: map<string, Decision>, k: string, source: Option<string>) {
    k in decisions && source.Some? && decisions[k].source == source
  }

  /** A text that may fill an empty column. */
  ghost function Filled(was: Option<string>, given: Option<string>): Option<string> {
    if was.None? && given.Some? && given.value != "" then given else was
  }

  /** The stored offer `k` gets the new result, and its source and trace if it had none; its customer, session,
      offer, trigger and status stay. */
  ghost predicate Updates(
    t: Tables, k: string, customerId: string, body: string, source: Option<string>, trace: Option<string>,
    answer: Result<(Tables, Option<string>), DecisionError>)
    requires k in t.decisions
  {
    var d := t.decisions[k];
    if d.customerId != customerId then answer == Err(CustomerMismatch)
    else if exists other :: other != k && HeldBy(t.decisions, other, Filled(d.source, source)) then
      answer == Err(IntegrityError)
    else
      answer == Ok((
        Tables(
          t.decisions[k := Decision(d.customerId, d.sessionId, d.offerType, d.triggerType, d.status, body,
                                    Filled(d.source, source), Filled(d.trace, trace))],
          t.events),
        Some(k)))
  }

  /** A new offer is pending, with everything it was given. */
  ghost predicate Creates(
    t: Tables, id: string, customerId: string, sessionId: string, r: OfferResult, source: Option<string>,
    trace: Option<string>, answer: Result<(Tables, Option<string>), DecisionError>)
    requires r.offerType.Some? && r.triggerType.Some?
  {
    if exists other :: HeldBy(t.decisions, other, source) then answer == Err(IntegrityError)
    else
      answer == Ok((
        Tables(
          t.decisions[id :=
            Decision(customerId, sessionId, r.offerType.value, r.triggerType.value, PENDING, r.body, source, trace)],
          t.events),
        Some(id)))
  }

  lemma SourceFreeIs(decisions: map<string, Decision>, id: string, source: Option<string>)
    ensures SourceFree(decisions, id, source) <==> forall other :: other != id ==> !HeldBy(decisions, other, source)
  {
    forall other ensures HeldBy(decisions, other, source) <==> source.Some? && other in WithSource(decisions, source) {
    }
  }

  /** An offer that is not available, or lacks its offer, trigger or id, is not recorded. Any other goes to the row
      of its id; else to the row of its source event; else to a new row. */
  lemma OfferRows(
    t: Tables, customerId: string, sessionId: string, r: OfferResult, source: Option<string>, trace: Option<string>)
    requires UniqueSources(t.decisions)
    ensures
      var answer := RecordDecision(t, customerId, sessionId, r, source, trace);
      if !r.available || r.offerType.None? || r.triggerType.None? || r.decisionId.None? then answer == Ok((t, None))
      else
        var id := r.decisionId.value;
        && (id in t.decisions ==> Updates(t, id, customerId, r.body, source, trace, answer))
        && (id !in t.decisions && source != Some("") ==>
              forall k :: HeldBy(t.decisions, k, source) ==>
                k in t.decisions && Updates(t, k, customerId, r.body, source, trace, answer))
        && (id !in t.decisions && (source == Some("") || forall k :: !HeldBy(t.decisions, k, source)) ==>
              Creates(t, id, customerId, sessionId, r, source, trace, answer))
  {
    if Actionable(r) {
      var id := r.decisionId.value;
      if id in t.decisions {
        RowUpdates(t, id, customerId, sessionId, r, source, trace);
      } else if k :| HeldBy(t.decisions, k, source) && source != Some("") {
        assert k in WithSource(t.decisions, source);
        assert forall other :: HeldBy(t.decisions, other, source) ==> other == k;
        RowUpdates(t, k, customerId, sessionId, r, source, trace);
      } else {
        NothingLocated(t.decisions, id, source);
        SourceFreeIs(t.decisions, id, source);
      }
    }
  }

  lemma NothingLocated(decisions: map<string, Decision>, id: string, source: Option<string>)
    requires id !in decisions && (source == Some("") || forall k :: !HeldBy(decisions, k, source))
    ensures Locate(decisions, id, source).None?
  {
    if Given(source) && WithSource(decisions, source) != {} {
      var k :| k in WithSource(decisions, source);
      assert HeldBy(decisions, k, source);
    }
  }

  lemma RowUpdates(
    t: Tables, k: string, customerId: string, sessionId: string, r: OfferResult, source: Option<string>,
    trace: Option<string>)
    requires Actionable(r) && k in t.decisions && Locate(t.decisions, r.decisionId.value, source) == Some(k)
    ensures Updates(t, k, customerId, r.body, source, trace,
      RecordDecision(t, customerId, sessionId, r, source, trace))
  {
    SourceFreeIs(t.decisions, k, Filled(t.decisions[k].source, source));
  }

  // ---------------------------------------------------------------- answering one

  /** The decision of this customer and session. */
  ghost predicate Addressed(t: Tables, f: Fingerprint) {
    && f.decisionId in t.decisions && t.decisions[f.decisionId].customerId == f.customerId
    && t.decisions[f.decisionId].sessionId == f.sessionId
  }

  /** A response may be taken on: its key is new and the decision pending, or its key failed before. */
  ghost predicate Claimable(t: Tables, f: Fingerprint, key: string) {
    && Addressed(t, f)
    && if key in t.events then
         && t.events[key].fingerprint == f && t.events[key].status != PROCESSING
         && (t.events[key].status == COMPLETED ==> t.events[key].response.None?)
       else t.decisions[f.decisionId].status.PENDING?
  }

  /** Exactly such a response opens a row that is being processed; a completed one is answered from its row. */
  lemma ClaimIff(t: Tables, f: Fingerprint, key: string)
    ensures
      var answer := Claim(t, f, key);
      && (answer.Ok? && answer.value.1.None? <==> Claimable(t, f, key))
      && (Claimable(t, f, key) ==>
            answer.value.0 == Tables(t.decisions, t.events[key :=
              EventRow(f, PROCESSING, if key in t.events then t.events[key].response else None)]))
      && (answer.Ok? && answer.value.1.Some? <==>
            && Addressed(t, f) && key in t.events && t.events[key].fingerprint == f
            && t.events[key].status == COMPLETED && t.events[key].response.Some?)
      && (answer.Ok? && answer.value.1.Some? ==> answer.value == (t, t.events[key].response))
      && (answer == Err(DecisionNotFound) <==> !Addressed(t, f))
      && (answer == Err(IdempotencyConflict) <==> Addressed(t, f) && key in t.events && t.events[key].fingerprint != f)
      && (answer == Err(InProgress) <==>
            && Addressed(t, f) && key in t.events && t.events[key].fingerprint == f
            && t.events[key].status == PROCESSING)
      && (answer == Err(AlreadyResolved) <==>
            Addressed(t, f) && key !in t.events && t.decisions[f.decisionId].status.Resolved?)
  {
  }

  // ---------------------------------------------------------------- every run

  /** The offer this label stores in the row `id`, if it does. */
  ghost function Landed(s: State, l: Label, id: string): seq<OfferResult> {
    match l
    case Offer(customerId, sessionId, r, source, trace) =>
      var answer := RecordDecision(s.t, customerId, sessionId, r, source, trace);
      if answer.Ok? && answer.value.1 == Some(id) then [r] else []
    case _ => []
  }

  /** The offers a run stores in this row, oldest first. */
  ghost function OffersTo(s: State, labels: seq<Label>, id: string): seq<OfferResult>
    decreases |labels|
  {
    if labels == [] then [] else Landed(s, labels[0], id) + OffersTo(Step(s, labels[0]), labels[1..], id)
  }

  /** A row keeps what it was created with and shows the newest of these offers. */
  ghost predicate Shows(before: Tables, after: Tables, id: string, offers: seq<OfferResult>) {
    && (id in after.decisions <==> id in before.decisions || offers != [])
    && (id in after.decisions ==>
          && after.decisions[id].result ==
             (if offers == [] then before.decisions[id].result else offers[|offers| - 1].body)
          && (if id in before.decisions then
                && after.decisions[id].offerType == before.decisions[id].offerType
                && after.decisions[id].triggerType == before.decisions[id].triggerType
              else
                && offers[0].offerType == Some(after.decisions[id].offerType)
                && offers[0].triggerType == Some(after.decisions[id].triggerType)))
  }

  lemma StepShows(s: State, l: Label, id: string)
    ensures Shows(s.t, Step(s, l).t, id, Landed(s, l, id))
  {
  }

  lemma ShowsOn(a: Tables, b: Tables, c: Tables, id: string, first: seq<OfferResult>, rest: seq<OfferResult>)
    requires Shows(a, b, id, first) && Shows(b, c, id, rest)
    ensures Shows(a, c, id, first + rest)
  {
    assert rest == [] ==> first + rest == first;
    assert first == [] ==> first + rest == rest;
  }

  /** Over every run a decision carries the offer and trigger it was created with and the result recorded last. */
  lemma {:induction false} NewestResultShows(s: State, labels: seq<Label>, id: string)
    ensures Shows(s.t, Exec(s, labels).t, id, OffersTo(s, labels, id))
    decreases |labels|
  {
    if labels != [] {
      var s1 := Step(s, labels[0]);
      StepShows(s, labels[0], id);
      NewestResultShows(s1, labels[1..], id);
      ShowsOn(s.t, s1.t, Exec(s, labels).t, id, Landed(s, labels[0], id), OffersTo(s1, labels[1..], id));
    }
  }
}
