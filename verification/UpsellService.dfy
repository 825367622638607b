/** `UpsellDecisionService` over its two tables, and the response handler that drives it. */
module UpsellService {
  import opened Basics
  import opened UpsellDecisions

  class UpsellDecisionService {
    var decisions: map<string, Decision>
    var events: map<string, EventRow>

    constructor ()
      ensures Contents() == UpsellDecisions.Tables(map[], map[])
    {
      decisions, events := map[], map[];
    }

    function Contents(): Tables
      reads this
    {
      UpsellDecisions.Tables(decisions, events)
    }

    /** The one decision of this source event. */
    method FindBySource(source: string) returns (id: Option<string>)
      requires UniqueSources(decisions)
      ensures id.None? ==> WithSource(decisions, Some(source)) == {}
      ensures id.Some? ==> WithSource(decisions, Some(source)) == {id.value}
    {
      var found := WithSource(decisions, Some(source));
      if found == {} { return None; }
      var k :| k in found;
      id := Some(k);
    }

    /** Stores an offer, or refreshes the one its id or its source event already has. */
    method Record(customerId: string, sessionId: string, r: OfferResult, source: Option<string>, trace: Option<string>)
      returns (stored: Result<Option<string>, DecisionError>)
      requires UniqueSources(decisions)
      modifies this
      ensures UniqueSources(decisions)
      ensures
        match RecordDecision(old(Contents()), customerId, sessionId, r, source, trace)
        case Ok(pair) => stored == Ok(pair.1) && Contents() == pair.0
        case Err(error) => stored == Err(error) && Contents() == old(Contents())
    {
      if !Actionable(r) { return Ok(None); }
      var id := r.decisionId.value;
      var located := if id in decisions then Some(id) else None;
      if located.None? && Given(source) {
        located := FindBySource(source.value);
      }
      assert located == Locate(decisions, id, source);
      ghost var before := decisions;
      if located.None? {
        if !SourceFree(decisions, id, source) { return Err(IntegrityError); }
        decisions := decisions[id :=
          Decision(customerId, sessionId, r.offerType.value, r.triggerType.value, PENDING, r.body, source, trace)];
        SourcesStayUnique(before, id, decisions[id]);
        return Ok(Some(id));
      }
      var row := Refreshed(decisions[located.value], r.body, source, trace);
      if decisions[located.value].customerId != customerId { return Err(CustomerMismatch); }
      if !SourceFree(decisions, located.value, row.source) { return Err(IntegrityError); }
      decisions := decisions[located.value := row];
      SourcesStayUnique(before, located.value, row);
      stored := Ok(located);
    }

    method ClaimEvent(f: Fingerprint, key: string) returns (replay: Result<Option<Response>, DecisionError>)
      modifies this
      ensures
        match Claim(old(Contents()), f, key)
        case Ok(pair) => replay == Ok(pair.1) && Contents() == pair.0
        case Err(error) => replay == Err(error) && Contents() == old(Contents())
    {
      if f.decisionId !in decisions { return Err(DecisionNotFound); }
      var d := decisions[f.decisionId];
      if d.customerId != f.customerId || d.sessionId != f.sessionId { return Err(DecisionNotFound); }
      if key in events {
        if events[key].fingerprint != f { return Err(IdempotencyConflict); }
        if events[key].status == COMPLETED && events[key].response.Some? { return Ok(events[key].response); }
        if events[key].status == PROCESSING { return Err(InProgress); }
        events := events[key := events[key].(status := PROCESSING)];
      } else {
        if d.status != PENDING { return Err(AlreadyResolved); }
        events := events[key := EventRow(f, PROCESSING, None)];
      }
      replay := Ok(None);
    }

    method CompleteEvent(decisionId: string, key: string, eventType: EventType, response: Response)
      returns (r: Result<(), DecisionError>)
      modifies this
      ensures
        match Complete(old(Contents()), decisionId, key, eventType, response)
        case Ok(t) => r == Ok(()) && Contents() == t
        case Err(error) => r == Err(error) && Contents() == old(Contents())
    {
      if key !in events || decisionId !in decisions { return Err(DecisionNotFound); }
      events := events[key := events[key].(status := COMPLETED, response := Some(response))];
      decisions := decisions[decisionId := decisions[decisionId].(status := Resolved(eventType))];
      r := Ok(());
    }

    method AbortEvent(key: string)
      modifies this
      ensures Contents() == Abort(old(Contents()), key)
    {
      if key in events && events[key].status == PROCESSING {
        events := events[key := events[key].(status := FAILED)];
      }
    }

    /** `record_upsell_decision_event`: claim, record the response, complete; abort when recording it
        fails. The handler is exactly one request of the protocol. */
    method Respond(f: Fingerprint, key: string, recorded: bool, response: Response)
      returns (answer: Option<Response>)
      modifies this
      ensures
        var request := [Ask(0, f, key), if recorded then Finish(0, response) else GiveUp(0)];
        Contents() == Exec(State(old(Contents()), map[], []), request).t
      ensures answer ==
        match Claim(old(Contents()), f, key)
        case Err(_) => None
        case Ok(pair) => if pair.1.Some? then pair.1 else if recorded then Some(response) else None
    {
      ghost var s := State(Contents(), map[], []);
      ghost var labels := [Ask(0, f, key), if recorded then Finish(0, response) else GiveUp(0)];
      assert labels[1..] == [labels[1]] && labels[1..][1..] == [];
      assert Exec(s, labels) == Exec(Step(s, labels[0]), labels[1..]) == Exec(Step(Step(s, labels[0]), labels[1]), []);
      var claim := ClaimEvent(f, key);
      if claim.Err? { return None; }
      if claim.value.Some? { return claim.value; }
      if !recorded {
        AbortEvent(key);
        return None;
      }
      var done := CompleteEvent(f.decisionId, key, f.eventType, response);
      answer := Some(response);
    }
  }

  lemma SourcesStayUnique(decisions: map<string, Decision>, id: string, row: Decision)
    requires UniqueSources(decisions) && SourceFree(decisions, id, row.source)
    ensures UniqueSources(decisions[id := row])
  {
    assert row.source.Some? ==> forall other :: other in decisions && decisions[other].source == row.source ==>
      other in WithSource(decisions, row.source);
  }
}
