/** What recording a product view answers and writes, said of the request and the tables. */
module EngagementAnswers {
  import opened Basics
  import opened TextStrip
  import opened EngagementEvents

  lemma BlankStrips(s: string)
    ensures Strip(s) == "" <==> Blank(s)
  {
    StripTrims(s);
    var a, b :| s == a + Strip(s) + b && Blank(a) && Blank(b);
    assert Strip(s) != "" ==> s[|a|] == Strip(s)[0];
  }

  /** The receipt of this customer and key, under their joined text. */
  ghost predicate Submitted(t: Tables, r: ViewRequest) {
    && r.customerId + ":" + r.idempotencyKey in t.receipts
    && t.receipts[r.customerId + ":" + r.idempotencyKey].customerId == r.customerId
    && t.receipts[r.customerId + ":" + r.idempotencyKey].idempotencyKey == r.idempotencyKey
  }

  ghost predicate OnSale(product: Lookup) {
    product.Found? && product.active && product.available
  }

  /** How many of these views are of the request's customer, session and product, up to blanks around them. */
  ghost function Seen(t: Tables, r: ViewRequest): nat {
    |set id | id in t.views && Trimmed(r.customerId, t.views[id].customerId)
              && Trimmed(r.sessionId, t.views[id].sessionId) && Trimmed(r.sku, t.views[id].sku)|
  }

  ghost predicate ThirdOfPremium(t: Tables, r: ViewRequest, product: Lookup) {
    product.Found? && product.premium && Seen(t, r) == 2
  }

  lemma SeenIs(t: Tables, r: ViewRequest)
    ensures Seen(t, r) == |ViewsOf(t, TripleOf(r))|
  {
    forall id | id in t.views
      ensures t.views[id] == TripleOf(r) <==>
        && Trimmed(r.customerId, t.views[id].customerId)
        && Trimmed(r.sessionId, t.views[id].sessionId) && Trimmed(r.sku, t.views[id].sku)
    {
      TrimmedIsStrip(r.customerId, t.views[id].customerId);
      TrimmedIsStrip(r.sessionId, t.views[id].sessionId);
      TrimmedIsStrip(r.sku, t.views[id].sku);
    }
    assert ViewsOf(t, TripleOf(r)) ==
      set id | id in t.views && Trimmed(r.customerId, t.views[id].customerId)
               && Trimmed(r.sessionId, t.views[id].sessionId) && Trimmed(r.sku, t.views[id].sku);
  }

  /** The keys a first submission needs free: the view's, the receipt's, and the trigger's if it fires. */
  ghost predicate KeysFree(t: Tables, r: ViewRequest, product: Lookup, eventId: string, outboxId: string) {
    && eventId !in t.views && r.customerId + ":" + r.idempotencyKey !in t.receipts
    && (ThirdOfPremium(t, r, product) ==> outboxId !in t.outbox)
  }

  lemma CountAfter(t: Tables, r: ViewRequest, eventId: string)
    requires eventId !in t.views
    ensures |ViewsOf(t.(views := t.views[eventId := TripleOf(r)]), TripleOf(r))| == Seen(t, r) + 1
  {
    OneMoreView(t, eventId, TripleOf(r), TripleOf(r));
    SeenIs(t, r);
  }

  /** Why a view is refused: its key was used with another payload, an identifier is blank, the product cannot be
      bought, or a key is taken; a product is looked up before the customer and session are read. */
  lemma ViewRefusals(t: Tables, r: ViewRequest, product: Lookup, eventId: string, outboxId: string)
    ensures
      var answer := RecordView(t, r, product, eventId, outboxId);
      if Submitted(t, r) then
        var receipt := t.receipts[r.customerId + ":" + r.idempotencyKey];
        if receipt.fingerprint != r.fingerprint then answer == Err(IdempotencyConflict)
        else answer == Ok((t, Recorded(r.customerId + ":" + r.idempotencyKey, receipt, true)))
      else if Blank(r.sku) then answer == Err(BlankIdentifier)
      else if !OnSale(product) then answer == Err(ProductUnavailable)
      else if eventId in t.views then answer == Err(IntegrityError)
      else if Blank(r.customerId) || Blank(r.sessionId) then answer == Err(BlankIdentifier)
      else if !KeysFree(t, r, product, eventId, outboxId) then answer == Err(IntegrityError)
      else answer.Ok?
  {
    BlankStrips(r.sku);
    BlankStrips(r.customerId);
    BlankStrips(r.sessionId);
    if eventId !in t.views {
      CountAfter(t, r, eventId);
    }
  }

  /** What a first submission writes: the view with its identifiers trimmed, a receipt with the count so far, and a
      trigger row exactly for the third view of a premium product. */
  lemma ViewRows(t: Tables, r: ViewRequest, product: Lookup, eventId: string, outboxId: string)
    requires !Submitted(t, r) && RecordView(t, r, product, eventId, outboxId).Ok?
    ensures
      var (t', recorded) := RecordView(t, r, product, eventId, outboxId).value;
      var id, fires, count := r.customerId + ":" + r.idempotencyKey, ThirdOfPremium(t, r, product), Seen(t, r) + 1;
      && eventId in t'.views && t'.views == t.views[eventId := t'.views[eventId]]
      && Trimmed(r.customerId, t'.views[eventId].customerId)
      && Trimmed(r.sessionId, t'.views[eventId].sessionId) && Trimmed(r.sku, t'.views[eventId].sku)
      && !recorded.replayed && recorded.receiptId == id
      && recorded.receipt ==
         Receipt(r.customerId, r.idempotencyKey, r.sessionId, r.fingerprint, eventId, t'.views[eventId].sku, count,
                 product.Found? && product.premium, fires, if fires then Some(outboxId) else None, PROCESSING, None)
      && t'.receipts == t.receipts[id := recorded.receipt]
      && t'.outbox == if fires then
           t.outbox[outboxId := TriggerRow(r.customerId, r.sessionId, t'.views[eventId].sku, eventId, 3)]
         else t.outbox
  {
    StripTrims(r.customerId);
    StripTrims(r.sessionId);
    StripTrims(r.sku);
    ViewRefusals(t, r, product, eventId, outboxId);
    CountAfter(t, r, eventId);
  }

  // ---------------------------------------------------------------- answers over a run

  /** The last answer these labels give the receipt, or the one before them. */
  ghost function LastAnswer(labels: seq<Label>, id: string, before: Option<string>): Option<string> {
    if labels == [] then before
    else
      var last := labels[|labels| - 1];
      if last.Answer? && last.receiptId == id then Some(last.response)
      else LastAnswer(labels[..|labels| - 1], id, before)
  }

  ghost predicate Answered(before: Receipt, after: Receipt, labels: seq<Label>, id: string) {
    && after.response == LastAnswer(labels, id, before.response)
    && (after.status == COMPLETED <==>
          before.status == COMPLETED || exists l :: l in labels && l.Answer? && l.receiptId == id)
  }

  lemma StepAnswers(s: State, l: Label, id: string)
    requires id in s.t.receipts
    ensures id in Step(s, l).t.receipts && Answered(s.t.receipts[id], Step(s, l).t.receipts[id], [l], id)
  {
    assert [l][..0] == [] && l in [l];
  }

  lemma {:induction false} LastAnswerCons(l: Label, rest: seq<Label>, id: string, before: Option<string>)
    ensures LastAnswer([l] + rest, id, before) == LastAnswer(rest, id, LastAnswer([l], id, before))
    decreases |rest|
  {
    if rest == [] {
      assert [l] + rest == [l];
    } else {
      assert ([l] + rest)[..|rest|] == [l] + rest[..|rest| - 1];
      LastAnswerCons(l, rest[..|rest| - 1], id, before);
    }
  }

  /** Over every run a stored receipt carries the answer given last, and is completed exactly once one was given. */
  lemma {:induction false} LastAnswerStands(s: State, labels: seq<Label>, id: string)
    requires id in s.t.receipts
    ensures id in Exec(s, labels).t.receipts
    ensures Answered(s.t.receipts[id], Exec(s, labels).t.receipts[id], labels, id)
    decreases |labels|
  {
    if labels != [] {
      StepAnswers(s, labels[0], id);
      LastAnswerStands(Step(s, labels[0]), labels[1..], id);
      assert labels == [labels[0]] + labels[1..];
      LastAnswerCons(labels[0], labels[1..], id, s.t.receipts[id].response);
    }
  }
}
