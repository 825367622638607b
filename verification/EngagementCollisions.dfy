/** Receipt ids: when two customers and keys share one, and what that does to a submission. */
module EngagementCollisions {
  import opened Basics
  import opened TextStrip
  import opened EngagementEvents

  /** One customer id continues the other with a colon, and its key lacks just that continuation. */
  predicate Continues(c: string, key: string, c': string, key': string) {
    && |c| + 1 <= |c'| && c' == c + ":" + c'[|c| + 1..]
    && key == c'[|c| + 1..] + ":" + key'
  }

  lemma ContinuesSharesId(c: string, key: string, c': string, key': string)
    requires Continues(c, key, c', key')
    ensures ReceiptId(c, key) == ReceiptId(c', key') && (c, key) != (c', key')
  {
    var p := c'[|c| + 1..];
    assert c + ":" + (p + ":" + key') == (c + ":" + p) + ":" + key';
  }

  lemma SharedIdContinues(c: string, key: string, c': string, key': string)
    requires ReceiptId(c, key) == ReceiptId(c', key') && |c| < |c'|
    ensures Continues(c, key, c', key')
  {
    var id := ReceiptId(c, key);
    var p := c'[|c| + 1..];
    assert id[..|c|] == c && id[|c|] == ':' && id[|c| + 1..] == key;
    assert id[..|c'|] == c' && id[|c'|] == ':' && id[|c'| + 1..] == key';
    assert c' == id[..|c|] + [id[|c|]] + id[|c| + 1..|c'|];
    assert key == id[|c| + 1..|c'|] + [id[|c'|]] + id[|c'| + 1..];
  }

  lemma SameLengthSameParts(c: string, key: string, c': string, key': string)
    requires ReceiptId(c, key) == ReceiptId(c', key') && |c| == |c'|
    ensures c == c' && key == key'
  {
    var id := ReceiptId(c, key);
    assert id[..|c|] == c && id[|c| + 1..] == key && id[..|c'|] == c' && id[|c'| + 1..] == key';
  }

  /** Two pairs share a receipt id exactly when they are the same, or one customer id is the other
      followed by a colon and p, and the other's key is p, a colon and this one's key. */
  lemma SharedIdIff(c: string, key: string, c': string, key': string)
    ensures ReceiptId(c, key) == ReceiptId(c', key') <==>
      (c, key) == (c', key') || Continues(c, key, c', key') || Continues(c', key', c, key)
  {
    if ReceiptId(c, key) == ReceiptId(c', key') {
      if |c| < |c'| {
        SharedIdContinues(c, key, c', key');
      } else if |c'| < |c| {
        SharedIdContinues(c', key', c, key);
      } else {
        SameLengthSameParts(c, key, c', key');
      }
    }
    if Continues(c, key, c', key') { ContinuesSharesId(c, key, c', key'); }
    if Continues(c', key', c, key) { ContinuesSharesId(c', key', c, key); }
  }

  // ---------------------------------------------------------------- over every run

  /** The receipt belongs to another customer and key that share the request's receipt id. */
  predicate Collides(q: Receipt, r: ViewRequest) {
    || Continues(q.customerId, q.idempotencyKey, r.customerId, r.idempotencyKey)
    || Continues(r.customerId, r.idempotencyKey, q.customerId, q.idempotencyKey)
  }

  ghost predicate Blocked(t: Tables, r: ViewRequest) {
    exists id :: id in t.receipts && Collides(t.receipts[id], r)
  }

  lemma TakenIffBlocked(t: Tables, r: ViewRequest)
    requires ReceiptsKeyed(t) && FindReceipt(t, r.customerId, r.idempotencyKey).None?
    ensures ReceiptId(r.customerId, r.idempotencyKey) in t.receipts <==> Blocked(t, r)
  {
    forall id | id in t.receipts
      ensures id == ReceiptId(r.customerId, r.idempotencyKey) <==> Collides(t.receipts[id], r)
    {
      SharedIdIff(t.receipts[id].customerId, t.receipts[id].idempotencyKey, r.customerId, r.idempotencyKey);
    }
  }

  /** Nothing else stands in the way of a first submission: identifiers, product and generated ids. */
  predicate Submittable(t: Tables, r: ViewRequest, product: Lookup, eventId: string, outboxId: string) {
    && Strip(r.sku) != "" && Strip(r.customerId) != "" && Strip(r.sessionId) != ""
    && product.Found? && product.active && product.available
    && eventId !in t.views && outboxId !in t.outbox
  }

  /** After every run a first submission in good order is recorded unless, and only unless, the receipt
      of another customer and key blocks its id; then it is refused after every later run too. */
  lemma RefusedIffBlocked(
    s0: State, labels: seq<Label>, r: ViewRequest, product: Lookup, eventId: string, outboxId: string)
    requires Initial(s0) && Submittable(Exec(s0, labels).t, r, product, eventId, outboxId)
    requires FindReceipt(Exec(s0, labels).t, r.customerId, r.idempotencyKey).None?
    ensures RecordView(Exec(s0, labels).t, r, product, eventId, outboxId).Err? <==> Blocked(Exec(s0, labels).t, r)
    ensures Blocked(Exec(s0, labels).t, r) ==>
      forall more :: RecordView(Exec(Exec(s0, labels), more).t, r, product, eventId, outboxId).Err?
  {
    RunKeepsInv(s0, labels);
    TakenIffBlocked(Exec(s0, labels).t, r);
    if Blocked(Exec(s0, labels).t, r) {
      forall more ensures RecordView(Exec(Exec(s0, labels), more).t, r, product, eventId, outboxId).Err? {
        StaysTaken(Exec(s0, labels), more, r, product, eventId, outboxId);
      }
    }
  }

  lemma StaysTaken(
    s: State, more: seq<Label>, r: ViewRequest, product: Lookup, eventId: string, outboxId: string)
    requires Inv(s) && ReceiptId(r.customerId, r.idempotencyKey) in s.t.receipts
    requires FindReceipt(s.t, r.customerId, r.idempotencyKey).None?
    ensures RecordView(Exec(s, more).t, r, product, eventId, outboxId).Err?
  {
    RunKeepsInv(s, more);
  }

  // ---------------------------------------------------------------- customer ids without colons

  predicate NoColon(text: string) {
    forall i :: 0 <= i < |text| ==> text[i] != ':'
  }

  ghost predicate ColonFree(labels: seq<Label>) {
    forall i :: 0 <= i < |labels| && labels[i].View? ==> NoColon(labels[i].r.customerId)
  }

  ghost predicate OwnersColonFree(t: Tables) {
    forall id :: id in t.receipts ==> NoColon(t.receipts[id].customerId)
  }

  lemma StepKeepsColonFree(s: State, l: Label)
    requires OwnersColonFree(s.t) && (l.View? ==> NoColon(l.r.customerId))
    ensures OwnersColonFree(Step(s, l).t)
  {
  }

  lemma {:induction false} RunKeepsColonFree(s: State, labels: seq<Label>)
    requires OwnersColonFree(s.t) && ColonFree(labels)
    ensures OwnersColonFree(Exec(s, labels).t)
    decreases |labels|
  {
    if labels != [] {
      StepKeepsColonFree(s, labels[0]);
      RunKeepsColonFree(Step(s, labels[0]), labels[1..]);
    }
  }

  lemma ColonFreeNeverContinues(c: string, key: string, c': string, key': string)
    requires NoColon(c')
    ensures !Continues(c, key, c', key')
  {
    if |c| + 1 <= |c'| {
      assert (c + ":" + c'[|c| + 1..])[|c|] == ':';
    }
  }

  /** As long as no customer id holds a colon, no submission is ever blocked. */
  lemma ColonFreeNeverBlocked(s0: State, labels: seq<Label>, r: ViewRequest)
    requires Initial(s0) && ColonFree(labels) && NoColon(r.customerId)
    ensures !Blocked(Exec(s0, labels).t, r)
  {
    RunKeepsColonFree(s0, labels);
    var t := Exec(s0, labels).t;
    forall id | id in t.receipts
      ensures !Collides(t.receipts[id], r)
    {
      var q := t.receipts[id];
      ColonFreeNeverContinues(q.customerId, q.idempotencyKey, r.customerId, r.idempotencyKey);
      ColonFreeNeverContinues(r.customerId, r.idempotencyKey, q.customerId, q.idempotencyKey);
    }
  }

  // ---------------------------------------------------------------- a blocked submission

  const EMPTY := State(Tables(map[], map[], map[]), [])
  const PRODUCT := Found(true, true, false)
  const FIRST := ViewRequest("a:b", "s", "x", "c", "f1")
  const SECOND := ViewRequest("a", "s", "x", "b:c", "f2")

  lemma StripNothing(text: string)
    requires text == "" || (!IsSpace(text[0]) && !IsSpace(text[|text| - 1]))
    ensures Strip(text) == text
  {
  }

  /** Customer "a:b" views a product under the key "c"; customer "a" is then refused under "b:c". */
  lemma SecondIsRefused()
    ensures
      && RecordView(EMPTY.t, FIRST, PRODUCT, "e1", "o1").Ok?
      && var s := Exec(EMPTY, [View(FIRST, PRODUCT, "e1", "o1")]);
      && RecordView(EMPTY.t, SECOND, PRODUCT, "e2", "o2").Ok?
      && RecordView(s.t, SECOND, PRODUCT, "e2", "o2") == Err(IntegrityError)
  {
    StripNothing("a:b");
    StripNothing("a");
    StripNothing("s");
    StripNothing("x");
    var labels := [View(FIRST, PRODUCT, "e1", "o1")];
    assert labels[1..] == [];
    assert ReceiptId("a:b", "c") == ReceiptId("a", "b:c");
  }
}
