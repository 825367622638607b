/** Product views, their idempotency receipts and the third-view trigger. */
module EngagementEvents {
  import opened Basics
  import opened TextStrip

  // ---------------------------------------------------------------- tables

  /** A stored VIEW_PRODUCT row; the table's model strips its text fields. */
  datatype Triple = Triple(customerId: string, sessionId: string, sku: string)

  datatype ReceiptStatus = PROCESSING | COMPLETED

  datatype Receipt = Receipt(
    customerId: string, idempotencyKey: string, sessionId: string, fingerprint: string, eventId: string, sku: string,
    count: nat, premium: bool, trigger: bool, outboxId: Option<string>, status: ReceiptStatus, response: Option<string>)

  datatype TriggerRow = TriggerRow(customerId: string, sessionId: string, sku: string, eventId: string, viewCount: nat)

  /** Views by event id, receipts by receipt id, and the HIGH_PRODUCT_ENGAGEMENT outbox rows. */
  datatype Tables = Tables(views: map<string, Triple>, receipts: map<string, Receipt>, outbox: map<string, TriggerRow>)

  datatype Lookup = Missing | Found(active: bool, available: bool, premium: bool)

  datatype ViewRequest = ViewRequest(
    customerId: string, sessionId: string, sku: string, idempotencyKey: string, fingerprint: string)

  datatype Recorded = Recorded(receiptId: string, receipt: Receipt, replayed: bool)

  datatype EngagementError =
    | IdempotencyConflict | BlankIdentifier | ProductUnavailable | IntegrityError | ReceiptNotFound

  const TRIGGER_COUNT := 3

  /** The digest is injective on this text, which is not injective on its two parts. */
  function ReceiptId(customerId: string, key: string): string {
    customerId + ":" + key
  }

  function FindReceipt(t: Tables, customerId: string, key: string): Option<Receipt> {
    var id := ReceiptId(customerId, key);
    if id in t.receipts && t.receipts[id].customerId == customerId && t.receipts[id].idempotencyKey == key
    then Some(t.receipts[id]) else None
  }

  function ViewsOf(t: Tables, x: Triple): set<string> {
    set id | id in t.views && t.views[id] == x
  }

  function TripleOf(r: ViewRequest): Triple {
    Triple(Strip(r.customerId), Strip(r.sessionId), Strip(r.sku))
  }

  function ReceiptTriple(r: Receipt): Triple {
    Triple(Strip(r.customerId), Strip(r.sessionId), r.sku)
  }

  function RowTriple(r: TriggerRow): Triple {
    Triple(Strip(r.customerId), Strip(r.sessionId), r.sku)
  }

  /** `record_product_view` in its write transaction: replay, refuse, or commit view, receipt and trigger. */
  function RecordView(t: Tables, r: ViewRequest, product: Lookup, eventId: string, outboxId: string)
    : Result<(Tables, Recorded), EngagementError>
  {
    var existing := FindReceipt(t, r.customerId, r.idempotencyKey);
    var id := ReceiptId(r.customerId, r.idempotencyKey);
    if existing.Some? then
      if existing.value.fingerprint != r.fingerprint then Err(IdempotencyConflict)
      else Ok((t, Recorded(id, existing.value, true)))
    else if Strip(r.sku) == "" then Err(BlankIdentifier)
    else if product.Missing? || !product.active || !product.available then Err(ProductUnavailable)
    else if eventId in t.views then Err(IntegrityError)
    else if Strip(r.customerId) == "" || Strip(r.sessionId) == "" then Err(BlankIdentifier)
    else
      var x := TripleOf(r);
      var staged := t.(views := t.views[eventId := x]);
      var count := |ViewsOf(staged, x)|;
      var fires := product.premium && count == TRIGGER_COUNT;
      if fires && outboxId in t.outbox then Err(IntegrityError)
      else if id in t.receipts then Err(IntegrityError)
      else
        var receipt := Receipt(
          r.customerId, r.idempotencyKey, r.sessionId, r.fingerprint, eventId, x.sku, count, product.premium, fires,
          if fires then Some(outboxId) else None, PROCESSING, None);
        var outbox :=
          if fires then t.outbox[outboxId := TriggerRow(r.customerId, r.sessionId, x.sku, eventId, count)]
            else t.outbox;
        Ok((Tables(staged.views, t.receipts[id := receipt], outbox), Recorded(id, receipt, false)))
  }

  function Complete(t: Tables, receiptId: string, response: string): Result<Tables, EngagementError> {
    if receiptId !in t.receipts then Err(ReceiptNotFound)
    else
      Ok(t.(receipts :=
        t.receipts[receiptId := t.receipts[receiptId].(status := COMPLETED, response := Some(response))]))
  }

  // ---------------------------------------------------------------- runs

  /** `log` lists the receipts in commit order. */
  datatype State = State(t: Tables, log: seq<Receipt>)

  datatype Label =
    | View(r: ViewRequest, product: Lookup, eventId: string, outboxId: string)
    | Answer(receiptId: string, response: string)
    | OtherView(otherId: string, triple: Triple)

  /** One committed transaction, of this service or of another writer of views; a rolled back or
      crashed one changes nothing and has no label. */
  function Step(s: State, l: Label): State {
    match l
    case View(r, product, eventId, outboxId) =>
      (match RecordView(s.t, r, product, eventId, outboxId)
       case Ok(pair) => State(pair.0, if pair.1.replayed then s.log else s.log + [pair.1.receipt])
       case Err(_) => s)
    case Answer(receiptId, response) =>
      (match Complete(s.t, receiptId, response)
       case Ok(t') => s.(t := t')
       case Err(_) => s)
    case OtherView(id, x) => if id in s.t.views then s else s.(t := s.t.(views := s.t.views[id := x]))
  }

  function Exec(s: State, labels: seq<Label>): State
    decreases |labels|
  {
    if labels == [] then s else Exec(Step(s, labels[0]), labels[1..])
  }

  /** The counts of a triple's receipts, in commit order. */
  ghost function CountsOf(log: seq<Receipt>, x: Triple): seq<nat> {
    if log == [] then []
    else
      CountsOf(log[..|log| - 1], x) +
      if ReceiptTriple(log[|log| - 1]) == x then [log[|log| - 1].count] else []
  }

  lemma CountsAppend(log: seq<Receipt>, r: Receipt, x: Triple)
    ensures CountsOf(log + [r], x) == CountsOf(log, x) + if ReceiptTriple(r) == x then [r.count] else []
  {
    assert (log + [r])[..|log|] == log;
  }

  /** The logged receipt that this trigger row was committed with. */
  ghost predicate Explains(row: TriggerRow, id: string, r: Receipt) {
    && r.outboxId == Some(id) && r.premium && r.eventId == row.eventId && r.count == row.viewCount == TRIGGER_COUNT
    && ReceiptTriple(r) == RowTriple(row)
  }

  ghost predicate ReceiptsKeyed(t: Tables) {
    forall id :: id in t.receipts ==> ReceiptId(t.receipts[id].customerId, t.receipts[id].idempotencyKey) == id
  }

  ghost predicate TriggersLogged(s: State) {
    forall id :: id in s.t.outbox ==> exists i :: 0 <= i < |s.log| && Explains(s.t.outbox[id], id, s.log[i])
  }

  ghost predicate Counted(s: State) {
    && (forall i, j :: 0 <= i < j < |s.log| && ReceiptTriple(s.log[i]) == ReceiptTriple(s.log[j]) ==>
          s.log[i].count < s.log[j].count)
    && (forall i :: 0 <= i < |s.log| ==> s.log[i].count <= |ViewsOf(s.t, ReceiptTriple(s.log[i]))|)
  }

  ghost predicate Fired(s: State) {
    forall i :: 0 <= i < |s.log| && s.log[i].premium && s.log[i].count == TRIGGER_COUNT ==>
      s.log[i].outboxId.Some? && s.log[i].outboxId.value in s.t.outbox &&
      Explains(s.t.outbox[s.log[i].outboxId.value], s.log[i].outboxId.value, s.log[i])
  }

  ghost predicate Inv(s: State) {
    ReceiptsKeyed(s.t) && TriggersLogged(s) && Fired(s) && Counted(s)
  }

  /** What a run never changes: views, and every field of a receipt but its answer. */
  ghost predicate Extends(a: State, b: State) {
    && (forall id :: id in a.t.views ==> id in b.t.views && b.t.views[id] == a.t.views[id])
    && (forall id :: id in a.t.outbox ==> id in b.t.outbox && b.t.outbox[id] == a.t.outbox[id])
    && (forall id :: id in a.t.receipts ==>
          id in b.t.receipts && SameReceipt(a.t.receipts[id], b.t.receipts[id]))
    && |a.log| <= |b.log| && b.log[..|a.log|] == a.log
  }

  /** A new view counts one more for its own triple, and nothing for others. */
  lemma OneMoreView(t: Tables, id: string, x: Triple, y: Triple)
    requires id !in t.views
    ensures |ViewsOf(t.(views := t.views[id := x]), y)| == |ViewsOf(t, y)| + if x == y then 1 else 0
  {
    assert ViewsOf(t.(views := t.views[id := x]), y) == ViewsOf(t, y) + if x == y then {id} else {};
  }

  /** One committed first submission: view, receipt, and trigger row when it fires. */
  ghost predicate Committed(s: State, s': State, eventId: string, id: string, r: Receipt) {
    && eventId !in s.t.views && id !in s.t.receipts && id == ReceiptId(r.customerId, r.idempotencyKey)
    && r.eventId == eventId && s'.log == s.log + [r] && s'.t.receipts == s.t.receipts[id := r]
    && r.sku == ReceiptTriple(r).sku
    && s'.t.views == s.t.views[eventId := ReceiptTriple(r)]
    && r.count == |ViewsOf(s.t, ReceiptTriple(r))| + 1
    && r.trigger == (r.premium && r.count == TRIGGER_COUNT) == r.outboxId.Some?
    && if r.outboxId.None? then s'.t.outbox == s.t.outbox
       else
         && r.outboxId.value !in s.t.outbox
         && s'.t.outbox ==
           s.t.outbox[r.outboxId.value := TriggerRow(r.customerId, r.sessionId, r.sku, eventId, r.count)]
  }

  lemma ViewCommits(s: State, l: Label)
    requires l.View? && Step(s, l) != s
    ensures
      var outcome := RecordView(s.t, l.r, l.product, l.eventId, l.outboxId);
      outcome.Ok? && ReceiptTriple(outcome.value.1.receipt) == TripleOf(l.r) &&
      Committed(s, Step(s, l), l.eventId, outcome.value.1.receiptId, outcome.value.1.receipt)
  {
    StripIdempotent(l.r.sku);
    OneMoreView(s.t, l.eventId, TripleOf(l.r), TripleOf(l.r));
  }

  lemma CommittedViews(s: State, s': State, eventId: string, id: string, r: Receipt, y: Triple)
    requires Committed(s, s', eventId, id, r)
    ensures |ViewsOf(s'.t, y)| == |ViewsOf(s.t, y)| + if ReceiptTriple(r) == y then 1 else 0
  {
    OneMoreView(s.t, eventId, ReceiptTriple(r), y);
    assert ViewsOf(s'.t, y) == ViewsOf(s.t.(views := s'.t.views), y);
  }

  lemma CommittedCounted(s: State, s': State, eventId: string, id: string, r: Receipt)
    requires Committed(s, s', eventId, id, r) && Counted(s)
    ensures Counted(s')
  {
    forall i | 0 <= i < |s'.log| ensures s'.log[i].count <= |ViewsOf(s'.t, ReceiptTriple(s'.log[i]))| {
      CommittedViews(s, s', eventId, id, r, ReceiptTriple(s'.log[i]));
    }
  }

  lemma CommittedLogged(s: State, s': State, eventId: string, id: string, r: Receipt)
    requires Committed(s, s', eventId, id, r) && TriggersLogged(s)
    ensures TriggersLogged(s')
  {
    forall o | o in s'.t.outbox ensures exists i :: 0 <= i < |s'.log| && Explains(s'.t.outbox[o], o, s'.log[i]) {
      if o in s.t.outbox {
        var i :| 0 <= i < |s.log| && Explains(s.t.outbox[o], o, s.log[i]);
        assert s'.log[i] == s.log[i];
      } else {
        assert Explains(s'.t.outbox[o], o, s'.log[|s.log|]);
      }
    }
  }

  lemma CommittedFired(s: State, s': State, eventId: string, id: string, r: Receipt)
    requires Committed(s, s', eventId, id, r) && Fired(s)
    ensures Fired(s')
  {
    forall i | 0 <= i < |s'.log| && s'.log[i].premium && s'.log[i].count == TRIGGER_COUNT
      ensures
        && s'.log[i].outboxId.Some? && s'.log[i].outboxId.value in s'.t.outbox
        && Explains(s'.t.outbox[s'.log[i].outboxId.value], s'.log[i].outboxId.value, s'.log[i])
    {
      if i < |s.log| { assert s'.log[i] == s.log[i]; } else { assert s'.log[i] == r; }
    }
  }

  lemma CommittedExtends(s: State, s': State, eventId: string, id: string, r: Receipt)
    requires Committed(s, s', eventId, id, r)
    ensures Extends(s, s')
  {
    forall k | k in s.t.views ensures k in s'.t.views && s'.t.views[k] == s.t.views[k] {
    }
    forall k | k in s.t.outbox ensures k in s'.t.outbox && s'.t.outbox[k] == s.t.outbox[k] {
    }
  }

  lemma CommittedKeeps(s: State, s': State, eventId: string, id: string, r: Receipt)
    requires Committed(s, s', eventId, id, r) && Inv(s)
    ensures Inv(s') && Extends(s, s')
  {
    CommittedCounted(s, s', eventId, id, r);
    CommittedLogged(s, s', eventId, id, r);
    CommittedFired(s, s', eventId, id, r);
    CommittedExtends(s, s', eventId, id, r);
    assert ReceiptsKeyed(s'.t) by {
      assert s'.t.receipts == s.t.receipts[id := r];
    }
  }

  lemma AnswerKeeps(s: State, l: Label)
    requires Inv(s) && l.Answer?
    ensures Inv(Step(s, l)) && Extends(s, Step(s, l))
  {
    var s' := Step(s, l);
    assert forall x :: ViewsOf(s'.t, x) == ViewsOf(s.t, x);
    MoreViewsCounted(s, s');
  }

  lemma MoreViewsCounted(s: State, s': State)
    requires Counted(s) && s'.log == s.log && forall x :: |ViewsOf(s.t, x)| <= |ViewsOf(s'.t, x)|
    ensures Counted(s')
  {
    forall i | 0 <= i < |s.log| ensures s'.log[i].count <= |ViewsOf(s'.t, ReceiptTriple(s'.log[i]))| {
      assert s.log[i].count <= |ViewsOf(s.t, ReceiptTriple(s.log[i]))|;
    }
  }

  lemma OtherViewKeeps(s: State, l: Label)
    requires Inv(s) && l.OtherView?
    ensures Inv(Step(s, l)) && Extends(s, Step(s, l))
  {
    if l.otherId !in s.t.views {
      var s' := Step(s, l);
      forall y ensures |ViewsOf(s.t, y)| <= |ViewsOf(s'.t, y)| { OneMoreView(s.t, l.otherId, l.triple, y); }
      MoreViewsCounted(s, s');
    }
  }

  lemma StepKeepsInv(s: State, l: Label)
    requires Inv(s)
    ensures Inv(Step(s, l)) && Extends(s, Step(s, l))
  {
    match l {
      case View(r, product, eventId, outboxId) =>
        if Step(s, l) != s {
          ViewCommits(s, l);
          var outcome := RecordView(s.t, r, product, eventId, outboxId).value.1;
          CommittedKeeps(s, Step(s, l), eventId, outcome.receiptId, outcome.receipt);
        }
      case Answer(_, _) => AnswerKeeps(s, l);
      case OtherView(_, _) => OtherViewKeeps(s, l);
    }
  }

  lemma ExtendsOn(a: State, b: State, c: State)
    requires Extends(a, b) && Extends(b, c)
    ensures Extends(a, c)
  {
    assert c.log[..|a.log|] == c.log[..|b.log|][..|a.log|];
    forall id | id in a.t.receipts ensures id in c.t.receipts && SameReceipt(a.t.receipts[id], c.t.receipts[id]) {
      assert SameReceipt(a.t.receipts[id], b.t.receipts[id]) && SameReceipt(b.t.receipts[id], c.t.receipts[id]);
    }
  }

  lemma {:induction false} RunKeepsInv(s: State, labels: seq<Label>)
    requires Inv(s)
    ensures Inv(Exec(s, labels)) && Extends(s, Exec(s, labels))
    decreases |labels|
  {
    if labels != [] {
      StepKeepsInv(s, labels[0]);
      RunKeepsInv(Step(s, labels[0]), labels[1..]);
      ExtendsOn(s, Step(s, labels[0]), Exec(Step(s, labels[0]), labels[1..]));
    }
  }

  /** Any views may be seeded; nothing of this service is stored yet. */
  ghost predicate Initial(s: State) {
    s.t.receipts == map[] && s.t.outbox == map[] && s.log == []
  }

  // ---------------------------------------------------------------- every run

  /** At most one trigger row per customer, session and product over every run, whatever views other
      writers add and however often clients retry. */
  lemma AtMostOneTrigger(s0: State, labels: seq<Label>, a: string, b: string)
    requires Initial(s0)
    requires a in Exec(s0, labels).t.outbox && b in Exec(s0, labels).t.outbox
    requires RowTriple(Exec(s0, labels).t.outbox[a]) == RowTriple(Exec(s0, labels).t.outbox[b])
    ensures a == b
  {
    RunKeepsInv(s0, labels);
    var s := Exec(s0, labels);
    var i :| 0 <= i < |s.log| && Explains(s.t.outbox[a], a, s.log[i]);
    var j :| 0 <= j < |s.log| && Explains(s.t.outbox[b], b, s.log[j]);
  }

  /** A triple has a trigger row exactly when its third view was submitted here for a premium product. */
  lemma TriggerIff(s0: State, labels: seq<Label>, x: Triple)
    requires Initial(s0)
    ensures
      var s := Exec(s0, labels);
      (exists id :: id in s.t.outbox && RowTriple(s.t.outbox[id]) == x) <==>
      (exists r :: r in s.log && ReceiptTriple(r) == x && r.premium && r.count == TRIGGER_COUNT)
  {
    RunKeepsInv(s0, labels);
    var s := Exec(s0, labels);
    if id :| id in s.t.outbox && RowTriple(s.t.outbox[id]) == x {
      var i :| 0 <= i < |s.log| && Explains(s.t.outbox[id], id, s.log[i]);
      assert s.log[i] in s.log;
    }
    if r :| r in s.log && ReceiptTriple(r) == x && r.premium && r.count == TRIGGER_COUNT {
      var i :| 0 <= i < |s.log| && s.log[i] == r;
      assert RowTriple(s.t.outbox[r.outboxId.value]) == x;
    }
  }

  /** The recorded receipt, with whatever answer it has been given since. */
  ghost predicate SameReceipt(a: Receipt, b: Receipt) {
    b == a.(status := b.status, response := b.response)
  }

  lemma RecordStores(s: State, r: ViewRequest, product: Lookup, eventId: string, outboxId: string)
    requires RecordView(s.t, r, product, eventId, outboxId).Ok?
    ensures
      var first := RecordView(s.t, r, product, eventId, outboxId).value.1;
      && first.receiptId == ReceiptId(r.customerId, r.idempotencyKey) && first.receipt.fingerprint == r.fingerprint
      && FindReceipt(Step(s, View(r, product, eventId, outboxId)).t, r.customerId, r.idempotencyKey) ==
        Some(first.receipt)
  {
  }

  lemma FoundAgain(a: State, b: State, customerId: string, key: string)
    requires Extends(a, b) && FindReceipt(a.t, customerId, key).Some?
    ensures FindReceipt(b.t, customerId, key).Some?
    ensures SameReceipt(FindReceipt(a.t, customerId, key).value, FindReceipt(b.t, customerId, key).value)
  {
  }

  /** A repeated submission adds no view, receipt or trigger row, and names the recorded ones; the
      same key with another payload is refused. */
  lemma ReplayAddsNothing(
    s0: State, before: seq<Label>, r: ViewRequest, product: Lookup, eventId: string, outboxId: string,
    between: seq<Label>, r': ViewRequest, product': Lookup, eventId': string, outboxId': string)
    requires Initial(s0)
    requires RecordView(Exec(s0, before).t, r, product, eventId, outboxId).Ok?
    requires r'.customerId == r.customerId && r'.idempotencyKey == r.idempotencyKey
    ensures
      var first := RecordView(Exec(s0, before).t, r, product, eventId, outboxId).value.1;
      var s := Exec(Step(Exec(s0, before), View(r, product, eventId, outboxId)), between);
      var again := RecordView(s.t, r', product', eventId', outboxId');
      && (again.Ok? <==> r'.fingerprint == first.receipt.fingerprint)
      && (again.Ok? ==> again.value.0 == s.t)
      && (again.Ok? ==> again.value.1.replayed && again.value.1.receiptId == first.receiptId)
      && (again.Ok? ==> SameReceipt(first.receipt, again.value.1.receipt))
  {
    var s1 := Exec(s0, before);
    RunKeepsInv(s0, before);
    var s2 := Step(s1, View(r, product, eventId, outboxId));
    StepKeepsInv(s1, View(r, product, eventId, outboxId));
    RecordStores(s1, r, product, eventId, outboxId);
    RunKeepsInv(s2, between);
    FoundAgain(s2, Exec(s2, between), r.customerId, r.idempotencyKey);
  }

  function From(base: nat, n: nat): (r: seq<nat>)
    ensures |r| == n && forall i :: 0 <= i < n ==> r[i] == base + i + 1
  {
    if n == 0 then [] else From(base, n - 1) + [base + n]
  }

  /** No other writer adds views of this triple. */
  ghost predicate SoleWriter(labels: seq<Label>, x: Triple) {
    forall l :: l in labels && l.OtherView? ==> l.triple != x
  }

  lemma StepCounts(s: State, l: Label, x: Triple)
    requires !(l.OtherView? && l.triple == x)
    ensures
      var s' := Step(s, l);
      || (CountsOf(s'.log, x) == CountsOf(s.log, x) && |ViewsOf(s'.t, x)| == |ViewsOf(s.t, x)|)
      || (CountsOf(s'.log, x) == CountsOf(s.log, x) + [|ViewsOf(s.t, x)| + 1] &&
        |ViewsOf(s'.t, x)| == |ViewsOf(s.t, x)| + 1)
  {
    var s' := Step(s, l);
    if s' != s {
      match l {
        case View(r, product, eventId, outboxId) =>
          var outcome := RecordView(s.t, r, product, eventId, outboxId).value.1;
          ViewCommits(s, l);
          CountsAppend(s.log, outcome.receipt, x);
          CommittedViews(s, s', eventId, outcome.receiptId, outcome.receipt, x);
        case Answer(_, _) => assert ViewsOf(s'.t, x) == ViewsOf(s.t, x);
        case OtherView(id, y) => OneMoreView(s.t, id, y, x);
      }
    }
  }

  /** The triple's receipts carry base+1 .. and its views number base plus them. */
  ghost predicate Consecutive(s: State, x: Triple, base: nat) {
    && CountsOf(s.log, x) == From(base, |CountsOf(s.log, x)|)
    && |ViewsOf(s.t, x)| == base + |CountsOf(s.log, x)|
  }

  lemma StepConsecutive(s: State, l: Label, x: Triple, base: nat)
    requires Consecutive(s, x, base) && !(l.OtherView? && l.triple == x)
    ensures Consecutive(Step(s, l), x, base)
  {
    StepCounts(s, l, x);
  }

  lemma {:induction false} RunCounts(s: State, labels: seq<Label>, x: Triple, base: nat)
    requires SoleWriter(labels, x) && Consecutive(s, x, base)
    ensures Consecutive(Exec(s, labels), x, base)
    decreases |labels|
  {
    if labels != [] {
      StepConsecutive(s, labels[0], x, base);
      RunCounts(Step(s, labels[0]), labels[1..], x, base);
    }
  }

  /** When this service alone writes views of a triple, its receipts carry base+1 .. base+n in commit
      order, where base counts the views that were there before. */
  lemma CountsAreConsecutive(s0: State, labels: seq<Label>, x: Triple)
    requires Initial(s0) && SoleWriter(labels, x)
    ensures
      var s := Exec(s0, labels);
      CountsOf(s.log, x) == From(|ViewsOf(s0.t, x)|, |CountsOf(s.log, x)|)
  {
    RunCounts(s0, labels, x, |ViewsOf(s0.t, x)|);
  }

  /** The service itself; its session commits exactly when a method returns Ok. */
  class EngagementEventService {
    var views: map<string, Triple>
    var receipts: map<string, Receipt>
    var outbox: map<string, TriggerRow>

    constructor ()
      ensures Contents() == Tables(map[], map[], map[])
    {
      views, receipts, outbox := map[], map[], map[];
    }

    function Contents(): Tables
      reads this
    {
      Tables(views, receipts, outbox)
    }

    method RecordProductView(r: ViewRequest, product: Lookup, eventId: string, outboxId: string)
      returns (recorded: Result<Recorded, EngagementError>)
      modifies this
      ensures
        match RecordView(old(Contents()), r, product, eventId, outboxId)
        case Ok(pair) => recorded == Ok(pair.1) && Contents() == pair.0
        case Err(error) => recorded == Err(error) && Contents() == old(Contents())
    {
      var id := ReceiptId(r.customerId, r.idempotencyKey);
      var existing := FindReceipt(Contents(), r.customerId, r.idempotencyKey);
      if existing.Some? {
        if existing.value.fingerprint != r.fingerprint { return Err(IdempotencyConflict); }
        return Ok(Recorded(id, existing.value, true));
      }
      if Strip(r.sku) == "" { return Err(BlankIdentifier); }
      if product.Missing? || !product.active || !product.available { return Err(ProductUnavailable); }
      if eventId in views { return Err(IntegrityError); }
      var committed := Contents();
      views := views[eventId := TripleOf(r)];
      if Strip(r.customerId) == "" || Strip(r.sessionId) == "" {
        views := committed.views;
        return Err(BlankIdentifier);
      }
      var count := |ViewsOf(Contents(), TripleOf(r))|;
      var trigger: Option<string> := None;
      if product.premium && count == TRIGGER_COUNT {
        if outboxId in outbox {
          views := committed.views;
          return Err(IntegrityError);
        }
        trigger := Some(outboxId);
        outbox := outbox[outboxId := TriggerRow(r.customerId, r.sessionId, Strip(r.sku), eventId, count)];
      }
      if id in receipts {
        views, outbox := committed.views, committed.outbox;
        return Err(IntegrityError);
      }
      var receipt := Receipt(
        r.customerId, r.idempotencyKey, r.sessionId, r.fingerprint, eventId, Strip(r.sku), count, product.premium,
        trigger.Some?, trigger, PROCESSING, None);
      receipts := receipts[id := receipt];
      recorded := Ok(Recorded(id, receipt, false));
    }

    method CompleteReceipt(receiptId: string, response: string) returns (r: Result<(), EngagementError>)
      modifies this
      ensures
        match Complete(old(Contents()), receiptId, response)
        case Ok(t) => r == Ok(()) && Contents() == t
        case Err(error) => r == Err(error) && Contents() == old(Contents())
    {
      if receiptId !in receipts { return Err(ReceiptNotFound); }
      receipts := receipts[receiptId := receipts[receiptId].(status := COMPLETED, response := Some(response))];
      r := Ok(());
    }
  }
}
