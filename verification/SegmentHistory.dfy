/** The audit trail of one customer: chained rows, one-way loyalty, counted versions. */
module SegmentHistory {
  import opened Basics
  import opened SegmentClassifier
  import opened CommerceEvents
  import opened PurchaseRuns

  function HistoryOf(h: seq<HistoryRow>, customerId: string): seq<HistoryRow> {
    if h == [] then []
    else
      HistoryOf(h[..|h| - 1], customerId) +
      if h[|h| - 1].customerId == customerId then [h[|h| - 1]] else []
  }

  lemma HistoryOfAppend(h: seq<HistoryRow>, row: HistoryRow, customerId: string)
    ensures HistoryOf(h + [row], customerId) ==
      HistoryOf(h, customerId) + if row.customerId == customerId then [row] else []
  {
    assert (h + [row])[..|h|] == h;
  }

  ghost function PurchasesOf(s: Store, customerId: string): set<string> {
    set id | id in s.inbox && s.inbox[id].payload.customerId == customerId
  }

  /** Each row starts where the one before it ended. */
  ghost predicate Chained(rows: seq<HistoryRow>) {
    forall i :: 0 <= i < |rows| - 1 ==>
      && rows[i + 1].previousSegment == Some(Canonical(rows[i].newSegment))
      && rows[i + 1].previousLoyalty == rows[i].newLoyalty
  }

  /** Replaying the rows from the starting customer gives the current one. */
  ghost predicate ReplaysTo(start: Customer, rows: seq<HistoryRow>, end: Customer) {
    if rows == [] then
      end.segment == start.segment && NormalizeLoyalty(end.loyalty) == NormalizeLoyalty(start.loyalty)
    else
      && rows[0].previousSegment == start.segment
      && Some(rows[0].previousLoyalty) == NormalizeLoyalty(start.loyalty)
      && end.segment == Some(Canonical(rows[|rows| - 1].newSegment))
      && NormalizeLoyalty(end.loyalty) == Some(rows[|rows| - 1].newLoyalty)
  }

  ghost predicate Versioned(start: Customer, purchases: nat, end: Customer) {
    end.profileVersion == if purchases == 0 then start.profileVersion else Max(start.profileVersion, 1) + purchases
  }

  /** The stored segment is what the classifier gives the stored facts. */
  ghost predicate Consistent(c: Customer) {
    NormalizeLoyalty(c.loyalty).Some? &&
    Classify(c.affluence, NormalizeLoyalty(c.loyalty).value).Some? &&
    c.segment == Some(Canonical(Classify(c.affluence, NormalizeLoyalty(c.loyalty).value).value))
  }

  /** How many history rows a customer can still cause without a change of affluence. */
  ghost function Slack(c: Customer): nat {
    (if NormalizeLoyalty(c.loyalty) == Some(Loyal) then 0 else 1) + (if Consistent(c) then 0 else 1)
  }

  /** What one committed purchase does to its customer, in the classifier's terms. */
  ghost predicate Transitions(c: Customer, t: Transition, c': Customer) {
    && NormalizeLoyalty(c.loyalty) == Some(t.previousLoyalty) && c.segment == t.previousSegment
    && NormalizeLoyalty(c'.loyalty) == Some(t.newLoyalty) && c'.segment == Some(Canonical(t.newSegment))
    && Classify(c.affluence, t.newLoyalty) == Some(t.newSegment) && c'.affluence == c.affluence
    && (t.previousLoyalty == Loyal ==> t.newLoyalty == Loyal)
    && t.changed == (c.segment != c'.segment || t.previousLoyalty != t.newLoyalty)
    && c'.profileVersion == Max(c.profileVersion, 1) + 1
  }

  lemma CommitTransitions(s: Store, e: PurchaseEvent, policy: Policy, outboxId: string, s': Store, r: PurchaseResult)
    requires Committed(s, e, outboxId, s', r) && Evaluated(s, e, policy, s', r)
    ensures Transitions(s.customers[e.customerId], r.transition, s'.customers[e.customerId])
  {
    StoredLoyaltyReadsBack(r.transition.newLoyalty);
  }

  /** After any recorded purchase the segment is the classifier's value and loyalty has not
      reverted; the customer turns loyal exactly at the rolling-window threshold. */
  lemma PurchaseSettlesSegment(s: Store, e: PurchaseEvent, policy: Policy, outboxId: string)
    requires Record(s, e, policy, outboxId).Ok?
    ensures
      var s', r := Record(s, e, policy, outboxId).value.0, Record(s, e, policy, outboxId).value.1;
      var c, c' := s.customers[e.customerId], s'.customers[e.customerId];
      && Consistent(c')
      && (NormalizeLoyalty(c'.loyalty) == Some(Loyal) <==>
            NormalizeLoyalty(c.loyalty) == Some(Loyal) || r.purchaseCount >= policy.threshold)
  {
    RecordCommits(s, e, policy, outboxId);
    var s', r := Record(s, e, policy, outboxId).value.0, Record(s, e, policy, outboxId).value.1;
    CommitTransitions(s, e, policy, outboxId, s', r);
  }

  // ---------------------------------------------------------------- every run

  ghost predicate Traced(s0: Store, s: Store, id: string) {
    && id in s0.customers && id in s.customers
    && Chained(HistoryOf(s.history, id))
    && ReplaysTo(s0.customers[id], HistoryOf(s.history, id), s.customers[id])
    && Versioned(s0.customers[id], |PurchasesOf(s, id)|, s.customers[id])
  }

  ghost function AffluenceUpdates(rs: seq<Request>, id: string): nat {
    if rs == [] then 0
    else
      var last := rs[|rs| - 1];
      AffluenceUpdates(rs[..|rs| - 1], id) + if last.SetAffluence? && last.customerId == id then 1 else 0
  }

  lemma ReplayExtends(start: Customer, rows: seq<HistoryRow>, c: Customer, t: Transition, c': Customer, row: HistoryRow)
    requires Chained(rows) && ReplaysTo(start, rows, c) && Transitions(c, t, c')
    requires row.previousSegment == t.previousSegment && row.newSegment == t.newSegment
    requires row.previousLoyalty == t.previousLoyalty && row.newLoyalty == t.newLoyalty
    ensures t.changed ==> Chained(rows + [row]) && ReplaysTo(start, rows + [row], c')
    ensures !t.changed ==> ReplaysTo(start, rows, c')
  {
  }

  lemma SlackPaysForRow(c: Customer, t: Transition, c': Customer)
    requires Transitions(c, t, c')
    ensures (if t.changed then 1 else 0) + Slack(c') <= Slack(c)
  {
  }

  lemma OwnHistory(s: Store, e: PurchaseEvent, outboxId: string, s': Store, r: PurchaseResult, row: HistoryRow)
    requires Committed(s, e, outboxId, s', r)
    requires row == HistoryRow(e.customerId, r.transition.previousSegment, r.transition.newSegment,
      r.transition.previousLoyalty, r.transition.newLoyalty, r.purchaseCount, e.eventId)
    ensures HistoryOf(s'.history, e.customerId) ==
      if r.transition.changed then HistoryOf(s.history, e.customerId) + [row] else HistoryOf(s.history, e.customerId)
  {
    HistoryOfAppend(s.history, row, e.customerId);
  }

  lemma OwnPurchaseCounted(s: Store, e: PurchaseEvent, outboxId: string, s': Store, r: PurchaseResult)
    requires Committed(s, e, outboxId, s', r) && e.eventId !in s.inbox
    ensures |PurchasesOf(s', e.customerId)| == |PurchasesOf(s, e.customerId)| + 1
  {
    assert PurchasesOf(s', e.customerId) == PurchasesOf(s, e.customerId) + {e.eventId};
  }

  lemma OwnPurchaseTraced(s0: Store, s: Store, e: PurchaseEvent, outboxId: string, s': Store, r: PurchaseResult)
    requires Traced(s0, s, e.customerId) && e.eventId !in s.inbox
    requires Committed(s, e, outboxId, s', r)
    requires Transitions(s.customers[e.customerId], r.transition, s'.customers[e.customerId])
    ensures Traced(s0, s', e.customerId)
    ensures |HistoryOf(s'.history, e.customerId)| + Slack(s'.customers[e.customerId])
         <= |HistoryOf(s.history, e.customerId)| + Slack(s.customers[e.customerId])
  {
    var id, t := e.customerId, r.transition;
    var rows := HistoryOf(s.history, id);
    var row := HistoryRow(id, t.previousSegment, t.newSegment, t.previousLoyalty, t.newLoyalty, r.purchaseCount,
      e.eventId);
    ReplayExtends(s0.customers[id], rows, s.customers[id], t, s'.customers[id], row);
    SlackPaysForRow(s.customers[id], t, s'.customers[id]);
    OwnHistory(s, e, outboxId, s', r, row);
    OwnPurchaseCounted(s, e, outboxId, s', r);
  }

  lemma OtherPurchaseTraced(
    s0: Store, s: Store, e: PurchaseEvent, outboxId: string, s': Store, r: PurchaseResult, id: string)
    requires Traced(s0, s, id) && e.eventId !in s.inbox && e.customerId != id
    requires Committed(s, e, outboxId, s', r)
    ensures Traced(s0, s', id)
    ensures HistoryOf(s'.history, id) == HistoryOf(s.history, id) && s'.customers[id] == s.customers[id]
  {
    if r.transition.changed {
      HistoryOfAppend(s.history, s'.history[|s.history|], id);
    }
    assert PurchasesOf(s', id) == PurchasesOf(s, id);
  }

  lemma AffluenceOnly(s: Store, r: Request, id: string)
    requires r.SetAffluence? && id in s.customers
    ensures
      var s' := Serve(s, r);
      && s' == s.(customers := s'.customers) && id in s'.customers
      && s'.customers[id].(affluence := s.customers[id].affluence) == s.customers[id]
      && (r.customerId != id ==> s'.customers[id] == s.customers[id])
  {
  }

  lemma AffluenceTraced(s0: Store, s: Store, s': Store, id: string)
    requires Traced(s0, s, id) && s' == s.(customers := s'.customers) && id in s'.customers
    requires s'.customers[id].(affluence := s.customers[id].affluence) == s.customers[id]
    ensures Traced(s0, s', id)
  {
    assert PurchasesOf(s', id) == PurchasesOf(s, id);
  }

  lemma SubmitTraced(s0: Store, s: Store, r: Request, id: string)
    requires Traced(s0, s, id) && r.Submit?
    ensures
      var s' := Serve(s, r);
      && Traced(s0, s', id)
      && (NormalizeLoyalty(s.customers[id].loyalty) == Some(Loyal) ==>
        NormalizeLoyalty(s'.customers[id].loyalty) == Some(Loyal))
      && |HistoryOf(s'.history, id)| + Slack(s'.customers[id]) <= |HistoryOf(s.history, id)| + Slack(s.customers[id])
  {
    var e, s' := r.e, Serve(s, r);
    if r.commits && e.eventId !in s.inbox && Record(s, e, r.policy, r.outboxId).Ok? {
      var result := Record(s, e, r.policy, r.outboxId).value.1;
      RecordCommits(s, e, r.policy, r.outboxId);
      if e.customerId == id {
        CommitTransitions(s, e, r.policy, r.outboxId, s', result);
        OwnPurchaseTraced(s0, s, e, r.outboxId, s', result);
      } else {
        OtherPurchaseTraced(s0, s, e, r.outboxId, s', result, id);
      }
    } else {
      assert s' == s;
    }
  }

  lemma ServeTraced(s0: Store, s: Store, r: Request, id: string)
    requires Traced(s0, s, id)
    ensures
      var s' := Serve(s, r);
      && Traced(s0, s', id)
      && (NormalizeLoyalty(s.customers[id].loyalty) == Some(Loyal) ==>
        NormalizeLoyalty(s'.customers[id].loyalty) == Some(Loyal))
      && |HistoryOf(s'.history, id)| + Slack(s'.customers[id])
         <= |HistoryOf(s.history, id)| + Slack(s.customers[id]) + if r.SetAffluence? && r.customerId == id then 1 else 0
  {
    if r.Submit? {
      SubmitTraced(s0, s, r, id);
    } else {
      AffluenceOnly(s, r, id);
      AffluenceTraced(s0, s, Serve(s, r), id);
    }
  }

  /** Over every run, in commit order: the customer's history rows chain from the starting facts
      to the current ones, the profile version counts the recorded purchases, and the rows are at
      most two plus the number of affluence corrections. */
  lemma {:induction false} HistoryReplays(s0: Store, rs: seq<Request>, id: string)
    requires Fresh(s0) && id in s0.customers
    ensures
      var s := Run(s0, rs);
      && Traced(s0, s, id)
      && |HistoryOf(s.history, id)| + Slack(s.customers[id]) <= 2 + AffluenceUpdates(rs, id)
  {
    if rs == [] {
      assert PurchasesOf(s0, id) == {};
    } else {
      HistoryReplays(s0, rs[..|rs| - 1], id);
      ServeTraced(s0, Run(s0, rs[..|rs| - 1]), rs[|rs| - 1], id);
    }
  }

  ghost predicate IsLoyal(s: Store, id: string) {
    id in s.customers && NormalizeLoyalty(s.customers[id].loyalty) == Some(Loyal)
  }

  lemma LoyalStep(s0: Store, s: Store, r: Request, id: string)
    requires Traced(s0, s, id) && IsLoyal(s, id)
    ensures IsLoyal(Serve(s, r), id)
  {
    ServeTraced(s0, s, r, id);
  }

  lemma RunTraced(s0: Store, rs: seq<Request>, id: string)
    requires Fresh(s0) && id in s0.customers
    ensures Traced(s0, Run(s0, rs), id)
  {
    HistoryReplays(s0, rs, id);
  }

  lemma LastRequest(s0: Store, before: seq<Request>, after: seq<Request>)
    requires after != []
    ensures Run(s0, before + after) == Serve(Run(s0, before + after[..|after| - 1]), after[|after| - 1])
  {
    assert (before + after)[..|before + after| - 1] == before + after[..|after| - 1];
  }

  /** A loyal customer stays loyal, whatever is submitted or corrected later. */
  lemma {:induction false} LoyalNeverReverts(s0: Store, before: seq<Request>, after: seq<Request>, id: string)
    requires Fresh(s0) && id in s0.customers && IsLoyal(Run(s0, before), id)
    ensures IsLoyal(Run(s0, before + after), id)
    decreases |after|
  {
    if after == [] {
      assert before + after == before;
    } else {
      var front := after[..|after| - 1];
      LoyalNeverReverts(s0, before, front, id);
      RunTraced(s0, before + front, id);
      LoyalStep(s0, Run(s0, before + front), after[|after| - 1], id);
      LastRequest(s0, before, after);
    }
  }
}
