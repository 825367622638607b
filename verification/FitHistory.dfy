/** Risk over the purchase history: the return rate, and when one more returned line lowers a score. */
module FitHistory {
  import opened Basics
  import opened Calendar
  import opened FitEvidence
  import opened FitCalculator
  import opened FitProperties
  import opened Rounding
  import TextStrip

  // ---------------------------------------------------------------- the history

  /** A line's return record. The owner column and the date may be empty; dates count days. */
  datatype ReturnRow = ReturnRow(
    customerId: Option<string>, on: Option<int>, reason: ReturnReason, exchangeSize: Option<string>)

  /** One of the customer's order lines with the columns of its product; times are microseconds. */
  datatype Line = Line(
    id: string, sku: Option<string>, brand: Option<string>, category: Option<string>, size: Option<string>,
    orderedAt: int, returned: Option<ReturnRow>)

  datatype Item = Item(sku: string, brand: string, category: string)

  /** Whose history is read, and when; `cutoff` is twelve months before `now`. */
  datatype Reader = Reader(customerId: string, now: int, cutoff: int)

  predicate SameText(text: Option<string>, other: string) {
    text.Some? && Casefold(text.value) == Casefold(other)
  }

  /** The line is evidence about this product: sized, ordered by now, and close to it in some column. */
  predicate Relevant(l: Line, x: Item, reader: Reader) {
    && l.sku.Some? && Given(l.size) && Seconds(l.orderedAt) <= Seconds(reader.now)
    && (l.sku.value == x.sku || SameText(l.brand, x.brand) || SameText(l.category, x.category))
  }

  /** A return row of any kind makes the line a returned one. */
  function CaseOf(l: Line): Case
    requires l.sku.Some? && l.size.Some?
  {
    match l.returned
    case None => Case(l.id, l.sku.value, l.brand, l.size.value, KEPT, NonFit, None)
    case Some(row) => Case(l.id, l.sku.value, l.brand, l.size.value, RETURNED, row.reason, row.exchangeSize)
  }

  function CasesOf(lines: seq<Line>, x: Item, reader: Reader): seq<Case> {
    if lines == [] then []
    else
      CasesOf(lines[..|lines| - 1], x, reader) +
      if Relevant(lines[|lines| - 1], x, reader) then [CaseOf(lines[|lines| - 1])] else []
  }

  // ---------------------------------------------------------------- the return rate

  /** In the twelve-month purchase window, which compares whole seconds. */
  predicate Recent(l: Line, reader: Reader) {
    Seconds(reader.cutoff) < Seconds(l.orderedAt) <= Seconds(reader.now)
  }

  /** Counted as returned: in the window, with a return row of this customer dated by today. */
  predicate Counted(l: Line, reader: Reader) {
    && Recent(l, reader) && l.returned.Some?
    && l.returned.value.customerId == Some(reader.customerId)
    && l.returned.value.on.Some? && l.returned.value.on.value <= reader.now / (DAY * SECOND)
  }

  function Purchased(lines: seq<Line>, reader: Reader): nat {
    if lines == [] then 0
    else Purchased(lines[..|lines| - 1], reader) + if Recent(lines[|lines| - 1], reader) then 1 else 0
  }

  function Returned(lines: seq<Line>, reader: Reader): (r: nat)
    ensures r <= Purchased(lines, reader)
  {
    if lines == [] then 0
    else Returned(lines[..|lines| - 1], reader) + if Counted(lines[|lines| - 1], reader) then 1 else 0
  }

  function Rate(returned: nat, purchased: nat): real {
    if purchased == 0 then 0.0 else Round3(returned as real / purchased as real)
  }

  /** `get_return_summary(...).return_rate`. */
  function RateOf(lines: seq<Line>, reader: Reader): real {
    Rate(Returned(lines, reader), Purchased(lines, reader))
  }

  lemma {:induction false} CountsConcat(a: seq<Line>, b: seq<Line>, reader: Reader)
    ensures Purchased(a + b, reader) == Purchased(a, reader) + Purchased(b, reader)
    ensures Returned(a + b, reader) == Returned(a, reader) + Returned(b, reader)
    decreases |b|
  {
    if b == [] {
      assert a + b == a;
    } else {
      assert (a + b)[..|a + b| - 1] == a + b[..|b| - 1];
      CountsConcat(a, b[..|b| - 1], reader);
    }
  }

  lemma CountsOne(l: Line, reader: Reader)
    ensures Purchased([l], reader) == if Recent(l, reader) then 1 else 0
    ensures Returned([l], reader) == if Counted(l, reader) then 1 else 0
  {
    assert [l][..0] == [];
  }

  /** The counts of a history with one more line in it. */
  lemma CountsWith(a: seq<Line>, l: Line, b: seq<Line>, reader: Reader)
    ensures Purchased(a + [l] + b, reader) == Purchased(a + b, reader) + if Recent(l, reader) then 1 else 0
    ensures Returned(a + [l] + b, reader) == Returned(a + b, reader) + if Counted(l, reader) then 1 else 0
  {
    CountsOne(l, reader);
    CountsConcat(a, b, reader);
    CountsConcat(a, [l], reader);
    CountsConcat(a + [l], b, reader);
  }

  lemma FractionRises(r: nat, p: nat)
    requires r <= p && p > 0
    ensures r as real / p as real <= (r + 1) as real / (p + 1) as real
  {
    var x, y := r as real / p as real, (r + 1) as real / (p + 1) as real;
    assert x * p as real == r as real && y * (p + 1) as real == (r + 1) as real;
    assert x <= 1.0;
    assert (y - x) * (p + 1) as real == 1.0 - x;
  }

  lemma CountedNeverLowers(r: nat, p: nat)
    requires r <= p
    ensures Rate(r, p) <= Rate(r + 1, p + 1)
  {
    if p == 0 {
      Round3Monotone(0.0, (r + 1) as real / (p + 1) as real);
      RoundsTo(0.0, 0, 0.0);
    } else {
      FractionRises(r, p);
      Round3Monotone(r as real / p as real, (r + 1) as real / (p + 1) as real);
    }
  }

  lemma RateStep(r: nat, p: nat, recent: bool, counted: bool)
    requires r <= p && (counted ==> recent)
    ensures
      Rate(if counted then r + 1 else r, if recent then p + 1 else p) < Rate(r, p) <==>
      recent && !counted && Rate(r, p + 1) < Rate(r, p)
  {
    if counted {
      CountedNeverLowers(r, p);
    } else if !recent {
      assert !(Rate(r, p) < Rate(r, p));
    }
  }

  /** One more returned line lowers the return rate if and only if it is in the window without being
      counted, and the purchases grow enough for the rounded quotient to fall. */
  lemma RateFallsIff(a: seq<Line>, l: Line, b: seq<Line>, reader: Reader)
    requires l.returned.Some?
    ensures
      var r, p := Returned(a + b, reader), Purchased(a + b, reader);
      RateOf(a + [l] + b, reader) < RateOf(a + b, reader) <==>
      Recent(l, reader) && !Counted(l, reader) && Rate(r, p + 1) < Rate(r, p)
  {
    CountsWith(a, l, b, reader);
    RateStep(Returned(a + b, reader), Purchased(a + b, reader), Recent(l, reader), Counted(l, reader));
  }

  // ---------------------------------------------------------------- what a returned line adds

  /** The profile and the product side of an evaluation. */
  datatype Setting = Setting(
    reader: Reader, item: Item, usualSize: Option<string>, profile: bool, adjustment: Adjustment, similar: seq<Similar>)

  function EvidenceFor(lines: seq<Line>, s: Setting): Evidence {
    EvidenceOf(
      CasesOf(lines, s.item, s.reader), s.item.sku, s.item.brand, s.usualSize, s.profile, s.adjustment,
      RateOf(lines, s.reader)).(similar := s.similar)
  }

  /** The risk score over a history, whatever sizes are on offer. */
  ghost function HistoryScore(p: Profile, lines: seq<Line>, s: Setting, size: Option<string>): real {
    ScoreOf(p, EvidenceFor(lines, s), size)
  }

  lemma HistoryScoreIsRisk(p: Profile, lines: seq<Line>, s: Setting, size: Option<string>, available: seq<string>)
    ensures Decide(p, EvidenceFor(lines, s), size, available).risk == HistoryScore(p, lines, s, size)
  {
    RiskIsScore(p, EvidenceFor(lines, s), size, available);
  }

  lemma {:induction false} CasesConcat(a: seq<Line>, b: seq<Line>, x: Item, reader: Reader)
    ensures CasesOf(a + b, x, reader) == CasesOf(a, x, reader) + CasesOf(b, x, reader)
    decreases |b|
  {
    if b == [] {
      assert a + b == a;
    } else {
      assert (a + b)[..|a + b| - 1] == a + b[..|b| - 1];
      CasesConcat(a, b[..|b| - 1], x, reader);
    }
  }

  lemma CasesWith(a: seq<Line>, l: Line, b: seq<Line>, x: Item, reader: Reader)
    ensures CasesOf(a + b, x, reader) == CasesOf(a, x, reader) + CasesOf(b, x, reader)
    ensures CasesOf(a + [l] + b, x, reader) ==
      CasesOf(a, x, reader) + (if Relevant(l, x, reader) then [CaseOf(l)] else []) + CasesOf(b, x, reader)
  {
    CasesConcat(a, b, x, reader);
    CasesConcat(a, [l], x, reader);
    CasesConcat(a + [l], b, x, reader);
    assert [l][..0] == [];
  }

  /** The return risk once this returned case is evidence too: its tier's weight, unless it is about
      another size or reason, or something closer decides already. */
  ghost function RiskWith(e: Evidence, size: Option<string>, c: Case, tier: Tier): real {
    if !FitReturn(c) || !OfSizeAndTier(ReturnOf(c, tier), size, tier) then RiskOf(e, size)
    else
      match tier
      case SameSku => 1.0
      case SameBrand =>
        if HasReturn(e.returned, size, SameSku) || Kept(e.sku, size) then RiskOf(e, size) else 0.75
      case SameCategory =>
        if HasReturn(e.returned, size, SameSku) || Kept(e.sku, size) || HasReturn(e.returned, size, SameBrand) ||
           Kept(e.brand, size) then RiskOf(e, size) else 0.5
  }

  /** Every return is about fit, as the evidence builder ensures. */
  ghost predicate AllDirectional(e: Evidence) {
    forall r :: r in e.returned ==> Directional(r.reason)
  }

  lemma ReturnsAreDirectional(e: Evidence, size: Option<string>, tier: Tier)
    requires AllDirectional(e)
    ensures HasReturn(e.returned, size, tier) <==> HasDirectional(e.returned, size, tier)
  {
    HasReturnIff(e.returned, size, tier);
  }

  lemma HasAfterReturn(e: Evidence, size: Option<string>, at: nat, r: Return, tier: Tier)
    requires at <= |e.returned| && AllDirectional(e) && Directional(r.reason)
    ensures HasReturn(e.returned, size, tier) == HasDirectional(e.returned, size, tier)
    ensures HasReturn(With(e.returned, at, r), size, tier) ==
      (HasReturn(e.returned, size, tier) || OfSizeAndTier(r, size, tier))
    ensures HasDirectional(With(e.returned, at, r), size, tier) == HasReturn(With(e.returned, at, r), size, tier)
  {
    ReturnsAreDirectional(e, size, tier);
    WithHas(e.returned, at, r, size, tier);
  }

  lemma RiskAfterReturn(e: Evidence, size: Option<string>, at: nat, c: Case, tier: Tier)
    requires at <= |e.returned| && AllDirectional(e) && FitReturn(c)
    ensures RiskOf(e.(returned := With(e.returned, at, ReturnOf(c, tier))), size) == RiskWith(e, size, c, tier)
    ensures RiskOf(e, size) <= RiskWith(e, size, c, tier) <= 1.0
  {
    var r := ReturnOf(c, tier);
    var more := With(e.returned, at, r);
    HasAfterReturn(e, size, at, r, SameSku);
    HasAfterReturn(e, size, at, r, SameBrand);
    HasAfterReturn(e, size, at, r, SameCategory);
    ReturnRiskByTier(e.returned, size, Kept(e.sku, size), Kept(e.brand, size));
    ReturnRiskByTier(more, size, Kept(e.sku, size), Kept(e.brand, size));
  }

  /** The discount for a size kept before, as long as no same-product return outweighs it. */
  ghost function Discount(e: Evidence, size: Option<string>, risk: real): real {
    if Kept(e.sku, size) && risk < 1.0 then 0.15 else 0.0
  }

  /** The weighted sum less the discount: what the score clamps and rounds. */
  ghost function RawRisk(p: Profile, e: Evidence, size: Option<string>): real {
    var requested := RequestedSize(size);
    RiskSum(requested, UsualSize(p, e), e, MatchingOf(e, requested)) - Discount(e, requested, RiskOf(e, requested))
  }

  lemma ScoreIsRounded(p: Profile, e: Evidence, size: Option<string>)
    ensures ScoreOf(p, e, size) == Round3(Clamp(RawRisk(p, e, size)))
  {
  }

  /** How far the returned line alone lifts the raw risk, apart from the rate; never below zero. */
  ghost function Lift(e: Evidence, size: Option<string>, l: Line, s: Setting): real {
    var requested := RequestedSize(size);
    if !Relevant(l, s.item, s.reader) then 0.0
    else
      var after := RiskWith(e, requested, CaseOf(l), TierOf(CaseOf(l), s.item.sku, s.item.brand));
      (after - RiskOf(e, requested)) * 0.25
      + Discount(e, requested, RiskOf(e, requested)) - Discount(e, requested, after)
  }

  lemma RawWithReturns(p: Profile, e: Evidence, size: Option<string>, returned: seq<Return>, rate: real)
    ensures
      var requested := RequestedSize(size);
      var more := e.(returned := returned, returnRate := rate);
      RawRisk(p, more, size) ==
        RawRisk(p, e, size) + (rate - e.returnRate) * 0.25 + (RiskOf(more, requested) - RiskOf(e, requested)) * 0.25
        + Discount(e, requested, RiskOf(e, requested)) - Discount(e, requested, RiskOf(more, requested))
  {
  }

  /** The raw risk reads the purchases only through the two kept flags. */
  lemma SameRaw(p: Profile, a: Evidence, b: Evidence, size: Option<string>)
    requires b == a.(sku := b.sku, brand := b.brand, category := b.category, strength := b.strength)
    requires Kept(a.sku, RequestedSize(size)) == Kept(b.sku, RequestedSize(size))
    requires Kept(a.brand, RequestedSize(size)) == Kept(b.brand, RequestedSize(size))
    ensures RawRisk(p, a, size) == RawRisk(p, b, size)
  {
    var requested := RequestedSize(size);
    assert MatchingOf(a, requested) == MatchingOf(b, requested);
    assert RiskSum(requested, UsualSize(p, a), a, MatchingOf(a, requested)) ==
           RiskSum(requested, UsualSize(p, b), b, MatchingOf(b, requested));
  }

  /** The evidence after: the kept flags stand, the rate is the new one, and one return may be new. */
  ghost predicate Gained(before: Evidence, after: Evidence, requested: Option<string>, risk: real) {
    && after == before.(sku := after.sku, brand := after.brand, category := after.category,
                        returned := after.returned, returnRate := after.returnRate, strength := after.strength)
    && Kept(before.sku, requested) == Kept(after.sku, requested)
    && Kept(before.brand, requested) == Kept(after.brand, requested)
    && RiskOf(before.(returned := after.returned), requested) == risk && RiskOf(before, requested) <= risk <= 1.0
  }

  lemma CaseGained(cases: seq<Case>, k: nat, c: Case, s: Setting, requested: Option<string>, rate: real, rate': real)
    requires k <= |cases| && c.outcome == RETURNED
    ensures
      var sku, brand := s.item.sku, s.item.brand;
      var before := EvidenceOf(cases, sku, brand, s.usualSize, s.profile, s.adjustment, rate).(similar := s.similar);
      var after :=
        EvidenceOf(WithCase(cases, k, c), sku, brand, s.usualSize, s.profile, s.adjustment,
          rate').(similar := s.similar);
      Gained(before, after, requested, RiskWith(before, requested, c, TierOf(c, sku, brand)))
  {
    var sku, brand := s.item.sku, s.item.brand;
    var before := EvidenceOf(cases, sku, brand, s.usualSize, s.profile, s.adjustment, rate).(similar := s.similar);
    ReturnedCaseKeepsNothing(cases, k, c, sku, brand, SameSku, requested);
    ReturnedCaseKeepsNothing(cases, k, c, sku, brand, SameBrand, requested);
    EvidencePartitions(cases, sku, brand);
    var at := CaseAddsReturn(cases, k, c, sku, brand);
    if FitReturn(c) {
      RiskAfterReturn(before, requested, at, c, TierOf(c, sku, brand));
    } else {
      ReturnRiskBounds(MatchingOf(before, requested));
    }
  }

  lemma LineGained(a: seq<Line>, l: Line, b: seq<Line>, s: Setting, requested: Option<string>) returns (risk: real)
    requires l.returned.Some?
    ensures
      var before, after := EvidenceFor(a + b, s), EvidenceFor(a + [l] + b, s);
      && Gained(before, after, requested, risk)
      && risk ==
         if Relevant(l, s.item, s.reader)
         then RiskWith(before, requested, CaseOf(l), TierOf(CaseOf(l), s.item.sku, s.item.brand))
         else RiskOf(before, requested)
  {
    var before := EvidenceFor(a + b, s);
    var rate, rate' := RateOf(a + b, s.reader), RateOf(a + [l] + b, s.reader);
    var front, rest := CasesOf(a, s.item, s.reader), CasesOf(b, s.item, s.reader);
    CasesWith(a, l, b, s.item, s.reader);
    if Relevant(l, s.item, s.reader) {
      assert front + [CaseOf(l)] + rest == WithCase(front + rest, |front|, CaseOf(l));
      CaseGained(front + rest, |front|, CaseOf(l), s, requested, rate, rate');
      risk := RiskWith(before, requested, CaseOf(l), TierOf(CaseOf(l), s.item.sku, s.item.brand));
    } else {
      assert front + [] + rest == front + rest;
      risk := RiskOf(before, requested);
      ReturnRiskBounds(MatchingOf(before, requested));
    }
  }

  lemma RawGained(p: Profile, before: Evidence, after: Evidence, size: Option<string>, risk: real)
    requires Gained(before, after, RequestedSize(size), risk)
    ensures
      var requested := RequestedSize(size);
      RawRisk(p, after, size) ==
        RawRisk(p, before, size) + (after.returnRate - before.returnRate) * 0.25
        + (risk - RiskOf(before, requested)) * 0.25
        + Discount(before, requested, RiskOf(before, requested)) - Discount(before, requested, risk)
  {
    var middle := before.(returned := after.returned, returnRate := after.returnRate);
    RawWithReturns(p, before, size, after.returned, after.returnRate);
    SameRaw(p, middle, after, size);
  }

  /** What one more returned line does to the raw risk: a quarter of the change of the return rate, and
      a lift for the return itself that is never negative. */
  lemma RawAfter(p: Profile, a: seq<Line>, l: Line, b: seq<Line>, s: Setting, size: Option<string>)
    requires l.returned.Some?
    ensures
      var before := EvidenceFor(a + b, s);
      && Lift(before, size, l, s) >= 0.0
      && RawRisk(p, EvidenceFor(a + [l] + b, s), size) ==
           RawRisk(p, before, size) + (RateOf(a + [l] + b, s.reader) - RateOf(a + b, s.reader)) * 0.25
           + Lift(before, size, l, s)
  {
    var risk := LineGained(a, l, b, s, RequestedSize(size));
    RawGained(p, EvidenceFor(a + b, s), EvidenceFor(a + [l] + b, s), size, risk);
  }

  /** The drop an uncounted line of the window brings, on top of its lift. */
  ghost function Slip(lines: seq<Line>, reader: Reader): real {
    var r, p := Returned(lines, reader), Purchased(lines, reader);
    (Rate(r, p + 1) - Rate(r, p)) * 0.25
  }

  lemma NoSlipNoFall(p: Profile, a: seq<Line>, l: Line, b: seq<Line>, s: Setting, size: Option<string>)
    requires l.returned.Some? && RateOf(a + [l] + b, s.reader) >= RateOf(a + b, s.reader)
    ensures HistoryScore(p, a + b, s, size) <= HistoryScore(p, a + [l] + b, s, size)
  {
    RawAfter(p, a, l, b, s, size);
    ScoreIsRounded(p, EvidenceFor(a + b, s), size);
    ScoreIsRounded(p, EvidenceFor(a + [l] + b, s), size);
    ClampedMonotone(RawRisk(p, EvidenceFor(a + b, s), size), RawRisk(p, EvidenceFor(a + [l] + b, s), size));
  }

  lemma ClampedMonotone(x: real, y: real)
    requires x <= y
    ensures Round3(Clamp(x)) <= Round3(Clamp(y))
  {
    Round3Monotone(Clamp(x), Clamp(y));
  }

  lemma SlippedRate(a: seq<Line>, l: Line, b: seq<Line>, reader: Reader)
    requires Recent(l, reader) && !Counted(l, reader)
    ensures (RateOf(a + [l] + b, reader) - RateOf(a + b, reader)) * 0.25 == Slip(a + b, reader)
  {
    CountsWith(a, l, b, reader);
  }

  lemma SlippedScore(p: Profile, a: seq<Line>, l: Line, b: seq<Line>, s: Setting, size: Option<string>)
    requires l.returned.Some? && Recent(l, s.reader) && !Counted(l, s.reader)
    ensures
      var before := EvidenceFor(a + b, s);
      HistoryScore(p, a + [l] + b, s, size) ==
        Round3(Clamp(RawRisk(p, before, size) + Slip(a + b, s.reader) + Lift(before, size, l, s)))
  {
    SlippedRate(a, l, b, s.reader);
    RawAfter(p, a, l, b, s, size);
    ScoreIsRounded(p, EvidenceFor(a + [l] + b, s), size);
  }

  /** One more returned line lowers a risk score if and only if it is in the purchase window without
      being counted as a return - undated, dated ahead, or another customer's row - and the slip of the
      rate outweighs its lift by enough to show in the third decimal. */
  lemma ScoreFallsIff(p: Profile, a: seq<Line>, l: Line, b: seq<Line>, s: Setting, size: Option<string>)
    requires l.returned.Some?
    ensures
      var before := EvidenceFor(a + b, s);
      HistoryScore(p, a + [l] + b, s, size) < HistoryScore(p, a + b, s, size) <==>
        && Recent(l, s.reader) && !Counted(l, s.reader)
        && Round3(Clamp(RawRisk(p, before, size) + Slip(a + b, s.reader) + Lift(before, size, l, s)))
           < Round3(Clamp(RawRisk(p, before, size)))
  {
    if Recent(l, s.reader) && !Counted(l, s.reader) {
      SlippedScore(p, a, l, b, s, size);
      ScoreIsRounded(p, EvidenceFor(a + b, s), size);
    } else {
      RateFallsIff(a, l, b, s.reader);
      NoSlipNoFall(p, a, l, b, s, size);
    }
  }

  // ---------------------------------------------------------------- some score falls when the rate does

  lemma {:induction false} NoSizeNoReturns(returned: seq<Return>)
    ensures OfSize(returned, None) == []
    decreases |returned|
  {
    if returned != [] { NoSizeNoReturns(returned[..|returned| - 1]); }
  }

  /** An evaluation without a size and with one similar case: rate and similarity alone decide. */
  function PlainSetting(reader: Reader, similarity: real): Setting {
    Setting(reader, Item("", "", ""), None, false, Unreadable, [Similar(similarity, "M", RETURNED, Some(TooSmall))])
  }

  const PLAIN := Profile(None, None)

  lemma OneSimilar(similarity: real)
    requires 0.0 <= similarity <= 1.0
    ensures SimilarRisk([Similar(similarity, "M", RETURNED, Some(TooSmall))], None) == similarity
  {
    var similar := [Similar(similarity, "M", RETURNED, Some(TooSmall))];
    assert similar[..0] == [];
    assert SimilarWeight(similar, None) == similarity && SimilarReturned(similar, None) == similarity;
  }

  lemma PlainRaw(lines: seq<Line>, reader: Reader, similarity: real)
    requires 0.0 <= similarity <= 1.0
    ensures RawRisk(PLAIN, EvidenceFor(lines, PlainSetting(reader, similarity)), None) ==
      RateOf(lines, reader) * 0.25 + similarity * 0.10
  {
    var e := EvidenceFor(lines, PlainSetting(reader, similarity));
    OneSimilar(similarity);
    NoSizeNoReturns(e.returned);
    assert MatchingOf(e, None) == [];
  }

  /** Two rates that differ are told apart by a score: a similarity exists that puts them on different
      sides of a rounding boundary. */
  lemma RatesTellApart(high: int, low: int) returns (similarity: real)
    requires 0 <= low < high <= 1000
    ensures 0.0 <= similarity <= 1.0
    ensures
      var x, y := high as real / 1000.0 * 0.25 + similarity * 0.10, low as real / 1000.0 * 0.25 + similarity * 0.10;
      Round3(Clamp(y)) < Round3(Clamp(x))
  {
    var quarter := high as real * 0.25;
    var k := quarter.Floor + 1;
    similarity := (k as real + 0.6 - quarter) / 100.0;
    var x, y := high as real / 1000.0 * 0.25 + similarity * 0.10, low as real / 1000.0 * 0.25 + similarity * 0.10;
    RoundsTo(x, k, 0.6);
    var bound := (k as real + 0.4) / 1000.0;
    RoundsTo(bound, k, 0.4);
    ThousandthsMonotone(y, bound);
  }

  lemma RateInThousandths(r: nat, p: nat) returns (n: int)
    requires r <= p
    ensures Rate(r, p) == n as real / 1000.0 && 0 <= n <= 1000
  {
    if p == 0 {
      n := 0;
    } else {
      n := Thousandths(r as real / p as real);
      FractionBounds(r as real, p as real);
      RoundsTo(0.0, 0, 0.0);
      RoundsTo(1.0, 1000, 0.0);
      ThousandthsMonotone(0.0, r as real / p as real);
      ThousandthsMonotone(r as real / p as real, 1.0);
    }
  }

  ghost predicate Falls(p: Profile, a: seq<Line>, l: Line, b: seq<Line>, s: Setting, size: Option<string>) {
    HistoryScore(p, a + [l] + b, s, size) < HistoryScore(p, a + b, s, size)
  }

  /** One more returned line lowers the score of some evaluation if and only if it lowers the rate: it is
      in the purchase window without being counted, and the rounded quotient falls. */
  lemma SomeScoreFallsIff(a: seq<Line>, l: Line, b: seq<Line>, reader: Reader)
    requires l.returned.Some?
    ensures
      var r, p := Returned(a + b, reader), Purchased(a + b, reader);
      (exists profile, s: Setting, size :: s.reader == reader && Falls(profile, a, l, b, s, size)) <==>
      Recent(l, reader) && !Counted(l, reader) && Rate(r, p + 1) < Rate(r, p)
  {
    RateFallsIff(a, l, b, reader);
    if RateOf(a + [l] + b, reader) < RateOf(a + b, reader) {
      var s := PlainFalls(a, l, b, reader);
    } else {
      forall profile, s: Setting, size | s.reader == reader ensures !Falls(profile, a, l, b, s, size) {
        NoSlipNoFall(profile, a, l, b, s, size);
      }
    }
  }

  lemma PlainFalls(a: seq<Line>, l: Line, b: seq<Line>, reader: Reader) returns (s: Setting)
    requires RateOf(a + [l] + b, reader) < RateOf(a + b, reader)
    ensures s.reader == reader && Falls(PLAIN, a, l, b, s, None)
  {
    var high := RateInThousandths(Returned(a + b, reader), Purchased(a + b, reader));
    var low := RateInThousandths(Returned(a + [l] + b, reader), Purchased(a + [l] + b, reader));
    var similarity := RatesTellApart(high, low);
    s := PlainSetting(reader, similarity);
    PlainRaw(a + b, reader, similarity);
    PlainRaw(a + [l] + b, reader, similarity);
    ScoreIsRounded(PLAIN, EvidenceFor(a + b, s), None);
    ScoreIsRounded(PLAIN, EvidenceFor(a + [l] + b, s), None);
  }

  // ---------------------------------------------------------------- such an input

  const READER := Reader("c", 400 * DAY * SECOND, 35 * DAY * SECOND)
  const SHOE := Item("shoe", "B", "C")
  const FIRST := Line("1", Some("shoe"), Some("B"), Some("C"), Some("M"), 300 * DAY * SECOND,
    Some(ReturnRow(Some("c"), Some(310), TooSmall, None)))
  const UNDATED := Line("2", Some("shoe"), Some("B"), Some("C"), Some("M"), 320 * DAY * SECOND,
    Some(ReturnRow(Some("c"), None, TooSmall, None)))
  const SHOE_SETTING := Setting(READER, SHOE, None, false, Unreadable, [])

  lemma {:induction false} NothingKept(cases: seq<Case>, sku: string, brand: string, tier: Tier, size: Option<string>)
    requires forall c :: c in cases ==> c.outcome == RETURNED
    ensures !Kept(PurchasesIn(cases, sku, brand, tier), size)
    decreases |cases|
  {
    if cases != [] {
      NothingKept(cases[..|cases| - 1], sku, brand, tier, size);
    }
  }

  lemma {:induction false} ReturnListed(cases: seq<Case>, c: Case, sku: string, brand: string)
    requires c in cases && FitReturn(c)
    ensures ReturnOf(c, TierOf(c, sku, brand)) in ReturnsIn(cases, sku, brand)
    decreases |cases|
  {
    var front := cases[..|cases| - 1];
    assert cases == front + [cases[|cases| - 1]];
    if c in front { ReturnListed(front, c, sku, brand); }
  }

  /** A directional same-product return of the size, and nothing kept: the full return risk. */
  lemma FullRisk(e: Evidence, cases: seq<Case>, c: Case, x: Item, size: Option<string>)
    requires c in cases && FitReturn(c) && c.sku == x.sku && Given(size) && c.size == size.value
    requires forall other :: other in cases ==> other.outcome == RETURNED
    requires e.sku == PurchasesIn(cases, x.sku, x.brand, SameSku) &&
      e.brand == PurchasesIn(cases, x.sku, x.brand, SameBrand)
    requires e.returned == ReturnsIn(cases, x.sku, x.brand)
    ensures RiskOf(e, size) == 1.0 && !Kept(e.sku, size)
  {
    NothingKept(cases, x.sku, x.brand, SameSku, size);
    NothingKept(cases, x.sku, x.brand, SameBrand, size);
    ReturnListed(cases, c, x.sku, x.brand);
    HasReturnIff(e.returned, size, SameSku);
    ReturnRiskByTier(e.returned, size, false, false);
  }

  /** Nothing but the rate and a full return risk. */
  lemma BareScore(e: Evidence)
    requires RiskOf(e, Some("M")) == 1.0 && !Kept(e.sku, Some("M"))
    requires e.similar == [] && e.usualSize == None && e.adjustment == Unreadable
    ensures ScoreOf(PLAIN, e, Some("M")) == Round3(Clamp(e.returnRate * 0.25 + 0.25))
  {
    assert RequestedSize(Some("M")) == Some("M") by {
      assert TextStrip.StripLeft("M") == "M" && TextStrip.StripRight("M") == "M";
    }
    ScoreIsRounded(PLAIN, e, Some("M"));
  }

  /** A history of returned lines only, one of them a directional return of the product in size M. */
  lemma BareHistory(lines: seq<Line>, s: Setting, c: Case)
    requires s.similar == [] && s.usualSize == None && s.adjustment == Unreadable
    requires c in CasesOf(lines, s.item, s.reader) && FitReturn(c) && c.sku == s.item.sku && c.size == "M"
    requires forall x :: x in CasesOf(lines, s.item, s.reader) ==> x.outcome == RETURNED
    ensures HistoryScore(PLAIN, lines, s, Some("M")) == Round3(Clamp(RateOf(lines, s.reader) * 0.25 + 0.25))
  {
    var e := EvidenceFor(lines, s);
    FullRisk(e, CasesOf(lines, s.item, s.reader), c, s.item, Some("M"));
    BareScore(e);
  }

  /** A returned line of the product in size M, for a reason about fit. */
  ghost predicate FitReturnOf(l: Line, s: Setting) {
    && Relevant(l, s.item, s.reader) && l.returned.Some? && l.returned.value.reason != NonFit
    && l.sku == Some(s.item.sku) && l.size == Some("M")
  }

  lemma TwoRates(first: Line, second: Line, reader: Reader)
    requires Counted(first, reader) && Recent(second, reader) && !Counted(second, reader)
    ensures RateOf([first], reader) == 1.0 && RateOf([first] + [second], reader) == 0.5
  {
    CountsOne(first, reader);
    CountsOne(second, reader);
    CountsConcat([first], [second], reader);
    RoundsTo(1.0, 1000, 0.0);
    RoundsTo(0.5, 500, 0.0);
  }

  lemma TwoCases(first: Line, second: Line, s: Setting)
    requires FitReturnOf(first, s) && FitReturnOf(second, s)
    ensures CasesOf([first], s.item, s.reader) == [CaseOf(first)]
    ensures CasesOf([first] + [second], s.item, s.reader) == [CaseOf(first)] + [CaseOf(second)]
  {
    assert [first][..0] == [] && [second][..0] == [];
    CasesConcat([first], [second], s.item, s.reader);
  }

  /** Whenever a counted return is followed by an uncounted one of the same product and size, the score
      falls from 0.5 to 0.375. */
  lemma UncountedReturnLowersScore(first: Line, second: Line, s: Setting)
    requires s.similar == [] && s.usualSize == None && s.adjustment == Unreadable
    requires FitReturnOf(first, s) && FitReturnOf(second, s)
    requires Counted(first, s.reader) && Recent(second, s.reader) && !Counted(second, s.reader)
    ensures HistoryScore(PLAIN, [first], s, Some("M")) == 0.5
    ensures HistoryScore(PLAIN, [first] + [second], s, Some("M")) == 0.375
  {
    TwoRates(first, second, s.reader);
    TwoCases(first, second, s);
    BareHistory([first], s, CaseOf(first));
    BareHistory([first] + [second], s, CaseOf(first));
    RoundsTo(0.5, 500, 0.0);
    RoundsTo(0.375, 375, 0.0);
  }

  /** So it does for these two returns of a shoe, the second without a date. */
  lemma UndatedReturnLowersScore()
    ensures HistoryScore(PLAIN, [FIRST], SHOE_SETTING, Some("M")) == 0.5
    ensures HistoryScore(PLAIN, [FIRST] + [UNDATED], SHOE_SETTING, Some("M")) == 0.375
  {
    UncountedReturnLowersScore(FIRST, UNDATED, SHOE_SETTING);
  }

  // ---------------------------------------------------------------- returning a kept line

  /** What the second evidence has lost in kept purchases and gained in returns. */
  ghost predicate Worse(a: Evidence, b: Evidence, size: Option<string>) {
    && b == a.(sku := b.sku, brand := b.brand, category := b.category, returned := b.returned,
               returnRate := b.returnRate, strength := b.strength)
    && AllDirectional(a) && AllDirectional(b) && a.returnRate <= b.returnRate
    && (Kept(b.sku, size) ==> Kept(a.sku, size)) && (Kept(b.brand, size) ==> Kept(a.brand, size))
    && forall tier :: HasReturn(a.returned, size, tier) ==> HasReturn(b.returned, size, tier)
  }

  lemma WorseIsRiskier(a: Evidence, b: Evidence, size: Option<string>)
    requires Worse(a, b, size)
    ensures RiskOf(a, size) <= RiskOf(b, size)
  {
    forall tier: Tier
      ensures HasReturn(a.returned, size, tier) == HasDirectional(a.returned, size, tier)
      ensures HasReturn(b.returned, size, tier) == HasDirectional(b.returned, size, tier)
    {
      ReturnsAreDirectional(a, size, tier);
      ReturnsAreDirectional(b, size, tier);
    }
    ReturnRiskByTier(a.returned, size, Kept(a.sku, size), Kept(a.brand, size));
    ReturnRiskByTier(b.returned, size, Kept(b.sku, size), Kept(b.brand, size));
  }

  lemma WorseScoresHigher(p: Profile, a: Evidence, b: Evidence, size: Option<string>)
    requires Worse(a, b, RequestedSize(size))
    ensures ScoreOf(p, a, size) <= ScoreOf(p, b, size)
  {
    WorseIsRiskier(a, b, RequestedSize(size));
    ScoreIsRounded(p, a, size);
    ScoreIsRounded(p, b, size);
    ClampedMonotone(RawRisk(p, a, size), RawRisk(p, b, size));
  }

  lemma SwappedKeepsLess(
    front: seq<Case>, c: Case, c': Case, rest: seq<Case>, sku: string, brand: string, tier: Tier, size: Option<string>)
    requires c'.outcome == RETURNED
    ensures Kept(PurchasesIn(front + [c'] + rest, sku, brand, tier), size) ==>
      Kept(PurchasesIn(front + [c] + rest, sku, brand, tier), size)
  {
    PurchasesConcat(front, [c], sku, brand, tier);
    PurchasesConcat(front + [c], rest, sku, brand, tier);
    PurchasesConcat(front, [c'], sku, brand, tier);
    PurchasesConcat(front + [c'], rest, sku, brand, tier);
    assert [c'][..0] == [];
    KeptByMembership(PurchasesIn(front + [c] + rest, sku, brand, tier), size);
    KeptByMembership(PurchasesIn(front + [c'] + rest, sku, brand, tier), size);
    assert forall x :: x in PurchasesIn([c'], sku, brand, tier) ==> x.outcome == RETURNED;
  }

  lemma SwappedReturnsMore(
    front: seq<Case>, c: Case, c': Case, rest: seq<Case>, sku: string, brand: string, size: Option<string>, tier: Tier)
    requires c.outcome == KEPT
    ensures HasReturn(ReturnsIn(front + [c] + rest, sku, brand), size, tier) ==>
      HasReturn(ReturnsIn(front + [c'] + rest, sku, brand), size, tier)
  {
    ReturnsConcat(front, [c], sku, brand);
    ReturnsConcat(front + [c], rest, sku, brand);
    ReturnsConcat(front, [c'], sku, brand);
    ReturnsConcat(front + [c'], rest, sku, brand);
    assert [c][..0] == [];
    HasReturnIff(ReturnsIn(front + [c] + rest, sku, brand), size, tier);
    HasReturnIff(ReturnsIn(front + [c'] + rest, sku, brand), size, tier);
  }

  lemma ReturnNeverLowersRate(a: seq<Line>, l: Line, row: ReturnRow, b: seq<Line>, reader: Reader)
    requires l.returned.None?
    ensures RateOf(a + [l] + b, reader) <= RateOf(a + [l.(returned := Some(row))] + b, reader)
  {
    var l' := l.(returned := Some(row));
    CountsWith(a, l, b, reader);
    CountsWith(a, l', b, reader);
    RateGrows(Returned(a + [l] + b, reader), Returned(a + [l'] + b, reader), Purchased(a + [l] + b, reader));
  }

  lemma RateGrows(r: nat, r': nat, p: nat)
    requires r <= r'
    ensures Rate(r, p) <= Rate(r', p)
  {
    if p > 0 {
      QuotientGrows(r as real, r' as real, p as real);
      Round3Monotone(r as real / p as real, r' as real / p as real);
    }
  }

  lemma QuotientGrows(x: real, y: real, d: real)
    requires x <= y && d > 0.0
    ensures x / d <= y / d
  {
  }

  /** Returning a line that was kept, with whatever date and reason, never lowers any risk score. */
  lemma ReturningNeverLowers(
    p: Profile, a: seq<Line>, l: Line, row: ReturnRow, b: seq<Line>, s: Setting, size: Option<string>)
    requires l.returned.None?
    ensures HistoryScore(p, a + [l] + b, s, size) <= HistoryScore(p, a + [l.(returned := Some(row))] + b, s, size)
  {
    var l' := l.(returned := Some(row));
    var requested := RequestedSize(size);
    ReturnNeverLowersRate(a, l, row, b, s.reader);
    ReturnedIsWorse(a, l, row, b, s, requested);
    WorseScoresHigher(p, EvidenceFor(a + [l] + b, s), EvidenceFor(a + [l'] + b, s), size);
  }

  lemma ReturnedIsWorse(
    a: seq<Line>, l: Line, row: ReturnRow, b: seq<Line>, s: Setting, requested: Option<string>)
    requires l.returned.None?
    requires RateOf(a + [l] + b, s.reader) <= RateOf(a + [l.(returned := Some(row))] + b, s.reader)
    ensures Worse(EvidenceFor(a + [l] + b, s), EvidenceFor(a + [l.(returned := Some(row))] + b, s), requested)
  {
    var l' := l.(returned := Some(row));
    var sku, brand := s.item.sku, s.item.brand;
    var front, rest := CasesOf(a, s.item, s.reader), CasesOf(b, s.item, s.reader);
    CasesWith(a, l, b, s.item, s.reader);
    CasesWith(a, l', b, s.item, s.reader);
    EvidencePartitions(CasesOf(a + [l] + b, s.item, s.reader), sku, brand);
    EvidencePartitions(CasesOf(a + [l'] + b, s.item, s.reader), sku, brand);
    if Relevant(l, s.item, s.reader) {
      SwappedKeepsLess(front, CaseOf(l), CaseOf(l'), rest, sku, brand, SameSku, requested);
      SwappedKeepsLess(front, CaseOf(l), CaseOf(l'), rest, sku, brand, SameBrand, requested);
      forall tier { SwappedReturnsMore(front, CaseOf(l), CaseOf(l'), rest, sku, brand, requested, tier); }
    }
  }
}
