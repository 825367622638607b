/** What the fit decision guarantees: tiers that cannot interfere, monotone risk, offered sizes. */
module FitProperties {
  import opened Basics
  import opened FitEvidence
  import opened SizeVotes
  import opened FitCalculator
  import opened Rounding
  import TextStrip

  // ---------------------------------------------------------------- tiers

  lemma OfSizeAppend(front: seq<Return>, last: Return, size: Option<string>)
    ensures OfSize(front + [last], size) ==
      OfSize(front, size) + if Given(size) && last.size == size.value then [last] else []
  {
    assert (front + [last])[..|front|] == front;
  }

  lemma OfTierAppend(front: seq<Return>, last: Return, tier: Tier)
    ensures OfTier(front + [last], tier) == OfTier(front, tier) + if last.tier == tier then [last] else []
  {
    assert (front + [last])[..|front|] == front;
  }

  /** Filtering by size and by tier commute. */
  lemma {:induction false} OfTierOfSize(returned: seq<Return>, size: Option<string>, tier: Tier)
    ensures OfTier(OfSize(returned, size), tier) == OfSize(OfTier(returned, tier), size)
    decreases |returned|
  {
    if returned != [] {
      var front, last := returned[..|returned| - 1], returned[|returned| - 1];
      OfTierOfSize(front, size, tier);
      OfTierAppend(OfSize(front, size), last, tier);
      OfSizeAppend(OfTier(front, tier), last, size);
      assert OfSize(front, size) + [] == OfSize(front, size) && OfTier(front, tier) + [] == OfTier(front, tier);
    }
  }

  ghost predicate HasReturn(returned: seq<Return>, size: Option<string>, tier: Tier) {
    OfTier(OfSize(returned, size), tier) != []
  }

  /** Two sets of evidence that differ at most in returns. */
  ghost predicate SameButReturns(a: Evidence, b: Evidence) {
    b == a.(returned := b.returned)
  }

  /** A same-product return or kept purchase of the requested size settles the decision: no same-brand
      or same-category return can change anything in it. */
  lemma ProductEvidenceSettles(p: Profile, a: Evidence, b: Evidence, size: Option<string>, available: seq<string>)
    requires SameButReturns(a, b) && OfTier(a.returned, SameSku) == OfTier(b.returned, SameSku)
    requires HasReturn(a.returned, RequestedSize(size), SameSku) || Kept(a.sku, RequestedSize(size))
    ensures Decide(p, a, size, available) == Decide(p, b, size, available)
  {
    OfTierOfSize(a.returned, RequestedSize(size), SameSku);
    OfTierOfSize(b.returned, RequestedSize(size), SameSku);
    SameMatchingSameDecision(p, a, b, size, available);
  }

  /** Likewise same-brand evidence over same-category returns. */
  lemma BrandEvidenceSettles(p: Profile, a: Evidence, b: Evidence, size: Option<string>, available: seq<string>)
    requires SameButReturns(a, b)
    requires OfTier(a.returned, SameSku) == OfTier(b.returned, SameSku) &&
      OfTier(a.returned, SameBrand) == OfTier(b.returned, SameBrand)
    requires HasReturn(a.returned, RequestedSize(size), SameBrand) || Kept(a.brand, RequestedSize(size))
    ensures Decide(p, a, size, available) == Decide(p, b, size, available)
  {
    OfTierOfSize(a.returned, RequestedSize(size), SameSku);
    OfTierOfSize(b.returned, RequestedSize(size), SameSku);
    OfTierOfSize(a.returned, RequestedSize(size), SameBrand);
    OfTierOfSize(b.returned, RequestedSize(size), SameBrand);
    SameMatchingSameDecision(p, a, b, size, available);
  }

  /** The decision reads the returns only through the matching ones. */
  lemma SameMatchingSameDecision(p: Profile, a: Evidence, b: Evidence, size: Option<string>, available: seq<string>)
    requires SameButReturns(a, b) && MatchingOf(a, RequestedSize(size)) == MatchingOf(b, RequestedSize(size))
    ensures Decide(p, a, size, available) == Decide(p, b, size, available)
  {
    var requested, usual, matching := RequestedSize(size), UsualSize(p, a), MatchingOf(a, RequestedSize(size));
    SameSizes(requested, usual, a, b, available, matching);
    assert RiskSum(requested, usual, a, matching) == RiskSum(requested, usual, b, matching);
  }

  lemma SameSizes(
    requested: Option<string>, usual: Option<string>, a: Evidence, b: Evidence, available: seq<string>,
    matching: seq<Return>)
    requires SameButReturns(a, b)
    ensures Recommended(requested, usual, a, available, matching) ==
      Recommended(requested, usual, b, available, matching)
    ensures SizeReasons(requested, usual, a, available, matching) ==
      SizeReasons(requested, usual, b, available, matching)
  {
  }

  // ---------------------------------------------------------------- offered sizes

  lemma {:induction false} ExchangeVotesOffered(returned: seq<Return>, available: seq<string>)
    ensures forall v :: v in ExchangeVotes(returned, available) ==> v.size in available
    decreases |returned|
  {
    if returned != [] { ExchangeVotesOffered(returned[..|returned| - 1], available); }
  }

  lemma {:induction false} SimilarVotesOffered(similar: seq<Similar>, available: seq<string>)
    ensures forall v :: v in SimilarVotes(similar, available) ==> v.size in available
    decreases |similar|
  {
    if similar != [] { SimilarVotesOffered(similar[..|similar| - 1], available); }
  }

  lemma WinnerVoted(votes: seq<Vote>, available: seq<string>)
    requires forall v :: v in votes ==> v.size in available
    ensures Winner(votes).Some? ==> Winner(votes).value in available
  {
    WinnerIsHeaviest(votes);
    if Winner(votes).Some? {
      var i :| 0 <= i < |votes| && votes[i].size == Winner(votes).value;
      assert votes[i] in votes;
    }
  }

  /** Whatever the source, a recommended size is on offer; and a requested size that is not on offer is
      never confirmed or merely cautioned about. */
  lemma RecommendationIsOffered(p: Profile, e: Evidence, size: Option<string>, available: seq<string>)
    ensures
      var d := Decide(p, e, size, available);
      && (d.recommended.Some? ==> d.recommended.value in available)
      && (Given(d.requested) && d.requested.value !in available ==>
            d.action == RecommendSizeChange || d.action == InsufficientEvidence)
      && (d.action == ConfirmSize || d.action == ShowCaution ==>
            d.recommended.Some? && (Given(d.requested) ==> d.recommended == d.requested))
  {
    var matching := MatchingOf(e, RequestedSize(size));
    ExchangeVotesOffered(matching, available);
    WinnerVoted(ExchangeVotes(matching, available), available);
    SimilarVotesOffered(e.similar, available);
    WinnerVoted(SimilarVotes(e.similar, available), available);
    var requested, usual := RequestedSize(size), UsualSize(p, e);
    assert Recommended(requested, usual, e, available, matching).Some? ==>
      Recommended(requested, usual, e, available, matching).value in available;
  }

  // ---------------------------------------------------------------- risk by tier

  predicate OfSizeAndTier(r: Return, size: Option<string>, tier: Tier) {
    Given(size) && r.size == size.value && r.tier == tier
  }

  /** A directional return of the requested size in this tier. */
  ghost predicate HasDirectional(returned: seq<Return>, size: Option<string>, tier: Tier) {
    exists r :: r in returned && OfSizeAndTier(r, size, tier) && Directional(r.reason)
  }

  lemma TierStep(front: seq<Return>, last: Return, size: Option<string>, tier: Tier)
    ensures OfTier(OfSize(front + [last], size), tier) ==
      OfTier(OfSize(front, size), tier) + if OfSizeAndTier(last, size, tier) then [last] else []
  {
    OfSizeAppend(front, last, size);
    OfTierAppend(OfSize(front, size), last, tier);
    assert OfSize(front, size) + [] == OfSize(front, size);
  }

  lemma {:induction false} HasReturnIff(returned: seq<Return>, size: Option<string>, tier: Tier)
    ensures HasReturn(returned, size, tier) <==> exists r :: r in returned && OfSizeAndTier(r, size, tier)
    decreases |returned|
  {
    if returned != [] {
      var front, last := returned[..|returned| - 1], returned[|returned| - 1];
      HasReturnIff(front, size, tier);
      TierStep(front, last, size, tier);
      assert returned == front + [last];
    }
  }

  lemma RiskAppend(matching: seq<Return>, last: Return)
    ensures ReturnRisk(matching + [last]) ==
      if Directional(last.reason) && Weight(last.tier) > ReturnRisk(matching) then Weight(last.tier)
      else ReturnRisk(matching)
  {
    assert (matching + [last])[..|matching|] == matching;
  }

  lemma HasDirectionalAppend(front: seq<Return>, last: Return, size: Option<string>, tier: Tier)
    ensures HasDirectional(front + [last], size, tier) <==>
      HasDirectional(front, size, tier) || (OfSizeAndTier(last, size, tier) && Directional(last.reason))
  {
  }

  /** What the returns of one size and tier add to the risk. */
  ghost predicate TierRiskIs(returned: seq<Return>, size: Option<string>, tier: Tier) {
    ReturnRisk(OfTier(OfSize(returned, size), tier)) ==
    if HasDirectional(returned, size, tier) then Weight(tier) else 0.0
  }

  lemma TierRiskStep(front: seq<Return>, last: Return, size: Option<string>, tier: Tier)
    requires TierRiskIs(front, size, tier)
    ensures TierRiskIs(front + [last], size, tier)
  {
    var before, after := OfTier(OfSize(front, size), tier), OfTier(OfSize(front + [last], size), tier);
    TierStep(front, last, size, tier);
    HasDirectionalAppend(front, last, size, tier);
    if OfSizeAndTier(last, size, tier) {
      RiskAppend(before, last);
    } else {
      assert after == before;
    }
  }

  lemma {:induction false} TierRisk(returned: seq<Return>, size: Option<string>, tier: Tier)
    ensures TierRiskIs(returned, size, tier)
    decreases |returned|
  {
    if returned == [] {
      assert OfTier(OfSize(returned, size), tier) == [];
    } else {
      TierRisk(returned[..|returned| - 1], size, tier);
      TierRiskStep(returned[..|returned| - 1], returned[|returned| - 1], size, tier);
      assert returned == returned[..|returned| - 1] + [returned[|returned| - 1]];
    }
  }

  /** The return risk depends only on which tiers have returns of the size, and directional ones. */
  function RiskByTier(
    skuAny: bool, skuDir: bool, skuKept: bool, brandAny: bool, brandDir: bool, brandKept: bool, categoryDir: bool): real
  {
    if skuAny then (if skuDir then 1.0 else 0.0)
    else if skuKept then 0.0
    else if brandAny then (if brandDir then 0.75 else 0.0)
    else if brandKept then 0.0
    else if categoryDir then 0.5 else 0.0
  }

  lemma ReturnRiskByTier(returned: seq<Return>, size: Option<string>, skuKept: bool, brandKept: bool)
    ensures ReturnRisk(Matching(returned, size, skuKept, brandKept)) ==
      RiskByTier(
        HasReturn(returned, size, SameSku), HasDirectional(returned, size, SameSku), skuKept,
        HasReturn(returned, size, SameBrand), HasDirectional(returned, size, SameBrand), brandKept,
        HasDirectional(returned, size, SameCategory))
  {
    TierRisk(returned, size, SameSku);
    TierRisk(returned, size, SameBrand);
    TierRisk(returned, size, SameCategory);
  }

  // ---------------------------------------------------------------- one return more

  ghost function With(returned: seq<Return>, at: nat, r: Return): seq<Return>
    requires at <= |returned|
  {
    returned[..at] + [r] + returned[at..]
  }

  lemma WithHas(returned: seq<Return>, at: nat, r: Return, size: Option<string>, tier: Tier)
    requires at <= |returned|
    ensures HasReturn(With(returned, at, r), size, tier) <==>
      HasReturn(returned, size, tier) || OfSizeAndTier(r, size, tier)
    ensures HasDirectional(With(returned, at, r), size, tier) <==>
      HasDirectional(returned, size, tier) || (OfSizeAndTier(r, size, tier) && Directional(r.reason))
  {
    var more := With(returned, at, r);
    HasReturnIff(returned, size, tier);
    HasReturnIff(more, size, tier);
    assert returned == returned[..at] + returned[at..];
    assert forall x :: x in more <==> x in returned || x == r;
  }

  lemma DirectionalIsReturn(returned: seq<Return>, size: Option<string>, tier: Tier)
    ensures HasDirectional(returned, size, tier) ==> HasReturn(returned, size, tier)
  {
    HasReturnIff(returned, size, tier);
  }

  ghost function RiskOf(e: Evidence, size: Option<string>): real {
    ReturnRisk(MatchingOf(e, size))
  }

  /** Exactly when one return more lowers the return risk: it is not directional, it is the first of its
      tier for the requested size with none in a closer tier, and farther returns were counting. */
  lemma ReturnRiskDropsIff(e: Evidence, size: Option<string>, at: nat, r: Return)
    requires at <= |e.returned|
    ensures
      var more := e.(returned := With(e.returned, at, r));
      RiskOf(more, size) < RiskOf(e, size) <==>
        && !Directional(r.reason) && OfSizeAndTier(r, size, r.tier) && RiskOf(e, size) > 0.0
        && !HasReturn(e.returned, size, SameSku)
        && (r.tier != SameSku ==> !HasReturn(e.returned, size, SameBrand))
        && r.tier != SameCategory
  {
    var more := e.(returned := With(e.returned, at, r));
    WithHas(e.returned, at, r, size, SameSku);
    WithHas(e.returned, at, r, size, SameBrand);
    WithHas(e.returned, at, r, size, SameCategory);
    DirectionalIsReturn(e.returned, size, SameSku);
    DirectionalIsReturn(e.returned, size, SameBrand);
    ReturnRiskByTier(e.returned, size, Kept(e.sku, size), Kept(e.brand, size));
    ReturnRiskByTier(more.returned, size, Kept(e.sku, size), Kept(e.brand, size));
  }

  // ---------------------------------------------------------------- the risk score

  /** The ranges the evidence models enforce. */
  ghost predicate InRange(e: Evidence) {
    0.0 <= e.returnRate <= 1.0 && forall i :: 0 <= i < |e.similar| ==> 0.0 <= e.similar[i].score <= 1.0
  }

  lemma {:induction false} SimilarBounds(similar: seq<Similar>, requested: Option<string>)
    requires forall i :: 0 <= i < |similar| ==> 0.0 <= similar[i].score <= 1.0
    ensures 0.0 <= SimilarReturned(similar, requested) <= SimilarWeight(similar, requested)
    decreases |similar|
  {
    if similar != [] { SimilarBounds(similar[..|similar| - 1], requested); }
  }

  lemma FractionBounds(a: real, b: real)
    requires 0.0 <= a <= b && b > 0.0
    ensures 0.0 <= a / b <= 1.0
  {
  }

  lemma ReturnRiskBounds(matching: seq<Return>)
    ensures 0.0 <= ReturnRisk(matching) <= 1.0
  {
  }

  /** The weights never sum past one, so only the discount can make the clamp act. */
  lemma RiskSumInRange(requested: Option<string>, usual: Option<string>, e: Evidence, matching: seq<Return>)
    requires InRange(e)
    ensures 0.0 <= RiskSum(requested, usual, e, matching) <= 1.0
  {
    SimilarBounds(e.similar, requested);
    FractionBounds(SimilarReturned(e.similar, requested), MaxReal(SimilarWeight(e.similar, requested), 1.0));
    ReturnRiskBounds(matching);
  }

  ghost function ScoreOf(p: Profile, e: Evidence, size: Option<string>): real {
    RiskScore(RequestedSize(size), UsualSize(p, e), e, MatchingOf(e, RequestedSize(size)))
  }

  /** More return risk or a higher return rate, all else equal, never lowers the score. */
  lemma ScoreMonotone(p: Profile, a: Evidence, b: Evidence, size: Option<string>)
    requires b == a.(returned := b.returned, returnRate := b.returnRate) && a.returnRate <= b.returnRate
    requires RiskOf(a, RequestedSize(size)) <= RiskOf(b, RequestedSize(size))
    ensures ScoreOf(p, a, size) <= ScoreOf(p, b, size)
  {
    var requested, usual := RequestedSize(size), UsualSize(p, a);
    var x, y := RiskSum(requested, usual, a, MatchingOf(a, requested)),
      RiskSum(requested, usual, b, MatchingOf(b, requested));
    assert x <= y;
    var dx := if Kept(a.sku, requested) && RiskOf(a, requested) < 1.0 then 0.15 else 0.0;
    var dy := if Kept(b.sku, requested) && RiskOf(b, requested) < 1.0 then 0.15 else 0.0;
    assert Clamp(x - dx) <= Clamp(y - dy);
    Round3Monotone(Clamp(x - dx), Clamp(y - dy));
  }

  /** With directional reasons only, one return more and a return rate no lower never lower the risk
      score, across every switch of tier. */
  lemma DirectionalReturnsRaiseRisk(p: Profile, e: Evidence, size: Option<string>, at: nat, r: Return, rate: real)
    requires at <= |e.returned| && Directional(r.reason) && e.returnRate <= rate
    ensures ScoreOf(p, e, size) <= ScoreOf(p, e.(returned := With(e.returned, at, r), returnRate := rate), size)
  {
    var more := e.(returned := With(e.returned, at, r));
    ReturnRiskDropsIff(e, RequestedSize(size), at, r);
    ScoreMonotone(p, e, more.(returnRate := rate), size);
  }

  /** A closer return that is not directional hides farther ones that were counting, and that is the
      only way one return more lowers the score. */
  lemma ScoreDropsIff(p: Profile, e: Evidence, size: Option<string>, at: nat, r: Return)
    requires at <= |e.returned| && InRange(e)
    ensures
      var requested := RequestedSize(size);
      ScoreOf(p, e.(returned := With(e.returned, at, r)), size) < ScoreOf(p, e, size) <==>
        && !Directional(r.reason) && OfSizeAndTier(r, requested, r.tier) && RiskOf(e, requested) > 0.0
        && !HasReturn(e.returned, requested, SameSku)
        && (r.tier != SameSku ==> !HasReturn(e.returned, requested, SameBrand))
        && r.tier != SameCategory
  {
    var requested, usual, more := RequestedSize(size), UsualSize(p, e), e.(returned := With(e.returned, at, r));
    ReturnRiskDropsIff(e, requested, at, r);
    if RiskOf(more, requested) < RiskOf(e, requested) {
      ReturnRiskByTier(e.returned, requested, Kept(e.sku, requested), Kept(e.brand, requested));
      HiddenRiskIsZero(e, requested, at, r);
      var x, y := RiskSum(requested, usual, more, MatchingOf(more, requested)),
        RiskSum(requested, usual, e, MatchingOf(e, requested));
      RiskSumInRange(requested, usual, e, MatchingOf(e, requested));
      RiskSumInRange(requested, usual, more, MatchingOf(more, requested));
      assert y - x == RiskOf(e, requested) * 0.25;
      Round3Gap(x, y);
    } else {
      ScoreMonotone(p, e, more, size);
    }
  }

  lemma HiddenRiskIsZero(e: Evidence, size: Option<string>, at: nat, r: Return)
    requires at <= |e.returned|
    requires RiskOf(e.(returned := With(e.returned, at, r)), size) < RiskOf(e, size)
    ensures RiskOf(e.(returned := With(e.returned, at, r)), size) == 0.0 && RiskOf(e, size) >= 0.5 && !Kept(e.sku, size)
  {
    var more := e.(returned := With(e.returned, at, r));
    ReturnRiskDropsIff(e, size, at, r);
    WithHas(e.returned, at, r, size, SameSku);
    WithHas(e.returned, at, r, size, SameBrand);
    DirectionalIsReturn(e.returned, size, SameSku);
    DirectionalIsReturn(e.returned, size, SameBrand);
    ReturnRiskByTier(e.returned, size, Kept(e.sku, size), Kept(e.brand, size));
    ReturnRiskByTier(more.returned, size, Kept(e.sku, size), Kept(e.brand, size));
  }

  /** Such a case: one category return counted, until a same-product return for another reason. */
  lemma NonFitReturnLowersScore(p: Profile)
    ensures
      var small := Return("R1", "SKU-2", "M", TooSmall, None, SameCategory);
      var e := Evidence(None, [], [], [], [small], Unreadable, 0.0, [], 0.5);
      var other := Return("R2", "SKU-1", "M", NonFit, None, SameSku);
      ScoreOf(p, e.(returned := With(e.returned, 1, other)), Some("M")) < ScoreOf(p, e, Some("M"))
  {
    var small := Return("R1", "SKU-2", "M", TooSmall, None, SameCategory);
    var e := Evidence(None, [], [], [], [small], Unreadable, 0.0, [], 0.5);
    var other := Return("R2", "SKU-1", "M", NonFit, None, SameSku);
    assert RequestedSize(Some("M")) == Some("M") by {
      assert TextStrip.StripLeft("M") == "M" && TextStrip.StripRight("M") == "M";
    }
    forall tier { OnlyReturn(small, tier); }
    ReturnRiskByTier([small], Some("M"), false, false);
    ScoreDropsIff(p, e, Some("M"), 1, other);
  }

  lemma OnlyReturn(r: Return, tier: Tier)
    requires r.size != ""
    ensures HasReturn([r], Some(r.size), tier) <==> tier == r.tier
    ensures HasDirectional([r], Some(r.size), tier) <==> tier == r.tier && Directional(r.reason)
  {
    HasReturnIff([r], Some(r.size), tier);
    assert r in [r];
  }

  // ---------------------------------------------------------------- from the purchase history

  lemma {:induction false} ReturnsConcat(a: seq<Case>, b: seq<Case>, sku: string, brand: string)
    ensures ReturnsIn(a + b, sku, brand) == ReturnsIn(a, sku, brand) + ReturnsIn(b, sku, brand)
    decreases |b|
  {
    if b == [] {
      assert a + b == a;
    } else {
      assert (a + b)[..|a + b| - 1] == a + b[..|b| - 1];
      ReturnsConcat(a, b[..|b| - 1], sku, brand);
    }
  }

  lemma {:induction false} PurchasesConcat(a: seq<Case>, b: seq<Case>, sku: string, brand: string, tier: Tier)
    ensures PurchasesIn(a + b, sku, brand, tier) == PurchasesIn(a, sku, brand, tier) + PurchasesIn(b, sku, brand, tier)
    decreases |b|
  {
    if b == [] {
      assert a + b == a;
    } else {
      assert (a + b)[..|a + b| - 1] == a + b[..|b| - 1];
      PurchasesConcat(a, b[..|b| - 1], sku, brand, tier);
    }
  }

  ghost function WithCase(cases: seq<Case>, at: nat, c: Case): seq<Case>
    requires at <= |cases|
  {
    cases[..at] + [c] + cases[at..]
  }

  lemma ReturnedCaseKeepsNothing(
    cases: seq<Case>, at: nat, c: Case, sku: string, brand: string, tier: Tier, size: Option<string>)
    requires at <= |cases| && c.outcome == RETURNED
    ensures Kept(PurchasesIn(WithCase(cases, at, c), sku, brand, tier), size) <==>
      Kept(PurchasesIn(cases, sku, brand, tier), size)
  {
    var a, b := cases[..at], cases[at..];
    PurchasesConcat(a, b, sku, brand, tier);
    PurchasesConcat(a, [c], sku, brand, tier);
    PurchasesConcat(a + [c], b, sku, brand, tier);
    assert a + b == cases;
    assert [c][..0] == [];
    var was, now := PurchasesIn(cases, sku, brand, tier), PurchasesIn(WithCase(cases, at, c), sku, brand, tier);
    assert forall x :: x in now && x.outcome == KEPT ==> x in was;
    assert forall x :: x in was ==> x in now;
    KeptByMembership(was, size);
    KeptByMembership(now, size);
  }

  lemma KeptByMembership(purchases: seq<Purchase>, size: Option<string>)
    ensures Kept(purchases, size) <==>
      Given(size) && exists x :: x in purchases && x.size == size.value && x.outcome == KEPT
  {
  }

  lemma CaseAddsReturn(cases: seq<Case>, at: nat, c: Case, sku: string, brand: string) returns (k: nat)
    requires at <= |cases|
    ensures k <= |ReturnsIn(cases, sku, brand)|
    ensures ReturnsIn(WithCase(cases, at, c), sku, brand) ==
      if FitReturn(c) then With(ReturnsIn(cases, sku, brand), k, ReturnOf(c, TierOf(c, sku, brand)))
      else ReturnsIn(cases, sku, brand)
  {
    var a, b := cases[..at], cases[at..];
    ReturnsConcat(a, b, sku, brand);
    ReturnsConcat(a, [c], sku, brand);
    ReturnsConcat(a + [c], b, sku, brand);
    assert a + b == cases && [c][..0] == [];
    k := |ReturnsIn(a, sku, brand)|;
  }

  lemma RiskIsScore(p: Profile, e: Evidence, size: Option<string>, available: seq<string>)
    ensures Decide(p, e, size, available).risk == ScoreOf(p, e, size)
  {
  }
}
