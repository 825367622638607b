/** The figures of the fit decision, its action, and the reasons it gives. */
module FitFigures {
  import opened Basics
  import opened FitEvidence
  import opened SizeVotes
  import opened Rounding
  import opened FitCalculator
  import opened FitProperties
  import opened FitAnswers
  import TextStrip

  // ---------------------------------------------------------------- risk and confidence

  /** A return of this size and tier for a reason that is about fit. */
  ghost predicate FitReturned(e: Evidence, size: Option<string>, tier: Tier) {
    Given(size) && exists r :: r in e.returned && r.size == size.value && r.tier == tier && r.reason != NonFit
  }

  /** What the returns that count weigh, by the tier they are of. */
  ghost function ReturnPart(e: Evidence, size: Option<string>): real {
    if Counting(e, size, SameSku) then (if FitReturned(e, size, SameSku) then 1.0 else 0.0)
    else if Counting(e, size, SameBrand) then (if FitReturned(e, size, SameBrand) then 0.75 else 0.0)
    else if Counting(e, size, SameCategory) then (if FitReturned(e, size, SameCategory) then 0.5 else 0.0)
    else 0.0
  }

  /** The similarity of the cases about the requested size, or of all of them without one. */
  ghost function Similarity(similar: seq<Similar>, requested: Option<string>): real {
    if similar == [] then 0.0
    else
      (if requested.None? || requested.value == similar[0].size then similar[0].score else 0.0)
      + Similarity(similar[1..], requested)
  }

  /** The part of it that came back for a reason about fit. */
  ghost function ReturnedSimilarity(similar: seq<Similar>, requested: Option<string>): real {
    if similar == [] then 0.0
    else
      var head := similar[0];
      (if (requested.None? || requested.value == head.size) && head.outcome == RETURNED
          && head.reason.Some? && head.reason.value != NonFit
       then head.score else 0.0)
      + ReturnedSimilarity(similar[1..], requested)
  }

  ghost function SimilarPart(similar: seq<Similar>, requested: Option<string>): real {
    var weight := Similarity(similar, requested);
    ReturnedSimilarity(similar, requested) / if weight < 1.0 then 1.0 else weight
  }

  ghost function Between01(x: real): real {
    if x < 0.0 then 0.0 else if x > 1.0 then 1.0 else x
  }

  /** A quarter for the return rate, a fifth for an unusual size, a fifth for a brand that runs small or large, a
      quarter for the returns that count, a tenth for similar cases; less 0.15 where the size of this product was
      kept and none of its returns was about fit. */
  ghost function RiskFigure(p: Profile, e: Evidence, requested: Option<string>): real {
    var usual := Usual(p, e);
    Between01(
      0.25 * e.returnRate
      + (if Given(requested) && Given(usual) && requested.value != usual.value then 0.20 else 0.0)
      + (if exists n :: n != 0 && Moves(e.adjustment, n) then 0.20 else 0.0)
      + 0.25 * ReturnPart(e, requested)
      + 0.10 * SimilarPart(e.similar, requested)
      - if KeptIn(e.sku, requested) && ReturnPart(e, requested) < 1.0 then 0.15 else 0.0)
  }

  ghost function ConfidenceFigure(p: Profile, e: Evidence, requested: Option<string>, available: seq<string>): real {
    Between01(
      (if p.sizeConfidence.Some? then 0.40 * p.sizeConfidence.value else 0.0)
      + 0.40 * e.strength
      + (if KeptIn(e.sku, requested) then 0.15 else 0.0)
      + (if NoExchange(e, requested, available) then 0.0 else 0.15)
      + if |e.similar| >= 5 then 0.05 else 0.01 * |e.similar| as real)
  }

  lemma {:induction false} SimilarityStep(front: seq<Similar>, last: Similar, requested: Option<string>)
    ensures Similarity(front + [last], requested) ==
      Similarity(front, requested)
      + if requested.None? || requested.value == last.size then last.score else 0.0
    ensures ReturnedSimilarity(front + [last], requested) ==
      ReturnedSimilarity(front, requested) +
      if (requested.None? || requested.value == last.size) && last.outcome == RETURNED && last.reason.Some?
         && last.reason.value != NonFit
      then last.score else 0.0
    decreases |front|
  {
    if front != [] {
      assert (front + [last])[1..] == front[1..] + [last];
      SimilarityStep(front[1..], last, requested);
    }
  }

  lemma {:induction false} SimilarityIs(similar: seq<Similar>, requested: Option<string>)
    ensures SimilarWeight(similar, requested) == Similarity(similar, requested)
    ensures SimilarReturned(similar, requested) == ReturnedSimilarity(similar, requested)
    decreases |similar|
  {
    if similar != [] {
      var front, last := similar[..|similar| - 1], similar[|similar| - 1];
      assert similar == front + [last];
      SimilarityIs(front, requested);
      SimilarityStep(front, last, requested);
    }
  }

  lemma ReturnPartIs(e: Evidence, size: Option<string>)
    ensures ReturnRisk(MatchingOf(e, size)) == ReturnPart(e, size)
  {
    MatchingIsOneTier(e, size);
    forall tier
      ensures TierRiskIs(e.returned, size, tier)
      ensures HasDirectional(e.returned, size, tier) <==> FitReturned(e, size, tier)
    {
      TierRisk(e.returned, size, tier);
      DirectionalIs(e, size, tier);
    }
    assert Counting(e, size, SameSku) || Counting(e, size, SameBrand) || Counting(e, size, SameCategory) ||
      forall tier: Tier :: !Counting(e, size, tier);
  }

  lemma DirectionalIs(e: Evidence, size: Option<string>, tier: Tier)
    ensures HasDirectional(e.returned, size, tier) <==> FitReturned(e, size, tier)
  {
    if FitReturned(e, size, tier) {
      var r :| r in e.returned && r.size == size.value && r.tier == tier && r.reason != NonFit;
      assert OfSizeAndTier(r, size, tier) && Directional(r.reason);
    }
  }

  lemma RiskIs(p: Profile, e: Evidence, requested: Option<string>)
    ensures RiskScore(requested, UsualSize(p, e), e, MatchingOf(e, requested)) == Round3(RiskFigure(p, e, requested))
  {
    ReturnPartIs(e, requested);
    SimilarityIs(e.similar, requested);
    KeptByMembership(e.sku, requested);
    assert Moves(e.adjustment, StepsOf(e.adjustment)) || StepsOf(e.adjustment) == 0;
    assert StepsOf(e.adjustment) != 0 <==> exists n :: n != 0 && Moves(e.adjustment, n);
    assert SimilarRisk(e.similar, requested) == SimilarPart(e.similar, requested);
  }

  /** The risk and the confidence are those figures, rounded to thousandths; the band splits at 0.30 and 0.65. */
  lemma FiguresAre(p: Profile, e: Evidence, size: Option<string>, available: seq<string>)
    ensures
      var d := Decide(p, e, size, available);
      && d.risk == Round3(RiskFigure(p, e, d.requested))
      && d.confidence == Round3(ConfidenceFigure(p, e, d.requested, available))
      && d.band == (if d.risk < 0.30 then LOW else if d.risk < 0.65 then MEDIUM else HIGH)
  {
    var requested := RequestedSize(size);
    RiskIs(p, e, requested);
    ExchangeIsMost(e, requested, available);
    KeptByMembership(e.sku, requested);
  }

  // ---------------------------------------------------------------- the request and the action

  /** A request is stripped of blanks; none, or an empty one, asks for nothing. */
  lemma RequestIsTrimmed(p: Profile, e: Evidence, size: Option<string>, available: seq<string>)
    ensures
      var d := Decide(p, e, size, available);
      && (d.requested.None? <==> size.None? || size.value == "")
      && (d.requested.Some? ==> TextStrip.Trimmed(size.value, d.requested.value))
  {
    if Given(size) {
      TextStrip.StripTrims(size.value);
    }
  }

  /** What the customer is told: too little evidence, another size, a caution, or that the size is right. */
  lemma ActionIs(p: Profile, e: Evidence, size: Option<string>, available: seq<string>)
    ensures
      var d := Decide(p, e, size, available);
      var poor := d.recommended.None? || (e.strength < 0.20 && |e.similar| == 0 && p.usualSize.None?);
      && (d.action == InsufficientEvidence <==> poor)
      && (d.action == RecommendSizeChange <==> !poor && Given(d.requested) && d.recommended != d.requested)
      && (d.action == ShowCaution <==>
            !poor && (Given(d.requested) ==> d.recommended == d.requested) &&
            (d.risk >= 0.65 || (Given(d.requested) && d.requested.value !in available)))
  {
  }

  // ---------------------------------------------------------------- reasons

  lemma {:induction false} UniqueKeeps(reasons: seq<Reason>)
    ensures Distinct(Unique(reasons)) && forall x :: x in Unique(reasons) <==> x in reasons
    decreases |reasons|
  {
    if reasons != [] {
      UniqueKeeps(reasons[..|reasons| - 1]);
      assert reasons == reasons[..|reasons| - 1] + [reasons[|reasons| - 1]];
    }
  }

  lemma {:induction false} ReturnReasonsAre(matching: seq<Return>)
    ensures PreviousTooSmall in ReturnReasons(matching) <==> exists r :: r in matching && r.reason == TooSmall
    ensures PreviousTooLarge in ReturnReasons(matching) <==> exists r :: r in matching && r.reason == TooLarge
    ensures forall x :: x in ReturnReasons(matching) ==> x == PreviousTooSmall || x == PreviousTooLarge
    decreases |matching|
  {
    if matching != [] {
      var front, last := matching[..|matching| - 1], matching[|matching| - 1];
      ReturnReasonsAre(front);
      assert matching == front + [last];
      assert forall r :: r in matching <==> r in front || r == last;
    }
  }

  lemma {:induction false} TierMembers(returned: seq<Return>, size: Option<string>, tier: Tier, r: Return)
    ensures r in OfTier(OfSize(returned, size), tier) <==> r in returned && OfSizeAndTier(r, size, tier)
    decreases |returned|
  {
    if returned != [] {
      var front, last := returned[..|returned| - 1], returned[|returned| - 1];
      TierMembers(front, size, tier, r);
      TierStep(front, last, size, tier);
      assert returned == front + [last];
    }
  }

  /** A return that counts came back for this reason. */
  ghost predicate CameBack(e: Evidence, size: Option<string>, reason: ReturnReason) {
    exists tier, r ::
      Counting(e, size, tier) && r in e.returned && OfSizeAndTier(r, size, tier) && r.reason == reason
  }

  lemma MatchingCameBack(e: Evidence, size: Option<string>, reason: ReturnReason)
    ensures (exists r :: r in MatchingOf(e, size) && r.reason == reason) <==> CameBack(e, size, reason)
  {
    MatchingIsOneTier(e, size);
    forall tier, r
      ensures r in OfTier(OfSize(e.returned, size), tier) <==> r in e.returned && OfSizeAndTier(r, size, tier)
    {
      TierMembers(e.returned, size, tier, r);
    }
  }

  lemma ExchangedIff(e: Evidence, size: Option<string>, available: seq<string>)
    ensures
      var winner := Winner(ExchangeVotes(MatchingOf(e, size), available));
      Given(winner) <==> exists x :: MostExchanged(e, size, available, x) && x != ""
  {
    ExchangeIsMost(e, size, available);
    var winner := Winner(ExchangeVotes(MatchingOf(e, size), available));
    forall x | MostExchanged(e, size, available, x) ensures winner == Some(x) {
      if winner.Some? {
        OneMostExchanged(e, size, available, x, winner.value);
      }
    }
  }

  ghost predicate Exchanged(e: Evidence, size: Option<string>, available: seq<string>) {
    exists x :: MostExchanged(e, size, available, x) && x != ""
  }

  /** When a reason is given, each read off the evidence, the request and the recommended size. */
  ghost predicate Holds(
    x: Reason, e: Evidence, requested: Option<string>, usual: Option<string>, base: Option<string>,
    available: seq<string>, recommended: Option<string>)
  {
    match x
    case MatchesUsual => Given(requested) && requested == usual
    case DiffersFromUsual => Given(requested) && Given(usual) && requested != usual
    case SizeNotAvailable => Given(requested) && requested.value !in available
    case PreviousSuccess => KeptIn(e.sku, requested) || KeptIn(e.brand, requested)
    case PreviousTooSmall => CameBack(e, requested, TooSmall)
    case PreviousTooLarge => CameBack(e, requested, TooLarge)
    case SuccessfulExchange => Exchanged(e, requested, available) && KeptIn(e.sku + e.brand + e.category, recommended)
    case HistoricalExchange => Exchanged(e, requested, available) && !KeptIn(e.sku + e.brand + e.category, recommended)
    case RunsSmall => exists n :: n > 0 && Moves(e.adjustment, n)
    case RunsLarge => exists n :: n < 0 && Moves(e.adjustment, n)
    case SimilarCaseSupport =>
      && recommended.Some? && !Exchanged(e, requested, available)
      && (forall x :: !AdjustsTo(e.adjustment, base, available, x))
      && !Offered(usual, available) && !Offered(requested, available)
    case HighReturnHistory => e.returnRate > 0.5
    case LowEvidence => e.strength < 0.2 || recommended.None?
  }

  /** Which part of the decision gives a reason: the request, the returns, the size, or the evidence as a whole. */
  function Part(x: Reason): nat {
    match x
    case MatchesUsual | DiffersFromUsual | SizeNotAvailable | PreviousSuccess => 0
    case PreviousTooSmall | PreviousTooLarge => 1
    case HighReturnHistory | LowEvidence => 3
    case _ => 2
  }

  lemma InOpening(
    e: Evidence, requested: Option<string>, usual: Option<string>, base: Option<string>, available: seq<string>,
    recommended: Option<string>, x: Reason)
    ensures
      x in RequestReasons(requested, usual, available, Kept(e.sku, requested) || Kept(e.brand, requested)) <==>
      Part(x) == 0 && Holds(x, e, requested, usual, base, available, recommended)
  {
    KeptByMembership(e.sku, requested);
    KeptByMembership(e.brand, requested);
  }

  lemma InClosing(
    e: Evidence, requested: Option<string>, usual: Option<string>, base: Option<string>, available: seq<string>,
    recommended: Option<string>, insufficient: bool, x: Reason)
    requires insufficient || e.strength < 0.2 <==> recommended.None? || e.strength < 0.2
    ensures
      x in EvidenceReasons(e, insufficient) <==>
      Part(x) == 3 && Holds(x, e, requested, usual, base, available, recommended)
  {
  }

  lemma InReturns(
    e: Evidence, requested: Option<string>, usual: Option<string>, base: Option<string>, available: seq<string>,
    recommended: Option<string>, x: Reason)
    ensures
      x in ReturnReasons(MatchingOf(e, requested)) <==>
      Part(x) == 1 && Holds(x, e, requested, usual, base, available, recommended)
  {
    ReturnReasonsAre(MatchingOf(e, requested));
    MatchingCameBack(e, requested, TooSmall);
    MatchingCameBack(e, requested, TooLarge);
  }

  lemma AnyAdjusted(a: Adjustment, base: Option<string>, available: seq<string>)
    ensures (exists x :: AdjustsTo(a, base, available, x)) <==>
      StepsOf(a) != 0 && Adjusted(base, StepsOf(a), available).Some?
  {
    forall x
      ensures AdjustsTo(a, base, available, x) <==>
        StepsOf(a) != 0 && Adjusted(base, StepsOf(a), available) == Some(x)
    {
      AdjustedIs(a, base, available, x);
    }
  }

  lemma StepsSign(a: Adjustment)
    ensures (exists n :: n > 0 && Moves(a, n)) <==> StepsOf(a) > 0
    ensures (exists n :: n < 0 && Moves(a, n)) <==> StepsOf(a) < 0
  {
    assert forall n :: n != 0 && Moves(a, n) ==> n == StepsOf(a);
    assert StepsOf(a) != 0 ==> Moves(a, StepsOf(a));
  }

  /** Without similar cases nothing is recommended exactly when no other source has a size. */
  lemma OthersAreEmpty(
    requested: Option<string>, usual: Option<string>, e: Evidence, available: seq<string>, matching: seq<Return>)
    ensures Recommended(requested, usual, e.(similar := []), available, matching).None? <==>
      && !Given(Winner(ExchangeVotes(matching, available)))
      && (StepsOf(e.adjustment) == 0 || Adjusted(Either(usual, requested), StepsOf(e.adjustment), available).None?)
      && !Among(usual, available) && !Among(requested, available)
  {
  }

  lemma SizeReasonsHave(
    requested: Option<string>, usual: Option<string>, e: Evidence, available: seq<string>, matching: seq<Return>,
    x: Reason)
    ensures
      var exchange := Winner(ExchangeVotes(matching, available));
      x in SizeReasons(requested, usual, e, available, matching) <==>
      match x
      case SuccessfulExchange => Given(exchange) && Kept(e.sku + e.brand + e.category, exchange)
      case HistoricalExchange => Given(exchange) && !Kept(e.sku + e.brand + e.category, exchange)
      case RunsSmall => StepsOf(e.adjustment) > 0
      case RunsLarge => StepsOf(e.adjustment) < 0
      case SimilarCaseSupport =>
        && Recommended(requested, usual, e.(similar := []), available, matching).None?
        && Recommended(requested, usual, e, available, matching).Some?
      case _ => false
  {
  }

  lemma InSize(e: Evidence, requested: Option<string>, usual: Option<string>, available: seq<string>, x: Reason)
    ensures
      var recommended := Recommended(requested, usual, e, available, MatchingOf(e, requested));
      x in SizeReasons(requested, usual, e, available, MatchingOf(e, requested)) <==>
      Part(x) == 2 && Holds(x, e, requested, usual, Either(usual, requested), available, recommended)
  {
    var recommended := Recommended(requested, usual, e, available, MatchingOf(e, requested));
    SizeReasonsHave(requested, usual, e, available, MatchingOf(e, requested), x);
    ExchangedIff(e, requested, available);
    KeptByMembership(e.sku + e.brand + e.category, recommended);
    AnyAdjusted(e.adjustment, Either(usual, requested), available);
    StepsSign(e.adjustment);
    OthersAreEmpty(requested, usual, e, available, MatchingOf(e, requested));
  }

  lemma InAll(
    e: Evidence, requested: Option<string>, usual: Option<string>, available: seq<string>, insufficient: bool,
    x: Reason)
    ensures
      var matching := MatchingOf(e, requested);
      x in Unique(AllReasons(e, requested, usual, available, matching, insufficient)) <==>
        || x in RequestReasons(requested, usual, available, Kept(e.sku, requested) || Kept(e.brand, requested))
        || x in ReturnReasons(matching) || x in SizeReasons(requested, usual, e, available, matching)
        || x in EvidenceReasons(e, insufficient)
  {
    UniqueKeeps(AllReasons(e, requested, usual, available, MatchingOf(e, requested), insufficient));
  }

  lemma ReasonHolds(
    e: Evidence, requested: Option<string>, usual: Option<string>, available: seq<string>, insufficient: bool,
    x: Reason)
    requires
      var recommended := Recommended(requested, usual, e, available, MatchingOf(e, requested));
      insufficient || e.strength < 0.2 <==> recommended.None? || e.strength < 0.2
    ensures
      var matching := MatchingOf(e, requested);
      x in Unique(AllReasons(e, requested, usual, available, matching, insufficient)) <==>
      Holds(x, e, requested, usual, Either(usual, requested), available,
        Recommended(requested, usual, e, available, matching))
  {
    var base := Either(usual, requested);
    var recommended := Recommended(requested, usual, e, available, MatchingOf(e, requested));
    InAll(e, requested, usual, available, insufficient, x);
    InOpening(e, requested, usual, base, available, recommended, x);
    InReturns(e, requested, usual, base, available, recommended, x);
    InSize(e, requested, usual, available, x);
    InClosing(e, requested, usual, base, available, recommended, insufficient, x);
  }

  lemma DecidedReasons(p: Profile, e: Evidence, size: Option<string>, available: seq<string>)
    returns (insufficient: bool)
    ensures
      var d := Decide(p, e, size, available);
      var usual, matching := Usual(p, e), MatchingOf(e, d.requested);
      && d.reasons == Unique(AllReasons(e, d.requested, usual, available, matching, insufficient))
      && d.recommended == Recommended(d.requested, usual, e, available, matching)
      && Base(p, e, d.requested) == Either(usual, d.requested)
      && (insufficient || e.strength < 0.2 <==> d.recommended.None? || e.strength < 0.2)
  {
    insufficient := Insufficient(p, e, Decide(p, e, size, available).recommended);
  }

  /** The reasons are exactly those that hold, each given once. */
  lemma ReasonsAre(p: Profile, e: Evidence, size: Option<string>, available: seq<string>)
    ensures
      var d := Decide(p, e, size, available);
      && Distinct(d.reasons)
      && forall x ::
           x in d.reasons <==>
           Holds(x, e, d.requested, Usual(p, e), Base(p, e, d.requested), available, d.recommended)
  {
    var requested, usual := Decide(p, e, size, available).requested, Usual(p, e);
    var insufficient := DecidedReasons(p, e, size, available);
    UniqueKeeps(AllReasons(e, requested, usual, available, MatchingOf(e, requested), insufficient));
    forall x {
      ReasonHolds(e, requested, usual, available, insufficient, x);
    }
  }

  lemma RunsAre(p: Profile, e: Evidence, size: Option<string>, available: seq<string>)
    ensures
      var reasons := Decide(p, e, size, available).reasons;
      && (RunsSmall in reasons <==> e.adjustment.SizeUp? || (e.adjustment.Steps? && e.adjustment.steps > 0))
      && (RunsLarge in reasons <==> e.adjustment.SizeDown? || (e.adjustment.Steps? && e.adjustment.steps < 0))
  {
    ReasonsAre(p, e, size, available);
    StepsSign(e.adjustment);
  }

  /** Without an exchange, a brand that runs small leads one size up from the first place of the base size, and says
      so; one that runs large leads one down; a number of steps leads that far. */
  lemma BrandAdjustment(p: Profile, e: Evidence, size: Option<string>, available: seq<string>, i: int)
    requires NoExchange(e, Decide(p, e, size, available).requested, available)
    requires FirstAt(available, Base(p, e, Decide(p, e, size, available).requested), i)
    ensures
      var d := Decide(p, e, size, available);
      && (e.adjustment.SizeUp? && i + 1 < |available| ==>
            d.recommended == Some(available[i + 1]) && RunsSmall in d.reasons && RunsLarge !in d.reasons)
      && (e.adjustment.SizeDown? && i > 0 ==>
            d.recommended == Some(available[i - 1]) && RunsLarge in d.reasons && RunsSmall !in d.reasons)
      && (e.adjustment.Steps? && e.adjustment.steps != 0 && 0 <= i + e.adjustment.steps < |available| ==>
            && d.recommended == Some(available[i + e.adjustment.steps])
            && (RunsSmall in d.reasons <==> e.adjustment.steps > 0)
            && (RunsLarge in d.reasons <==> e.adjustment.steps < 0))
  {
    RunsAre(p, e, size, available);
    match e.adjustment {
      case SizeUp => AdjustedBy(p, e, size, available, i, 1);
      case SizeDown => AdjustedBy(p, e, size, available, i, -1);
      case Steps(n) => AdjustedBy(p, e, size, available, i, n);
      case Unreadable =>
    }
  }

  /** Where a reason stands among those given. */
  function Rank(x: Reason): nat {
    match x
    case MatchesUsual | DiffersFromUsual => 0
    case SizeNotAvailable => 1
    case PreviousSuccess => 2
    case PreviousTooSmall | PreviousTooLarge => 3
    case SuccessfulExchange | HistoricalExchange => 4
    case RunsSmall | RunsLarge => 5
    case SimilarCaseSupport => 6
    case HighReturnHistory => 7
    case LowEvidence => 8
  }

  ghost predicate Ranked(reasons: seq<Reason>) {
    forall i, j :: 0 <= i < j < |reasons| ==> Rank(reasons[i]) <= Rank(reasons[j])
  }

  ghost predicate RankedWithin(reasons: seq<Reason>, low: nat, high: nat) {
    Ranked(reasons) && forall i :: 0 <= i < |reasons| ==> low <= Rank(reasons[i]) <= high
  }

  lemma JoinRanked(a: seq<Reason>, b: seq<Reason>, low: nat, middle: nat, high: nat)
    requires RankedWithin(a, low, middle) && RankedWithin(b, middle, high) && low <= middle <= high
    ensures RankedWithin(a + b, low, high)
  {
  }

  lemma {:induction false} UniqueRanked(reasons: seq<Reason>)
    requires Ranked(reasons)
    ensures Ranked(Unique(reasons))
    decreases |reasons|
  {
    if reasons != [] {
      var front, last := reasons[..|reasons| - 1], reasons[|reasons| - 1];
      UniqueRanked(front);
      UniqueKeeps(front);
      var rest := Unique(front);
      forall i | 0 <= i < |rest| ensures Rank(rest[i]) <= Rank(last) {
        assert rest[i] in front;
        var k :| 0 <= k < |front| && front[k] == rest[i];
        assert reasons[k] == front[k];
      }
    }
  }

  lemma OpeningRanked(requested: Option<string>, usual: Option<string>, available: seq<string>, kept: bool)
    ensures RankedWithin(RequestReasons(requested, usual, available, kept), 0, 3)
  {
  }

  lemma ReturnsRanked(matching: seq<Return>)
    ensures RankedWithin(ReturnReasons(matching), 3, 3)
  {
    ReturnReasonsAre(matching);
    var reasons := ReturnReasons(matching);
    forall i | 0 <= i < |reasons| ensures Rank(reasons[i]) == 3 {
      assert reasons[i] in reasons;
    }
  }

  lemma ClosingRanked(e: Evidence, insufficient: bool)
    ensures RankedWithin(EvidenceReasons(e, insufficient), 6, 8)
  {
  }

  lemma FourRanked(a: seq<Reason>, b: seq<Reason>, c: seq<Reason>, d: seq<Reason>)
    requires RankedWithin(a, 0, 3) && RankedWithin(b, 3, 3) && RankedWithin(c, 3, 6) && RankedWithin(d, 6, 8)
    ensures Ranked(Unique(a + b + c + d))
  {
    JoinRanked(a, b, 0, 3, 3);
    JoinRanked(a + b, c, 0, 3, 6);
    JoinRanked(a + b + c, d, 0, 6, 8);
    UniqueRanked(a + b + c + d);
  }

  /** Reasons come in the order of the evaluation: request, returns, size, evidence as a whole. */
  lemma ReasonsInOrder(p: Profile, e: Evidence, size: Option<string>, available: seq<string>)
    ensures Ranked(Decide(p, e, size, available).reasons)
  {
    var requested, usual := Decide(p, e, size, available).requested, Usual(p, e);
    var insufficient := DecidedReasons(p, e, size, available);
    AllRanked(e, requested, usual, available, MatchingOf(e, requested), insufficient);
  }

  lemma AllRanked(
    e: Evidence, requested: Option<string>, usual: Option<string>, available: seq<string>, matching: seq<Return>,
    insufficient: bool)
    ensures Ranked(Unique(AllReasons(e, requested, usual, available, matching, insufficient)))
  {
    var kept := Kept(e.sku, requested) || Kept(e.brand, requested);
    OpeningRanked(requested, usual, available, kept);
    ReturnsRanked(matching);
    SizeReasonsRanked(requested, usual, e, available, matching);
    ClosingRanked(e, insufficient);
    FourRanked(RequestReasons(requested, usual, available, kept), ReturnReasons(matching),
      SizeReasons(requested, usual, e, available, matching), EvidenceReasons(e, insufficient));
  }

  lemma SizeReasonsRanked(
    requested: Option<string>, usual: Option<string>, e: Evidence, available: seq<string>, matching: seq<Return>)
    ensures RankedWithin(SizeReasons(requested, usual, e, available, matching), 3, 6)
  {
  }
}
