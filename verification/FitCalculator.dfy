/** Deterministic size recommendation and fit risk from tiered evidence. */
module FitCalculator {
  import opened Basics
  import opened FitEvidence
  import opened Rounding
  import opened SizeVotes
  import TextStrip

  datatype Profile = Profile(usualSize: Option<string>, sizeConfidence: Option<real>)

  datatype Band = LOW | MEDIUM | HIGH
  datatype Action = ConfirmSize | RecommendSizeChange | ShowCaution | InsufficientEvidence

  datatype Reason =
    | MatchesUsual | DiffersFromUsual | SizeNotAvailable | PreviousSuccess | PreviousTooSmall | PreviousTooLarge
    | SuccessfulExchange | HistoricalExchange | RunsSmall | RunsLarge | SimilarCaseSupport | HighReturnHistory
    | LowEvidence

  datatype Decision = Decision(
    requested: Option<string>, recommended: Option<string>, confidence: real, risk: real, band: Band, action: Action,
    reasons: seq<Reason>)

  const LOW_MAX := 0.30
  const MEDIUM_MAX := 0.65
  const CHRONIC_RATE := 0.50
  const MIN_STRENGTH := 0.20

  // ---------------------------------------------------------------- pieces

  predicate Among(size: Option<string>, available: seq<string>) {
    size.Some? && size.value in available
  }

  predicate Kept(purchases: seq<Purchase>, size: Option<string>) {
    Given(size) && exists i :: 0 <= i < |purchases| && purchases[i].size == size.value && purchases[i].outcome == KEPT
  }

  function OfSize(returned: seq<Return>, size: Option<string>): seq<Return> {
    if returned == [] then []
    else
      OfSize(returned[..|returned| - 1], size) +
      if Given(size) && returned[|returned| - 1].size == size.value then [returned[|returned| - 1]] else []
  }

  function OfTier(returned: seq<Return>, tier: Tier): seq<Return> {
    if returned == [] then []
    else
      OfTier(returned[..|returned| - 1], tier) +
      if returned[|returned| - 1].tier == tier then [returned[|returned| - 1]] else []
  }

  /** The returns that count: the closest tier with any, unless a kept purchase of that tier overrules
      the tiers below it. */
  function Matching(returned: seq<Return>, size: Option<string>, skuKept: bool, brandKept: bool): seq<Return> {
    var mine := OfSize(returned, size);
    if OfTier(mine, SameSku) != [] then OfTier(mine, SameSku)
    else if skuKept then []
    else if OfTier(mine, SameBrand) != [] then OfTier(mine, SameBrand)
    else if brandKept then []
    else OfTier(mine, SameCategory)
  }

  function MatchingOf(e: Evidence, size: Option<string>): seq<Return> {
    Matching(e.returned, size, Kept(e.sku, size), Kept(e.brand, size))
  }

  function ReturnReasons(matching: seq<Return>): seq<Reason> {
    if matching == [] then []
    else
      ReturnReasons(matching[..|matching| - 1]) +
      match matching[|matching| - 1].reason
      case TooSmall => [PreviousTooSmall]
      case TooLarge => [PreviousTooLarge]
      case _ => []
  }

  function ExchangeVotes(returned: seq<Return>, available: seq<string>): seq<Vote> {
    if returned == [] then []
    else
      var last := returned[|returned| - 1];
      ExchangeVotes(returned[..|returned| - 1], available) +
      if Among(last.exchangeSize, available) then [Vote(last.exchangeSize.value, 1.0)] else []
  }

  function SimilarVotes(similar: seq<Similar>, available: seq<string>): seq<Vote> {
    if similar == [] then []
    else
      var last := similar[|similar| - 1];
      SimilarVotes(similar[..|similar| - 1], available) +
      if last.outcome == KEPT && last.size in available then [Vote(last.size, last.score)] else []
  }

  function StepsOf(a: Adjustment): int {
    match a
    case SizeUp => 1
    case SizeDown => -1
    case Steps(n) => n
    case Unreadable => 0
  }

  function IndexOf(available: seq<string>, size: string): (i: nat)
    requires size in available
    ensures i < |available| && available[i] == size && size !in available[..i]
  {
    if available[0] == size then 0 else 1 + IndexOf(available[1..], size)
  }

  function Adjusted(base: Option<string>, steps: int, available: seq<string>): Option<string> {
    if !Among(base, available) then None
    else
      var i := IndexOf(available, base.value) + steps;
      if 0 <= i < |available| then Some(available[i]) else None
  }

  function Either(a: Option<string>, b: Option<string>): Option<string> {
    if Given(a) then a else b
  }

  /** The six sources of a recommendation, in order. */
  function Recommended(
    requested: Option<string>, usual: Option<string>, e: Evidence, available: seq<string>,
    matching: seq<Return>): Option<string>
  {
    var exchange := Winner(ExchangeVotes(matching, available));
    var steps := StepsOf(e.adjustment);
    var adjusted := if steps != 0 then Adjusted(Either(usual, requested), steps, available) else None;
    if Given(exchange) then exchange
    else if adjusted.Some? then adjusted
    else if (Kept(e.sku, requested) || Kept(e.brand, requested)) && Among(requested, available) then requested
    else if Among(usual, available) then usual
    else if Among(requested, available) then requested
    else if Given(Winner(SimilarVotes(e.similar, available))) then Winner(SimilarVotes(e.similar, available))
    else None
  }

  // ---------------------------------------------------------------- risk and confidence

  function Weight(tier: Tier): real {
    match tier
    case SameSku => 1.0
    case SameBrand => 0.75
    case SameCategory => 0.5
  }

  function ReturnRisk(matching: seq<Return>): real {
    if matching == [] then 0.0
    else
      var last, rest := matching[|matching| - 1], ReturnRisk(matching[..|matching| - 1]);
      if Directional(last.reason) && Weight(last.tier) > rest then Weight(last.tier) else rest
  }

  predicate Concerns(s: Similar, requested: Option<string>) {
    requested == None || requested == Some(s.size)
  }

  function SimilarWeight(similar: seq<Similar>, requested: Option<string>): real {
    if similar == [] then 0.0
    else
      SimilarWeight(similar[..|similar| - 1], requested) +
      if Concerns(similar[|similar| - 1], requested) then similar[|similar| - 1].score else 0.0
  }

  function SimilarReturned(similar: seq<Similar>, requested: Option<string>): real {
    if similar == [] then 0.0
    else
      var last := similar[|similar| - 1];
      SimilarReturned(similar[..|similar| - 1], requested) +
      if Concerns(last, requested) && last.outcome == RETURNED && last.reason.Some? && Directional(last.reason.value)
      then last.score else 0.0
  }

  function MaxReal(a: real, b: real): real {
    if a < b then b else a
  }

  function MinReal(a: real, b: real): real {
    if b < a then b else a
  }

  function SimilarRisk(similar: seq<Similar>, requested: Option<string>): real {
    SimilarReturned(similar, requested) / MaxReal(SimilarWeight(similar, requested), 1.0)
  }

  /** The weighted sum before the discount and the clamp. */
  function RiskSum(requested: Option<string>, usual: Option<string>, e: Evidence, matching: seq<Return>): real {
    var mismatch := if Given(requested) && Given(usual) && requested != usual then 1.0 else 0.0;
    var brand := if StepsOf(e.adjustment) != 0 then 1.0 else 0.0;
    e.returnRate * 0.25 + mismatch * 0.20 + brand * 0.20 + ReturnRisk(matching) * 0.25
    + SimilarRisk(e.similar, requested) * 0.10
  }

  function Clamp(x: real): real {
    MinReal(MaxReal(x, 0.0), 1.0)
  }

  function RiskScore(requested: Option<string>, usual: Option<string>, e: Evidence, matching: seq<Return>): real {
    var discount := if Kept(e.sku, requested) && ReturnRisk(matching) < 1.0 then 0.15 else 0.0;
    Round3(Clamp(RiskSum(requested, usual, e, matching) - discount))
  }

  function ConfidenceOf(p: Profile, e: Evidence, skuKept: bool, exchange: bool): real {
    var size := match p.sizeConfidence case None => 0.0 case Some(c) => c;
    Round3(Clamp(
      size * 0.40 + e.strength * 0.40 + (if skuKept then 0.15 else 0.0) + (if exchange then 0.15 else 0.0)
      + Least(|e.similar|, 5) as real * 0.01))
  }

  function BandOf(score: real): Band {
    if score < LOW_MAX then LOW else if score < MEDIUM_MAX then MEDIUM else HIGH
  }

  // ---------------------------------------------------------------- the decision

  function RequestedSize(size: Option<string>): Option<string> {
    if Given(size) then Some(TextStrip.Strip(size.value)) else None
  }

  function UsualSize(p: Profile, e: Evidence): Option<string> {
    Either(p.usualSize, e.usualSize)
  }

  predicate Insufficient(p: Profile, e: Evidence, recommended: Option<string>) {
    recommended.None? || (e.strength < MIN_STRENGTH && e.similar == [] && p.usualSize.None?)
  }

  function ActionOf(
    requested: Option<string>, recommended: Option<string>, insufficient: bool, band: Band, unavailable: bool): Action
  {
    if insufficient then InsufficientEvidence
    else if Given(requested) && recommended != requested then RecommendSizeChange
    else if band == HIGH || unavailable then ShowCaution
    else ConfirmSize
  }

  function Unique(reasons: seq<Reason>): seq<Reason> {
    if reasons == [] then []
    else
      var rest := Unique(reasons[..|reasons| - 1]);
      if reasons[|reasons| - 1] in rest then rest else rest + [reasons[|reasons| - 1]]
  }

  function RequestReasons(
    requested: Option<string>, usual: Option<string>, available: seq<string>, kept: bool): seq<Reason>
  {
    (if Given(requested) && requested == usual then [MatchesUsual]
     else if Given(requested) && Given(usual) then [DiffersFromUsual] else [])
    + (if Given(requested) && requested.value !in available then [SizeNotAvailable] else [])
    + (if kept then [PreviousSuccess] else [])
  }

  function EvidenceReasons(e: Evidence, insufficient: bool): seq<Reason> {
    (if e.returnRate > CHRONIC_RATE then [HighReturnHistory] else [])
    + (if e.strength < MIN_STRENGTH || insufficient then [LowEvidence] else [])
  }

  /** The reasons behind the recommended size. */
  function SizeReasons(
    requested: Option<string>, usual: Option<string>, e: Evidence, available: seq<string>,
    matching: seq<Return>): seq<Reason>
  {
    var exchange, steps := Winner(ExchangeVotes(matching, available)), StepsOf(e.adjustment);
    var early := Recommended(requested, usual, e.(similar := []), available, matching);
    (if !Given(exchange) then []
     else if Kept(e.sku + e.brand + e.category, exchange) then [SuccessfulExchange] else [HistoricalExchange])
    + (if steps > 0 then [RunsSmall] else if steps < 0 then [RunsLarge] else [])
    + (if early.None? && Recommended(requested, usual, e, available, matching).Some? then [SimilarCaseSupport] else [])
  }

  function AllReasons(
    e: Evidence, requested: Option<string>, usual: Option<string>, available: seq<string>, matching: seq<Return>,
    insufficient: bool)
    : seq<Reason>
  {
    RequestReasons(requested, usual, available, Kept(e.sku, requested) || Kept(e.brand, requested))
    + ReturnReasons(matching) + SizeReasons(requested, usual, e, available, matching) + EvidenceReasons(e, insufficient)
  }

  function Decide(p: Profile, e: Evidence, size: Option<string>, available: seq<string>): Decision {
    var requested, usual := RequestedSize(size), UsualSize(p, e);
    var matching := MatchingOf(e, requested);
    var recommended := Recommended(requested, usual, e, available, matching);
    var risk := RiskScore(requested, usual, e, matching);
    Decision(
      requested, recommended,
      ConfidenceOf(p, e, Kept(e.sku, requested), Winner(ExchangeVotes(matching, available)).Some?),
      risk, BandOf(risk),
      ActionOf(requested, recommended, Insufficient(p, e, recommended), BandOf(risk),
        Given(requested) && requested.value !in available),
      Unique(AllReasons(e, requested, usual, available, matching, Insufficient(p, e, recommended))))
  }

  // ---------------------------------------------------------------- as the source runs it

  method PreferredExchange(matching: seq<Return>, available: seq<string>) returns (r: Option<string>)
    ensures r == Winner(ExchangeVotes(matching, available))
  {
    var votes, i := [], 0;
    while i < |matching|
      invariant 0 <= i <= |matching| && votes == ExchangeVotes(matching[..i], available)
    {
      assert matching[..i + 1][..i] == matching[..i];
      if Among(matching[i].exchangeSize, available) {
        votes := votes + [Vote(matching[i].exchangeSize.value, 1.0)];
      }
      i := i + 1;
    }
    assert matching[..|matching|] == matching;
    r := MostCommon(votes);
  }

  method VectorSupported(similar: seq<Similar>, available: seq<string>) returns (r: Option<string>)
    ensures r == Winner(SimilarVotes(similar, available))
  {
    var votes, i := [], 0;
    while i < |similar|
      invariant 0 <= i <= |similar| && votes == SimilarVotes(similar[..i], available)
    {
      assert similar[..i + 1][..i] == similar[..i];
      if similar[i].outcome == KEPT && similar[i].size in available {
        votes := votes + [Vote(similar[i].size, similar[i].score)];
      }
      i := i + 1;
    }
    assert similar[..|similar|] == similar;
    r := MostCommon(votes);
  }

  /** `dict.fromkeys`: each reason once, where it first appeared. */
  method Deduplicate(reasons: seq<Reason>) returns (r: seq<Reason>)
    ensures r == Unique(reasons) && Distinct(r)
    ensures forall x :: x in r <==> x in reasons
  {
    r := [];
    var i := 0;
    while i < |reasons|
      invariant 0 <= i <= |reasons| && r == Unique(reasons[..i]) && Distinct(r)
      invariant forall x :: x in r <==> x in reasons[..i]
    {
      assert reasons[..i + 1][..i] == reasons[..i] && reasons[..i + 1] == reasons[..i] + [reasons[i]];
      if reasons[i] !in r {
        r := r + [reasons[i]];
      }
      i := i + 1;
    }
    assert reasons[..|reasons|] == reasons;
  }

  method ReasonsForReturns(matching: seq<Return>) returns (reasons: seq<Reason>)
    ensures reasons == ReturnReasons(matching)
    ensures forall x :: x in reasons ==> x == PreviousTooSmall || x == PreviousTooLarge
  {
    reasons := [];
    var i := 0;
    while i < |matching|
      invariant 0 <= i <= |matching| && reasons == ReturnReasons(matching[..i])
      invariant forall x :: x in reasons ==> x == PreviousTooSmall || x == PreviousTooLarge
    {
      assert matching[..i + 1][..i] == matching[..i];
      if matching[i].reason == TooSmall {
        reasons := reasons + [PreviousTooSmall];
      } else if matching[i].reason == TooLarge {
        reasons := reasons + [PreviousTooLarge];
      }
      i := i + 1;
    }
    assert matching[..|matching|] == matching;
  }

  /** Fills the recommendation from the first source that has one. */
  method Recommend(
    requested: Option<string>, usual: Option<string>, e: Evidence, available: seq<string>, matching: seq<Return>)
    returns (recommended: Option<string>, exchanged: bool, reasons: seq<Reason>)
    ensures recommended == Recommended(requested, usual, e, available, matching)
    ensures exchanged == Winner(ExchangeVotes(matching, available)).Some?
    ensures reasons == SizeReasons(requested, usual, e, available, matching)
    ensures SizeNotAvailable !in reasons && LowEvidence !in reasons
  {
    recommended, reasons := None, [];
    var exchange := PreferredExchange(matching, available);
    exchanged := exchange.Some?;
    if Given(exchange) {
      recommended := exchange;
      reasons := [if Kept(e.sku + e.brand + e.category, exchange) then SuccessfulExchange else HistoricalExchange];
    }
    var steps := StepsOf(e.adjustment);
    if steps != 0 {
      reasons := reasons + [if steps > 0 then RunsSmall else RunsLarge];
      if recommended.None? {
        recommended := Adjusted(Either(usual, requested), steps, available);
      }
    }
    if recommended.None? && (Kept(e.sku, requested) || Kept(e.brand, requested)) && Among(requested, available) {
      recommended := requested;
    }
    if recommended.None? && Among(usual, available) {
      recommended := usual;
    }
    if recommended.None? && Among(requested, available) {
      recommended := requested;
    }
    assert recommended == Recommended(requested, usual, e.(similar := []), available, matching);
    if recommended.None? {
      var similar := VectorSupported(e.similar, available);
      if Given(similar) {
        recommended := similar;
        reasons := reasons + [SimilarCaseSupport];
      }
    }
  }

  /** `evaluate`: reasons, recommendation, risk and action build up step by step. */
  method Evaluate(p: Profile, e: Evidence, size: Option<string>, available: seq<string>) returns (d: Decision)
    ensures d == Decide(p, e, size, available)
  {
    var requested := RequestedSize(size);
    var usual := Either(p.usualSize, e.usualSize);
    var skuKept, brandKept := Kept(e.sku, requested), Kept(e.brand, requested);
    var reasons := OpeningReasons(requested, usual, available, skuKept || brandKept);
    var matching := Matching(e.returned, requested, skuKept, brandKept);
    var forReturns := ReasonsForReturns(matching);
    var recommended, exchanged, forSize := Recommend(requested, usual, e, available, matching);
    reasons := reasons + forReturns + forSize;
    assert SizeNotAvailable in reasons <==> Given(requested) && requested.value !in available;
    var risk := RiskScore(requested, usual, e, matching);
    var insufficient := Insufficient(p, e, recommended);
    var closing := ClosingReasons(e, insufficient);
    var action := ActionOf(requested, recommended, insufficient, BandOf(risk), SizeNotAvailable in reasons);
    var unique := Deduplicate(reasons + closing);
    d := Decision(requested, recommended, ConfidenceOf(p, e, skuKept, exchanged), risk, BandOf(risk), action, unique);
  }

  method OpeningReasons(requested: Option<string>, usual: Option<string>, available: seq<string>, kept: bool)
    returns (reasons: seq<Reason>)
    ensures reasons == RequestReasons(requested, usual, available, kept)
    ensures SizeNotAvailable in reasons <==> Given(requested) && requested.value !in available
    ensures LowEvidence !in reasons
  {
    reasons := [];
    if Given(requested) && requested == usual {
      reasons := reasons + [MatchesUsual];
    } else if Given(requested) && Given(usual) {
      reasons := reasons + [DiffersFromUsual];
    }
    if Given(requested) && requested.value !in available {
      reasons := reasons + [SizeNotAvailable];
    }
    if kept {
      reasons := reasons + [PreviousSuccess];
    }
  }

  method ClosingReasons(e: Evidence, insufficient: bool) returns (reasons: seq<Reason>)
    ensures reasons == EvidenceReasons(e, insufficient)
  {
    reasons := [];
    if e.returnRate > CHRONIC_RATE {
      reasons := reasons + [HighReturnHistory];
    }
    if e.strength < MIN_STRENGTH {
      reasons := reasons + [LowEvidence];
    }
    if insufficient && LowEvidence !in reasons {
      reasons := reasons + [LowEvidence];
    }
  }
}
