/** Fit evidence: purchase and return history partitioned by how close it is to the product. */
module FitEvidence {
  import opened Basics
  import SegmentClassifier

  datatype Tier = SameSku | SameBrand | SameCategory
  datatype Outcome = KEPT | RETURNED
  datatype ReturnReason =
    | TooSmall | TooLarge | TooShort | TooLong | TightWaist | TightChest | PoorFit | NotAsExpected | NonFit

  /** A delivered order line with its return, if any; reason names are already normalised. */
  datatype Case = Case(
    id: string, sku: string, brand: Option<string>, size: string, outcome: Outcome, reason: ReturnReason,
    exchangeSize: Option<string>)

  datatype Purchase = Purchase(
    id: string, sku: string, size: string, outcome: Outcome, reason: Option<ReturnReason>, exchangeSize: Option<string>,
    tier: Tier)

  datatype Return = Return(
    id: string, sku: string, size: string, reason: ReturnReason, exchangeSize: Option<string>, tier: Tier)

  datatype Similar = Similar(score: real, size: string, outcome: Outcome, reason: Option<ReturnReason>)

  datatype Adjustment = SizeUp | SizeDown | Steps(steps: int) | Unreadable

  datatype Evidence = Evidence(
    usualSize: Option<string>, sku: seq<Purchase>, brand: seq<Purchase>, category: seq<Purchase>, returned: seq<Return>,
    adjustment: Adjustment, returnRate: real, similar: seq<Similar>, strength: real)

  function NonEmpty(text: Option<string>): Option<string> {
    if Given(text) then text else None
  }

  predicate Directional(r: ReturnReason) {
    r != NonFit
  }

  function Casefold(s: string): string {
    seq(|s|, i requires 0 <= i < |s| => SegmentClassifier.Lower(s[i]))
  }

  function TierOf(c: Case, sku: string, brand: string): Tier {
    if c.sku == sku then SameSku
    else if Given(c.brand) && Casefold(c.brand.value) == Casefold(brand) then SameBrand
    else SameCategory
  }

  function PurchaseOf(c: Case, tier: Tier): Purchase {
    Purchase(c.id, c.sku, c.size, c.outcome, if c.outcome == RETURNED then Some(c.reason) else None,
      NonEmpty(c.exchangeSize), tier)
  }

  predicate FitReturn(c: Case) {
    c.outcome == RETURNED && c.reason != NonFit
  }

  function ReturnOf(c: Case, tier: Tier): Return {
    Return(c.id, c.sku, c.size, c.reason, NonEmpty(c.exchangeSize), tier)
  }

  /** The purchases of one tier, in history order. */
  function PurchasesIn(cases: seq<Case>, sku: string, brand: string, tier: Tier): seq<Purchase> {
    if cases == [] then []
    else
      PurchasesIn(cases[..|cases| - 1], sku, brand, tier) +
      if TierOf(cases[|cases| - 1], sku, brand) == tier then [PurchaseOf(cases[|cases| - 1], tier)] else []
  }

  function ReturnsIn(cases: seq<Case>, sku: string, brand: string): seq<Return> {
    if cases == [] then []
    else
      ReturnsIn(cases[..|cases| - 1], sku, brand) +
      if FitReturn(cases[|cases| - 1])
      then [ReturnOf(cases[|cases| - 1], TierOf(cases[|cases| - 1], sku, brand))] else []
  }

  function Least(a: nat, b: nat): nat {
    if a < b then a else b
  }

  function Strength(exact: nat, brand: nat, category: nat, returned: nat, profile: bool): (r: real)
    ensures 0.0 <= r <= 1.0
  {
    (if profile then 0.15 else 0.0) + Least(exact, 2) as real * 0.25 + Least(brand, 3) as real * 0.07
    + Least(category, 3) as real * 0.03 + Least(returned, 2) as real * 0.025
  }

  function EvidenceOf(
    cases: seq<Case>, sku: string, brand: string, usualSize: Option<string>, profile: bool, adjustment: Adjustment,
    rate: real)
    : Evidence
  {
    var exact := PurchasesIn(cases, sku, brand, SameSku);
    var sameBrand := PurchasesIn(cases, sku, brand, SameBrand);
    var sameCategory := PurchasesIn(cases, sku, brand, SameCategory);
    var returned := ReturnsIn(cases, sku, brand);
    Evidence(usualSize, exact, sameBrand, sameCategory, returned, adjustment, rate, [],
      Strength(|exact|, |sameBrand|, |sameCategory|, |returned|, profile))
  }

  /** `build`: one pass that appends each case to its tier's list, and its return to the returns. */
  method Build(
    cases: seq<Case>, sku: string, brand: string, usualSize: Option<string>, profile: bool, adjustment: Adjustment,
    rate: real)
    returns (e: Evidence)
    ensures e == EvidenceOf(cases, sku, brand, usualSize, profile, adjustment, rate)
  {
    var exact, sameBrand, sameCategory, returned := [], [], [], [];
    var i := 0;
    while i < |cases|
      invariant 0 <= i <= |cases|
      invariant exact == PurchasesIn(cases[..i], sku, brand, SameSku)
      invariant sameBrand == PurchasesIn(cases[..i], sku, brand, SameBrand)
      invariant sameCategory == PurchasesIn(cases[..i], sku, brand, SameCategory)
      invariant returned == ReturnsIn(cases[..i], sku, brand)
    {
      assert cases[..i + 1][..i] == cases[..i];
      var tier := TierOf(cases[i], sku, brand);
      match tier {
        case SameSku => exact := exact + [PurchaseOf(cases[i], tier)];
        case SameBrand => sameBrand := sameBrand + [PurchaseOf(cases[i], tier)];
        case SameCategory => sameCategory := sameCategory + [PurchaseOf(cases[i], tier)];
      }
      if FitReturn(cases[i]) {
        returned := returned + [ReturnOf(cases[i], tier)];
      }
      i := i + 1;
    }
    assert cases[..|cases|] == cases;
    e := Evidence(usualSize, exact, sameBrand, sameCategory, returned, adjustment, rate, [],
      Strength(|exact|, |sameBrand|, |sameCategory|, |returned|, profile));
  }

  /** Every case lands in exactly one tier, and only directional returns are evidence. */
  lemma {:induction false} EvidencePartitions(cases: seq<Case>, sku: string, brand: string)
    ensures
      |PurchasesIn(cases, sku, brand, SameSku)| + |PurchasesIn(cases, sku, brand, SameBrand)|
      + |PurchasesIn(cases, sku, brand, SameCategory)| == |cases|
    ensures forall r :: r in ReturnsIn(cases, sku, brand) ==> Directional(r.reason)
    decreases |cases|
  {
    if cases != [] {
      EvidencePartitions(cases[..|cases| - 1], sku, brand);
    }
  }
}
