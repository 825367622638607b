/** What one order line of the history becomes as evidence, column by column. */
module EvidenceRows {
  import opened Basics
  import opened FitEvidence
  import opened FitHistory
  import opened Rounding

  predicate SameLetter(c: char, d: char) {
    || c == d
    || ('A' <= c <= 'Z' && c as int + 32 == d as int)
    || ('A' <= d <= 'Z' && d as int + 32 == c as int)
  }

  /** The same text up to case. */
  predicate SameLetters(a: string, b: string) {
    |a| == |b| && forall i :: 0 <= i < |a| ==> SameLetter(a[i], b[i])
  }

  lemma SameLettersFold(a: string, b: string)
    ensures Casefold(a) == Casefold(b) <==> SameLetters(a, b)
  {
    forall i | 0 <= i < |a| && |a| == |b| ensures Casefold(a)[i] == Casefold(b)[i] <==> SameLetter(a[i], b[i]) {
    }
  }

  /** The line is evidence: it has a product and a size, was ordered by now to the second, and its product, brand
      or category is the one asked about. */
  ghost predicate Evident(l: Line, s: Setting) {
    && l.sku.Some? && l.size.Some? && l.size.value != ""
    && l.orderedAt / 1_000_000 <= s.reader.now / 1_000_000
    && (|| l.sku.value == s.item.sku
        || (l.brand.Some? && SameLetters(l.brand.value, s.item.brand))
        || (l.category.Some? && SameLetters(l.category.value, s.item.category)))
  }

  /** How close it is: the product itself, another of its brand, or another of its category. */
  ghost predicate Closeness(l: Line, s: Setting, tier: Tier)
    requires l.sku.Some?
  {
    var own := l.sku.value == s.item.sku;
    var branded := l.brand.Some? && l.brand.value != "" && SameLetters(l.brand.value, s.item.brand);
    match tier
    case SameSku => own
    case SameBrand => !own && branded
    case SameCategory => !own && !branded
  }

  ghost function ExchangedFor(l: Line): Option<string> {
    if l.returned.Some? && l.returned.value.exchangeSize.Some? && l.returned.value.exchangeSize.value != ""
    then l.returned.value.exchangeSize else None
  }

  ghost function PurchaseRow(l: Line, tier: Tier): Purchase
    requires l.sku.Some? && l.size.Some?
  {
    match l.returned
    case None => Purchase(l.id, l.sku.value, l.size.value, KEPT, None, None, tier)
    case Some(row) => Purchase(l.id, l.sku.value, l.size.value, RETURNED, Some(row.reason), ExchangedFor(l), tier)
  }

  /** The purchases of a tier before and after the line was added. */
  ghost predicate Filed(was: seq<Purchase>, now: seq<Purchase>, l: Line, s: Setting, tier: Tier) {
    now == was + if Evident(l, s) && Closeness(l, s, tier) then [PurchaseRow(l, tier)] else []
  }

  /** The returns before and after: one more exactly when the line came back for a reason about fit. */
  ghost predicate ReturnFiled(was: seq<Return>, now: seq<Return>, l: Line, s: Setting) {
    if Evident(l, s) && l.returned.Some? && l.returned.value.reason != NonFit then
      exists tier ::
        && Closeness(l, s, tier)
        && now == was + [Return(l.id, l.sku.value, l.size.value, l.returned.value.reason, ExchangedFor(l), tier)]
    else now == was
  }

  /** What the lists amount to, each up to its cap. */
  ghost function StrengthFigure(e: Evidence, profile: bool): real {
    (if profile then 0.15 else 0.0)
    + (if |e.sku| >= 2 then 0.50 else 0.25 * |e.sku| as real)
    + (if |e.brand| >= 3 then 0.21 else 0.07 * |e.brand| as real)
    + (if |e.category| >= 3 then 0.09 else 0.03 * |e.category| as real)
    + (if |e.returned| >= 2 then 0.05 else 0.025 * |e.returned| as real)
  }

  lemma RelevantIs(l: Line, s: Setting)
    ensures Relevant(l, s.item, s.reader) <==> Evident(l, s)
    ensures Evident(l, s) ==> Closeness(l, s, TierOf(CaseOf(l), s.item.sku, s.item.brand))
  {
    if l.brand.Some? {
      SameLettersFold(l.brand.value, s.item.brand);
    }
    if l.category.Some? {
      SameLettersFold(l.category.value, s.item.category);
    }
  }

  lemma CasesStep(lines: seq<Line>, l: Line, s: Setting)
    ensures CasesOf(lines + [l], s.item, s.reader) ==
      CasesOf(lines, s.item, s.reader) + if Evident(l, s) then [CaseOf(l)] else []
  {
    assert (lines + [l])[..|lines|] == lines;
    RelevantIs(l, s);
  }

  lemma CaseStep(cases: seq<Case>, c: Case, sku: string, brand: string, tier: Tier)
    ensures PurchasesIn(cases + [c], sku, brand, tier) ==
      PurchasesIn(cases, sku, brand, tier) + if TierOf(c, sku, brand) == tier then [PurchaseOf(c, tier)] else []
    ensures ReturnsIn(cases + [c], sku, brand) ==
      ReturnsIn(cases, sku, brand) + if FitReturn(c) then [ReturnOf(c, TierOf(c, sku, brand))] else []
  {
    assert (cases + [c])[..|cases|] == cases;
  }

  lemma PurchaseFiled(lines: seq<Line>, l: Line, s: Setting, tier: Tier)
    ensures Filed(
      PurchasesIn(CasesOf(lines, s.item, s.reader), s.item.sku, s.item.brand, tier),
      PurchasesIn(CasesOf(lines + [l], s.item, s.reader), s.item.sku, s.item.brand, tier), l, s, tier)
  {
    var cases := CasesOf(lines, s.item, s.reader);
    CasesStep(lines, l, s);
    RelevantIs(l, s);
    if Evident(l, s) {
      CaseStep(cases, CaseOf(l), s.item.sku, s.item.brand, tier);
    } else {
      assert cases + [] == cases;
    }
  }

  lemma ReturnedFiled(lines: seq<Line>, l: Line, s: Setting)
    ensures ReturnFiled(
      ReturnsIn(CasesOf(lines, s.item, s.reader), s.item.sku, s.item.brand),
      ReturnsIn(CasesOf(lines + [l], s.item, s.reader), s.item.sku, s.item.brand), l, s)
  {
    var cases := CasesOf(lines, s.item, s.reader);
    CasesStep(lines, l, s);
    RelevantIs(l, s);
    if Evident(l, s) {
      CaseStep(cases, CaseOf(l), s.item.sku, s.item.brand, SameSku);
    } else {
      assert cases + [] == cases;
    }
  }

  /** Adding a line to the history adds its purchase to the one tier it belongs to and its return, if it came back
      for a reason about fit, to the returns; nothing else in the lists moves. An empty history is no evidence. */
  lemma LineIsFiled(lines: seq<Line>, l: Line, s: Setting)
    ensures
      var e, e' := EvidenceFor(lines, s), EvidenceFor(lines + [l], s);
      && Filed(e.sku, e'.sku, l, s, SameSku) && Filed(e.brand, e'.brand, l, s, SameBrand)
      && Filed(e.category, e'.category, l, s, SameCategory) && ReturnFiled(e.returned, e'.returned, l, s)
    ensures
      var none := EvidenceFor([], s);
      none.sku == [] && none.brand == [] && none.category == [] && none.returned == []
  {
    PurchaseFiled(lines, l, s, SameSku);
    PurchaseFiled(lines, l, s, SameBrand);
    PurchaseFiled(lines, l, s, SameCategory);
    ReturnedFiled(lines, l, s);
  }

  // ---------------------------------------------------------------- strength and rate

  /** Ordered in the window, to the second. */
  ghost predicate Bought(l: Line, reader: Reader) {
    reader.cutoff / 1_000_000 < l.orderedAt / 1_000_000 <= reader.now / 1_000_000
  }

  /** Bought in the window, and returned by this customer by today. */
  ghost predicate BroughtBack(l: Line, reader: Reader) {
    && Bought(l, reader) && l.returned.Some?
    && l.returned.value.customerId == Some(reader.customerId)
    && l.returned.value.on.Some? && l.returned.value.on.value <= reader.now / 86_400_000_000
  }

  lemma WindowIs(l: Line, reader: Reader)
    ensures Recent(l, reader) <==> Bought(l, reader)
    ensures Counted(l, reader) <==> BroughtBack(l, reader)
  {
  }

  /** How many lines were bought in the window, and how many of them brought back. */
  ghost function BoughtCount(lines: seq<Line>, reader: Reader): nat {
    |set i | 0 <= i < |lines| && Bought(lines[i], reader)|
  }

  ghost function BroughtBackCount(lines: seq<Line>, reader: Reader): nat {
    |set i | 0 <= i < |lines| && BroughtBack(lines[i], reader)|
  }

  lemma CountStep(front: seq<Line>, last: Line, reader: Reader)
    ensures BoughtCount(front + [last], reader) == BoughtCount(front, reader) + if Bought(last, reader) then 1 else 0
  {
    var lines := front + [last];
    var was := set i | 0 <= i < |front| && Bought(front[i], reader);
    var now := set i | 0 <= i < |lines| && Bought(lines[i], reader);
    assert forall i :: 0 <= i < |lines| ==> lines[i] == if i < |front| then front[i] else last;
    if Bought(last, reader) {
      assert now == was + {|front|};
    } else {
      assert now == was;
    }
  }

  lemma BackCountStep(front: seq<Line>, last: Line, reader: Reader)
    ensures BroughtBackCount(front + [last], reader) ==
      BroughtBackCount(front, reader) + if BroughtBack(last, reader) then 1 else 0
  {
    var lines := front + [last];
    var was := set i | 0 <= i < |front| && BroughtBack(front[i], reader);
    var now := set i | 0 <= i < |lines| && BroughtBack(lines[i], reader);
    assert forall i :: 0 <= i < |lines| ==> lines[i] == if i < |front| then front[i] else last;
    if BroughtBack(last, reader) {
      assert now == was + {|front|};
    } else {
      assert now == was;
    }
  }

  lemma {:induction false} RateCounts(lines: seq<Line>, reader: Reader)
    ensures Purchased(lines, reader) == BoughtCount(lines, reader)
    ensures Returned(lines, reader) == BroughtBackCount(lines, reader)
    decreases |lines|
  {
    if lines != [] {
      var front, last := lines[..|lines| - 1], lines[|lines| - 1];
      assert lines == front + [last];
      RateCounts(front, reader);
      WindowIs(last, reader);
      CountStep(front, last, reader);
      BackCountStep(front, last, reader);
    }
  }

  /** The strength of the evidence, and the return rate: returned over purchased in the window, to thousandths. */
  lemma StrengthAndRate(lines: seq<Line>, s: Setting)
    ensures
      var e := EvidenceFor(lines, s);
      && e.strength == StrengthFigure(e, s.profile)
      && e.returnRate == (if BoughtCount(lines, s.reader) == 0 then 0.0
                          else Round3(BroughtBackCount(lines, s.reader) as real / BoughtCount(lines, s.reader) as real))
      && e.usualSize == s.usualSize && e.adjustment == s.adjustment && e.similar == s.similar
  {
    RateCounts(lines, s.reader);
  }
}
