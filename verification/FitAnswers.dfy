/** The fit decision in figures: which size, from which source, and why. */
module FitAnswers {
  import opened Basics
  import opened FitEvidence
  import opened SizeVotes
  import opened FitCalculator
  import opened FitProperties

  // ---------------------------------------------------------------- which returns count

  ghost predicate KeptIn(purchases: seq<Purchase>, size: Option<string>) {
    Given(size) && exists x :: x in purchases && x.size == size.value && x.outcome == KEPT
  }

  ghost predicate ReturnedIn(e: Evidence, size: Option<string>, tier: Tier) {
    Given(size) && exists r :: r in e.returned && r.size == size.value && r.tier == tier
  }

  /** The returns of this tier count: no closer tier has one of the size, or kept a purchase of it. */
  ghost predicate Counting(e: Evidence, size: Option<string>, tier: Tier) {
    && ReturnedIn(e, size, tier)
    && (tier != SameSku ==> !ReturnedIn(e, size, SameSku) && !KeptIn(e.sku, size))
    && (tier == SameCategory ==> !ReturnedIn(e, size, SameBrand) && !KeptIn(e.brand, size))
  }

  lemma MatchingIsOneTier(e: Evidence, size: Option<string>)
    ensures forall tier :: Counting(e, size, tier) ==> MatchingOf(e, size) == OfTier(OfSize(e.returned, size), tier)
    ensures (forall tier :: !Counting(e, size, tier)) ==> MatchingOf(e, size) == []
  {
    forall tier ensures ReturnedIn(e, size, tier) <==> OfTier(OfSize(e.returned, size), tier) != [] {
      HasReturnIff(e.returned, size, tier);
      assert HasReturn(e.returned, size, tier) <==> ReturnedIn(e, size, tier) by {
        if ReturnedIn(e, size, tier) {
          var r :| r in e.returned && r.size == size.value && r.tier == tier;
          assert OfSizeAndTier(r, size, tier);
        }
      }
    }
    KeptByMembership(e.sku, size);
    KeptByMembership(e.brand, size);
    assert Counting(e, size, SameSku) || Counting(e, size, SameBrand) || Counting(e, size, SameCategory) ||
      MatchingOf(e, size) == [];
  }

  // ---------------------------------------------------------------- exchanges

  predicate Swapped(r: Return, size: Option<string>, tier: Tier, x: string) {
    Given(size) && r.size == size.value && r.tier == tier && r.exchangeSize == Some(x)
  }

  /** How many returns of this size and tier were exchanged for x. */
  ghost function Support(returned: seq<Return>, size: Option<string>, tier: Tier, x: string): nat {
    |set i | 0 <= i < |returned| && Swapped(returned[i], size, tier, x)|
  }

  ghost function VotesOf(returned: seq<Return>, size: Option<string>, tier: Tier, available: seq<string>): seq<Vote> {
    ExchangeVotes(OfTier(OfSize(returned, size), tier), available)
  }

  lemma VotesStep(front: seq<Return>, last: Return, size: Option<string>, tier: Tier, available: seq<string>)
    ensures VotesOf(front + [last], size, tier, available) ==
      VotesOf(front, size, tier, available) +
      if OfSizeAndTier(last, size, tier) && last.exchangeSize.Some? && last.exchangeSize.value in available
      then [Vote(last.exchangeSize.value, 1.0)] else []
  {
    TierStep(front, last, size, tier);
    var was := OfTier(OfSize(front, size), tier);
    if OfSizeAndTier(last, size, tier) {
      assert (was + [last])[..|was|] == was;
    } else {
      assert was + [] == was;
    }
  }

  lemma SupportStep(front: seq<Return>, last: Return, size: Option<string>, tier: Tier, x: string)
    ensures Support(front + [last], size, tier, x) ==
      Support(front, size, tier, x) + if Swapped(last, size, tier, x) then 1 else 0
  {
    var all := front + [last];
    var was := set i | 0 <= i < |front| && Swapped(front[i], size, tier, x);
    var now := set i | 0 <= i < |all| && Swapped(all[i], size, tier, x);
    assert forall i :: 0 <= i < |all| ==> all[i] == if i < |front| then front[i] else last;
    if Swapped(last, size, tier, x) {
      assert now == was + {|front|};
    } else {
      assert now == was;
    }
  }

  lemma VoteAppend(votes: seq<Vote>, v: Vote, x: string)
    ensures Total(votes + [v], x) == Total(votes, x) + if v.size == x then v.weight else 0.0
    ensures Sizes(votes + [v]) == if v.size in Sizes(votes) then Sizes(votes) else Sizes(votes) + [v.size]
  {
    assert (votes + [v])[..|votes|] == votes;
  }

  ghost predicate VotesCount(
    votes: seq<Vote>, returned: seq<Return>, size: Option<string>, tier: Tier, available: seq<string>, x: string)
  {
    && Total(votes, x) == (if x in available then Support(returned, size, tier, x) as real else 0.0)
    && (x in Sizes(votes) <==> x in available && Support(returned, size, tier, x) > 0)
  }

  /** A size on offer has as many votes as returns that were exchanged for it. */
  lemma {:induction false} VotesAreSupport(
    returned: seq<Return>, size: Option<string>, tier: Tier, available: seq<string>, x: string)
    ensures VotesCount(VotesOf(returned, size, tier, available), returned, size, tier, available, x)
    decreases |returned|
  {
    if returned == [] {
      assert VotesOf(returned, size, tier, available) == [];
    } else {
      var front, last := returned[..|returned| - 1], returned[|returned| - 1];
      assert returned == front + [last];
      VotesAreSupport(front, size, tier, available, x);
      SupportStep(front, last, size, tier, x);
      VotesStep(front, last, size, tier, available);
      VoteCounts(VotesOf(front, size, tier, available), front, last, size, tier, available, x);
    }
  }

  lemma VoteCounts(
    votes: seq<Vote>, front: seq<Return>, last: Return, size: Option<string>, tier: Tier, available: seq<string>,
    x: string)
    requires VotesCount(votes, front, size, tier, available, x)
    requires Support(front + [last], size, tier, x) == Support(front, size, tier, x) +
      if Swapped(last, size, tier, x) then 1 else 0
    ensures
      var counts := OfSizeAndTier(last, size, tier) && last.exchangeSize.Some? && last.exchangeSize.value in available;
      VotesCount(votes + if counts then [Vote(last.exchangeSize.value, 1.0)] else [], front + [last], size, tier,
        available, x)
  {
    if OfSizeAndTier(last, size, tier) && last.exchangeSize.Some? && last.exchangeSize.value in available {
      VoteAppend(votes, Vote(last.exchangeSize.value, 1.0), x);
    } else {
      assert votes + [] == votes;
    }
  }

  /** One size was exchanged for before the other was at all. */
  ghost predicate BackedFirst(returned: seq<Return>, size: Option<string>, tier: Tier, x: string, y: string) {
    exists n ::
      0 <= n <= |returned| && Support(returned[..n], size, tier, x) > 0 && Support(returned[..n], size, tier, y) == 0
  }

  lemma {:induction false} EarlierVotes(
    returned: seq<Return>, size: Option<string>, tier: Tier, available: seq<string>, i: nat, j: nat)
    requires i < j < |Sizes(VotesOf(returned, size, tier, available))|
    ensures
      var sizes := Sizes(VotesOf(returned, size, tier, available));
      BackedFirst(returned, size, tier, sizes[i], sizes[j])
    decreases |returned|
  {
    if returned != [] {
      var sizes := Sizes(VotesOf(returned, size, tier, available));
      var front, last := returned[..|returned| - 1], returned[|returned| - 1];
      assert returned == front + [last];
      SizesStep(front, last, size, tier, available);
      var was := Sizes(VotesOf(front, size, tier, available));
      if j < |was| {
        EarlierVotes(front, size, tier, available, i, j);
        var n :| 0 <= n <= |front| && Support(front[..n], size, tier, sizes[i]) > 0 &&
          Support(front[..n], size, tier, sizes[j]) == 0;
        assert front[..n] == returned[..n];
      } else {
        SizesAreVoted(VotesOf(returned, size, tier, available));
        assert sizes[j] !in was;
        VotesAreSupport(front, size, tier, available, sizes[i]);
        VotesAreSupport(front, size, tier, available, sizes[j]);
        VotesAreSupport(returned, size, tier, available, sizes[j]);
        assert front == returned[..|front|];
      }
    }
  }

  lemma SizesStep(front: seq<Return>, last: Return, size: Option<string>, tier: Tier, available: seq<string>)
    ensures
      var was := Sizes(VotesOf(front, size, tier, available));
      var now := Sizes(VotesOf(front + [last], size, tier, available));
      was <= now && |now| <= |was| + 1
  {
    var votes := VotesOf(front, size, tier, available);
    VotesStep(front, last, size, tier, available);
    if OfSizeAndTier(last, size, tier) && last.exchangeSize.Some? && last.exchangeSize.value in available {
      VoteAppend(votes, Vote(last.exchangeSize.value, 1.0), "");
    } else {
      assert votes + [] == votes;
    }
  }

  /** x was the replacement more often than y, or as often and sooner. */
  ghost predicate Outweighs(returned: seq<Return>, size: Option<string>, tier: Tier, x: string, y: string) {
    || Support(returned, size, tier, x) > Support(returned, size, tier, y)
    || (Support(returned, size, tier, x) == Support(returned, size, tier, y) &&
        BackedFirst(returned, size, tier, x, y))
  }

  /** This size on offer was the replacement most often, and first among equals, in the returns that count. */
  ghost predicate MostExchanged(e: Evidence, size: Option<string>, available: seq<string>, x: string) {
    && x in available
    && exists tier ::
         && Counting(e, size, tier) && Support(e.returned, size, tier, x) > 0
         && forall y :: y in available && y != x ==> Outweighs(e.returned, size, tier, x, y)
  }

  /** No return that counts was exchanged for a size on offer. */
  ghost predicate NoExchange(e: Evidence, size: Option<string>, available: seq<string>) {
    forall tier, x :: Counting(e, size, tier) && x in available ==> Support(e.returned, size, tier, x) == 0
  }

  lemma WinnerOutweighs(returned: seq<Return>, size: Option<string>, tier: Tier, available: seq<string>, y: string)
    requires Winner(VotesOf(returned, size, tier, available)).Some? && y in available
    ensures
      var x := Winner(VotesOf(returned, size, tier, available)).value;
      && x in available && Support(returned, size, tier, x) > 0
      && (x != y ==> Outweighs(returned, size, tier, x, y))
  {
    var votes := VotesOf(returned, size, tier, available);
    var x, sizes := Winner(votes).value, Sizes(votes);
    WinnerIsHeaviest(votes);
    var k: nat :| k < |sizes| && sizes[k] == x && Wins(sizes, votes, k);
    VotesAreSupport(returned, size, tier, available, x);
    VotesAreSupport(returned, size, tier, available, y);
    if y in sizes && y != x {
      var j :| 0 <= j < |sizes| && sizes[j] == y;
      if k < j {
        EarlierVotes(returned, size, tier, available, k, j);
      }
    }
  }

  lemma ExchangeIsMost(e: Evidence, size: Option<string>, available: seq<string>)
    ensures
      var winner := Winner(ExchangeVotes(MatchingOf(e, size), available));
      && (winner.None? <==> NoExchange(e, size, available))
      && (winner.Some? ==> MostExchanged(e, size, available, winner.value))
  {
    MatchingIsOneTier(e, size);
    if tier :| Counting(e, size, tier) {
      var votes := VotesOf(e.returned, size, tier, available);
      assert forall t :: Counting(e, size, t) ==> t == tier;
      if Winner(votes).Some? {
        forall y | y in available
          ensures
            var x := Winner(votes).value;
            && x in available && Support(e.returned, size, tier, x) > 0
            && (x != y ==> Outweighs(e.returned, size, tier, x, y))
        {
          WinnerOutweighs(e.returned, size, tier, available, y);
        }
        SomeoneWon(e.returned, size, tier, available);
      } else {
        NobodyWon(e.returned, size, tier, available);
      }
    }
  }

  lemma SomeoneWon(returned: seq<Return>, size: Option<string>, tier: Tier, available: seq<string>)
    requires Winner(VotesOf(returned, size, tier, available)).Some?
    ensures Winner(VotesOf(returned, size, tier, available)).value in available
  {
    var matching := OfTier(OfSize(returned, size), tier);
    ExchangeVotesOffered(matching, available);
    WinnerVoted(ExchangeVotes(matching, available), available);
  }

  lemma NobodyWon(returned: seq<Return>, size: Option<string>, tier: Tier, available: seq<string>)
    requires Winner(VotesOf(returned, size, tier, available)).None?
    ensures forall x :: x in available ==> Support(returned, size, tier, x) == 0
  {
    WinnerIsHeaviest(VotesOf(returned, size, tier, available));
    forall x | x in available ensures Support(returned, size, tier, x) == 0 {
      VotesAreSupport(returned, size, tier, available, x);
    }
  }

  // ---------------------------------------------------------------- similar cases

  ghost predicate HasKept(similar: seq<Similar>, x: string) {
    exists i :: 0 <= i < |similar| && similar[i].outcome == KEPT && similar[i].size == x
  }

  /** The similarity of the kept cases of this size, added up. */
  ghost function KeptScore(similar: seq<Similar>, x: string): real {
    if similar == [] then 0.0
    else
      (if similar[0].outcome == KEPT && similar[0].size == x then similar[0].score else 0.0)
      + KeptScore(similar[1..], x)
  }

  lemma {:induction false} KeptScoreStep(front: seq<Similar>, last: Similar, x: string)
    ensures KeptScore(front + [last], x) ==
      KeptScore(front, x) + if last.outcome == KEPT && last.size == x then last.score else 0.0
    decreases |front|
  {
    if front != [] {
      assert (front + [last])[1..] == front[1..] + [last];
      KeptScoreStep(front[1..], last, x);
    }
  }

  lemma SimilarVotesStep(front: seq<Similar>, last: Similar, available: seq<string>)
    ensures SimilarVotes(front + [last], available) ==
      SimilarVotes(front, available) +
      if last.outcome == KEPT && last.size in available then [Vote(last.size, last.score)] else []
  {
    assert (front + [last])[..|front|] == front;
  }

  ghost predicate SimilarCount(votes: seq<Vote>, similar: seq<Similar>, available: seq<string>, x: string) {
    && Total(votes, x) == (if x in available then KeptScore(similar, x) else 0.0)
    && (x in Sizes(votes) <==> x in available && HasKept(similar, x))
  }

  lemma SimilarVoteCounts(votes: seq<Vote>, front: seq<Similar>, last: Similar, available: seq<string>, x: string)
    requires SimilarCount(votes, front, available, x)
    ensures SimilarCount(
      votes + if last.outcome == KEPT && last.size in available then [Vote(last.size, last.score)] else [],
      front + [last], available, x)
  {
    KeptScoreStep(front, last, x);
    var all := front + [last];
    assert all[|front|] == last && forall i :: 0 <= i < |front| ==> all[i] == front[i];
    assert HasKept(all, x) <==> HasKept(front, x) || (last.outcome == KEPT && last.size == x);
    if last.outcome == KEPT && last.size in available {
      VoteAppend(votes, Vote(last.size, last.score), x);
    } else {
      assert votes + [] == votes;
    }
  }

  lemma {:induction false} SimilarVotesCount(similar: seq<Similar>, available: seq<string>, x: string)
    ensures SimilarCount(SimilarVotes(similar, available), similar, available, x)
    decreases |similar|
  {
    if similar != [] {
      var front, last := similar[..|similar| - 1], similar[|similar| - 1];
      assert similar == front + [last];
      SimilarVotesCount(front, available, x);
      SimilarVotesStep(front, last, available);
      SimilarVoteCounts(SimilarVotes(front, available), front, last, available, x);
    }
  }

  /** A case of one size was found before any of the other. */
  ghost predicate FoundFirst(similar: seq<Similar>, x: string, y: string) {
    exists n :: 0 <= n <= |similar| && HasKept(similar[..n], x) && !HasKept(similar[..n], y)
  }

  lemma SimilarSizesStep(front: seq<Similar>, last: Similar, available: seq<string>)
    ensures
      var was, now := Sizes(SimilarVotes(front, available)), Sizes(SimilarVotes(front + [last], available));
      was <= now && |now| <= |was| + 1
  {
    var votes := SimilarVotes(front, available);
    SimilarVotesStep(front, last, available);
    if last.outcome == KEPT && last.size in available {
      VoteAppend(votes, Vote(last.size, last.score), "");
    } else {
      assert votes + [] == votes;
    }
  }

  lemma {:induction false} EarlierSimilar(similar: seq<Similar>, available: seq<string>, i: nat, j: nat)
    requires i < j < |Sizes(SimilarVotes(similar, available))|
    ensures
      var sizes := Sizes(SimilarVotes(similar, available));
      FoundFirst(similar, sizes[i], sizes[j])
    decreases |similar|
  {
    if similar != [] {
      var sizes := Sizes(SimilarVotes(similar, available));
      var front, last := similar[..|similar| - 1], similar[|similar| - 1];
      assert similar == front + [last];
      SimilarSizesStep(front, last, available);
      if j < |Sizes(SimilarVotes(front, available))| {
        EarlierSimilar(front, available, i, j);
        FoundInFront(front, last, sizes[i], sizes[j]);
      } else {
        NewestSimilar(front, last, available, i, j);
      }
    }
  }

  lemma FoundInFront(front: seq<Similar>, last: Similar, x: string, y: string)
    requires FoundFirst(front, x, y)
    ensures FoundFirst(front + [last], x, y)
  {
    var n :| 0 <= n <= |front| && HasKept(front[..n], x) && !HasKept(front[..n], y);
    assert (front + [last])[..n] == front[..n];
  }

  /** The last size on the list came with the last case, and the others before it. */
  lemma NewestSimilar(front: seq<Similar>, last: Similar, available: seq<string>, i: nat, j: nat)
    requires
      var was, now := Sizes(SimilarVotes(front, available)), Sizes(SimilarVotes(front + [last], available));
      i < j < |now| && was <= now && |now| <= |was| + 1 && j >= |was|
    ensures
      var sizes := Sizes(SimilarVotes(front + [last], available));
      FoundFirst(front + [last], sizes[i], sizes[j])
  {
    var was, now := Sizes(SimilarVotes(front, available)), Sizes(SimilarVotes(front + [last], available));
    DistinctSizes(SimilarVotes(front + [last], available));
    assert now[i] in was && now[j] !in was && now[j] in now;
    FoundNow(front, last, available, now[i], now[j]);
  }

  lemma DistinctSizes(votes: seq<Vote>)
    ensures Distinct(Sizes(votes))
  {
    SizesAreVoted(votes);
  }

  lemma FoundNow(front: seq<Similar>, last: Similar, available: seq<string>, x: string, y: string)
    requires x in Sizes(SimilarVotes(front, available)) && y !in Sizes(SimilarVotes(front, available))
    requires y in Sizes(SimilarVotes(front + [last], available))
    ensures FoundFirst(front + [last], x, y)
  {
    SimilarVotesCount(front, available, x);
    SimilarVotesCount(front, available, y);
    SimilarVotesCount(front + [last], available, y);
    assert (front + [last])[..|front|] == front;
  }

  /** The size on offer that similar customers kept with most similarity, the first found among equals. */
  ghost predicate MostSimilar(similar: seq<Similar>, available: seq<string>, x: string) {
    && x in available && HasKept(similar, x)
    && forall y :: y in available && HasKept(similar, y) && y != x ==> SimilarOutweighs(similar, x, y)
  }

  ghost predicate SimilarOutweighs(similar: seq<Similar>, x: string, y: string) {
    || KeptScore(similar, x) > KeptScore(similar, y)
    || (KeptScore(similar, x) == KeptScore(similar, y) && FoundFirst(similar, x, y))
  }

  lemma EarlierOutweighs(similar: seq<Similar>, available: seq<string>, x: string, y: string)
    requires x in available && y in available && HasKept(similar, y) && y != x
    requires
      var votes := SimilarVotes(similar, available);
      exists k: nat :: k < |Sizes(votes)| && Sizes(votes)[k] == x && Wins(Sizes(votes), votes, k)
    ensures SimilarOutweighs(similar, x, y)
  {
    var votes := SimilarVotes(similar, available);
    var sizes := Sizes(votes);
    var k: nat :| k < |sizes| && sizes[k] == x && Wins(sizes, votes, k);
    SimilarVotesCount(similar, available, x);
    SimilarVotesCount(similar, available, y);
    var j :| 0 <= j < |sizes| && sizes[j] == y;
    if k < j {
      EarlierSimilar(similar, available, k, j);
    }
  }

  lemma SimilarWinnerOutweighs(similar: seq<Similar>, available: seq<string>, y: string)
    requires Winner(SimilarVotes(similar, available)).Some?
    ensures
      var x := Winner(SimilarVotes(similar, available)).value;
      && x in available && HasKept(similar, x)
      && (y in available && HasKept(similar, y) && y != x ==> SimilarOutweighs(similar, x, y))
  {
    var votes := SimilarVotes(similar, available);
    var x := Winner(votes).value;
    WinnerIsHeaviest(votes);
    SimilarVotesCount(similar, available, x);
    assert x in Sizes(votes);
    if y in available && HasKept(similar, y) && y != x {
      EarlierOutweighs(similar, available, x, y);
    }
  }

  lemma SimilarIsMost(similar: seq<Similar>, available: seq<string>)
    ensures
      var winner := Winner(SimilarVotes(similar, available));
      && (winner.None? <==> forall x :: x in available ==> !HasKept(similar, x))
      && (winner.Some? ==> MostSimilar(similar, available, winner.value))
  {
    if Winner(SimilarVotes(similar, available)).Some? {
      SimilarWinnerOutweighs(similar, available, "");
      forall y | y in available && HasKept(similar, y) && y != Winner(SimilarVotes(similar, available)).value
        ensures SimilarOutweighs(similar, Winner(SimilarVotes(similar, available)).value, y)
      {
        SimilarWinnerOutweighs(similar, available, y);
      }
    } else {
      WinnerIsHeaviest(SimilarVotes(similar, available));
      forall x | x in available ensures !HasKept(similar, x) {
        SimilarVotesCount(similar, available, x);
      }
    }
  }

  // ---------------------------------------------------------------- where the size comes from

  /** The steps a brand's adjustment asks for: one up, one down, or a number of them. */
  ghost predicate Moves(a: Adjustment, n: int) {
    (a == SizeUp && n == 1) || (a == SizeDown && n == -1) || a == FitEvidence.Adjustment.Steps(n)
  }

  /** The first place of a size on the list. */
  ghost predicate FirstAt(available: seq<string>, size: Option<string>, i: int) {
    size.Some? && 0 <= i < |available| && available[i] == size.value &&
    forall k :: 0 <= k < i ==> available[k] != size.value
  }

  /** From the first place of the base size the adjustment leads to x. */
  ghost predicate AdjustsTo(a: Adjustment, base: Option<string>, available: seq<string>, x: string) {
    exists i, n ::
      && FirstAt(available, base, i) && Moves(a, n) && n != 0
      && 0 <= i + n < |available| && available[i + n] == x
  }

  /** The profile's usual size if it gives one, else that of the evidence. */
  ghost function Usual(p: Profile, e: Evidence): Option<string> {
    if p.usualSize.Some? && p.usualSize.value != "" then p.usualSize else e.usualSize
  }

  ghost function Base(p: Profile, e: Evidence, requested: Option<string>): Option<string> {
    if Usual(p, e).Some? && Usual(p, e).value != "" then Usual(p, e) else requested
  }

  ghost predicate Offered(size: Option<string>, available: seq<string>) {
    size.Some? && size.value in available
  }

  lemma FirstIsIndex(available: seq<string>, size: Option<string>, i: int)
    ensures FirstAt(available, size, i) <==> Among(size, available) && i == IndexOf(available, size.value)
  {
    if Among(size, available) {
      var k := IndexOf(available, size.value);
      assert forall l :: 0 <= l < k ==> available[l] == available[..k][l];
    }
  }

  lemma AdjustedIs(a: Adjustment, base: Option<string>, available: seq<string>, x: string)
    ensures
      var adjusted := if StepsOf(a) != 0 then Adjusted(base, StepsOf(a), available) else None;
      AdjustsTo(a, base, available, x) <==> adjusted == Some(x)
  {
    forall i ensures FirstAt(available, base, i) <==> Among(base, available) && i == IndexOf(available, base.value) {
      FirstIsIndex(available, base, i);
    }
    if AdjustsTo(a, base, available, x) {
      var i, n :| FirstAt(available, base, i) && Moves(a, n) && n != 0 && 0 <= i + n < |available| &&
        available[i + n] == x;
      assert n == StepsOf(a);
    } else if StepsOf(a) != 0 && Among(base, available) {
      assert FirstAt(available, base, IndexOf(available, base.value)) && Moves(a, StepsOf(a));
    }
  }

  /** What is recommended without an exchange: the brand's adjustment, the requested size where it was kept, the
      usual size, the requested size, and last what similar customers kept. */
  ghost predicate FromOtherSources(
    e: Evidence, requested: Option<string>, usual: Option<string>, base: Option<string>, available: seq<string>,
    recommended: Option<string>)
  {
    && (forall x :: AdjustsTo(e.adjustment, base, available, x) ==> recommended == Some(x))
    && ((forall x :: !AdjustsTo(e.adjustment, base, available, x)) ==>
          if (KeptIn(e.sku, requested) || KeptIn(e.brand, requested)) && Offered(requested, available) then
            recommended == requested
          else if Offered(usual, available) then recommended == usual
          else if Offered(requested, available) then recommended == requested
          else if exists x :: x in available && HasKept(e.similar, x) then
            exists x :: MostSimilar(e.similar, available, x) && recommended == if x == "" then None else Some(x)
          else recommended == None)
  }

  lemma SupportGrows(returned: seq<Return>, size: Option<string>, tier: Tier, x: string, n: nat, m: nat)
    requires n <= m <= |returned|
    ensures Support(returned[..n], size, tier, x) <= Support(returned[..m], size, tier, x)
  {
    var early := set i | 0 <= i < n && Swapped(returned[..n][i], size, tier, x);
    var late := set i | 0 <= i < m && Swapped(returned[..m][i], size, tier, x);
    assert early <= late;
    assert late == early + (late - early);
  }

  lemma OneOutweighs(returned: seq<Return>, size: Option<string>, tier: Tier, x: string, y: string)
    ensures !(Outweighs(returned, size, tier, x, y) && Outweighs(returned, size, tier, y, x))
  {
    if BackedFirst(returned, size, tier, x, y) && BackedFirst(returned, size, tier, y, x) {
      var n :|
        0 <= n <= |returned| && Support(returned[..n], size, tier, x) > 0 && Support(returned[..n], size, tier, y) == 0;
      var m :|
        0 <= m <= |returned| && Support(returned[..m], size, tier, y) > 0 && Support(returned[..m], size, tier, x) == 0;
      if n <= m {
        SupportGrows(returned, size, tier, x, n, m);
      } else {
        SupportGrows(returned, size, tier, y, m, n);
      }
    }
  }

  /** At most one size is the most exchanged. */
  lemma OneMostExchanged(e: Evidence, size: Option<string>, available: seq<string>, x: string, y: string)
    requires MostExchanged(e, size, available, x) && MostExchanged(e, size, available, y)
    ensures x == y
  {
    forall tier {
      OneOutweighs(e.returned, size, tier, x, y);
    }
    assert forall t1, t2 :: Counting(e, size, t1) && Counting(e, size, t2) ==> t1 == t2;
  }

  lemma OthersInOrder(
    e: Evidence, requested: Option<string>, usual: Option<string>, available: seq<string>, matching: seq<Return>)
    requires !Given(Winner(ExchangeVotes(matching, available)))
    ensures FromOtherSources(e, requested, usual, Either(usual, requested), available,
      Recommended(requested, usual, e, available, matching))
  {
    forall x
      ensures
        var steps := StepsOf(e.adjustment);
        AdjustsTo(e.adjustment, Either(usual, requested), available, x) <==>
          steps != 0 && Adjusted(Either(usual, requested), steps, available) == Some(x)
    {
      AdjustedIs(e.adjustment, Either(usual, requested), available, x);
    }
    KeptByMembership(e.sku, requested);
    KeptByMembership(e.brand, requested);
    SimilarIsMost(e.similar, available);
  }

  /** The first source is the size most often taken in exchange; without one, or a blank one, the others follow. */
  lemma SourcesInOrder(p: Profile, e: Evidence, size: Option<string>, available: seq<string>)
    ensures
      var d := Decide(p, e, size, available);
      var others := FromOtherSources(e, d.requested, Usual(p, e), Base(p, e, d.requested), available, d.recommended);
      if NoExchange(e, d.requested, available) then others
      else exists x ::
        MostExchanged(e, d.requested, available, x) && if x == "" then others else d.recommended == Some(x)
  {
    var requested, matching := RequestedSize(size), MatchingOf(e, RequestedSize(size));
    ExchangeIsMost(e, requested, available);
    if !Given(Winner(ExchangeVotes(matching, available))) {
      OthersInOrder(e, requested, Usual(p, e), available, matching);
    }
  }

  lemma AdjustsFrom(
    e: Evidence, requested: Option<string>, usual: Option<string>, base: Option<string>, available: seq<string>,
    recommended: Option<string>, i: int, n: int)
    requires FromOtherSources(e, requested, usual, base, available, recommended)
    requires FirstAt(available, base, i) && Moves(e.adjustment, n) && n != 0 && 0 <= i + n < |available|
    ensures recommended == Some(available[i + n])
  {
    assert AdjustsTo(e.adjustment, base, available, available[i + n]);
  }

  lemma AdjustedBy(p: Profile, e: Evidence, size: Option<string>, available: seq<string>, i: int, n: int)
    requires NoExchange(e, Decide(p, e, size, available).requested, available)
    requires FirstAt(available, Base(p, e, Decide(p, e, size, available).requested), i) && Moves(e.adjustment, n)
    ensures n != 0 && 0 <= i + n < |available| ==>
      Decide(p, e, size, available).recommended == Some(available[i + n])
  {
    SourcesInOrder(p, e, size, available);
    var d := Decide(p, e, size, available);
    if n != 0 && 0 <= i + n < |available| {
      AdjustsFrom(e, d.requested, Usual(p, e), Base(p, e, d.requested), available, d.recommended, i, n);
    }
  }
}
