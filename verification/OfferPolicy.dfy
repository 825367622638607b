/** Service-offer eligibility over the engagement log: suppression, cooldown, frequency limit. */
module OfferPolicy {
  import opened Basics
  import opened SegmentClassifier
  import opened Calendar
  import opened TextWindow

  datatype Offer = StylingAdvisory | StylePlusTrial | StylePlus

  datatype Outcome =
    | Viewed | Accepted | Completed | Declined | Dismissed
    | OfferShown | OfferAccepted | OfferDeclined | OfferDismissed | OtherOutcome

  datatype Writer = Agent | OtherWriter

  /** A service_engagement row; times are microseconds. */
  datatype Row = Row(
    customerId: string, at: Option<int>, service: Option<Offer>, outcome: Option<Outcome>, suppressed: bool,
    writer: Writer)

  datatype Config = Config(
    maxOffers: int, windowDays: int, suppressionDays: int, declineDays: int,
    engagementThreshold: real, fitRiskThreshold: real, cartThreshold: real)

  const DEFAULT := Config(3, 30, 30, 30, 0.70, 0.50, 0.70)

  datatype Trigger =
    | HighProductEngagement | PremiumProductInterest | CartAbandonment | ChronicFitRisk | StylingEngagement
    | LoyaltyThresholdReached

  datatype Tier = Gold | Platinum | OtherTier

  /** What the customer and loyalty tables say. A segment is None when it is not one of the four. */
  datatype Facts = Facts(
    segment: Option<Segment>, premiumAffinity: Option<real>, priceSensitivity: Option<real>, consent: Option<bool>,
    tier: Option<Tier>)

  /** `trigger` is None for an unknown trigger name. */
  datatype Request = Request(segment: Option<Segment>, trigger: Option<Trigger>, strength: Option<real>)

  datatype Reason =
    | ContextIncomplete | ConsentRequired | ServiceNotAvailable | RecentStylePlusDecline | FrequencyLimit
    | InvalidTrigger
    | InsufficientEngagement | AlreadyStylePlusMember
    | TriggeredBy(trigger: Trigger) | PrestigeChampionCustomer | AspiringLoyalistCustomer | StylePlusEligible

  datatype Eligibility = Eligibility(
    eligible: bool, offers: seq<Offer>, suppressions: seq<Reason>, reasons: seq<Reason>, cooldownUntil: Option<int>)

  // ---------------------------------------------------------------- queries over the log

  datatype Query = Suppressions | StylePlusDeclines | OffersMade

  predicate Matches(q: Query, r: Row) {
    match q
    case Suppressions => r.suppressed
    case StylePlusDeclines =>
      && (r.service == Some(StylePlus) || r.service == Some(StylePlusTrial))
      && (r.outcome == Some(Declined) || r.outcome == Some(OfferDeclined))
    case OffersMade => r.outcome.Some? && r.outcome != Some(OtherOutcome)
  }

  predicate Selects(q: Query, r: Row, customerId: string, now: int, days: int) {
    r.customerId == customerId && Matches(q, r) && r.at.Some? && InWindow(r.at.value, now, days)
  }

  /** The times of the selected rows, in log order. */
  function Times(q: Query, log: seq<Row>, customerId: string, now: int, days: int): seq<int> {
    if log == [] then []
    else
      Times(q, log[..|log| - 1], customerId, now, days) +
      if Selects(q, log[|log| - 1], customerId, now, days) then [log[|log| - 1].at.value] else []
  }

  function Earliest(times: seq<int>): (r: int)
    requires times != []
    ensures r in times && forall t :: t in times ==> r <= t
  {
    var last := times[|times| - 1];
    assert times == times[..|times| - 1] + [last];
    if |times| == 1 then last
    else if Earliest(times[..|times| - 1]) < last then Earliest(times[..|times| - 1]) else last
  }

  function Latest(times: seq<int>): (r: int)
    requires times != []
    ensures r in times && forall t :: t in times ==> t <= r
  {
    var last := times[|times| - 1];
    assert times == times[..|times| - 1] + [last];
    if |times| == 1 then last
    else if Latest(times[..|times| - 1]) > last then Latest(times[..|times| - 1]) else last
  }

  function Days(n: int): int {
    n * DAY * SECOND
  }

  function LastDecline(cfg: Config, log: seq<Row>, customerId: string, now: int): Option<int> {
    var times := Times(StylePlusDeclines, log, customerId, now, cfg.declineDays);
    if times == [] then None else Some(Latest(times))
  }

  /** When the frequency limit ends; an empty window never limits, whatever the maximum. */
  function FrequencyReset(cfg: Config, log: seq<Row>, customerId: string, now: int): Option<int> {
    var times := Times(OffersMade, log, customerId, now, cfg.windowDays);
    if |times| >= cfg.maxOffers && times != [] then Some(Earliest(times) + Days(cfg.windowDays)) else None
  }

  /** The effective limit: a maximum below one still lets a first offer through. */
  function Limit(cfg: Config): (r: nat)
    ensures r >= 1
  {
    Max(cfg.maxOffers, 1)
  }

  predicate StylePlusMember(log: seq<Row>, customerId: string) {
    exists i :: 0 <= i < |log| && log[i].customerId == customerId && log[i].service == Some(StylePlus) &&
      (log[i].outcome == Some(Accepted) || log[i].outcome == Some(Completed) || log[i].outcome == Some(OfferAccepted))
  }

  // ---------------------------------------------------------------- triggers and offers

  function Threshold(cfg: Config, trigger: Trigger): Option<real> {
    match trigger
    case HighProductEngagement => Some(cfg.engagementThreshold)
    case PremiumProductInterest => Some(cfg.engagementThreshold)
    case StylingEngagement => Some(cfg.engagementThreshold)
    case CartAbandonment => Some(cfg.cartThreshold)
    case ChronicFitRisk => Some(cfg.fitRiskThreshold)
    case LoyaltyThresholdReached => None
  }

  function TriggerRefusal(cfg: Config, trigger: Trigger, strength: Option<real>, tier: Option<Tier>): Option<Reason> {
    var threshold := Threshold(cfg, trigger);
    if threshold.Some? && (strength.None? || strength.value < threshold.value) then Some(InsufficientEngagement)
    else if trigger == LoyaltyThresholdReached && tier != Some(Gold) && tier != Some(Platinum) then
      Some(ServiceNotAvailable)
    else None
  }

  function OffersFor(trigger: Trigger, segment: Segment): seq<Offer> {
    if trigger == ChronicFitRisk || trigger == CartAbandonment then [StylingAdvisory]
    else if segment == ValueDefender || segment == PriceExplorer then [StylingAdvisory]
    else if trigger == StylingEngagement then [StylingAdvisory, StylePlus]
    else [StylingAdvisory, StylePlusTrial]
  }

  function WithoutStylePlus(offers: seq<Offer>): seq<Offer> {
    if offers == [] then []
    else (if offers[0] == StylingAdvisory then [offers[0]] else []) + WithoutStylePlus(offers[1..])
  }

  function NoOffer(reason: Reason, cooldownUntil: Option<int>): Eligibility {
    Eligibility(false, [], [reason], [], cooldownUntil)
  }

  predicate ContextComplete(f: Facts, r: Request) {
    && r.segment.Some? && r.segment == f.segment
    && f.premiumAffinity.Some? && f.priceSensitivity.Some? && f.consent.Some?
  }

  /** `evaluate_eligibility` for a known customer. */
  function Evaluate(cfg: Config, log: seq<Row>, customerId: string, f: Facts, r: Request, now: int): Eligibility {
    if !ContextComplete(f, r) then NoOffer(ContextIncomplete, None)
    else if !f.consent.value then NoOffer(ConsentRequired, None)
    else if Times(Suppressions, log, customerId, now, cfg.suppressionDays) != [] then NoOffer(ServiceNotAvailable, None)
    else if LastDecline(cfg, log, customerId, now).Some? then
      NoOffer(RecentStylePlusDecline, Some(LastDecline(cfg, log, customerId, now).value + Days(cfg.declineDays)))
    else if FrequencyReset(cfg, log, customerId, now).Some? then
      NoOffer(FrequencyLimit, FrequencyReset(cfg, log, customerId, now))
    else if r.trigger.None? then NoOffer(InvalidTrigger, None)
    else
      var refusal := TriggerRefusal(cfg, r.trigger.value, r.strength, f.tier);
      if refusal.Some? then NoOffer(refusal.value, None)
      else Grant(r.trigger.value, r.segment.value, StylePlusMember(log, customerId))
  }

  function Grant(trigger: Trigger, segment: Segment, member: bool): Eligibility {
    var inherited := if member then [AlreadyStylePlusMember] else [];
    var offers := if member then WithoutStylePlus(OffersFor(trigger, segment)) else OffersFor(trigger, segment);
    if offers == [] then Eligibility(false, [], inherited + [ServiceNotAvailable], [], None)
    else
      Eligibility(true, offers, inherited,
        [TriggeredBy(trigger)]
        + (if segment == PrestigeChampion then [PrestigeChampionCustomer]
           else if segment == AspiringLoyalist then [AspiringLoyalistCustomer] else [])
        + (if StylePlusTrial in offers then [StylePlusEligible] else []),
        None)
  }

  /** A Style+ member is never offered Style+; every grant includes the styling advisory. */
  lemma GrantOffers(trigger: Trigger, segment: Segment, member: bool)
    ensures
      var g := Grant(trigger, segment, member);
      && g.eligible && StylingAdvisory in g.offers && g.cooldownUntil == None
      && (member ==> g.offers == [StylingAdvisory])
      && (segment == ValueDefender || segment == PriceExplorer ==> g.offers == [StylingAdvisory])
  {
    var offers := OffersFor(trigger, segment);
    if |offers| == 2 {
      SecondDropped(offers[1]);
      assert offers == [StylingAdvisory, offers[1]];
    } else {
      assert offers == [StylingAdvisory] && offers[1..] == [];
    }
    assert WithoutStylePlus(offers) == [StylingAdvisory];
  }

  lemma SecondDropped(second: Offer)
    requires second != StylingAdvisory
    ensures WithoutStylePlus([StylingAdvisory, second]) == [StylingAdvisory]
  {
    var offers := [StylingAdvisory, second];
    assert offers[1..] == [second] && [second][1..] == [];
    assert WithoutStylePlus([second]) == WithoutStylePlus([]);
  }

  /** The customer's own side of the decision, apart from the log. */
  predicate Willing(cfg: Config, f: Facts, r: Request) {
    && ContextComplete(f, r) && f.consent == Some(true)
    && r.trigger.Some? && TriggerRefusal(cfg, r.trigger.value, r.strength, f.tier).None?
  }

  /** Eligible exactly when the request stands by itself and no rule over the log holds it back. */
  lemma EligibleIff(cfg: Config, log: seq<Row>, customerId: string, f: Facts, r: Request, now: int)
    ensures Evaluate(cfg, log, customerId, f, r, now).eligible <==>
      && Willing(cfg, f, r)
      && Times(Suppressions, log, customerId, now, cfg.suppressionDays) == []
      && LastDecline(cfg, log, customerId, now).None? && FrequencyReset(cfg, log, customerId, now).None?
  {
    if r.trigger.Some? && r.segment.Some? {
      GrantOffers(r.trigger.value, r.segment.value, StylePlusMember(log, customerId));
    }
  }

  // ---------------------------------------------------------------- cooldowns

  lemma TimesAppend(q: Query, log: seq<Row>, r: Row, customerId: string, now: int, days: int)
    ensures Times(q, log + [r], customerId, now, days) ==
      Times(q, log, customerId, now, days) + if Selects(q, r, customerId, now, days) then [r.at.value] else []
  {
    assert (log + [r])[..|log|] == log;
  }

  lemma {:induction false} TimesGrow(q: Query, log: seq<Row>, more: seq<Row>, customerId: string, now: int, days: int)
    ensures Times(q, log, customerId, now, days) <= Times(q, log + more, customerId, now, days)
    decreases |more|
  {
    if more == [] {
      assert log + more == log;
    } else {
      var front := more[..|more| - 1];
      TimesGrow(q, log, front, customerId, now, days);
      assert log + more == (log + front) + [more[|more| - 1]];
      TimesAppend(q, log + front, more[|more| - 1], customerId, now, days);
    }
  }

  lemma {:induction false} TimesInWindow(q: Query, log: seq<Row>, customerId: string, now: int, days: int, t: int)
    requires t in Times(q, log, customerId, now, days)
    ensures InWindow(t, now, days)
    decreases |log|
  {
    var front := log[..|log| - 1];
    if t in Times(q, front, customerId, now, days) {
      TimesInWindow(q, front, customerId, now, days, t);
    }
  }

  /** Rows no older than `since` that were selected stay selected while `since` is in the window. */
  lemma {:induction false} TimesLater(
    q: Query, log: seq<Row>, customerId: string, now: int, later: int, days: int, since: int)
    requires Seconds(now) <= Seconds(later) < Seconds(since) + days * DAY
    requires forall t :: t in Times(q, log, customerId, now, days) ==> since <= t
    ensures |Times(q, log, customerId, now, days)| <= |Times(q, log, customerId, later, days)|
    decreases |log|
  {
    if log != [] {
      var front, row := log[..|log| - 1], log[|log| - 1];
      assert forall t :: t in Times(q, front, customerId, now, days) ==> t in Times(q, log, customerId, now, days);
      TimesLater(q, front, customerId, now, later, days, since);
      if Selects(q, row, customerId, now, days) {
        assert row.at.value in Times(q, log, customerId, now, days);
        Monotone(since, row.at.value);
      }
    }
  }

  lemma DaysLater(t: int, n: int)
    ensures Seconds(t + Days(n)) == Seconds(t) + n * DAY
  {
  }

  lemma Monotone(a: int, b: int)
    requires a <= b
    ensures Seconds(a) <= Seconds(b)
  {
  }

  /** A cooldown binds: until its whole second, no later evaluation is eligible, whatever rows are
      appended and however the customer, the trigger or the request change. */
  lemma CooldownHonoured(
    cfg: Config, log: seq<Row>, customerId: string, f: Facts, r: Request, now: int,
    more: seq<Row>, f': Facts, r': Request, later: int)
    requires now <= later && Evaluate(cfg, log, customerId, f, r, now).cooldownUntil.Some?
    requires Seconds(later) < Seconds(Evaluate(cfg, log, customerId, f, r, now).cooldownUntil.value)
    ensures !Evaluate(cfg, log + more, customerId, f', r', later).eligible
  {
    EligibleIff(cfg, log + more, customerId, f', r', later);
    GrantNoCooldown(cfg, log, customerId, f, r, now);
    Monotone(now, later);
    var declines, offers := Times(StylePlusDeclines, log, customerId, now, cfg.declineDays),
      Times(OffersMade, log, customerId, now, cfg.windowDays);
    if declines != [] {
      var last := Latest(declines);
      DaysLater(last, cfg.declineDays);
      DeclineStays(cfg, log, customerId, now, later);
      TimesGrow(StylePlusDeclines, log, more, customerId, later, cfg.declineDays);
    } else {
      DaysLater(Earliest(offers), cfg.windowDays);
      TimesLater(OffersMade, log, customerId, now, later, cfg.windowDays, Earliest(offers));
      TimesGrow(OffersMade, log, more, customerId, later, cfg.windowDays);
    }
  }

  lemma GrantNoCooldown(cfg: Config, log: seq<Row>, customerId: string, f: Facts, r: Request, now: int)
    requires Evaluate(cfg, log, customerId, f, r, now).cooldownUntil.Some?
    ensures LastDecline(cfg, log, customerId, now).Some? || FrequencyReset(cfg, log, customerId, now).Some?
    ensures Evaluate(cfg, log, customerId, f, r, now).cooldownUntil ==
      if LastDecline(cfg, log, customerId, now).Some?
      then Some(LastDecline(cfg, log, customerId, now).value + Days(cfg.declineDays))
      else FrequencyReset(cfg, log, customerId, now)
  {
    if r.trigger.Some? && r.segment.Some? {
      GrantOffers(r.trigger.value, r.segment.value, StylePlusMember(log, customerId));
    }
  }

  /** Every row's time, if it has one, is no later than this second. */
  ghost predicate NoneAfter(log: seq<Row>, now: int) {
    forall row :: row in log && row.at.Some? ==> Seconds(row.at.value) <= Seconds(now)
  }

  lemma {:induction false} TimesMember(q: Query, log: seq<Row>, row: Row, customerId: string, now: int, days: int)
    requires row in log && Selects(q, row, customerId, now, days)
    ensures row.at.value in Times(q, log, customerId, now, days)
    decreases |log|
  {
    var front := log[..|log| - 1];
    assert log == front + [log[|log| - 1]];
    if row in front {
      TimesMember(q, front, row, customerId, now, days);
    }
  }

  lemma {:induction false} TimesSource(q: Query, log: seq<Row>, customerId: string, now: int, days: int, t: int)
    returns (row: Row)
    requires t in Times(q, log, customerId, now, days)
    ensures row in log && Selects(q, row, customerId, now, days) && row.at.value == t
    decreases |log|
  {
    var front := log[..|log| - 1];
    if t in Times(q, front, customerId, now, days) {
      row := TimesSource(q, front, customerId, now, days, t);
    } else {
      row := log[|log| - 1];
    }
  }

  lemma DeclineStays(cfg: Config, log: seq<Row>, customerId: string, now: int, later: int)
    requires now <= later && LastDecline(cfg, log, customerId, now).Some?
    requires Seconds(later) < Seconds(LastDecline(cfg, log, customerId, now).value) + cfg.declineDays * DAY
    ensures LastDecline(cfg, log, customerId, later).Some?
  {
    var last := LastDecline(cfg, log, customerId, now).value;
    var row := TimesSource(StylePlusDeclines, log, customerId, now, cfg.declineDays, last);
    Monotone(now, later);
    TimesMember(StylePlusDeclines, log, row, customerId, later, cfg.declineDays);
  }

  /** With nothing new in the log, a decline blocks until exactly the whole second of its cooldown,
      which drops the fraction of the decline's own time. */
  lemma DeclineCooldownExact(cfg: Config, log: seq<Row>, customerId: string, now: int, later: int)
    requires now <= later && NoneAfter(log, now) && LastDecline(cfg, log, customerId, now).Some?
    ensures LastDecline(cfg, log, customerId, later).Some? <==>
      Seconds(later) < Seconds(LastDecline(cfg, log, customerId, now).value + Days(cfg.declineDays))
  {
    var last := LastDecline(cfg, log, customerId, now).value;
    DaysLater(last, cfg.declineDays);
    Monotone(now, later);
    if Seconds(later) < Seconds(last) + cfg.declineDays * DAY {
      DeclineStays(cfg, log, customerId, now, later);
    } else if LastDecline(cfg, log, customerId, later).Some? {
      var again := LastDecline(cfg, log, customerId, later).value;
      var row := TimesSource(StylePlusDeclines, log, customerId, later, cfg.declineDays, again);
      TimesMember(StylePlusDeclines, log, row, customerId, now, cfg.declineDays);
      Monotone(again, last);
      assert false;
    }
  }

  lemma OneRow(q: Query, row: Row, customerId: string, now: int, days: int)
    ensures Times(q, [row], customerId, now, days) ==
      if Selects(q, row, customerId, now, days) then [row.at.value] else []
  {
    assert [] + [row] == [row];
    TimesAppend(q, [], row, customerId, now, days);
  }

  lemma DeclineEvaluated(log: seq<Row>, customerId: string, f: Facts, r: Request, now: int, at: int)
    requires Willing(DEFAULT, f, r) && Times(Suppressions, log, customerId, now, 30) == []
    requires Times(StylePlusDeclines, log, customerId, now, 30) == [at]
    ensures Evaluate(DEFAULT, log, customerId, f, r, now).cooldownUntil == Some(at + Days(30))
  {
    assert Latest([at]) == at;
  }

  /** A customer who declined half a second into a second is offered again at a whole second before
      the reported end of the cooldown. */
  lemma CooldownEndsEarly(customerId: string, f: Facts, r: Request)
    requires Willing(DEFAULT, f, r)
    ensures
      var log := [Row(customerId, Some(SECOND / 2), Some(StylePlus), Some(OfferDeclined), false, OtherWriter)];
      var first := Evaluate(DEFAULT, log, customerId, f, r, SECOND / 2);
      && first.cooldownUntil == Some(Days(30) + SECOND / 2)
      && Evaluate(DEFAULT, log, customerId, f, r, Days(30)).eligible
  {
    var log := [Row(customerId, Some(SECOND / 2), Some(StylePlus), Some(OfferDeclined), false, OtherWriter)];
    OneRow(Suppressions, log[0], customerId, SECOND / 2, 30);
    OneRow(StylePlusDeclines, log[0], customerId, SECOND / 2, 30);
    DeclineEvaluated(log, customerId, f, r, SECOND / 2, SECOND / 2);
    DaysLater(0, 30);
    OneRow(Suppressions, log[0], customerId, Days(30), 30);
    OneRow(StylePlusDeclines, log[0], customerId, Days(30), 30);
    OneRow(OffersMade, log[0], customerId, Days(30), 30);
    EligibleIff(DEFAULT, log, customerId, f, r, Days(30));
  }

  // ---------------------------------------------------------------- the end of the frequency limit

  /** The times of a window that are in it still. */
  function Remaining(times: seq<int>, later: int, days: int): seq<int> {
    if times == [] then []
    else
      Remaining(times[..|times| - 1], later, days) +
      if Seconds(later) - days * DAY < Seconds(times[|times| - 1]) then [times[|times| - 1]] else []
  }

  lemma RemainingAppend(times: seq<int>, t: int, later: int, days: int)
    ensures Remaining(times + [t], later, days) ==
      Remaining(times, later, days) + if Seconds(later) - days * DAY < Seconds(t) then [t] else []
  {
    assert (times + [t])[..|times|] == times;
  }

  /** With no row dated later, the window only loses rows as time goes on. */
  lemma {:induction false} WindowLoses(q: Query, log: seq<Row>, customerId: string, now: int, later: int, days: int)
    requires now <= later && NoneAfter(log, now)
    ensures Times(q, log, customerId, later, days) == Remaining(Times(q, log, customerId, now, days), later, days)
    decreases |log|
  {
    if log != [] {
      var front, row := log[..|log| - 1], log[|log| - 1];
      assert NoneAfter(front, now);
      WindowLoses(q, front, customerId, now, later, days);
      Monotone(now, later);
      var times := Times(q, front, customerId, now, days);
      assert row in log;
      if Selects(q, row, customerId, now, days) {
        RemainingAppend(times, row.at.value, later, days);
      } else {
        assert !Selects(q, row, customerId, later, days);
        assert times + [] == times;
      }
    }
  }

  lemma {:induction false} AllRemain(times: seq<int>, later: int, days: int)
    requires forall t :: t in times ==> Seconds(later) - days * DAY < Seconds(t)
    ensures Remaining(times, later, days) == times
    decreases |times|
  {
    if times != [] {
      var front := times[..|times| - 1];
      assert times == front + [times[|times| - 1]];
      AllRemain(front, later, days);
    }
  }

  lemma {:induction false} FewerRemain(times: seq<int>, a: int, b: int, days: int)
    requires Seconds(a) <= Seconds(b)
    ensures |Remaining(times, b, days)| <= |Remaining(times, a, days)|
    decreases |times|
  {
    if times != [] { FewerRemain(times[..|times| - 1], a, b, days); }
  }

  /** With nothing new in the log, the limit holds exactly while enough of the counted rows remain. */
  lemma LimitedWhileEnoughRemain(cfg: Config, log: seq<Row>, customerId: string, now: int, later: int)
    requires now <= later && NoneAfter(log, now)
    ensures FrequencyReset(cfg, log, customerId, later).Some? <==>
      |Remaining(Times(OffersMade, log, customerId, now, cfg.windowDays), later, cfg.windowDays)| >= Limit(cfg)
  {
    WindowLoses(OffersMade, log, customerId, now, later, cfg.windowDays);
  }

  /** Blocked exactly before the whole second of the reported reset, as long as nothing is appended. */
  ghost predicate ResetIsExact(cfg: Config, log: seq<Row>, customerId: string, now: int)
    requires FrequencyReset(cfg, log, customerId, now).Some?
  {
    forall later :: now <= later ==>
      (FrequencyReset(cfg, log, customerId, later).Some? <==>
       Seconds(later) < Seconds(FrequencyReset(cfg, log, customerId, now).value))
  }

  /** The reported reset is the end of the limit if and only if fewer rows than the limit are left once
      the rows of the earliest counted second drop out; otherwise the limit outlasts it. */
  lemma ResetIsExactIff(cfg: Config, log: seq<Row>, customerId: string, now: int)
    requires NoneAfter(log, now) && FrequencyReset(cfg, log, customerId, now).Some?
    ensures
      var reset := FrequencyReset(cfg, log, customerId, now).value;
      ResetIsExact(cfg, log, customerId, now) <==>
      |Remaining(Times(OffersMade, log, customerId, now, cfg.windowDays), reset, cfg.windowDays)| < Limit(cfg)
  {
    var times := Times(OffersMade, log, customerId, now, cfg.windowDays);
    var reset := FrequencyReset(cfg, log, customerId, now).value;
    DaysLater(Earliest(times), cfg.windowDays);
    TimesInWindow(OffersMade, log, customerId, now, cfg.windowDays, Earliest(times));
    LimitedWhileEnoughRemain(cfg, log, customerId, now, reset);
    if |Remaining(times, reset, cfg.windowDays)| < Limit(cfg) {
      forall later | now <= later
        ensures FrequencyReset(cfg, log, customerId, later).Some? <==> Seconds(later) < Seconds(reset)
      {
        ResetHolds(cfg, log, customerId, now, later);
      }
    }
  }

  lemma ResetHolds(cfg: Config, log: seq<Row>, customerId: string, now: int, later: int)
    requires now <= later && NoneAfter(log, now) && FrequencyReset(cfg, log, customerId, now).Some?
    requires
      var reset := FrequencyReset(cfg, log, customerId, now).value;
      |Remaining(Times(OffersMade, log, customerId, now, cfg.windowDays), reset, cfg.windowDays)| < Limit(cfg)
    ensures FrequencyReset(cfg, log, customerId, later).Some? <==>
      Seconds(later) < Seconds(FrequencyReset(cfg, log, customerId, now).value)
  {
    var times := Times(OffersMade, log, customerId, now, cfg.windowDays);
    var reset := FrequencyReset(cfg, log, customerId, now).value;
    DaysLater(Earliest(times), cfg.windowDays);
    LimitedWhileEnoughRemain(cfg, log, customerId, now, later);
    if Seconds(later) < Seconds(reset) {
      forall t | t in times ensures Seconds(later) - cfg.windowDays * DAY < Seconds(t) {
        Monotone(Earliest(times), t);
      }
      AllRemain(times, later, cfg.windowDays);
    } else {
      FewerRemain(times, reset, later, cfg.windowDays);
    }
  }

  function ShownAt(customerId: string, seconds: int): Row {
    Row(customerId, Some(seconds * SECOND), Some(StylingAdvisory), Some(OfferShown), false, OtherWriter)
  }

  /** One offer shown in each of the first n seconds. */
  function Series(customerId: string, n: nat): seq<Row> {
    if n == 0 then [] else Series(customerId, n - 1) + [ShownAt(customerId, n)]
  }

  /** The whole seconds after `low` and up to n. */
  function SecondsAfter(low: int, n: nat): seq<int> {
    if n == 0 then [] else SecondsAfter(low, n - 1) + if low < n then [n * SECOND] else []
  }

  lemma SeriesSelects(customerId: string, n: nat, now: int, days: int)
    requires n <= Seconds(now)
    ensures Selects(OffersMade, ShownAt(customerId, n), customerId, now, days) <==> Seconds(now) - days * DAY < n
  {
    assert Seconds(n * SECOND) == n;
  }

  lemma {:induction false} SeriesTimes(customerId: string, n: nat, now: int, days: int)
    requires n <= Seconds(now)
    ensures Times(OffersMade, Series(customerId, n), customerId, now, days) ==
      SecondsAfter(Seconds(now) - days * DAY, n)
  {
    if n > 0 {
      SeriesTimes(customerId, n - 1, now, days);
      TimesAppend(OffersMade, Series(customerId, n - 1), ShownAt(customerId, n), customerId, now, days);
      SeriesSelects(customerId, n, now, days);
    }
  }

  lemma FourSeconds()
    ensures forall low :: low <= 0 ==> SecondsAfter(low, 4) == [SECOND, 2 * SECOND, 3 * SECOND, 4 * SECOND]
    ensures SecondsAfter(1, 4) == [2 * SECOND, 3 * SECOND, 4 * SECOND]
  {
    forall low | low <= 1
      ensures SecondsAfter(low, 4) == (if low < 1 then [SECOND] else []) + [2 * SECOND, 3 * SECOND, 4 * SECOND]
    {
      assert SecondsAfter(low, 1) == if low < 1 then [SECOND] else [];
      assert SecondsAfter(low, 2) == SecondsAfter(low, 1) + [2 * SECOND];
      assert SecondsAfter(low, 3) == SecondsAfter(low, 2) + [3 * SECOND];
      assert SecondsAfter(low, 4) == SecondsAfter(low, 3) + [4 * SECOND];
    }
  }

  lemma OutlastsByTimes(log: seq<Row>, customerId: string)
    requires Times(OffersMade, log, customerId, 10 * SECOND, 30) == [SECOND, 2 * SECOND, 3 * SECOND, 4 * SECOND]
    requires Times(OffersMade, log, customerId, Days(30) + SECOND, 30) == [2 * SECOND, 3 * SECOND, 4 * SECOND]
    ensures FrequencyReset(DEFAULT, log, customerId, 10 * SECOND) == Some(Days(30) + SECOND)
    ensures FrequencyReset(DEFAULT, log, customerId, Days(30) + SECOND).Some?
  {
    var times := [SECOND, 2 * SECOND, 3 * SECOND, 4 * SECOND];
    assert times[0] in times && Earliest(times) == SECOND;
  }

  /** Four offers counted against a limit of three: the limit still holds at its reported end. */
  lemma LimitOutlastsReset(customerId: string)
    ensures FrequencyReset(DEFAULT, Series(customerId, 4), customerId, 10 * SECOND) == Some(Days(30) + SECOND)
    ensures FrequencyReset(DEFAULT, Series(customerId, 4), customerId, Days(30) + SECOND).Some?
  {
    var log := Series(customerId, 4);
    SeriesTimes(customerId, 4, 10 * SECOND, 30);
    SeriesTimes(customerId, 4, Days(30) + SECOND, 30);
    FourSeconds();
    DaysLater(SECOND, 30);
    OutlastsByTimes(log, customerId);
  }
}
