/** What an eligibility check answers, read off the customer, the request and the rows of the log. */
module OfferAnswers {
  import opened Basics
  import opened SegmentClassifier
  import opened OfferPolicy
  import OfferLimit

  // ---------------------------------------------------------------- rows that hold an offer back

  /** Written for this customer at most so many days ago, to the second, and not in the future. */
  ghost predicate Within(row: Row, customerId: string, now: int, days: int) {
    && row.customerId == customerId && row.at.Some?
    && now / 1_000_000 - days * 86_400 < row.at.value / 1_000_000 <= now / 1_000_000
  }

  ghost predicate Suppresses(row: Row, cfg: Config, customerId: string, now: int) {
    row.suppressed && Within(row, customerId, now, cfg.suppressionDays)
  }

  ghost predicate Declines(row: Row, cfg: Config, customerId: string, now: int) {
    && row.service.Some? && row.service.value in {StylePlus, StylePlusTrial}
    && row.outcome.Some? && row.outcome.value in {Declined, OfferDeclined}
    && Within(row, customerId, now, cfg.declineDays)
  }

  ghost predicate Counts(row: Row, cfg: Config, customerId: string, now: int) {
    && row.outcome.Some?
    && row.outcome.value in
       {Viewed, Accepted, Completed, Declined, Dismissed, OfferShown, OfferAccepted, OfferDeclined, OfferDismissed}
    && Within(row, customerId, now, cfg.windowDays)
  }

  ghost function CountedRows(log: seq<Row>, cfg: Config, customerId: string, now: int): set<int> {
    set i | 0 <= i < |log| && Counts(log[i], cfg, customerId, now)
  }

  ghost predicate Suppressed(log: seq<Row>, cfg: Config, customerId: string, now: int) {
    exists i :: 0 <= i < |log| && Suppresses(log[i], cfg, customerId, now)
  }

  ghost function DeclineRows(log: seq<Row>, cfg: Config, customerId: string, now: int): set<int> {
    set i | 0 <= i < |log| && Declines(log[i], cfg, customerId, now)
  }

  /** As many counted rows as the maximum, and at least one. */
  ghost predicate Limited(log: seq<Row>, cfg: Config, customerId: string, now: int) {
    |CountedRows(log, cfg, customerId, now)| >= cfg.maxOffers && CountedRows(log, cfg, customerId, now) != {}
  }

  lemma SelectsIs(row: Row, cfg: Config, customerId: string, now: int)
    ensures Selects(Suppressions, row, customerId, now, cfg.suppressionDays) <==> Suppresses(row, cfg, customerId, now)
    ensures Selects(StylePlusDeclines, row, customerId, now, cfg.declineDays) <==> Declines(row, cfg, customerId, now)
    ensures Selects(OffersMade, row, customerId, now, cfg.windowDays) <==> Counts(row, cfg, customerId, now)
  {
    OutcomeCounts(row);
  }

  lemma OutcomeCounts(row: Row)
    ensures Matches(OffersMade, row) <==>
      row.outcome.Some? && row.outcome.value in
        {Viewed, Accepted, Completed, Declined, Dismissed, OfferShown, OfferAccepted, OfferDeclined, OfferDismissed}
  {
    if row.outcome.Some? {
      match row.outcome.value {
        case OtherOutcome =>
        case _ =>
      }
    }
  }

  ghost function Chosen(q: Query, log: seq<Row>, customerId: string, now: int, days: int): set<int> {
    set i | 0 <= i < |log| && Selects(q, log[i], customerId, now, days)
  }

  lemma ChosenStep(q: Query, front: seq<Row>, last: Row, customerId: string, now: int, days: int)
    ensures Chosen(q, front + [last], customerId, now, days) ==
      Chosen(q, front, customerId, now, days) +
      if Selects(q, last, customerId, now, days) then {|front|} else {}
    ensures |front| !in Chosen(q, front, customerId, now, days)
  {
    var log := front + [last];
    assert forall i :: 0 <= i < |log| ==> log[i] == if i < |front| then front[i] else last;
  }

  /** One of the times is that of row i. */
  ghost predicate TimeOf(q: Query, log: seq<Row>, customerId: string, now: int, days: int, t: int) {
    exists i :: i in Chosen(q, log, customerId, now, days) && log[i].at.value == t
  }

  lemma {:induction false} TimesAre(q: Query, log: seq<Row>, customerId: string, now: int, days: int)
    ensures
      var times := Times(q, log, customerId, now, days);
      && |times| == |Chosen(q, log, customerId, now, days)|
      && forall t :: t in times <==> TimeOf(q, log, customerId, now, days, t)
    decreases |log|
  {
    if log != [] {
      var front, last := log[..|log| - 1], log[|log| - 1];
      assert log == front + [last];
      TimesAre(q, front, customerId, now, days);
      ChosenStep(q, front, last, customerId, now, days);
      TimesAppend(q, front, last, customerId, now, days);
      forall t {
        TimeStep(q, front, last, customerId, now, days, t);
      }
    }
  }

  lemma TimeStep(q: Query, front: seq<Row>, last: Row, customerId: string, now: int, days: int, t: int)
    ensures TimeOf(q, front + [last], customerId, now, days, t) <==>
      || TimeOf(q, front, customerId, now, days, t)
      || (Selects(q, last, customerId, now, days) && last.at.value == t)
  {
    var log := front + [last];
    ChosenStep(q, front, last, customerId, now, days);
    assert log[|front|] == last;
    if TimeOf(q, front, customerId, now, days, t) {
      var i :| i in Chosen(q, front, customerId, now, days) && front[i].at.value == t;
      assert i in Chosen(q, log, customerId, now, days) && log[i].at.value == t;
    }
  }

  lemma TimeOfRow(q: Query, log: seq<Row>, customerId: string, now: int, days: int, i: int)
    requires i in Chosen(q, log, customerId, now, days)
    ensures log[i].at.value in Times(q, log, customerId, now, days)
  {
    TimesAre(q, log, customerId, now, days);
    assert TimeOf(q, log, customerId, now, days, log[i].at.value);
  }

  lemma RowOfTime(q: Query, log: seq<Row>, customerId: string, now: int, days: int, t: int) returns (i: int)
    requires t in Times(q, log, customerId, now, days)
    ensures i in Chosen(q, log, customerId, now, days) && log[i].at.value == t
  {
    TimesAre(q, log, customerId, now, days);
    i :| i in Chosen(q, log, customerId, now, days) && log[i].at.value == t;
  }

  lemma NoTimes(q: Query, log: seq<Row>, customerId: string, now: int, days: int)
    ensures Times(q, log, customerId, now, days) == [] <==> Chosen(q, log, customerId, now, days) == {}
    ensures |Times(q, log, customerId, now, days)| == |Chosen(q, log, customerId, now, days)|
  {
    TimesAre(q, log, customerId, now, days);
  }

  lemma ChosenAre(log: seq<Row>, cfg: Config, customerId: string, now: int)
    ensures Chosen(Suppressions, log, customerId, now, cfg.suppressionDays) != {} <==>
      Suppressed(log, cfg, customerId, now)
    ensures Chosen(StylePlusDeclines, log, customerId, now, cfg.declineDays) == DeclineRows(log, cfg, customerId, now)
    ensures Chosen(OffersMade, log, customerId, now, cfg.windowDays) == CountedRows(log, cfg, customerId, now)
  {
    forall i | 0 <= i < |log| {
      SelectsIs(log[i], cfg, customerId, now);
    }
    if Suppressed(log, cfg, customerId, now) {
      var i :| 0 <= i < |log| && Suppresses(log[i], cfg, customerId, now);
      assert i in Chosen(Suppressions, log, customerId, now, cfg.suppressionDays);
    }
  }

  lemma SomeSuppression(log: seq<Row>, cfg: Config, customerId: string, now: int)
    ensures Times(Suppressions, log, customerId, now, cfg.suppressionDays) != [] <==>
      Suppressed(log, cfg, customerId, now)
  {
    NoTimes(Suppressions, log, customerId, now, cfg.suppressionDays);
    ChosenAre(log, cfg, customerId, now);
  }

  /** Row i declined last. */
  ghost predicate LastToDecline(log: seq<Row>, cfg: Config, customerId: string, now: int, i: int) {
    && i in DeclineRows(log, cfg, customerId, now)
    && forall j :: j in DeclineRows(log, cfg, customerId, now) ==> log[j].at.value <= log[i].at.value
  }

  /** `last` is the time of the last decline, if there is one. */
  ghost predicate LastDeclinedAt(log: seq<Row>, cfg: Config, customerId: string, now: int, last: Option<int>) {
    && (last.None? <==> DeclineRows(log, cfg, customerId, now) == {})
    && (last.Some? ==> exists i :: LastToDecline(log, cfg, customerId, now, i) && log[i].at == last)
  }

  lemma DeclineIs(log: seq<Row>, cfg: Config, customerId: string, now: int)
    ensures LastDeclinedAt(log, cfg, customerId, now, LastDecline(cfg, log, customerId, now))
  {
    var times := Times(StylePlusDeclines, log, customerId, now, cfg.declineDays);
    NoTimes(StylePlusDeclines, log, customerId, now, cfg.declineDays);
    ChosenAre(log, cfg, customerId, now);
    if times != [] {
      var i := RowOfTime(StylePlusDeclines, log, customerId, now, cfg.declineDays, Latest(times));
      forall j | j in DeclineRows(log, cfg, customerId, now) ensures log[j].at.value <= log[i].at.value {
        TimeOfRow(StylePlusDeclines, log, customerId, now, cfg.declineDays, j);
      }
      assert LastToDecline(log, cfg, customerId, now, i);
    }
  }

  /** Row i is the earliest counted one. */
  ghost predicate FirstCounted(log: seq<Row>, cfg: Config, customerId: string, now: int, i: int) {
    && i in CountedRows(log, cfg, customerId, now)
    && forall j :: j in CountedRows(log, cfg, customerId, now) ==> log[i].at.value <= log[j].at.value
  }

  /** `reset` is when the limit ends, if it holds. */
  ghost predicate LimitedUntil(log: seq<Row>, cfg: Config, customerId: string, now: int, reset: Option<int>) {
    && (reset.Some? <==> Limited(log, cfg, customerId, now))
    && (reset.Some? ==>
          exists i ::
            FirstCounted(log, cfg, customerId, now, i) &&
            reset.value == log[i].at.value + cfg.windowDays * 86_400_000_000)
  }

  lemma LimitIs(log: seq<Row>, cfg: Config, customerId: string, now: int)
    ensures LimitedUntil(log, cfg, customerId, now, FrequencyReset(cfg, log, customerId, now))
  {
    var times := Times(OffersMade, log, customerId, now, cfg.windowDays);
    NoTimes(OffersMade, log, customerId, now, cfg.windowDays);
    ChosenAre(log, cfg, customerId, now);
    if times != [] {
      var i := RowOfTime(OffersMade, log, customerId, now, cfg.windowDays, Earliest(times));
      forall j | j in CountedRows(log, cfg, customerId, now) ensures log[i].at.value <= log[j].at.value {
        TimeOfRow(OffersMade, log, customerId, now, cfg.windowDays, j);
      }
      assert FirstCounted(log, cfg, customerId, now, i);
    }
  }

  // ---------------------------------------------------------------- the request itself

  /** The trigger is strong enough: by its own threshold, or for the loyalty trigger by the tier. */
  ghost predicate StrongEnough(cfg: Config, f: Facts, r: Request)
    requires r.trigger.Some?
  {
    match r.trigger.value
    case CartAbandonment => r.strength.Some? && r.strength.value >= cfg.cartThreshold
    case ChronicFitRisk => r.strength.Some? && r.strength.value >= cfg.fitRiskThreshold
    case HighProductEngagement => r.strength.Some? && r.strength.value >= cfg.engagementThreshold
    case PremiumProductInterest => r.strength.Some? && r.strength.value >= cfg.engagementThreshold
    case StylingEngagement => r.strength.Some? && r.strength.value >= cfg.engagementThreshold
    case LoyaltyThresholdReached => f.tier == Some(Gold) || f.tier == Some(Platinum)
  }

  /** One of the four segments, the one on record, with the facts a decision needs. */
  ghost predicate Complete(f: Facts, r: Request) {
    && r.segment.Some? && f.segment.Some? && r.segment.value == f.segment.value
    && f.premiumAffinity.Some? && f.priceSensitivity.Some? && f.consent.Some?
  }

  /** An active Style+ membership: accepted or completed at any time. */
  ghost predicate Member(log: seq<Row>, customerId: string) {
    exists row :: row in log && row.customerId == customerId && row.service == Some(StylePlus) &&
      row.outcome.Some? && row.outcome.value in {Accepted, Completed, OfferAccepted}
  }

  /** A refusal with this reason and nothing on offer. */
  ghost predicate Refused(a: Eligibility, reason: Reason, cooldown: Option<int>) {
    !a.eligible && a.offers == [] && a.suppressions == [reason] && a.reasons == [] && a.cooldownUntil == cooldown
  }

  /** The advisory alone for fit and cart triggers, for the two value segments and for members; otherwise Style+
      with a styling trigger, and its trial with any other. */
  ghost function OffersTo(trigger: Trigger, segment: Segment, member: bool): seq<Offer> {
    if member || trigger == ChronicFitRisk || trigger == CartAbandonment || segment == ValueDefender ||
       segment == PriceExplorer then [StylingAdvisory]
    else if trigger == StylingEngagement then [StylingAdvisory, StylePlus]
    else [StylingAdvisory, StylePlusTrial]
  }

  ghost function ReasonsTo(trigger: Trigger, segment: Segment, offers: seq<Offer>): seq<Reason> {
    [TriggeredBy(trigger)]
    + (if segment == PrestigeChampion then [PrestigeChampionCustomer] else [])
    + (if segment == AspiringLoyalist then [AspiringLoyalistCustomer] else [])
    + if offers == [StylingAdvisory, StylePlusTrial] then [StylePlusEligible] else []
  }

  ghost predicate Granted(a: Eligibility, trigger: Trigger, segment: Segment, member: bool) {
    && a.eligible && a.offers == OffersTo(trigger, segment, member)
    && a.suppressions == (if member then [AlreadyStylePlusMember] else [])
    && a.reasons == ReasonsTo(trigger, segment, a.offers) && a.cooldownUntil.None?
  }

  lemma GrantedOffers(trigger: Trigger, segment: Segment, member: bool)
    ensures Grant(trigger, segment, member).offers == OffersTo(trigger, segment, member)
    ensures StylePlusTrial in OffersTo(trigger, segment, member) <==>
      OffersTo(trigger, segment, member) == [StylingAdvisory, StylePlusTrial]
  {
    GrantOffers(trigger, segment, member);
    assert [StylingAdvisory, StylePlus] != [StylingAdvisory, StylePlusTrial] by {
      assert [StylingAdvisory, StylePlus][1] != [StylingAdvisory, StylePlusTrial][1];
    }
  }

  lemma GrantIs(trigger: Trigger, segment: Segment, member: bool)
    ensures Granted(Grant(trigger, segment, member), trigger, segment, member)
  {
    GrantedOffers(trigger, segment, member);
    GrantOffers(trigger, segment, member);
  }

  lemma MemberIs(log: seq<Row>, customerId: string)
    ensures StylePlusMember(log, customerId) <==> Member(log, customerId)
  {
    if Member(log, customerId) {
      var row :| row in log && row.customerId == customerId && row.service == Some(StylePlus) &&
        row.outcome.Some? && row.outcome.value in {Accepted, Completed, OfferAccepted};
      var i :| 0 <= i < |log| && log[i] == row;
      assert StylePlusMember(log, customerId);
    }
  }

  // ---------------------------------------------------------------- the answer

  lemma HeldBack(cfg: Config, log: seq<Row>, customerId: string, f: Facts, r: Request, now: int)
    requires Complete(f, r) && f.consent.value && !Suppressed(log, cfg, customerId, now)
    ensures
      var a, last := Evaluate(cfg, log, customerId, f, r, now), LastDecline(cfg, log, customerId, now);
      var reset := FrequencyReset(cfg, log, customerId, now);
      && (last.Some? ==> Refused(a, RecentStylePlusDecline, Some(last.value + cfg.declineDays * 86_400_000_000)))
      && (last.None? && reset.Some? ==> Refused(a, FrequencyLimit, reset))
  {
    SomeSuppression(log, cfg, customerId, now);
  }

  /** Refused for a Style+ decline, until so many days after the last one. */
  ghost predicate DeclineHolds(a: Eligibility, cfg: Config, log: seq<Row>, customerId: string, now: int) {
    exists i ::
      LastToDecline(log, cfg, customerId, now, i) &&
      Refused(a, RecentStylePlusDecline, Some(log[i].at.value + cfg.declineDays * 86_400_000_000))
  }

  /** Refused for the number of offers, until the window's length after the first counted row. */
  ghost predicate LimitHolds(a: Eligibility, cfg: Config, log: seq<Row>, customerId: string, now: int) {
    exists i ::
      FirstCounted(log, cfg, customerId, now, i) &&
      Refused(a, FrequencyLimit, Some(log[i].at.value + cfg.windowDays * 86_400_000_000))
  }

  lemma DeclineHoldsFrom(
    a: Eligibility, cfg: Config, log: seq<Row>, customerId: string, now: int, last: Option<int>)
    requires last.Some? && LastDeclinedAt(log, cfg, customerId, now, last)
    requires Refused(a, RecentStylePlusDecline, Some(last.value + cfg.declineDays * 86_400_000_000))
    ensures DeclineHolds(a, cfg, log, customerId, now)
  {
    var i :| LastToDecline(log, cfg, customerId, now, i) && log[i].at == last;
  }

  lemma LimitHoldsFrom(
    a: Eligibility, cfg: Config, log: seq<Row>, customerId: string, now: int, reset: Option<int>)
    requires reset.Some? && LimitedUntil(log, cfg, customerId, now, reset) && Refused(a, FrequencyLimit, reset)
    ensures LimitHolds(a, cfg, log, customerId, now)
  {
    var i :|
      FirstCounted(log, cfg, customerId, now, i) &&
      reset.value == log[i].at.value + cfg.windowDays * 86_400_000_000;
  }

  /** A Style+ decline in its window holds an offer back; without one, a full count does. */
  lemma HoldsBack(cfg: Config, log: seq<Row>, customerId: string, f: Facts, r: Request, now: int)
    requires Complete(f, r) && f.consent.value && !Suppressed(log, cfg, customerId, now)
    ensures
      var a := Evaluate(cfg, log, customerId, f, r, now);
      && (DeclineRows(log, cfg, customerId, now) != {} ==> DeclineHolds(a, cfg, log, customerId, now))
      && (DeclineRows(log, cfg, customerId, now) == {} && Limited(log, cfg, customerId, now) ==>
            LimitHolds(a, cfg, log, customerId, now))
  {
    HeldBack(cfg, log, customerId, f, r, now);
    DeclineIs(log, cfg, customerId, now);
    LimitIs(log, cfg, customerId, now);
    var a := Evaluate(cfg, log, customerId, f, r, now);
    if LastDecline(cfg, log, customerId, now).Some? {
      DeclineHoldsFrom(a, cfg, log, customerId, now, LastDecline(cfg, log, customerId, now));
    } else if FrequencyReset(cfg, log, customerId, now).Some? {
      LimitHoldsFrom(a, cfg, log, customerId, now, FrequencyReset(cfg, log, customerId, now));
    }
  }

  /** Nothing in the log holds an offer back. */
  ghost predicate Free(log: seq<Row>, cfg: Config, customerId: string, now: int) {
    && !Suppressed(log, cfg, customerId, now) && DeclineRows(log, cfg, customerId, now) == {}
    && !Limited(log, cfg, customerId, now)
  }

  /** With complete facts, consent and nothing held back, the trigger decides. */
  lemma TriggerDecides(cfg: Config, log: seq<Row>, customerId: string, f: Facts, r: Request, now: int)
    requires Complete(f, r) && f.consent.value && Free(log, cfg, customerId, now)
    ensures
      var a := Evaluate(cfg, log, customerId, f, r, now);
      if r.trigger.None? then Refused(a, InvalidTrigger, None)
      else if StrongEnough(cfg, f, r) then
        Granted(a, r.trigger.value, r.segment.value, Member(log, customerId))
      else
        Refused(a, if r.trigger.value == LoyaltyThresholdReached then ServiceNotAvailable else InsufficientEngagement,
          None)
  {
    SomeSuppression(log, cfg, customerId, now);
    DeclineIs(log, cfg, customerId, now);
    LimitIs(log, cfg, customerId, now);
    MemberIs(log, customerId);
    if r.trigger.Some? {
      GrantIs(r.trigger.value, r.segment.value, Member(log, customerId));
    }
  }

  /** What comes before the log's cooldowns, in order: facts, consent, and a suppression. */
  lemma RefusedOutright(cfg: Config, log: seq<Row>, customerId: string, f: Facts, r: Request, now: int)
    ensures
      var a := Evaluate(cfg, log, customerId, f, r, now);
      && (!Complete(f, r) ==> Refused(a, ContextIncomplete, None))
      && (Complete(f, r) && !f.consent.value ==> Refused(a, ConsentRequired, None))
      && (Complete(f, r) && f.consent.value && Suppressed(log, cfg, customerId, now) ==>
            Refused(a, ServiceNotAvailable, None))
  {
    SomeSuppression(log, cfg, customerId, now);
  }

  /** An offer is made if and only if the facts are complete, the customer consents, no row holds an offer back and
      the trigger is strong enough. */
  lemma OfferedIff(cfg: Config, log: seq<Row>, customerId: string, f: Facts, r: Request, now: int)
    ensures Evaluate(cfg, log, customerId, f, r, now).eligible <==>
      && Complete(f, r) && f.consent.value && Free(log, cfg, customerId, now)
      && r.trigger.Some? && StrongEnough(cfg, f, r)
  {
    RefusedOutright(cfg, log, customerId, f, r, now);
    if Complete(f, r) && f.consent.value && !Suppressed(log, cfg, customerId, now) {
      HoldsBack(cfg, log, customerId, f, r, now);
      if Free(log, cfg, customerId, now) {
        TriggerDecides(cfg, log, customerId, f, r, now);
      }
    }
  }

  /** By default a cart or an engagement trigger needs 0.70, a fit trigger 0.50, and three offers in thirty days are
      the limit. */
  lemma ByDefault(log: seq<Row>, customerId: string, f: Facts, r: Request, now: int)
    requires Complete(f, r) && f.consent.value && r.trigger.Some?
    requires forall row :: row in log ==> row.customerId != customerId || row.at.None?
    ensures
      Evaluate(DEFAULT, log, customerId, f, r, now).eligible <==>
      match r.trigger.value
      case LoyaltyThresholdReached => f.tier.Some? && f.tier.value in {Gold, Platinum}
      case ChronicFitRisk => r.strength.Some? && r.strength.value >= 0.5
      case _ => r.strength.Some? && r.strength.value >= 0.7
  {
    assert CountedRows(log, DEFAULT, customerId, now) == {} && DeclineRows(log, DEFAULT, customerId, now) == {};
    OfferedIff(DEFAULT, log, customerId, f, r, now);
  }

  // ---------------------------------------------------------------- the agent

  /** The agent asks for one offer at a time and in order of time; it holds the selected offer only if the check
      grants it, and a recording writes that offer as shown, unsuppressed, at its time. */
  lemma AgentSays(
    cfg: Config, customerId: string, s: OfferLimit.State, now: int, f: Facts, r: Request, selected: Option<Offer>,
    at: int)
    ensures s.pending.Some? || now < s.clock ==>
      OfferLimit.Step(cfg, customerId, s, OfferLimit.Ask(now, f, r, selected)) == s
    ensures s.pending.None? && s.clock <= now ==>
      var s' := OfferLimit.Step(cfg, customerId, s, OfferLimit.Ask(now, f, r, selected));
      && s'.log == s.log && s'.clock == now
      && (s'.pending.Some? <==>
            && Complete(f, r) && f.consent.value && Free(s.log, cfg, customerId, now)
            && r.trigger.Some? && StrongEnough(cfg, f, r) && selected.Some?
            && selected.value in OffersTo(r.trigger.value, r.segment.value, Member(s.log, customerId)))
      && (s'.pending.Some? ==> s'.pending == selected)
    ensures OfferLimit.Step(cfg, customerId, s, OfferLimit.Record(at)) ==
      if s.pending.Some? && s.clock <= at then
        OfferLimit.State(
          s.log + [Row(customerId, Some(at), s.pending, Some(OfferShown), false, Agent)], at, None)
      else s
    ensures OfferLimit.Step(cfg, customerId, s, OfferLimit.GiveUp) == OfferLimit.State(s.log, s.clock, None)
  {
    OfferedIff(cfg, s.log, customerId, f, r, now);
    if Complete(f, r) && f.consent.value && Free(s.log, cfg, customerId, now) {
      TriggerDecides(cfg, s.log, customerId, f, r, now);
    }
  }
}
