/** The upsell agent over time: evaluate, then record OFFER_SHOWN; the rate limit over every run. */
module OfferLimit {
  import opened Basics
  import opened Calendar
  import opened TextWindow
  import opened OfferPolicy

  /** One customer's agent runs, one at a time. `pending` is the offer evaluated but not recorded. */
  datatype State = State(log: seq<Row>, clock: int, pending: Option<Offer>)

  datatype Label =
    | Ask(now: int, facts: Facts, request: Request, selected: Option<Offer>)
    | Record(at: int)
    | GiveUp
    | Append(row: Row)

  /** The customer's OFFER_SHOWN rows written by the agent. */
  predicate Shown(row: Row, customerId: string) {
    row.customerId == customerId && row.writer == Agent && row.outcome == Some(OfferShown) && row.at.Some?
  }

  /** `GiveUp` is a recording that failed, or a crash. Other writers may append any row, at any time. */
  function Step(cfg: Config, customerId: string, s: State, l: Label): State {
    match l
    case Ask(now, f, r, selected) =>
      if s.pending.Some? || now < s.clock then s
      else
        var e := Evaluate(cfg, s.log, customerId, f, r, now);
        State(s.log, now, if e.eligible && selected.Some? && selected.value in e.offers then selected else None)
    case Record(at) =>
      if s.pending.None? || at < s.clock then s
      else State(s.log + [Row(customerId, Some(at), s.pending, Some(OfferShown), false, Agent)], at, None)
    case GiveUp => s.(pending := None)
    case Append(row) => if Shown(row, customerId) then s else s.(log := s.log + [row])
  }

  function Exec(cfg: Config, customerId: string, s: State, labels: seq<Label>): State {
    if labels == [] then s
    else Step(cfg, customerId, Exec(cfg, customerId, s, labels[..|labels| - 1]), labels[|labels| - 1])
  }

  function ShownTimes(log: seq<Row>, customerId: string): seq<int> {
    if log == [] then []
    else
      ShownTimes(log[..|log| - 1], customerId) +
      if Shown(log[|log| - 1], customerId) then [log[|log| - 1].at.value] else []
  }

  // ---------------------------------------------------------------- invariant

  ghost predicate Ordered(times: seq<int>, clock: int) {
    && (forall i, j :: 0 <= i < j < |times| ==> times[i] <= times[j])
    && (forall i :: 0 <= i < |times| ==> times[i] <= clock)
  }

  /** Offers `limit` apart are at least a window apart, on whole seconds. */
  ghost predicate Spaced(times: seq<int>, limit: nat, days: int) {
    forall i: nat, k: nat :: i + limit <= k < |times| ==> Seconds(times[k]) - Seconds(times[i]) >= days * DAY
  }

  /** The next offer may be recorded now. */
  ghost predicate Room(times: seq<int>, limit: nat, days: int, clock: int)
    requires limit >= 1
  {
    |times| >= limit ==> Seconds(clock) - Seconds(times[|times| - limit]) >= days * DAY
  }

  ghost predicate Inv(cfg: Config, customerId: string, s: State) {
    var times := ShownTimes(s.log, customerId);
    && Ordered(times, s.clock) && Spaced(times, Limit(cfg), cfg.windowDays)
    && (s.pending.Some? ==> Room(times, Limit(cfg), cfg.windowDays, s.clock))
  }

  /** How many of these times are in the policy's window. */
  function Recent(times: seq<int>, now: int, days: int): nat {
    if times == [] then 0
    else Recent(times[..|times| - 1], now, days) + if InWindow(times[|times| - 1], now, days) then 1 else 0
  }

  /** Every recent agent offer is among the rows the frequency query counts. */
  lemma {:induction false} RecentAreCounted(log: seq<Row>, customerId: string, now: int, days: int)
    ensures Recent(ShownTimes(log, customerId), now, days) <= |Times(OffersMade, log, customerId, now, days)|
    decreases |log|
  {
    if log != [] {
      var front, row := log[..|log| - 1], log[|log| - 1];
      RecentAreCounted(front, customerId, now, days);
      var times := ShownTimes(front, customerId);
      assert times + [] == times;
      if Shown(row, customerId) {
        assert (times + [row.at.value])[..|times|] == times;
      }
    }
  }

  lemma {:induction false} RecentSuffix(times: seq<int>, m: nat, now: int, days: int)
    requires m <= |times| && forall i :: |times| - m <= i < |times| ==> InWindow(times[i], now, days)
    ensures Recent(times, now, days) >= m
    decreases |times|
  {
    if m > 0 {
      RecentSuffix(times[..|times| - 1], m - 1, now, days);
    }
  }

  lemma CrowdedIsLimited(cfg: Config, log: seq<Row>, customerId: string, now: int)
    requires Ordered(ShownTimes(log, customerId), now)
    requires !Room(ShownTimes(log, customerId), Limit(cfg), cfg.windowDays, now)
    ensures FrequencyReset(cfg, log, customerId, now).Some?
  {
    var times, limit := ShownTimes(log, customerId), Limit(cfg);
    forall i | |times| - limit <= i < |times| ensures InWindow(times[i], now, cfg.windowDays) {
      Monotone(times[|times| - limit], times[i]);
      Monotone(times[i], now);
    }
    RecentSuffix(times, limit, now, cfg.windowDays);
    RecentAreCounted(log, customerId, now, cfg.windowDays);
  }

  lemma EligibleHasRoom(cfg: Config, log: seq<Row>, customerId: string, f: Facts, r: Request, now: int)
    requires Evaluate(cfg, log, customerId, f, r, now).eligible && Ordered(ShownTimes(log, customerId), now)
    ensures Room(ShownTimes(log, customerId), Limit(cfg), cfg.windowDays, now)
  {
    EligibleIff(cfg, log, customerId, f, r, now);
    if !Room(ShownTimes(log, customerId), Limit(cfg), cfg.windowDays, now) {
      CrowdedIsLimited(cfg, log, customerId, now);
    }
  }

  lemma ShownAppend(log: seq<Row>, row: Row, customerId: string)
    ensures ShownTimes(log + [row], customerId) ==
      ShownTimes(log, customerId) + if Shown(row, customerId) then [row.at.value] else []
  {
    assert (log + [row])[..|log|] == log;
  }

  /** The offer recorded next is a window after the one `limit` before it. */
  lemma NewestSpaced(times: seq<int>, limit: nat, days: int, clock: int, at: int, i: nat)
    requires limit >= 1 && Ordered(times, clock) && Room(times, limit, days, clock) && clock <= at
    requires i + limit <= |times|
    ensures Seconds(at) - Seconds(times[i]) >= days * DAY
  {
    Monotone(times[i], times[|times| - limit]);
    Monotone(clock, at);
  }

  lemma SpacedAppend(times: seq<int>, limit: nat, days: int, clock: int, at: int)
    requires limit >= 1 && Ordered(times, clock) && Spaced(times, limit, days) && Room(times, limit, days, clock)
    requires clock <= at
    ensures Ordered(times + [at], at) && Spaced(times + [at], limit, days)
  {
    var times' := times + [at];
    forall i: nat, k: nat | i + limit <= k < |times'|
      ensures Seconds(times'[k]) - Seconds(times'[i]) >= days * DAY
    {
      if k == |times| { NewestSpaced(times, limit, days, clock, at, i); }
    }
  }

  lemma RecordKeeps(cfg: Config, customerId: string, s: State, at: int)
    requires Inv(cfg, customerId, s) && s.pending.Some? && at >= s.clock
    ensures Inv(cfg, customerId, Step(cfg, customerId, s, Record(at)))
  {
    var row := Row(customerId, Some(at), s.pending, Some(OfferShown), false, Agent);
    ShownAppend(s.log, row, customerId);
    SpacedAppend(ShownTimes(s.log, customerId), Limit(cfg), cfg.windowDays, s.clock, at);
    assert ShownTimes(s.log + [row], customerId) == ShownTimes(s.log, customerId) + [at];
  }

  /** What asking leaves: the log as it was, a later clock, and an offer only if eligible. */
  lemma AskEffect(cfg: Config, customerId: string, s: State, l: Label)
    requires l.Ask?
    ensures
      var s' := Step(cfg, customerId, s, l);
      || s' == s
      || (&& s'.log == s.log && s'.clock == l.now >= s.clock
          && (s'.pending.Some? ==> Evaluate(cfg, s.log, customerId, l.facts, l.request, l.now).eligible))
  {
  }

  lemma AskKeeps(cfg: Config, customerId: string, s: State, s': State, f: Facts, r: Request)
    requires Inv(cfg, customerId, s) && s'.log == s.log && s'.clock >= s.clock
    requires s'.pending.Some? ==> Evaluate(cfg, s.log, customerId, f, r, s'.clock).eligible
    ensures Inv(cfg, customerId, s')
  {
    assert Ordered(ShownTimes(s'.log, customerId), s'.clock);
    if s'.pending.Some? { EligibleHasRoom(cfg, s.log, customerId, f, r, s'.clock); }
  }

  lemma OthersNotShown(log: seq<Row>, row: Row, customerId: string)
    requires !Shown(row, customerId)
    ensures ShownTimes(log + [row], customerId) == ShownTimes(log, customerId)
  {
    ShownAppend(log, row, customerId);
    assert ShownTimes(log, customerId) + [] == ShownTimes(log, customerId);
  }

  lemma SameShownKeeps(cfg: Config, customerId: string, s: State, s': State)
    requires Inv(cfg, customerId, s) && s'.clock == s.clock && s'.pending == s.pending
    requires ShownTimes(s'.log, customerId) == ShownTimes(s.log, customerId)
    ensures Inv(cfg, customerId, s')
  {
  }

  lemma AppendKeeps(cfg: Config, customerId: string, s: State, row: Row)
    requires Inv(cfg, customerId, s)
    ensures Inv(cfg, customerId, Step(cfg, customerId, s, Append(row)))
  {
    if !Shown(row, customerId) {
      OthersNotShown(s.log, row, customerId);
      SameShownKeeps(cfg, customerId, s, s.(log := s.log + [row]));
    }
  }

  lemma StepKeepsInv(cfg: Config, customerId: string, s: State, l: Label)
    requires Inv(cfg, customerId, s)
    ensures Inv(cfg, customerId, Step(cfg, customerId, s, l))
  {
    match l {
      case Ask(now, f, r, selected) =>
        AskEffect(cfg, customerId, s, l);
        if Step(cfg, customerId, s, l) != s { AskKeeps(cfg, customerId, s, Step(cfg, customerId, s, l), f, r); }
      case Record(at) => if s.pending.Some? && at >= s.clock { RecordKeeps(cfg, customerId, s, at); }
      case GiveUp => assert Inv(cfg, customerId, s.(pending := None));
      case Append(row) => AppendKeeps(cfg, customerId, s, row);
    }
  }

  lemma {:induction false} RunKeepsInv(cfg: Config, customerId: string, s: State, labels: seq<Label>)
    requires Inv(cfg, customerId, s)
    ensures Inv(cfg, customerId, Exec(cfg, customerId, s, labels))
    decreases |labels|
  {
    if labels != [] {
      RunKeepsInv(cfg, customerId, s, labels[..|labels| - 1]);
      StepKeepsInv(cfg, customerId, Exec(cfg, customerId, s, labels[..|labels| - 1]), labels[|labels| - 1]);
    }
  }

  // ---------------------------------------------------------------- every run

  /** Before the agent's first offer to this customer; other writers' rows may be seeded. */
  ghost predicate Initial(s: State, customerId: string) {
    s.pending.None? && ShownTimes(s.log, customerId) == []
  }

  /** The indices of times in [from, from + length). */
  function Within(times: seq<int>, from: int, length: int): set<nat> {
    set i: nat | i < |times| && from <= times[i] < from + length
  }

  lemma {:induction false} NarrowIsSmall(indices: set<nat>, low: nat, width: nat)
    requires forall i :: i in indices ==> low <= i < low + width
    ensures |indices| <= width
    decreases width
  {
    if width == 0 {
      assert indices == {};
    } else {
      NarrowIsSmall(indices - {low + width - 1}, low, width - 1);
    }
  }

  /** Indices that never lie `limit` apart are at most `limit`. */
  lemma SpreadBound(indices: set<nat>, limit: nat)
    requires forall i, k :: i in indices && k in indices ==> k < i + limit
    ensures |indices| <= limit
  {
    if indices != {} {
      var low := MinOf(indices);
      NarrowIsSmall(indices, low, limit);
    }
  }

  lemma MinOf(indices: set<nat>) returns (m: nat)
    requires indices != {}
    ensures m in indices && forall i :: i in indices ==> m <= i
  {
    var x :| x in indices;
    if indices == {x} {
      m := x;
    } else {
      var rest := MinOf(indices - {x});
      m := if x < rest then x else rest;
      assert forall i :: i in indices ==> i == x || i in indices - {x};
    }
  }

  /** The longest half-open interval, in microseconds, that the limit protects. */
  function SafeLength(cfg: Config): int {
    (cfg.windowDays * DAY - 1) * SECOND + 1
  }

  /** Over every run, no interval one second short of the window plus a microsecond holds more offers
      recorded by the agent than the limit. */
  lemma RateLimited(cfg: Config, customerId: string, s0: State, labels: seq<Label>, from: int, length: int)
    requires Initial(s0, customerId) && length <= SafeLength(cfg)
    ensures |Within(ShownTimes(Exec(cfg, customerId, s0, labels).log, customerId), from, length)| <= Limit(cfg)
  {
    RunKeepsInv(cfg, customerId, s0, labels);
    var times := ShownTimes(Exec(cfg, customerId, s0, labels).log, customerId);
    var indices := Within(times, from, length);
    forall i, k | i in indices && k in indices ensures k < i + Limit(cfg) {
      CloseTogether(times[i], times[k], cfg.windowDays);
    }
    SpreadBound(indices, Limit(cfg));
  }

  lemma CloseTogether(a: int, b: int, days: int)
    requires b - a < (days * DAY - 1) * SECOND + 1
    ensures Seconds(b) - Seconds(a) < days * DAY
  {
  }

  /** On whole seconds the whole window is protected: (from, from + window]. */
  lemma RateLimitedOnSeconds(cfg: Config, customerId: string, s0: State, labels: seq<Label>, from: int)
    requires Initial(s0, customerId)
    ensures
      var times := ShownTimes(Exec(cfg, customerId, s0, labels).log, customerId);
      |set i: nat | i < |times| && from < Seconds(times[i]) <= from + cfg.windowDays * DAY| <= Limit(cfg)
  {
    RunKeepsInv(cfg, customerId, s0, labels);
    var times := ShownTimes(Exec(cfg, customerId, s0, labels).log, customerId);
    var indices := set i: nat | i < |times| && from < Seconds(times[i]) <= from + cfg.windowDays * DAY;
    SpreadBound(indices, Limit(cfg));
  }

  // ---------------------------------------------------------------- the bound is exact

  /** A request the policy grants whenever the log allows it. */
  const WILLING := Facts(Some(SegmentClassifier.PrestigeChampion), Some(0.9), Some(0.1), Some(true), Some(Gold))
  const REQUEST := Request(Some(SegmentClassifier.PrestigeChampion), Some(LoyaltyThresholdReached), None)

  function OfferAt(customerId: string, t: int): Row {
    Row(customerId, Some(t), Some(StylingAdvisory), Some(OfferShown), false, Agent)
  }

  /** One offer shown just before a second boundary, then n more a window later, on the second. */
  function Burst(cfg: Config, n: nat): seq<Label> {
    if n == 0 then
      [Ask(SECOND - 1, WILLING, REQUEST, Some(StylingAdvisory)), Record(SECOND - 1)]
    else
      Burst(cfg, n - 1)
      + [Ask(Days(cfg.windowDays), WILLING, REQUEST, Some(StylingAdvisory)), Record(Days(cfg.windowDays))]
  }

  function BurstLog(cfg: Config, customerId: string, n: nat): seq<Row> {
    if n == 0 then [OfferAt(customerId, SECOND - 1)]
    else BurstLog(cfg, customerId, n - 1) + [OfferAt(customerId, Days(cfg.windowDays))]
  }

  lemma OneOffer(cfg: Config, customerId: string, s: State, now: int)
    requires s.pending.None? && s.clock <= now
    requires Times(Suppressions, s.log, customerId, now, cfg.suppressionDays) == []
    requires Times(StylePlusDeclines, s.log, customerId, now, cfg.declineDays) == []
    requires FrequencyReset(cfg, s.log, customerId, now).None?
    ensures
      Step(cfg, customerId, Step(cfg, customerId, s, Ask(now, WILLING, REQUEST, Some(StylingAdvisory))), Record(now)) ==
      State(s.log + [OfferAt(customerId, now)], now, None)
  {
    EligibleIff(cfg, s.log, customerId, WILLING, REQUEST, now);
    GrantOffers(LoyaltyThresholdReached, SegmentClassifier.PrestigeChampion, StylePlusMember(s.log, customerId));
  }

  /** What the queries see in a burst log of n + 1 offers. */
  ghost predicate Burstlike(cfg: Config, customerId: string, log: seq<Row>, n: nat) {
    var now, times := Days(cfg.windowDays), ShownTimes(log, customerId);
    && Times(Suppressions, log, customerId, now, cfg.suppressionDays) == []
    && Times(StylePlusDeclines, log, customerId, now, cfg.declineDays) == []
    && |Times(OffersMade, log, customerId, now, cfg.windowDays)| == n
    && |times| == n + 1 && times[0] == SECOND - 1 && forall i :: 0 < i <= n ==> times[i] == now
  }

  lemma OfferAppended(cfg: Config, customerId: string, log: seq<Row>, t: int, now: int)
    ensures
      var row := OfferAt(customerId, t);
      && Times(Suppressions, log + [row], customerId, now, cfg.suppressionDays) ==
         Times(Suppressions, log, customerId, now, cfg.suppressionDays) + []
      && Times(StylePlusDeclines, log + [row], customerId, now, cfg.declineDays) ==
         Times(StylePlusDeclines, log, customerId, now, cfg.declineDays) + []
      && Times(OffersMade, log + [row], customerId, now, cfg.windowDays) ==
         Times(OffersMade, log, customerId, now, cfg.windowDays)
           + (if InWindow(t, now, cfg.windowDays) then [t] else [])
      && ShownTimes(log + [row], customerId) == ShownTimes(log, customerId) + [t]
  {
    var row := OfferAt(customerId, t);
    TimesAppend(Suppressions, log, row, customerId, now, cfg.suppressionDays);
    TimesAppend(StylePlusDeclines, log, row, customerId, now, cfg.declineDays);
    TimesAppend(OffersMade, log, row, customerId, now, cfg.windowDays);
    ShownAppend(log, row, customerId);
  }

  lemma BurstlikeGrows(cfg: Config, customerId: string, log: seq<Row>, n: nat)
    requires cfg.windowDays >= 1 && Burstlike(cfg, customerId, log, n)
    ensures Burstlike(cfg, customerId, log + [OfferAt(customerId, Days(cfg.windowDays))], n + 1)
  {
    OfferAppended(cfg, customerId, log, Days(cfg.windowDays), Days(cfg.windowDays));
  }

  lemma BurstlikeStarts(cfg: Config, customerId: string)
    requires cfg.windowDays >= 1
    ensures Burstlike(cfg, customerId, [OfferAt(customerId, SECOND - 1)], 0)
  {
    DaysLater(0, cfg.windowDays);
    OfferAppended(cfg, customerId, [], SECOND - 1, Days(cfg.windowDays));
    assert [] + [OfferAt(customerId, SECOND - 1)] == [OfferAt(customerId, SECOND - 1)];
  }

  lemma {:induction false} BurstQueries(cfg: Config, customerId: string, n: nat)
    requires cfg.windowDays >= 1
    ensures Burstlike(cfg, customerId, BurstLog(cfg, customerId, n), n)
  {
    if n == 0 {
      BurstlikeStarts(cfg, customerId);
    } else {
      BurstQueries(cfg, customerId, n - 1);
      BurstlikeGrows(cfg, customerId, BurstLog(cfg, customerId, n - 1), n - 1);
    }
  }

  const START := State([], 0, None)

  lemma ExecTwo(cfg: Config, customerId: string, s: State, front: seq<Label>, a: Label, b: Label)
    ensures Exec(cfg, customerId, s, front + [a, b]) ==
      Step(cfg, customerId, Step(cfg, customerId, Exec(cfg, customerId, s, front), a), b)
  {
    assert (front + [a, b])[..|front| + 1] == front + [a];
    assert (front + [a])[..|front|] == front;
  }

  function BurstState(cfg: Config, customerId: string, n: nat): State {
    State(BurstLog(cfg, customerId, n), if n == 0 then SECOND - 1 else Days(cfg.windowDays), None)
  }

  ghost predicate BurstReaches(cfg: Config, customerId: string, n: nat) {
    Exec(cfg, customerId, START, Burst(cfg, n)) == BurstState(cfg, customerId, n)
  }

  lemma BurstStarts(cfg: Config, customerId: string)
    ensures BurstReaches(cfg, customerId, 0)
  {
    var labels := Burst(cfg, 0);
    assert labels == [] + [labels[0], labels[1]];
    ExecTwo(cfg, customerId, START, [], labels[0], labels[1]);
    OneOffer(cfg, customerId, START, SECOND - 1);
  }

  lemma BurstGrows(cfg: Config, customerId: string, n: nat)
    requires cfg.windowDays >= 1 && 0 < n <= Limit(cfg) && BurstReaches(cfg, customerId, n - 1)
    ensures BurstReaches(cfg, customerId, n)
  {
    var now := Days(cfg.windowDays);
    BurstQueries(cfg, customerId, n - 1);
    OneOffer(cfg, customerId, BurstState(cfg, customerId, n - 1), now);
    ExecTwo(cfg, customerId, START, Burst(cfg, n - 1), Ask(now, WILLING, REQUEST, Some(StylingAdvisory)), Record(now));
  }

  lemma BurstRuns(cfg: Config, customerId: string, n: nat)
    requires cfg.windowDays >= 1 && n <= Limit(cfg)
    ensures BurstReaches(cfg, customerId, n)
  {
    var k := 0;
    BurstStarts(cfg, customerId);
    while k < n
      invariant k <= n && BurstReaches(cfg, customerId, k)
    {
      k := k + 1;
      BurstGrows(cfg, customerId, k);
    }
  }

  lemma BurstOverfills(cfg: Config, customerId: string, length: int)
    requires cfg.windowDays >= 1 && length > SafeLength(cfg)
    ensures
      |Within(ShownTimes(Exec(cfg, customerId, START, Burst(cfg, Limit(cfg))).log, customerId), SECOND - 1, length)| ==
      Limit(cfg) + 1
  {
    BurstRuns(cfg, customerId, Limit(cfg));
    BurstQueries(cfg, customerId, Limit(cfg));
    AllWithin(ShownTimes(BurstLog(cfg, customerId, Limit(cfg)), customerId), SECOND - 1, length);
  }

  /** No run of the agent ever overfills an interval of this length. */
  ghost predicate Protected(cfg: Config, customerId: string, length: int) {
    forall labels, from ::
      |Within(ShownTimes(Exec(cfg, customerId, START, labels).log, customerId), from, length)| <= Limit(cfg)
  }

  /** The protected length is exact: every longer interval is overfilled by some run, so the thirty
      day window itself can hold one offer more than the limit. */
  lemma RateLimitExact(cfg: Config, customerId: string, length: int)
    requires cfg.windowDays >= 1
    ensures Protected(cfg, customerId, length) <==> length <= SafeLength(cfg)
  {
    if length <= SafeLength(cfg) {
      forall labels, from
        ensures |Within(ShownTimes(Exec(cfg, customerId, START, labels).log, customerId), from, length)| <= Limit(cfg)
      {
        RateLimited(cfg, customerId, START, labels, from, length);
      }
    } else {
      BurstOverfills(cfg, customerId, length);
    }
  }

  lemma {:induction false} AllWithin(times: seq<int>, from: int, length: int)
    requires forall i :: 0 <= i < |times| ==> from <= times[i] < from + length
    ensures |Within(times, from, length)| == |times|
    decreases |times|
  {
    if times != [] {
      var front := times[..|times| - 1];
      AllWithin(front, from, length);
      assert Within(times, from, length) == Within(front, from, length) + {|times| - 1};
    }
  }
}
