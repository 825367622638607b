# Neu.Tail commerce core: model and proofs

Neu.Tail is a retail assistant. Behind its agents sits a durable core: purchases that are recorded
once however often they are submitted, an outbox that carries each change to in-process subscribers,
profile caches those subscribers invalidate, an offer protocol that customers answer, and policies over
append-only logs. This project models that core in Dafny and proves what holds over all its inputs and
all its runs.

How the model is laid out:

- Each write transaction (`tools/runtime.py:29-40`) is a function from tables to tables, or an error that
  leaves them alone. A service that changes state in place is a class, or a method with the source's loop,
  whose postcondition equates the new tables with that function of the old ones. The two process-local
  stores have one such function per call, and their results are about sequences of calls.
- A protocol is a state machine whose labels are single committed transactions, handler steps, crashes
  and restarts in any order. A label that is not enabled changes nothing, so a run is any sequence of labels.
- Main results quantify over every run. Each rests on an inductive invariant kept label by label.
- The modules whose names end in `Answers`, with `FitFigures`, `EvidenceRows` and `SegmentTexts`,
  say what an operation answers and writes in terms of its inputs and rows alone, with the source's own
  constants, and prove that the operation does so for all inputs.

| module | models |
|---|---|
| `ContextBus`, `BusDelivery`, `BusPolling`, `BusAnswers`, `BusStarvation`, `BusService` | outbox events, deliveries, dispatcher, batches and polls |
| `CommerceEvents`, `PurchaseRuns`, `PurchaseAnswers`, `SegmentHistory`, `SegmentClassifier`, `SegmentTexts`, `CommerceService` | the purchase transaction, its replays, segment transitions and history |
| `ProjectionStores`, `CacheSystem`, `CacheAnswers`, `CacheCoherence`, `CacheStaleness`, `CacheSettling` | profile cache, session contexts, and their agreement with the customer row |
| `UpsellDecisions`, `UpsellAnswers`, `UpsellService` | offers and the claim, complete and abort protocol |
| `EngagementEvents`, `EngagementAnswers`, `EngagementCollisions`, `TextStrip` | product views, receipts, the third-view trigger |
| `OfferPolicy`, `OfferAnswers`, `OfferLimit` | eligibility, cooldowns, the rate limit over runs of the agent |
| `PlanExecutor`, `PlanAnswers` | plan building, and execution over a growing queue |
| `FitEvidence`, `EvidenceRows`, `SizeVotes`, `FitCalculator`, `FitAnswers`, `FitFigures`, `FitProperties`, `FitHistory`, `Rounding` | tiered fit evidence, recommended size, risk and reasons, the return rate over the history |
| `Calendar`, `TextWindow`, `TextOrder`, `Basics` | dates, rolling windows as text comparisons, small types |

## Where the code is narrower than its intent

Each of these is proved, with the exact condition and a concrete input:

- A 30-day interval can hold one offer more than the limit, because the window drops fractions of a
  second. The protected length is exactly one microsecond more than the window less one second
  (`OfferLimit.RateLimitExact`, `OfferLimit.BurstOverfills`). A limit below one still admits a first offer.
- A decline's cooldown ends at the whole second of `cooldown_until`, up to a second before the reported
  time (`OfferPolicy.DeclineCooldownExact`, `OfferPolicy.CooldownEndsEarly`). The reported end of the
  frequency limit is its end exactly when fewer rows than the limit are left once the earliest counted
  second drops out; otherwise the limit outlasts it (`OfferPolicy.ResetIsExactIff`,
  `OfferPolicy.LimitOutlastsReset`).
- `months_before` is monotone on dates but can reverse two moments at the end of a month
  (`Calendar.MonthsBeforeMonotone`, `Calendar.MonthsBeforeCanReverse`).
- A profile or session written back leaves the projections agreed in every continuation, until the next
  write-back, exactly when it holds the row's version or some notice of the customer has still to clear
  that store (`CacheCoherence.AgreedIffTimely`). A turn that straddles an invalidation can break that, and then stays
  stale (`CacheStaleness.StraddlingTurnStaysStale`).
- A resolved decision can change its terminal status exactly while an event of another type is failed or
  still held (`UpsellDecisions.TerminalStatusFinalIff`, `UpsellDecisions.AcceptedThenDeclined`).
- A fit return with a reason that is not about fit can lower the risk; the evidence builder never
  produces one (`FitProperties.ScoreDropsIff`, `FitProperties.NonFitReturnLowersScore`).
- A further returned purchase can lower the risk. Its return row makes it fit evidence, but the return
  rate counts the row only with this customer's id and a date by today; without them the purchase only
  dilutes the rate (`FitHistory.ScoreFallsIff`, `FitHistory.SomeScoreFallsIff`,
  `FitHistory.UndatedReturnLowersScore`). Returning a purchase that was kept never lowers it
  (`FitHistory.ReturningNeverLowers`).
- The poll takes the oldest pending rows, so an event is tried by some poll exactly when fewer than a
  batch of events before it are stuck (`BusStarvation.TriedIff`, `BusStarvation.BacklogStarves`).
- Receipt ids are a digest of the customer id and the key joined by a colon. Two pairs share one exactly
  when a customer id continues the other after a colon and the keys make up for it; the later pair is
  then refused for ever (`EngagementCollisions.SharedIdIff`, `EngagementCollisions.RefusedIffBlocked`,
  `EngagementCollisions.SecondIsRefused`). Customer ids without colons never collide
  (`EngagementCollisions.ColonFreeNeverBlocked`).

The plan's bound holds more widely than its callers need: for every plan, not only those without
duplicates.

## Model

| member | source | states |
|---|---|---|
| `ContextBus.BusSafety` | services/context_bus.py:127-180 | in every reachable state a subscriber is tried only after all earlier ones completed, a published event has every registered subscriber completed, completed deliveries hold their answer, and an error is noted exactly on failed ones |
| `ContextBus.AttemptAccounting` | services/context_bus.py:182-225 | handler starts <= delivery attempts <= event attempts, in every reachable state |
| `ContextBus.DeliveredIsFinal` | services/context_bus.py:189-244 | a completed delivery, its stored response and its handler's start count never change again |
| `ContextBus.StepKeepsInv` | services/context_bus.py:182-280 | every single transaction, handler step and crash keeps the bus invariant, and removes nothing that was delivered |
| `BusDelivery.DispatchOneIsRun` | services/context_bus.py:127-180 | for every handler, one whole call of `_dispatch_event` is a run of the step machine without arrivals, so it keeps the invariant and all that was delivered |
| `BusDelivery.DispatchAnswers` | services/context_bus.py:145-180 | success means published and answers equal to the stored responses; failure never publishes |
| `BusDelivery.RedispatchRunsNothing` | services/context_bus.py:136-145 | dispatching a published event starts no handler, changes no delivery, and returns the stored responses |
| `BusAnswers.DispatchRows` | services/context_bus.py:127-280 | every row one dispatch writes: subscribers before the first that raises are delivered with one attempt more and their reply, that one is failed with its error, later ones and other events are untouched, and the event is published exactly when none raises |
| `BusAnswers.NobodySubscribed` | services/context_bus.py:130-134 | an event is refused before anything is written exactly when nobody subscribed to its type |
| `BusPolling.BatchIsolation` | services/context_bus.py:71-82 | without raising, each event of a batch fares exactly as if dispatched alone |
| `BusAnswers.RaisingBatch` | services/context_bus.py:71-82 | with errors raised a batch answers exactly when every event succeeds alone, with exactly the lone answers and all published; otherwise with the error of the first that fails alone, the events up to it as alone and the later ones untouched |
| `BusAnswers.OldestPendingFirst` | repositories/event_repository.py:34-41 | a poll takes pending events only, oldest first and by id among equals, and passes one over only behind a full batch |
| `BusPolling.PollDrains` | repositories/event_repository.py:34-41 | one poll publishes exactly the first `limit` pending events in (created_at, outbox_id) order |
| `BusPolling.PollsDrain` | services/context_bus.py:84-99 | k polls publish exactly the first min(n, k * limit) pending events |
| `BusStarvation.TriedIff` | repositories/event_repository.py:34-41 | a pending event is tried by some poll if and only if fewer than `limit` events before it are stuck: without subscribers, or with one that raises at every attempt to come |
| `BusStarvation.BacklogStarves` | services/context_bus.py:84-99 | for every batch size, a reachable outbox in which an event with a subscriber that never raises is never tried |
| `BusService.ContextBusDispatcher.Subscribe` | services/context_bus.py:48-60 | appends in registration order, refuses a second registration, keeps names distinct |
| `BusService.ContextBusDispatcher.DispatchEvent` | services/context_bus.py:127-180 | the in-place dispatcher refines the dispatch function: same tables, same answer or error |
| `BusService.ContextBusDispatcher.Dispatch` | services/context_bus.py:62-82 | the in-place loop refines the batch; it raises exactly when errors are raised and some event fails alone, and otherwise answers exactly for the events that succeed alone |
| `BusService.LoadedInOrder` | services/context_bus.py:101-125 | the selected ids are distinct and stored; pending ones oldest first, named ones in the order of first mention |
| `CommerceEvents.PriceLines` | services/commerce_event_service.py:177-197 | the loop over the items stops at the first that cannot be sold, and otherwise adds a line for each |
| `CommerceEvents.BuildOrder` | services/commerce_event_service.py:172-223 | fails exactly when some line cannot be sold, naming the first; otherwise each line at today's price times its quantity, and the order with their sum |
| `CommerceService.CommerceEventService.ProcessPurchase` | services/commerce_event_service.py:67-150 | the in-place transaction with rollback refines the purchase function: replay, refusal, or all rows |
| `CommerceService.CommerceEventService.ApplyPolicy` | services/customer_segmentation_service.py:70-163 | loyalty threshold, segment, versions, history row and outbox row, or an error |
| `PurchaseAnswers.PurchaseIsPriced` | services/commerce_event_service.py:172-223 | a recorded purchase stores one line per item at today's price, quantity times price, and one completed order whose total is their sum; no other line or order changes |
| `PurchaseAnswers.PurchaseRows` | services/customer_segmentation_service.py:79-163 | every other row and figure: the count with this order in the window, loyalty by the threshold, the segment by the four rules, versions, history row of a change, notice, and the stored answer |
| `PurchaseAnswers.RefusalsInOrder` | services/commerce_event_service.py:67-150 | which refusal a first submission gets, check by check, exactly when it succeeds, and that a refusal changes nothing |
| `PurchaseRuns.EffectivelyOnce` | services/commerce_event_service.py:79-150 | over every run an event id has left nothing, or exactly one completed inbox row, order and outbox row, and a history row exactly when the transition changed |
| `PurchaseRuns.ReplayIsStable` | services/commerce_event_service.py:79-93 | every later submission of the payload returns the stored result with only the replayed flag set; another payload is refused; neither writes |
| `PurchaseRuns.OwnPurchaseCounts` | services/commerce_event_service.py:115-125 | the order just flushed is always inside its own window: the count is one more than before it |
| `SegmentHistory.HistoryReplays` | services/customer_segmentation_service.py:79-163 | history rows chain and replay to the current facts, versions count the purchases, and rows are at most two plus the affluence corrections |
| `SegmentHistory.PurchaseSettlesSegment` | services/customer_segmentation_service.py:79-128 | after any recorded purchase the segment is the classifier's value for the stored facts |
| `SegmentHistory.LoyalNeverReverts` | services/customer_segmentation_service.py:84-90 | once loyal, loyal after every run |
| `SegmentClassifier.StoredLoyaltyReadsBack` | agents/profiling/segment_classifier.py:62-86 | the loyalty text that is stored normalises back to the same status |
| `SegmentTexts.AffluenceTexts` | agents/profiling/segment_classifier.py:47-80 | a text reads as affluent or less affluent exactly when it is one of the three accepted phrases, in any case, with gaps of blanks, underscores or hyphens |
| `SegmentTexts.LoyaltyTexts` | agents/profiling/segment_classifier.py:62-80 | likewise for loyal and new |
| `ProjectionStores.ContextIsShared` | agents/profiling/agent.py:161-216 | over any calls, a built context is what every later call of its session and customer gets, until one refreshes it or drops its session or customer |
| `ProjectionStores.EntryWasBuilt` | agents/profiling/agent.py:169-198 | over any calls, an entry holds what a call of its own session and customer built |
| `ProjectionStores.OwnerIsFixed` | services/session_context_service.py:34-148 | over any calls by anybody a session keeps its owner until the owner clears it, and other customers' calls on it change nothing |
| `ProjectionStores.ConversationsStayBounded` | services/session_context_service.py:119-136 | no conversation ever exceeds twenty turns |
| `ProjectionStores.ProfileCache.ClearSession` | agents/profiling/agent.py:200-207 | the in-place loop removes exactly the session's entries |
| `ProjectionStores.ProfileCache.ClearCustomer` | agents/profiling/agent.py:209-216 | the in-place loop removes exactly the customer's entries |
| `ProjectionStores.SessionContexts.SaveContext` | services/session_context_service.py:119-136 | refused exactly for another owner; otherwise stores the row with its last twenty turns |
| `ProjectionStores.SessionContexts.EnsureContext` | services/session_context_service.py:94-117 | refused exactly for another owner; otherwise the session exists for this customer, and an existing one is untouched |
| `ProjectionStores.SessionContexts.ClearContext` | services/session_context_service.py:138-148 | refused exactly for another owner; otherwise the session is gone, and says whether it was there |
| `ProjectionStores.SessionContexts.InvalidateCustomer` | services/session_context_service.py:150-167 | drops exactly the customer's profiles, keeps conversations, counts the sessions touched |
| `CacheCoherence.StaysAgreedIff` | services/context_bus.py:292-302 | the projections agree with the rows now and in every continuation without write-backs if and only if each holds the row's version or has a notice still to clear it |
| `CacheCoherence.OnlyUntimelyWritesBreakAgreement` | agents/profiling/agent.py:195-198 | of all actions of purchases, bus, handlers, builds, turns and restarts, exactly the untimely write-backs end that |
| `CacheCoherence.AgreedIffTimely` | services/session_context_service.py:119-167 | over every run the projections stay agreed throughout if and only if every write-back is timely |
| `CacheCoherence.ProjectionsAgree` | services/customer_segmentation_service.py:99-163 | after every run of timely write-backs a projection older than the row implies an undelivered notice; once all are delivered the versions are equal |
| `CacheCoherence.AtomicTurnsAreTimely` | agents/profiling/agent.py:169-198 | builds and turns that do not straddle an invalidation write back in time |
| `CacheAnswers.HandlerClears` | services/context_bus.py:292-302 | the running profile handler drops the customer of its notice from the cache and then from the sessions, once each, and nothing else |
| `CacheAnswers.TasksRead` | agents/profiling/agent.py:169-198 | a task reads a version from the customer row, the cache or a session, and remembers which |
| `CacheAnswers.TasksWrite` | services/session_context_service.py:119-136 | a write-back is a refreshed build or a saved session of the two stores |
| `CacheAnswers.SessionsClose` | services/session_context_service.py:138-148 | closing is the owner's clear with its cached profiles; a restart loses the stores and tasks and no table |
| `CacheSettling.PollsSettleEverything` | orchestrator/purchase_event_graph.py:108-134 | after any such run, polls that cover the pending events are a run of the system; at its end every committed purchase is recorded once, its notice published, and every projection current |
| `CacheStaleness.StraddlingTurnStaysStale` | services/session_context_service.py:119-167 | for any first purchase there is a run that ends with its notice delivered and published and a session one version behind |
| `UpsellDecisions.ResponseSafety` | services/upsell_decision_service.py:147-229 | over every run: one live holder per key, each key completed at most once, one decision per source event, status equal to that of the last completion |
| `UpsellDecisions.CompletedKeyReplays` | services/upsell_decision_service.py:168-184 | a completed key always answers with its stored response, is never held, claimed or rewritten again |
| `UpsellDecisions.ResolvedRefusesFreshKeys` | services/upsell_decision_service.py:185-190 | a resolved decision never returns to pending and no unseen key can be claimed for it |
| `UpsellDecisions.TerminalStatusFinalIff` | services/upsell_decision_service.py:177-222 | some later run replaces a terminal status if and only if an event of another type is failed or held by a live request |
| `UpsellDecisions.AcceptedThenDeclined` | services/upsell_decision_service.py:210-222 | a run that reaches an accepted decision with a decline outstanding, and the run that ends declined |
| `UpsellAnswers.OfferRows` | services/upsell_decision_service.py:55-115 | an offer goes to the row of its id, else to that of its source event, else to a new pending row; a stored row keeps its identity and status, takes the new result, and its source and trace only if it had none; otherwise it is refused |
| `UpsellAnswers.NewestResultShows` | services/upsell_decision_service.py:95-114 | over every run a decision carries the offer and trigger it was created with and the result recorded last |
| `UpsellAnswers.ClaimIff` | services/upsell_decision_service.py:147-199 | exactly when a key is claimed, replayed, or refused with each error |
| `UpsellService.UpsellDecisionService.Record` | services/upsell_decision_service.py:55-115 | create, refresh by id or by source event, or refuse; sources stay unique |
| `UpsellService.UpsellDecisionService.Respond` | api/upsell.py:350-417 | the handler is exactly one claim followed by a completion or an abort, and answers accordingly |
| `EngagementEvents.AtMostOneTrigger` | services/engagement_event_service.py:113-152 | over every run at most one trigger row per customer, session and product, whatever other writers add |
| `EngagementEvents.TriggerIff` | services/engagement_event_service.py:113-152 | a trigger row exists exactly when the third view was submitted here for a premium product |
| `EngagementEvents.ReplayAddsNothing` | services/engagement_event_service.py:73-76 | a repeated key adds no view, receipt or trigger and names the recorded ones; another payload is refused |
| `EngagementEvents.CountsAreConsecutive` | services/engagement_service.py:186-207 | as the only writer of a triple's views, receipts carry base+1 .. base+n in commit order |
| `EngagementAnswers.ViewRefusals` | services/engagement_event_service.py:62-170 | why a view is replayed or refused, check by check, and when it is recorded |
| `EngagementAnswers.ViewRows` | services/engagement_event_service.py:92-170 | the view with trimmed identifiers, the receipt with the count so far, and a trigger row exactly for the third view of a premium product |
| `EngagementAnswers.LastAnswerStands` | services/engagement_event_service.py:172-182 | over every run a receipt carries the answer given last and is completed exactly once one was given |
| `EngagementEvents.EngagementEventService.RecordProductView` | services/engagement_event_service.py:62-170 | the in-place transaction refines the recording function, with every refusal |
| `EngagementEvents.EngagementEventService.CompleteReceipt` | services/engagement_event_service.py:172-182 | stores the answer of an existing receipt, changes nothing else, refuses an unknown id |
| `EngagementCollisions.SharedIdIff` | services/engagement_event_service.py:184-188 | two pairs share a receipt id exactly when they are equal or one customer id continues the other after a colon with matching keys |
| `EngagementCollisions.RefusedIffBlocked` | services/engagement_event_service.py:153-170 | after every run a first submission in good order is refused exactly when such a pair has a receipt, and then after every later run |
| `EngagementCollisions.ColonFreeNeverBlocked` | services/engagement_event_service.py:184-188 | over every run with colon-free customer ids no submission is blocked |
| `EngagementCollisions.SecondIsRefused` | services/engagement_event_service.py:153-170 | a reachable store and a submission it refuses for its receipt id |
| `TextStrip.TrimmedIsStrip` | services/engagement_service.py:209-213 | stripping leaves the one part of a text between blanks that has none at its ends |
| `OfferPolicy.GrantOffers` | services/upsell_policy_service.py:164-203 | every grant holds the styling advisory; a Style+ member or value segment gets nothing else |
| `OfferAnswers.OfferedIff` | services/upsell_policy_service.py:96-203 | an offer is made if and only if the facts are complete, the customer consents, no row of the log holds it back and the trigger is strong enough |
| `OfferAnswers.TriggerDecides` | services/upsell_policy_service.py:324-381 | with nothing held back the trigger decides by its own threshold, or by the tier: what is then offered with which reasons, and the reason of each refusal |
| `OfferAnswers.HoldsBack` | services/upsell_policy_service.py:138-150 | a Style+ decline in its window holds back until so many days after the last one; without one, a full count does until the window's length after its first row |
| `OfferAnswers.RefusedOutright` | services/upsell_policy_service.py:107-136 | incomplete facts, a missing consent and a suppression refuse in this order, each with its reason |
| `OfferAnswers.ByDefault` | services/upsell_policy_service.py:47-57 | the default thresholds: 0.70 for cart and engagement triggers, 0.50 for fit, Gold or Platinum for loyalty |
| `OfferPolicy.CooldownHonoured` | services/upsell_policy_service.py:138-150 | before the whole second of a returned cooldown no evaluation is eligible, whatever is appended or changed |
| `OfferPolicy.DeclineCooldownExact` | services/upsell_policy_service.py:245-280 | with nothing new in the log a decline blocks until exactly that whole second |
| `OfferPolicy.CooldownEndsEarly` | services/upsell_policy_service.py:138-144 | an input that is eligible again before the reported cooldown ends |
| `OfferPolicy.ResetIsExactIff` | services/upsell_policy_service.py:282-322 | with nothing new in the log the frequency limit ends at the whole second of the reported reset if and only if fewer rows than the limit are left then |
| `OfferPolicy.LimitOutlastsReset` | services/upsell_policy_service.py:317-322 | four counted offers whose limit still holds at the reported reset |
| `OfferLimit.RateLimited` | services/upsell_policy_service.py:282-322 | over every run no interval of the protected length holds more agent offers than the limit |
| `OfferLimit.RateLimitedOnSeconds` | services/upsell_policy_service.py:282-322 | on whole seconds the entire window is protected |
| `OfferLimit.RateLimitExact` | agents/upsell/agent.py:203-279 | every run respects the limit on intervals of a length if and only if it is at most the protected one |
| `OfferLimit.BurstOverfills` | agents/upsell/agent.py:203-279 | the run that puts one offer more than the limit into any longer interval |
| `OfferAnswers.AgentSays` | agents/upsell/agent.py:196-279 | the agent holds an offer exactly when the check grants the selected one, and recording writes that offer as shown |
| `PlanExecutor.BuildPlan` | orchestrator/orchestrator.py:700-731 | each agent is planned exactly when its intent is given, in the order of first mention, without duplicates, profiling first exactly when a specialist is needed without a context; nothing below 0.65 confidence |
| `PlanExecutor.ExecutePlan` | orchestrator/orchestrator.py:733-858 | the loop over the growing queue terminates and equals the iterated visit; the update holds what the run ended with |
| `PlanExecutor.PlanIsBounded` | orchestrator/orchestrator.py:739-833 | for every plan the final queue is the plan or the plan and one upsell visit, and exactly when it grows |
| `PlanExecutor.SignalsAreServed` | orchestrator/orchestrator.py:805-833 | every specialist signal is followed by an upsell visit or preceded by a completed one |
| `PlanExecutor.RunIsAccounted` | orchestrator/orchestrator.py:739-800 | completed agents are queue positions in order without duplicates, only profiling runs without context, no error is lost |
| `PlanAnswers.VisitSays` | orchestrator/orchestrator.py:746-833 | one visit: the error line of each kind of reply, what a returned one writes, and what an offer or a signal sets off |
| `PlanAnswers.RunFollowsItsCalls` | orchestrator/orchestrator.py:733-858 | over every run each agent sees the latest context written before it; the run ends with the latest context, outputs and signal, and exactly the errors of its visits |
| `FitEvidence.Build` | services/fit_evidence_service.py:94-150 | the loop splits the history into the three tiers and the directional returns |
| `FitEvidence.EvidencePartitions` | services/fit_evidence_service.py:100-130 | every case is in exactly one tier and every return kept is directional |
| `EvidenceRows.LineIsFiled` | services/fit_evidence_service.py:94-164 | an order line adds its purchase to the one tier it belongs to, and its return exactly when it came back for a reason about fit; nothing else moves |
| `EvidenceRows.StrengthAndRate` | services/fit_evidence_service.py:166-180 | the strength of the lists, and the return rate as the share of the window's lines brought back |
| `SizeVotes.MostCommon` | agents/fit/fit_calculator.py:286-298 | counting in insertion order and taking the first maximum is the winner |
| `SizeVotes.WinnerIsHeaviest` | agents/fit/fit_calculator.py:286-298 | the winner was voted for, none outweighs it, it strictly outweighs every size first seen earlier |
| `FitCalculator.Evaluate` | agents/fit/fit_calculator.py:37-177 | the stepwise evaluation equals the declarative decision |
| `FitAnswers.SourcesInOrder` | agents/fit/fit_calculator.py:94-133 | the sources of a recommendation in order: most exchanged, brand adjustment, requested size where kept, usual, requested, most similar; none when all fail |
| `FitAnswers.OneMostExchanged` | agents/fit/fit_calculator.py:286-289 | at most one size is the most exchanged of the returns that count |
| `FitFigures.BrandAdjustment` | agents/fit/fit_calculator.py:105-118 | without an exchange, a brand that runs small leads one size up and says so, one that runs large one down, a number of steps that far |
| `FitFigures.FiguresAre` | agents/fit/fit_calculator.py:179-253 | risk and confidence are the stated weighted sums of the evidence, rounded, with bands at 0.30 and 0.65 |
| `FitFigures.ActionIs` | agents/fit/fit_calculator.py:146-167 | which of the four actions is given, exactly |
| `FitFigures.RequestIsTrimmed` | agents/fit/fit_calculator.py:45-45 | a request is the given size without blanks at its ends; none, or an empty one, asks for nothing |
| `FitFigures.ReasonsAre` | agents/fit/fit_calculator.py:50-176 | each reason is given once, exactly when it holds of the evidence, the request and the recommended size |
| `FitFigures.ReasonsInOrder` | agents/fit/fit_calculator.py:50-176 | reasons come in the order of the evaluation |
| `FitProperties.ProductEvidenceSettles` | agents/fit/fit_calculator.py:71-87 | with same-product evidence for the size, brand and category returns change nothing in the decision |
| `FitProperties.BrandEvidenceSettles` | agents/fit/fit_calculator.py:71-87 | with same-brand evidence for the size, category returns change nothing |
| `FitProperties.RecommendationIsOffered` | agents/fit/fit_calculator.py:94-167 | a recommended size is offered; an unavailable request is a size change or insufficient evidence |
| `FitProperties.RiskSumInRange` | agents/fit/fit_calculator.py:221-227 | the weighted sum stays within zero and one before discount and clamp |
| `FitProperties.DirectionalReturnsRaiseRisk` | agents/fit/fit_calculator.py:179-230 | one more directional return, or a higher return rate, never lowers the score across tier switches |
| `FitProperties.ScoreDropsIff` | agents/fit/fit_calculator.py:179-230 | exactly when one more return lowers the score |
| `FitProperties.NonFitReturnLowersScore` | agents/fit/fit_calculator.py:71-87 | an input whose score falls when a same-product return for another reason is added |
| `Rounding.NearestThousandth` | agents/fit/fit_calculator.py:230-230 | the nearest thousandth, the even one between two |
| `FitHistory.RateFallsIff` | services/return_history_service.py:62-99 | a further returned line lowers the return rate exactly when it is in the purchase window without being counted and the rounded quotient falls |
| `FitHistory.ScoreFallsIff` | services/fit_evidence_service.py:94-150 | exactly when a further returned line lowers a given risk score: in the window, not counted, and the slip of the rate outweighs the lift of the return |
| `FitHistory.SomeScoreFallsIff` | repositories/fit_evidence_repository.py:42-76 | some evaluation scores lower after a further returned line if and only if the return rate falls |
| `FitHistory.UndatedReturnLowersScore` | services/return_history_service.py:90-99 | a second, undated return of the same shoe takes the score from 0.5 to 0.375 |
| `FitHistory.ReturningNeverLowers` | services/fit_evidence_service.py:94-150 | returning a line that was kept, with whatever date and reason, never lowers any risk score |
| `TextWindow.TextWindowExact` | services/order_history_service.py:176-183 | the text comparison selects exactly the whole seconds after the cutoff's up to now's |
| `TextWindow.MixedTextOrder` | services/_date_utils.py:28-31 | text without a fraction against text with one orders as whole seconds do |
| `TextWindow.TextReadsBack` | services/_date_utils.py:28-31 | the texts read back as the fields of the moment, the bound with six digits of its fraction |
| `Calendar.MonthsBeforeLandsInMonth` | services/_date_utils.py:15-25 | a valid date in exactly the month that many months earlier, clamped to its length |
| `Calendar.MonthsBeforeMonotone` | services/_date_utils.py:15-25 | monotone on dates; on moments exactly when the clamp does not reverse them |
| `Calendar.MonthsBeforeCanReverse` | services/_date_utils.py:24-25 | two moments whose order the clamp reverses |
| `Calendar.MonthsBeforeComposes` | services/_date_utils.py:15-25 | subtracting twice is never later than once, and equal exactly when the intermediate clamp loses nothing |

## Left out

- Routing, authentication, tool clients, permissions, language models, prompts and traces: input and output only; a tool call is a step that may fail and a message is an arbitrary text.
- Hashes and JSON: fingerprints and stored payloads compare as values, except the receipt id, whose joined text is modelled. The decision fingerprint is a record, so ids containing its separator are not distinguished from the joined text.
- Generated ids: event, outbox and engagement ids are parameters; a collision is the integrity error the unique key raises. Foreign keys are not modelled.
- `updated_at`, `resolved_at` and trace columns, and quoting or encoding inside payloads.
- Session and customer ids of the session service arrive stripped and not blank.
- A return row joins at most one line and a line at most one return row, as the relationship between them says.
- Case folding beyond ASCII, white space other than spaces, tabs and line ends, and the normalisation of request segment and trigger names, which arrive parsed.
- Prices are whole pence and a quantity is a natural number, so rounding of totals to two decimals does not occur.
- Scores and risks are real numbers: binary rounding is not modelled, decimal rounding to three places is.
- More than one dispatcher: `_dispatch_lock` is local to a process, and the model has one dispatcher. Subscriber tables are fixed during a run, and a handler returns an answer or raises.
- In the results about sequences of polls no event arrives and no crash falls between the polls, and what a handler does depends on the event, the subscriber and the attempt number.
- The engagement handler of the bus, `HighProductEngagementSubscriber`: it is one of the arbitrary handlers; a crash between its two recordings can leave a decision without a source event, which the decision model permits.
- `PurchaseEventGraph` as a whole: its purchase, dispatch and refresh are actions of `CacheSystem`, in any order.
- Other writers of a customer row: purchases and affluence corrections are the only ones.
- `evaluate` with `offered_sessions`, and `is_suppressed`: an atomic check and insertion into a set, and the same window queries again.
- Candidate scoring, propensity, opportunity scores, offer selection, ranking and the homepage: bounded arithmetic without state; the offer selected is a parameter of the agent's run.
- Product, inventory, catalogue, loyalty and summary reads: single queries, given as parameters.
- `list_pending`, `get_status` and the other read endpoints: filters over tables the model already has.
- Overlapping builds of one cache key inside `ProfileCache`; `CacheSystem` has them, as tasks.
- AtMostOneTrigger: views are never deleted by any writer, as in the source.
