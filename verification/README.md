# Verification of the Ozon supply planner's decision core

The planner turns exports and Ozon answers into prices, shipment drafts and explanations of stock.
This project models the parts of it that decide something, in Dafny, and proves what they promise:

- **Economics** (`Money`, `Tariffs`, `TariffIndex`, `TariffImport`, `UnitEconomics`, `Workspace`, `Pricing`,
  `PricingCalculator`): logistics tariffs with volume and price tiers, the profit of one unit, and the search
  for the least whole-kopek price that meets a margin or ROI goal on every route. The tax on income minus
  expenses is clipped at zero and fees jump at price tiers, so the search rests on two facts proved here:
  inside a tier a goal once met stays met, and the tier boundaries are complete.
- **Shipment planning** (`WorkingPlan`, `ShipmentInput`, `ShipmentGroups`, `Candidates`, `CandidateBudget`,
  `CandidateBuild`, `Ranking`): scarce stock given out in whole packs, clusters grouped under a size and a
  volume limit, candidates under a budget, and the ranking of what Ozon accepted.
- **Draft validation** (`DraftBudget`, `DraftEvidence`, `DraftProtocol`, `DraftDecision`, `DraftService`,
  `Orchestration`): the concurrent service that creates temporary drafts. `DraftProtocol` is a state machine of the lock-atomic
  steps of any number of `validate` calls, with the history of create requests; `DraftService` is the service
  object, whose methods are those steps, and a whole `validate` call that runs while other threads take
  arbitrary steps in between. `Orchestration` is the independent check of its results.
- **Analytics** (`DailyFacts`, `LocalitySeries`, `StockoutWindows`, `StockoutJudgement`, `EpisodeEvidence`,
  `StockoutEpisodes`, `EpisodeMeaning`, `WeeklyRoutes`, `CleanRoutes`, `CleanMeaning`, `ResultOrders`): daily facts,
  gap-free series, rolling windows, merged stockout episodes with the origins that stepped in, and route distributions
  with the affected days removed.
- **Background prices** (`PriceEnrichment`, `PriceCache`): a worker per generation, interleaved with start,
  cancel and prioritize, and what becomes of every cached price.
- **Diagnostics** (`DataQuality`, `QualityMeaning`): matching of structured facts with raw diagnostics through
  two families of lazily cleaned queues.

`Wrappers`, `Text`, `Sequences`, `Sums`, `StableSort` and `KeyedTotals` hold what several modules share: text
order, facts about sequences, sums, Python's stable `sorted`, and the `totals.setdefault(key, [0, 0])` loops.

The loops compute functions that follow the source; what their results mean is then stated over the inputs,
in words of its own. `StockoutJudgement`, `EpisodeMeaning`, `CleanMeaning`, `DraftDecision`, `PriceCache`,
`QualityMeaning` and `ResultOrders` hold such statements alone; elsewhere they stand beside the functions.
Money and volumes are exact reals; days are ordinals of which day 1 is a Monday.
`dafny verify dfyconfig.toml` checks everything.

Three promises turned out to hold only under a condition, which is proved:

- Served quantities are whole packs only if capacities are (`WorkingPlan.CapacityMustBeWholePacks` gives a
  line of packs of 6 that is granted 7; `WorkingPlan.WholePacksIff` is the condition). The plan's contract
  does not ask for it.
- Route cleaning conserves units, but not observation counts: an order of zero units is valid, and its
  observation disappears with a week that has no units left (`CleanRoutes.CountsMayLeak`). The exact balance
  is `CleanRoutes.ObservationBalance`.
- The price search is bounded: in the last tier it looks no further than 39 doublings of its first guess,
  at fixed logistics no further than 40 doublings of the current price. `Pricing.Target` and
  `Workspace.TargetPrice` say that None means no price up to there.

One holds under less than it seems to need: rows of a candidate need not be distinct for its validation to be
accepted. A rejection that could name two rows is refused as unreadable, so distinct candidate identifiers
suffice (`DraftEvidence.KeptAndRejectedPartition`, `DraftService.ValidateAndAssemble`).

## Model

| member | source | states |
|---|---|---|
| `Money.KopeksReach` | backend/economics/pricing.py:72-83 | whole-kopek prices reach a real tier bound exactly when they reach its rounding up, so rounded bounds lose no price |
| `Tariffs.Accumulate` | backend/economics/tariffs.py:123-216 | the accumulating loop of `expected_logistics` returns the shares, fees, statuses and diagnostics that the definition without a loop gives |
| `Tariffs.SharesSplit` | backend/economics/tariffs.py:171-216 | covered and uncovered shares add up to the profile; none is lost or counted twice |
| `Tariffs.PricedIffEveryRouteMatches` | backend/economics/tariffs.py:171-216 | a profile has an expected fee exactly when it has routes and each of them has exactly one matching row |
| `Tariffs.PriceEntriesAgree` | backend/economics/tariffs.py:119-121 | two prices that no half-open row tells apart select the same rows |
| `Tariffs.ContributionMeans` | backend/economics/tariffs.py:171-200 | a route has a fee exactly when one row matches it, and that row's origin, destination, volume interval and price interval hold the context; its weighted fee is the share of it |
| `Tariffs.DiagnosisMeans` | backend/economics/tariffs.py:171-216 | a missing fee is diagnosed as ambiguous with several matching rows, as in need of a price when rows hold the route and volume and the price is unknown, and as missing otherwise |
| `Tariffs.FeeIsAWeightedMean` | backend/economics/tariffs.py:123-216 | an expected fee is the share-weighted sum of the matched fees: it lies between the least and the greatest of them times the sum of the shares |
| `TariffIndex.RouteTableKeepsCandidates` | backend/economics/pricing.py:26-34 | the rows kept for a route and volume are those the whole list has for it, with the same worksheet rows |
| `TariffIndex.IndexIsTransparent` | backend/economics/pricing.py:15-34 | on the indexed route every volume-matching profile costs the same as on the full list, with the same matched rows and diagnostics |
| `TariffIndex.PricingTariffIndex.ForRoute` | backend/economics/pricing.py:26-34 | whatever the cache holds, the answer is the route's own table, and the cache stays right |
| `TariffIndex.BuildIndex` | backend/economics/pricing.py:17-24 | the index is refused exactly when sources do not line up with the records |
| `TariffImport.ImportTiers` | backend/ingestion/tariffs.py:92-102 | every route of the tiers once and in order, its tiers by their lower bound, two price halves with adjacent volume intervals per tier, and the worksheet rows |
| `TariffImport.ImportIsUnambiguous` | backend/ingestion/tariffs.py:92-102 | any route, volume and price match at most one imported row, exactly one when the price is known and some tier starts at or below the volume, and it is the tier in force |
| `TariffImport.ImportNeverAmbiguous` | backend/ingestion/tariffs.py:92-102 | an imported table never makes the logistics of a route ambiguous, even with repeated tier minima |
| `UnitEconomics.CalculateUnitEconomics` | backend/economics/unit.py:92-197 | the profit is known exactly when nothing blocks it, and then every rouble of the price is withheld, taxed, spent or profit |
| `UnitEconomics.LinesMean` | backend/economics/unit.py:92-197 | every line is what it is called: commission, acquiring and advertising by their rates of the price, VAT included in the realization, income tax on the base of the tax system and never negative, margin and ROI as the profit's parts of price and cost |
| `UnitEconomics.DeliveryCoversReturns` | backend/economics/unit.py:92-150 | the delivery cost of the units bought out pays the tariff and the fixed fee of every unit sent, and the tariff of every unit that comes back |
| `Workspace.FormulaIsTheProfitLine` | backend/economics/workspace.py:41-48 | the short profit formula equals the line-by-line profit of the unit calculation for both supported tax systems |
| `Workspace.GoalStaysMet` | backend/economics/workspace.py:41-87 | at fixed logistics a goal met at a price is met at every higher one, although the tax is clipped at zero |
| `Workspace.TargetPrice` | backend/economics/workspace.py:51-87 | the least whole-kopek price whose profit, divided by the price for a margin goal and by the cost for an ROI goal, reaches the goal; None exactly when no price up to 40 doublings of the current one does |
| `Pricing.UnitOnRoute` | backend/economics/pricing.py:62-69 | a valid route is always answered and its profit is the closed formula at the route's fee |
| `Pricing.MeetsMeaning` | backend/economics/pricing.py:87-97 | `meets` is true exactly at the good prices and undecided only when some route has no complete economics |
| `Pricing.FeeIsConstant` | backend/economics/pricing.py:79-85 | the boundaries are complete: between two of them a route keeps its fee or keeps having none |
| `Pricing.RouteStaysGood` | backend/economics/pricing.py:115-123 | within a tier an unknown route stays unknown and one that reaches the goal keeps it |
| `Pricing.BadBelow` | backend/economics/pricing.py:110-123 | if the last price looked at in a tier is bad, so is every earlier one of it |
| `Pricing.TierStarts` | backend/economics/pricing.py:79-85 | the sorted starts are exactly the boundaries of the query |
| `Pricing.Meets` | backend/economics/pricing.py:87-97 | the early-returning closure through the index answers as on the full tariff list |
| `Pricing.GrowInLastTier` | backend/economics/pricing.py:106-112 | the growth finds a good price or shows that the last tested one is bad |
| `Pricing.BisectTier` | backend/economics/pricing.py:115-124 | the bisection ends at the least good price of the tier |
| `Pricing.SearchTier` | backend/economics/pricing.py:99-124 | one turn of the tier loop yields the least good price of its tier, or shows that the tier has none up to its end or the last tested price |
| `Pricing.Target` | backend/economics/pricing.py:76-124 | the least whole-kopek price at which every route is complete and its unit's margin, or its ROI, reaches the goal; at every lower price some route has no profit or falls below; None exactly when no price up to the last tested one is good, or the ROI has no cost |
| `Pricing.SearchReaches` | backend/economics/pricing.py:104-112 | how far the search looks: its first guess is the least whole-kopek price above the last tier start that covers the product's price, its cost and one rouble, and the last tested price is 39 doublings of it |
| `PricingCalculator.PricingIsUnique` | backend/economics/pricing.py:127-163 | a query has one result, so neither index nor memo can disagree with a fresh calculation |
| `PricingCalculator.PricingIgnoresSku` | backend/economics/pricing.py:36-51 | products alike in money have the same result, so the memo key may leave SKU, article and stock out |
| `PricingCalculator.CalculatePricing` | backend/economics/pricing.py:127-163 | the result on an index is the unmemoized result on the full tariff list |
| `PricingCalculator.Calculator.Calculate` | backend/economics/pricing.py:43-51 | after any earlier calls the answer is the unmemoized result on the full list |
| `PricingCalculator.ResultShowsWorst` | backend/economics/pricing.py:142-163 | the profit, margin and ROI shown are those of a route that no other route undercuts, before ads likewise; the limiting route of a target is one with the least surplus over the goal, with its logistics |
| `WorkingPlan.ServeIsFeasible` | backend/working_plan.py:190-210 | served quantities respect the wished ones, capacities, packs and the remaining stock: the chosen row gets less than one pack above Ozon's quantity, any other no more than it can ship |
| `WorkingPlan.ServeIsGreatest` | backend/working_plan.py:190-210 | no other feasible whole-pack vector gives an earlier line more: a chosen row falls short of Ozon's quantity only when its capacity is reached or less than a pack is left, every other line of what it can ship |
| `WorkingPlan.OnlyManualExceeds` | backend/working_plan.py:194-195 | the quantities served for a SKU exceed its stock exactly when the manual ones alone do |
| `WorkingPlan.ServeQueue` | backend/working_plan.py:196-210 | the loop over the lines of a SKU grants what serving in order defines |
| `WorkingPlan.ServeChosen` | backend/working_plan.py:187-210 | the chosen SKUs can be served in any order with the same quantities |
| `WorkingPlan.QueueIsServedRight` | backend/working_plan.py:196-210 | line by line: a manual quantity is kept; a chosen row is served towards Ozon's quantity and no other above what it can ship; a shortage has its cause in the capacity or in what the manual quantities and earlier lines leave |
| `WorkingPlan.OtherSkusAreUntouched` | backend/working_plan.py:187-210 | a line of a SKU without a chosen row keeps its manual quantity, or else what it can ship |
| `WorkingPlan.ReadyMeansUntouched` | backend/working_plan.py:81-87 | a line is READY exactly when it has neither a manual quantity nor a choice and can be shipped as it is |
| `WorkingPlan.ReasonsMean` | backend/working_plan.py:212-246 | a line says that its quantity is unknown, is manual without a recommendation, needs Ozon's validation, or stands on an unconfirmed stock, each exactly when it does |
| `WorkingPlan.ChoicesAreNoted` | backend/working_plan.py:212-246 | a line says what was chosen for it; Ozon's quantity is limited exactly when no whole packs within the working quantity reach it |
| `WorkingPlan.SkuTotals` | backend/working_plan.py:247-250 | the accumulated totals are the sums of the working quantities |
| `WorkingPlan.ChosenSkuIsServedBest` | backend/working_plan.py:183-253 | the lines of a chosen SKU are sorted in serving order (selected first, then the model's rank, then the cluster); with whole-pack capacities they get the lexicographically greatest whole-pack vector within stock minus manual, and the SKU is flagged as exceeding its stock exactly when the manual quantities alone exceed it |
| `WorkingPlan.CapacityMustBeWholePacks` | backend/working_plan.py:206-208 | a capacity that is not whole packs can be granted as it is and blocks the line |
| `WorkingPlan.WholePacksIff` | backend/working_plan.py:203-208 | exactly when a served line gets whole packs |
| `WorkingPlan.BlockedMeansUnshippable` | backend/working_plan.py:81-87 | a line is BLOCKED exactly when shipping it would break packs, a known capacity, the known stock, or cannot be packed |
| `WorkingPlan.ManualQuantityIsKept` | backend/working_plan.py:70-78 | a manual quantity is kept, and a validated one never blocks its line for its packs |
| `WorkingPlan.ChoiceReason` | backend/working_plan.py:109-160 | a row may be served from Ozon exactly when a current recommendation for the plan's own horizon agrees with a decision row that doubts the model, the line can be shipped and takes the quantity, and its economics are complete, profitable and above every threshold |
| `WorkingPlan.Materialize` | backend/working_plan.py:163-299 | the whole plan: stale rows are exactly the selected ones that may not be served, every line has its working quantity, reasons and status, and the seven counts and the diagnostics are those of the lines |
| `WorkingPlan.CountsAddUp` | backend/working_plan.py:287-299 | statuses add up to the lines, overrides are on a line or orphaned, chosen rows are selected or stale, every selected row is a line |
| `WorkingPlan.ActiveCountIsRight` | backend/working_plan.py:298-307 | the plan counts active overrides exactly when `has_active_overrides` finds one, because serving never changes a manual quantity |
| `WorkingPlan.ExcessIsReported` | backend/working_plan.py:252-264 | a SKU is reported with its excess exactly when its lines are flagged as exceeding the stock |
| `ShipmentInput.PlanLinesArePacked` | backend/shipment/working_input.py:13-44 | lines of a working plan meet what building an assignment takes for granted |
| `ShipmentInput.ShippedWithinStock` | backend/shipment/candidates.py:131-220 | from the working plan to the chosen candidates: by one method to one handoff point no SKU with a known stock is shipped beyond it |
| `ShipmentGroups.GreedyIsBest` | backend/shipment/candidates.py:63-87 | grouping loses nothing, keeps the order, respects size and volume, blocks exactly the clusters over the limit alone, and no other such grouping uses fewer groups |
| `ShipmentGroups.BlockedMeansOver` | backend/shipment/candidates.py:74-79 | blocked clusters are exactly those over the limit alone, in any valid grouping |
| `ShipmentGroups.Groups` | backend/shipment/candidates.py:63-87 | the loop with its running volume computes that grouping |
| `Candidates.SelectScope` | backend/shipment/candidates.py:34-49 | the scope is the positive selected rows, refused exactly when empty or when one of them is blocked |
| `Candidates.ClusterOrderFacts` | backend/shipment/candidates.py:52-60 | every cluster of the scope once, sorted by best rank and then by name |
| `Candidates.BestRankIsBest` | backend/shipment/candidates.py:52-60 | the rank that places a cluster is the least of its lines, or the placeholder when none is ranked |
| `Text.TextLeMeans` | backend/shipment/candidates.py:52-60 | text order: the first difference decides, a beginning comes before its continuation |
| `Candidates.BuildIsValid` | backend/shipment/candidates.py:90-100 | a candidate of eligible clusters of an unblocked scope meets the assignment and shipment contracts, so their checks cannot fail |
| `Candidates.RowsByPlace` | backend/shipment/candidates.py:193-197 | the rows of a candidate stand by cluster and SKU |
| `CandidateBudget.SelectCandidates` | backend/shipment/candidates.py:209-218 | the selection loops give each of the first methods a slot and then the earlier methods the rest |
| `CandidateBudget.Select` | backend/shipment/candidates.py:209-218 | at most the budget is chosen and each of the first methods keeps its first candidate |
| `CandidateBudget.CutChangesNothing` | backend/shipment/candidates.py:186-205 | cutting each method at the budget does not change the selection |
| `CandidateBudget.SelectionIsSome` | backend/shipment/candidates.py:209-218 | the selection repeats and invents nothing |
| `CandidateBuild.BuildCandidates` | backend/shipment/candidates.py:131-220 | stopping the enumerations early gives the candidates selected from the full point-by-group enumerations |
| `CandidateBuild.NothingIsShippedTwice` | backend/shipment/candidates.py:183-205 | by one method to one handoff point the chosen candidates ship no more of a SKU, at a cluster or overall, than the scope holds |
| `CandidateBuild.SelectionIsSound` | backend/shipment/candidates.py:113-220 | every chosen candidate meets the contracts, holds at most the preferred and the maximum number of clusters (one when direct, 20 otherwise) and to a pick-up point at most 1000 litres; it ships exactly the rows of its clusters, from a seller and to a point that the scenario resolves; no two share method, seller, point and clusters, which their identifiers hash |
| `CandidateBuild.EveryClusterIsShipped` | backend/shipment/candidates.py:131-205 | where seller and points resolve, each eligible cluster whose rows fit the volume limit lies in a candidate of the full enumeration to every point |
| `CandidateBuild.TooBigIsNotShipped` | backend/shipment/candidates.py:74-79 | a cluster whose rows exceed the volume limit lies in none |
| `CandidateBuild.BuildVolume` | backend/shipment/candidates.py:63-100 | the volume that grouping limits is the total volume of the candidate's rows |
| `Ranking.BucketKeeps` | backend/shipment/ranking.py:28-47 | a bucket is reordered without loss, direct options keep their identifier-order slot, handoff options fill theirs by preference |
| `Ranking.OrderSlots` | backend/shipment/ranking.py:28-47 | the in-place assignment of the handoff slots computes that order |
| `Ranking.RankOutcomes` | backend/shipment/ranking.py:50-90 | the bucket loops compute the ranked and the unavailable list |
| `Ranking.RankingIsLossless` | backend/shipment/ranking.py:50-90 | no outcome is lost, invented or shown twice |
| `Ranking.RankedInKeyOrder` | backend/shipment/ranking.py:85-89 | operational keys never decrease along the ranked list; `BestRankFirst` says what that means for the validations |
| `Ranking.BestRankFirst` | backend/shipment/ranking.py:11-18 | of two ranked options the earlier one accepts something if the later does; then it has a time slot if the later has; then it reaches at least as many accepted clusters, then at least as many accepted units, then no more rejected ones, all as the validations show; options not ranked are not shippable |
| `Ranking.RankingIgnoresOrder` | backend/shipment/ranking.py:28-90 | with distinct option identifiers the ranked list does not depend on the order of the outcomes, and the unavailable list holds the same ones |
| `Orchestration.ResolveRows` | backend/shipment/orchestration.py:27-35 | a validation's rows are resolved exactly when they are, copy by copy, rows of the candidate, and then accepted, rejected and unresolved rows partition it |
| `Orchestration.Assemble` | backend/shipment/orchestration.py:17-38 | accepts exactly one honest validation for every candidate identifier; every outcome's rows are partitioned |
| `DraftBudget.GrantKeepsBudget` | backend/ozon/draft_validation.py:209-213 | a granted reservation keeps all three budgets over the whole history, although readings older than a day are forgotten |
| `DraftBudget.ReserveSlot` | backend/ozon/draft_validation.py:209-213 | the slot is granted exactly when no budget is spent among the readings of the last day |
| `DraftBudget.BudgetsHold` | backend/ozon/draft_validation.py:209-213 | however a minute, an hour or a day is placed, it holds at most 2, 50 and 500 creations |
| `DraftEvidence.ReadErrorsLoop` | backend/ozon/draft_validation.py:87-121 | the nested loops over errors, clusters and items read what the definition says, or refuse |
| `DraftEvidence.Normalized` | backend/ozon/draft_validation.py:77-82 | reason codes without duplicates: exactly the given ones that say something |
| `DraftEvidence.ErrorsNameRows` | backend/ozon/draft_validation.py:101-118 | every rejection repeats the identity of one row that no other row can be mistaken for |
| `DraftEvidence.RejectionsAreRead` | backend/ozon/draft_validation.py:87-121 | errors are readable exactly when every group names a known cluster, every rejected item means exactly one row and has a reason that is not blank, and no two mean the same row; the rejections are then these readings, in order, with the first reason that says something |
| `DraftEvidence.ReasonsAreMentioned` | backend/ozon/draft_validation.py:77-125 | the reason codes read are exactly those that some error or rejected item gives and that say something |
| `DraftEvidence.NumeralIsRead` | backend/ozon/draft_validation.py:105-106 | the decimal numeral of a number is read as that number, also with zeros in front |
| `DraftEvidence.DigitsHaveNumber` | backend/ozon/draft_validation.py:105-106 | a SKU has a number on the wire exactly when it is all digits |
| `DraftEvidence.KeptAndRejectedPartition` | backend/ozon/draft_validation.py:154-157 | kept and rejected rows partition the candidate's rows, distinct or not |
| `DraftEvidence.QuantityIsConserved` | backend/ozon/draft_validation.py:126-158 | the quantity check can never fail: a status is unreadable only for its errors or an unknown cluster |
| `DraftEvidence.Selected` | backend/ozon/draft_validation.py:160-171 | warehouses are selected exactly when every cluster has an eligible and no contradictory eligible one |
| `DraftEvidence.SelectedAreFirst` | backend/ozon/draft_validation.py:160-171 | every cluster is given its first eligible warehouse, in the order of the answer |
| `DraftEvidence.CreateIsGood` | backend/ozon/draft_validation.py:280-301 | whatever a create request is answered, the evidence is about the candidate's own rows |
| `DraftEvidence.StatusIsGood` | backend/ozon/draft_validation.py:318-326 | evidence made from a terminal status is about the candidate's own rows |
| `DraftEvidence.SlotsAreGood` | backend/ozon/draft_validation.py:324-334 | ACCEPTED, PARTIAL and NO_TIMESLOT accept some row and leave none unresolved |
| `DraftEvidence.CreateTells` | backend/ozon/draft_validation.py:277-301 | evidence made from the answer to a create request against that answer: unknown without an answer, rate limited by a limit, rejected exactly by a refusal with rows or reasons, which are shown |
| `DraftEvidence.InfoTells` | backend/ozon/draft_validation.py:306-316 | evidence made because a status request failed or cannot be read against that answer |
| `DraftEvidence.StatusTells` | backend/ozon/draft_validation.py:317-323 | time slots are asked for exactly when the status succeeds with some row kept and every cluster can be served; a terminal status that keeps nothing is a rejection with the reasons given |
| `DraftEvidence.SlotsTell` | backend/ozon/draft_validation.py:324-334 | answered time slots and the rejected rows of the status decide: PARTIAL with a rejected row, NO_TIMESLOT without a slot, ACCEPTED otherwise, with just these slots, rows, reasons and draft |
| `DraftProtocol.NextKeeps` | backend/ozon/draft_validation.py:203-275 | every lock-atomic step keeps the invariants of cache, flights, drafts, budgets and history |
| `DraftProtocol.RunKeeps` | backend/ozon/draft_validation.py:203-275 | so does every interleaving |
| `DraftProtocol.NoNeedlessRequest` | backend/ozon/draft_validation.py:214-225 | two create requests for one key are sent only if the first yielded no draft, its draft was seen in a terminal status, or 24 hours passed |
| `DraftProtocol.OneFlightForAKey` | backend/ozon/draft_validation.py:258-267 | a key has at most one open flight, the one in the table, and is then not cached |
| `DraftProtocol.PublishedOnce` | backend/ozon/draft_validation.py:232-241 | a flight is published once; its result never changes |
| `DraftProtocol.UnknownBlocksRequests` | backend/ozon/draft_validation.py:203-208 | after an outcome-unknown result no create request for its key is sent for 24 hours, unless 64 later results were cached |
| `DraftProtocol.ResultsBlockRequests` | backend/ozon/draft_validation.py:203-208 | after any cached result no create request for its key is sent for 120 seconds, unless 64 later results were cached |
| `DraftProtocol.RequestsStayWithinBudget` | backend/ozon/draft_validation.py:209-213 | over any run at most 2 requests in any minute, 50 in any hour, 500 in any day |
| `DraftProtocol.OthersKeepMine` | backend/ozon/draft_validation.py:232-275 | the steps of other calls leave a call's flights and its count of requests alone |
| `DraftDecision.RunDecides` | backend/ozon/draft_validation.py:203-219 | after any interleaving: a live cached result is answered, a flight for the key joined, a draft younger than a day resumed, and a new draft created exactly when none of these exists, the call may, and fewer than 2, 50 and 500 requests were ever sent in the last minute, hour and day |
| `DraftDecision.PublicationMeans` | backend/ozon/draft_validation.py:232-275 | a published result ends its flight and is answered from then on, unless its draft's status was never learned |
| `DraftService.DraftValidationService.CachedOption` | backend/ozon/draft_validation.py:203-208 | the live result under its own lifetime; a stale one is dropped |
| `DraftService.DraftValidationService.Begin` | backend/ozon/draft_validation.py:258-267 | the locked section of `validate` is one step of the protocol |
| `DraftService.DraftValidationService.PublishFlight` | backend/ozon/draft_validation.py:232-241 | publishing is one step of the protocol: the flight ends, the key leaves the table, the oldest results are evicted |
| `DraftService.DraftValidationService.ClearDraft` | backend/ozon/draft_validation.py:222-225 | clearing a draft is one step of the protocol and touches only that draft |
| `DraftService.DraftValidationService.ValidateOne` | backend/ozon/draft_validation.py:277-334 | whatever Ozon answers and the other threads do, the flight stays the caller's and the evidence is good and agrees with the answers heard (`Told`: state, slots, rows, reasons and draft); it raises only when the client does, the credentials changed or a reason is blank |
| `DraftService.DraftValidationService.WaitForFlight` | backend/ozon/draft_validation.py:226-231 | the wait yields the result of the other call's flight, its failure, or the refusal of a cancelled caller; for any number of rounds it is still waiting only if the flight is open and the call was not cancelled |
| `DraftService.DraftValidationService.Validate` | backend/ozon/draft_validation.py:242-275 | no flight is left open, at most 6 requests are sent, and the results are good evidence for the candidates in order, for all of them unless cancelled; it is unfinished only while another call's flight is open |
| `DraftService.ValidateAndAssemble` | backend/shipment/orchestration.py:17-38 | with distinct identifiers every uncancelled call that returns is accepted; rows are partitioned and shippable outcomes leave none unresolved |
| `DailyFacts.BuildDailyFacts` | backend/analytics/daily.py:53-113 | the daily cells and exclusion counts, refused exactly when an order is invalid |
| `DailyFacts.CellsHoldShipments` | backend/analytics/daily.py:64-113 | one cell for every day, product and route on which a past order was shipped from a named origin, holding the units of these orders |
| `DailyFacts.CellsHoldDemand` | backend/analytics/daily.py:64-113 | the same for the orders that are fulfilled or on their way, by destination |
| `DailyFacts.FulfilledUnitsAreKept` | backend/analytics/daily.py:86-113 | the cells hold all units and observations of the past fulfilled orders |
| `DailyFacts.DemandedUnitsAreKept` | backend/analytics/daily.py:86-113 | the demand cells hold all units and observations of the past orders that are fulfilled or on their way |
| `DailyFacts.EveryOrderIsCountedOnce` | backend/analytics/daily.py:64-85 | every eligible order is past, future or undated, and counted once |
| `LocalitySeries.BuildSeries` | backend/analytics/stockout_episodes.py:97-129 | the nested loops over series and days give one point for every day from the first cell on |
| `LocalitySeries.SeriesConserves` | backend/analytics/stockout_episodes.py:97-129 | a series has no gap, and holds exactly the demand and the fulfilled units of its cells |
| `LocalitySeries.PointIsConsistent` | backend/analytics/stockout_episodes.py:112-128 | local and external units and shares make up the whole |
| `LocalitySeries.SharesOfTheDay` | backend/analytics/stockout_episodes.py:116-118 | the origin shares of a day sum to one |
| `LocalitySeries.PointShowsDay` | backend/analytics/stockout_episodes.py:108-128 | a day shows what its cells hold: demand, fulfilled units, those from the destination itself, and for each origin in the cells its units and its part |
| `StockoutWindows.MakeWindow` | backend/analytics/stockout_episodes.py:154-164 | the sums of a window |
| `StockoutWindows.WindowsAreConsecutive` | backend/analytics/stockout_episodes.py:187-233 | baseline and observed windows are consecutive calendar days; contaminated days are observed ones, enough of them; the scope is historical exactly when the window ends by the last completed Sunday |
| `StockoutWindows.FindCandidates` | backend/analytics/stockout_episodes.py:183-233 | the candidates are exactly the positive judgements of all positions of all series |
| `StockoutJudgement.CandidateExactlyWhen` | backend/analytics/stockout_episodes.py:187-233 | a position is a candidate exactly when, in the units of its two windows, local fulfillment fell by the threshold from a high share while demand stayed, an origin other than the destination rose, and enough days show both; it then reports just these shares, days and origins |
| `StockoutEpisodes.MergedIsACut` | backend/analytics/stockout_episodes.py:235-241 | merging cuts the sorted candidates without losing, repeating or moving one |
| `StockoutEpisodes.EpisodesAreSeparated` | backend/analytics/stockout_episodes.py:234-241 | episodes of one series and scope are separated by at least one full day |
| `StockoutEpisodes.EpisodesCoverCandidates` | backend/analytics/stockout_episodes.py:234-244 | their days are exactly the union of the candidates' days |
| `StockoutEpisodes.EpisodeDays` | backend/analytics/stockout_episodes.py:242-281 | an episode's sorted days are those of its group; it starts with the first and ends with the last |
| `EpisodeEvidence.EvidenceIsComplete` | backend/analytics/stockout_episodes.py:253-262 | the evidence names exactly the donors of the group's candidates, each once and the strongest first, with the highest share and increase any of them shows |
| `EpisodeEvidence.EvidenceIgnoresOrder` | backend/analytics/stockout_episodes.py:253-262 | the evidence does not depend on the order in which the set of donors is walked |
| `EpisodeEvidence.UnitsAreShipped` | backend/analytics/stockout_episodes.py:240-258 | the units looked up in the point index are those of the fulfillment cells, day by day |
| `StockoutEpisodes.EpisodesAreSubstantial` | backend/analytics/stockout_episodes.py:251-281 | every episode shows local fulfillment down by the threshold, demand kept, and origins other than the destination risen by the threshold |
| `StockoutEpisodes.OneEligibleEpisodePerDay` | backend/analytics/stockout_episodes.py:228-284 | each day of a series lies in at most one eligible episode |
| `StockoutEpisodes.EligibleEpisodesAreComplete` | backend/analytics/stockout_episodes.py:187-221 | eligible episodes never reach past the last completed Sunday |
| `StockoutEpisodes.DetectEpisodes` | backend/analytics/stockout_episodes.py:177-284 | the loops compute the episodes, with days, baseline, evidence and confidence, of exactly the candidates found |
| `StockoutEpisodes.EpisodesOfFacts` | backend/analytics/stockout_episodes.py:97-284 | from daily facts on: what cleaning removes lies in completed weeks, no day is removed for two episodes, and every episode is substantial with evidence whose units are those shipped |
| `EpisodeMeaning.EpisodeDaysAreTold` | backend/analytics/stockout_episodes.py:177-284 | a day lies in an episode of its series exactly when some position whose windows warrant a candidate has it as a tainted day, and in an eligible one exactly when such a window ends by the last completed Sunday |
| `EpisodeMeaning.EpisodesPortray` | backend/analytics/stockout_episodes.py:242-281 | every episode shows the baseline of the first of its candidates, the lowest local share and retention of any, the corroboration of its own availability rows and the confidence these and its scope allow |
| `WeeklyRoutes.BuildWeekly` | backend/analytics/routes.py:39-100 | the three dictionaries give the weekly cells with units, their shares, the included weeks and the excluded count |
| `WeeklyRoutes.WeeklyTotals` | backend/analytics/routes.py:50-90 | the weekly cells of an origin hold exactly its daily units, although empty ones are dropped |
| `WeeklyRoutes.RoutesShowWeeks` | backend/analytics/routes.py:50-90 | every weekly cell shows the units of its days and their parts of what the destination received and the origin shipped in that week; every key with units has one |
| `CleanRoutes.AggregationKeeps` | backend/analytics/clean_routes.py:96-116 | aggregation loses no units and no observations of an origin |
| `CleanRoutes.DistributionSumsToOne` | backend/analytics/clean_routes.py:96-116 | the exact shares of a shipping origin sum to one |
| `CleanRoutes.MapDays` | backend/analytics/clean_routes.py:269-277 | the dictionary holds, for every day, the earliest eligible episode that affects it |
| `CleanRoutes.RemovalIsUnambiguous` | backend/analytics/clean_routes.py:269-277 | for detected episodes only one removes a given day |
| `CleanRoutes.BuildCleanProfile` | backend/analytics/clean_routes.py:252-316 | the loops compute the clean profile of the definition, or report a mismatch |
| `CleanRoutes.RebuildMatches` | backend/analytics/clean_routes.py:257-267 | a profile built from the same daily facts always passes the comparison |
| `CleanRoutes.QuantityIsConserved` | backend/analytics/clean_routes.py:278-316 | per SKU and origin, observed units are clean plus excluded units, for every history and episode set |
| `CleanRoutes.ObservationBalance` | backend/analytics/clean_routes.py:278-316 | the exact balance of observation counts, and when they are conserved |
| `CleanRoutes.CountsAreConservedWithUnits` | backend/analytics/clean_routes.py:278-316 | counts are conserved where every daily cell has units |
| `CleanRoutes.CountsMayLeak` | backend/analytics/clean_routes.py:278-316 | valid orders whose daily facts lose a count |
| `CleanRoutes.SummariesSumToOne` | backend/analytics/clean_routes.py:307-315 | observed shares of every summary sum to one, and the clean ones where there are any |
| `CleanRoutes.AuditIsComplete` | backend/analytics/clean_routes.py:280-300 | the audit rows account for exactly the excluded units of every origin |
| `CleanMeaning.ProfileMeans` | backend/analytics/clean_routes.py:252-316 | the observed rows spread, route by route, the units of the finished weeks, and the clean rows those of them whose product, destination and day no eligible episode affects, with their parts of what the origin ships |
| `CleanMeaning.SummariesMean` | backend/analytics/clean_routes.py:301-315 | every summary shows what its origin shipped, what is left and what was taken out; it falls back exactly when nothing is left |
| `CleanMeaning.AuditMeans` | backend/analytics/clean_routes.py:269-300 | every audit row holds the units of the cells on its route that its episode takes out before any other |
| `ResultOrders.ShipmentsInOrder` | backend/analytics/daily.py:104-106 | fulfillment cells are shown by day, SKU, origin and destination |
| `ResultOrders.RowsInOrder` | backend/analytics/clean_routes.py:107-116 | distribution rows are shown by SKU, origin and destination |
| `ResultOrders.AuditInOrder` | backend/analytics/clean_routes.py:298-299 | audit rows are shown by SKU, episode, origin and destination |
| `ResultOrders.EpisodesInOrder` | backend/analytics/stockout_episodes.py:242-284 | episodes are shown by SKU, destination, first and last day, and of those of the same days the one of completed weeks comes first |
| `StableSort.SortIsStable` | backend/analytics/stockout_episodes.py:283-284 | sorting is stable: ties keep the order they come in |
| `PriceEnrichment.NextKeeps` | backend/ozon/price_enrichment.py:70-187 | every step of the service and of any worker, live or superseded, keeps the invariant |
| `PriceEnrichment.NoRequestIsLostOrReadTwice` | backend/ozon/price_enrichment.py:79-168 | after any interleaving the live worker's reads and the queue are exactly the requests started; none is read twice; pending evidence has a live worker |
| `PriceEnrichment.SupersededIsInert` | backend/ozon/price_enrichment.py:125-168 | whatever a superseded worker still does, generation, queue, cache and published evidence stay as they are |
| `PriceEnrichment.PopIsSafe` | backend/ozon/price_enrichment.py:134-139 | the live worker never meets an empty queue |
| `PriceEnrichment.CompletedEvidenceIsTheCache` | backend/ozon/price_enrichment.py:141-155 | when the live worker has published its last result, the published prices are the cache |
| `PriceEnrichment.UniqueKeepsKeys` | backend/ozon/price_enrichment.py:88-89 | deduplication keeps one request for every key it knows |
| `PriceCache.PriceFollows` | backend/ozon/price_enrichment.py:70-168 | what every step leaves of a cached price: a start drops it with its credentials or when neither order nor request names it any more, clearing drops it, what the live worker reads without failure replaces it, nothing else touches it |
| `PriceCache.PriceSurvives` | backend/ozon/price_enrichment.py:70-168 | a cached price stays through any interleaving that holds nothing against it |
| `PriceCache.PriceHasASource` | backend/ozon/price_enrichment.py:70-168 | after any interleaving every cached price was there from the beginning or was read by a live worker under its key, and nothing was held against it since |
| `PriceCache.StartMeans` | backend/ozon/price_enrichment.py:79-102 | a start queues exactly, for every key that an order names, the last request |
| `PriceCache.PublicationMeans` | backend/ozon/price_enrichment.py:141-158 | as many requests are completed as were read, failures are counted, and every 25th and the last publication shows the cache of the moment |
| `PriceCache.PrioritizationMeans` | backend/ozon/price_enrichment.py:183-187 | requests that name a chosen product come first, and otherwise all keep their order |
| `PriceEnrichment.OrderPriceEnrichment.StartRun` | backend/ozon/price_enrichment.py:79-102 | `start` is one step of the model |
| `PriceEnrichment.OrderPriceEnrichment.PopNext` | backend/ozon/price_enrichment.py:134-139 | the locked pop is one step and yields the front of the queue exactly to the live worker |
| `PriceEnrichment.OrderPriceEnrichment.Update` | backend/ozon/price_enrichment.py:141-159 | the locked update is one step |
| `PriceEnrichment.OrderPriceEnrichment.BreakUpdate` | backend/ozon/price_enrichment.py:141-159 | an update that raises after the cache was written is one step |
| `PriceEnrichment.OrderPriceEnrichment.HandleFailure` | backend/ozon/price_enrichment.py:159-164 | the locked exception handler is one step |
| `PriceEnrichment.OrderPriceEnrichment.FinishRun` | backend/ozon/price_enrichment.py:165-168 | the locked `finally` is one step |
| `PriceEnrichment.OrderPriceEnrichment.CancelRun` | backend/ozon/price_enrichment.py:70-77 | `cancel` is one step |
| `PriceEnrichment.OrderPriceEnrichment.PrioritizeSkus` | backend/ozon/price_enrichment.py:183-187 | `prioritize` is one step and only reorders the queue |
| `DataQuality.MatchFacts` | backend/decision/data_quality.py:54-70 | the lazily cleaned queues find what a search of all unused raw facts would find |
| `DataQuality.EveryRawClaimedOnce` | backend/decision/data_quality.py:63-70 | every raw diagnostic is claimed exactly once |
| `QualityMeaning.FactsMean` | backend/decision/data_quality.py:54-70 | every supplied fact claims the first raw fact of its code and calculation that is free at its turn, else the first free one of its code, else none; the raw facts that stay free stand for themselves, in order |
| `QualityMeaning.HomeMeans` | backend/decision/data_quality.py:71-77 | an incomplete calculation is counted with the last missing, price-less or ambiguous tariff of the same calculation, where there is one, and anything else under its own code |
| `DataQuality.HomesExist` | backend/decision/data_quality.py:71-77 | every attached consequence lands in a group that exists |
| `DataQuality.BuildPresentation` | backend/decision/data_quality.py:50-96 | one group per visible code, and the groups' raw counts add up to the number of diagnostics |
| `KeyedTotals.Accumulate` | backend/analytics/routes.py:50-66 | the dictionary loops hold, for every key in order of appearance, the sums over its elements |
| `KeyedTotals.SumPerKey` | backend/analytics/routes.py:50-66 | adding up the totals of all keys counts every element once |
| `StableSort.SortIgnoresOrder` | backend/shipment/ranking.py:32-43 | sorting elements that never tie gives one result whatever the order they come in |

## Left out

- Rounding of decimals to 40 digits: money, shares and volumes are exact reals.
- Content hashes: a candidate's identifier is decided by its method, seller, point, clusters and rows, and validation keys are compared by what is hashed.
- Explanation texts, display names, line-item tuples, bases and rounding metadata of the results.
- The order in which diagnostics groups, candidate diagnostics and stale-selection warnings are shown, and the candidate diagnostics themselves.
- HTTP transport, retries, persistence of prices, XLSX and CSV reading; an answer of Ozon is any value of the reply types.
- The clock of `ozon_choice_reason`: whether a recommendation is current is an input; the requested and delta quantities and the reason why a line is not eligible are not stored with the line.
- `resolve_candidate_cluster_identities` and `build_draft_create_request`: their outcome per candidate is an input of `DraftService.DraftValidationService.Validate`, as are the calendar check and the caller's wish to cancel.
- Parsing of time slots, shape checks of Ozon's answers, and warehouse ranks: a badly formed answer is one value of the reply types.
- DraftEvidence.Build: an evidence with a blank reason code raises; only ASCII white space counts as blank.
- DraftService.DraftValidationService.WaitForFlight: the number of rounds is a parameter, because nothing bounds how long another call's flight takes; a wait that used it up ends as unfinished.
- PriceEnrichment.CompletedEvidenceIsTheCache: speaks of the published prices, not of the file they are saved to.
- The list of reason codes of an episode, which repeats its scope and corroboration.
- `build_clean_route_profile`, the weekly predecessor of the episode-based cleaning.
- `resolve_drr` and the economics workspace's aggregation of rows: they would only add easy members.
- The shippable plan itself (`backend/supply/contracts.py`): its contract is the precondition `WorkingPlan.ValidPlan`.
