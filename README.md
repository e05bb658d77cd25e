# k8s-pod-rightsizer, modelled in Dafny

This project models the core of k8s-pod-rightsizer, a Kubernetes operator. The operator watches `PodRightSizing` custom resources. Each resource names a set of pods, a metrics source, thresholds and an update policy. On a schedule, the operator does four things:

- it collects each pod's CPU and memory usage history;
- it derives a limit and request per resource from a percentile of that history plus a safety margin;
- it keeps only recommendations whose confidence passes a threshold;
- unless the policy is dry-run or manual, it writes the first recommendation's request and limit (calculateAverageRecommendation does no averaging) into each owning Deployment, StatefulSet or DaemonSet and records the outcome in the resource's status.

The model covers:

- **Common, Types:** value types for quantities, the custom resource, its status and the metrics records.
- **Stats:** the mean, sample standard deviation, the sorts and the interpolated percentile.
- **Engine:** the recommendation engine.
- **AdvancedAnalysis:** the advanced pattern analyzer.
- **Classifier:** the workload classifier.
- **Cost, AzurePricing:** the cost calculator and the Azure retail-price client.
- **Webhook:** the admission webhook's validation.
- **PromMetrics, InternalMetrics:** the Prometheus metrics client's conversions, grouping and ownership heuristics.
- **Cluster:** the slice of the Kubernetes API the reconciler uses.
- **Controller:** the reconciler. This covers discovery and filtering of pods, grouping by workload, the choice of the first recommendation as each workload's template, updates of pod templates, status phases and requeue times.

Floating-point numbers are modelled as `real`. The square root, the clock, network responses and the parsers of durations, cron expressions, label selectors and floats are parameters supplied by the caller. The Kubernetes API is modelled in two parts:

- a `Snapshot` of what the cluster holds, including which writes it rejects;
- an `ApiServer` object, or a `ServerState` value, holding what a reconcile pass has changed.

Each imperative Go routine is a method. Its loop invariants tie it to a specification function, and lemmas prove what the source promises about that function.

## Model

| member | source | states |
|---|---|---|
| Common.Trunc | pkg/analyzer/recommendation_engine.go:241 | Go's float-to-int conversion truncates toward zero: never beyond the argument, and within one of it on its own side of zero |
| Common.TruncBetween | pkg/analyzer/recommendation_engine.go:372-381 | truncation keeps a value between two integer bounds that enclose it |
| Common.NatToString | pkg/analyzer/recommendation_engine.go:248 | `%d` of a natural is a non-empty string of decimal digits |
| Common.DigitsValueOfNatToString | pkg/analyzer/recommendation_engine.go:248 | reading the decimal digits back gives the number |
| Common.NatToStringInjective | pkg/analyzer/recommendation_engine.go:248 | different naturals render differently |
| Common.IntToString | pkg/analyzer/recommendation_engine.go:443 | `%d` of an integer is non-empty |
| Common.SignOfIntToString | pkg/analyzer/recommendation_engine.go:443 | the rendering starts with a minus sign exactly when the integer is negative |
| Common.IntToStringChars | pkg/analyzer/recommendation_engine.go:443 | the rendering holds only a minus sign and decimal digits |
| Common.IntToStringInjective | pkg/analyzer/recommendation_engine.go:443 | different integers render differently |
| Common.ToLower | pkg/analyzer/azure_pricing.go:245-246 | keeps the length and lowers each ASCII upper-case letter, leaving every other character as it is (narrower than strings.ToLower, see "## Left out") |
| Types.EnumTextRoundTrip | api/v1alpha1/podrightsizing_types.go:92-100 | the strategy, metrics-source and auth-type fields are Go string types: reading any JSON text into them and writing it back gives the same text, unknown values included |
| Types.Values | pkg/analyzer/recommendation_engine.go:199-202 | the values of a usage history, position by position |
| Stats.CalculateMean | pkg/analyzer/recommendation_engine.go:387-397 | the summing loop computes the arithmetic mean, and 0 for no values |
| Stats.MeanWithin | pkg/analyzer/workload_classifier.go:328-337 | the mean of values inside an interval lies inside it |
| Stats.SumWithin | pkg/analyzer/workload_classifier.go:332-336 | n values inside [lo, hi] sum to between n·lo and n·hi |
| Stats.SumSquaredDiffNonNegative | pkg/analyzer/recommendation_engine.go:405-409 | a sum of squared deviations is never negative |
| Stats.SumSquaredDiffOfConstant | pkg/analyzer/workload_classifier.go:343-347 | a constant series has no squared deviation from its value |
| Stats.SumOfConstant | pkg/analyzer/workload_classifier.go:332-336 | n copies of c sum to n·c |
| Stats.ConstantSeries | pkg/analyzer/workload_classifier.go:328-350 | a constant series has its value as mean and a standard deviation of zero |
| Stats.SquaredDiffTotal | pkg/analyzer/recommendation_engine.go:405-409 | the loop sums the squared deviations from the given mean |
| Stats.CalculateStandardDeviation | pkg/analyzer/recommendation_engine.go:400-414 | the sample standard deviation with divisor n−1, zero below two values, never negative |
| Stats.Insert | pkg/analyzer/workload_classifier.go:384-394 | inserting adds exactly one copy of the value |
| Stats.InsertSorted | pkg/analyzer/workload_classifier.go:384-394 | inserting into a sorted sequence keeps it sorted |
| Stats.SortAscending | pkg/analyzer/recommendation_engine.go:203 | the reference sort: a sorted permutation of its input |
| Stats.SortedPermutationUnique | pkg/analyzer/recommendation_engine.go:203 | two sorted permutations of the same values are equal |
| Stats.SortedPermutationIsSortAscending | pkg/analyzer/recommendation_engine.go:203 | any sorted permutation of a sequence is its reference sort |
| Stats.Swap | pkg/analyzer/workload_classifier.go:391 | exchanges two elements and keeps the multiset |
| Stats.ExchangeFrom | pkg/analyzer/workload_classifier.go:389-393 | one outer pass puts the least remaining value at position i and keeps the sorted, smaller prefix |
| Stats.ExchangeSort | pkg/analyzer/workload_classifier.go:388-394 | the in-place exchange sort leaves the array sorted and a permutation of what it held |
| Stats.SortedCopy | pkg/analyzer/workload_classifier.go:384-394 | copying then sorting yields the reference sort of the values |
| Stats.SortFloat64s | pkg/analyzer/recommendation_engine.go:203 | sort.Float64s leaves the array holding the reference sort of its old contents |
| Stats.SortedEnds | pkg/analyzer/workload_classifier.go:352-376 | the first and last sorted values occur in the input and bound every value of it |
| Stats.Ceil | pkg/analyzer/recommendation_engine.go:336 | math.Ceil: the least integer not below the argument |
| Stats.Between | pkg/analyzer/recommendation_engine.go:343-344 | a weighted mean of two ordered values lies between them |
| Stats.Rank | pkg/analyzer/recommendation_engine.go:334 | the fractional rank p/100·(n−1) lies within the index range |
| Stats.Interpolate | pkg/analyzer/recommendation_engine.go:333-344 | on sorted values, the interpolated percentile lies between the least and the greatest value |
| Engine.CalculatePercentile | pkg/analyzer/recommendation_engine.go:321-345 | 0 for no samples, the first sample for p ≤ 0, the last for p ≥ 100, otherwise the linear interpolation at rank p/100·(n−1); on sorted input it lies between the first and the last sample |
| Engine.PercentileExamples | pkg/analyzer/recommendation_engine_test.go:219-235 | the samples 1 to 10 give 5.5 at p50, 9.1 at p90 and 9.55 at p95 |
| Engine.CoefficientOfVariation | pkg/analyzer/recommendation_engine.go:354-361 | the cv is 0 when the mean is not positive and is never negative |
| Engine.BandScore | pkg/analyzer/recommendation_engine.go:370-377 | the score band for each cv range: 30–49 above 0.5, 70–94 in (0.3, 0.5], 95–99 in (0.1, 0.3], 100 otherwise |
| Engine.BoostBounds | pkg/analyzer/recommendation_engine.go:379-381 | the data-point boost never lowers a score, never exceeds 100 and never adds more than 10 % |
| Engine.ConfidenceBounds | pkg/analyzer/recommendation_engine.go:348-384 | confidence is 50 for fewer than two values and always lies between 30 and 100 |
| Engine.ConfidenceFull | pkg/analyzer/recommendation_engine.go:358-381 | a cv of at most 0.1, or a mean that is not positive, gives full confidence |
| Engine.ConfidenceGate | pkg/analyzer/recommendation_engine.go:348-384 | with two or more values, confidence reaches 70 exactly when the cv is at most 0.5 |
| Engine.CalculateConfidence | pkg/analyzer/recommendation_engine.go:348-384 | the method computes the confidence function |
| Engine.EffectivePercentile | pkg/analyzer/recommendation_engine.go:205-209 | the target percentile is always positive: the configured one, or 95 |
| Engine.ClampLimit | pkg/analyzer/recommendation_engine.go:222-235 | a limit within the non-zero bounds is returned unchanged; below a non-zero minimum (not above the maximum) it becomes exactly the minimum; above a non-zero maximum (and not below the minimum) exactly the maximum; when the minimum exceeds the maximum, the maximum wins; so a non-zero maximum always caps it and a consistent minimum floors it |
| Engine.ClampInSteps | pkg/analyzer/recommendation_engine.go:222-235 | raising to a non-zero minimum and then lowering to a non-zero maximum, step by step, gives the clamped limit |
| Engine.QuantisedClamp | pkg/analyzer/recommendation_engine.go:222-241 | the same bounds hold for the limit after conversion to millicores or bytes |
| Engine.QuantiseBound | pkg/analyzer/recommendation_engine.go:225-241 | a configured bound read as a float (cores or bytes) and converted back to millicores or bytes is the bound itself |
| Engine.RequestWithinLimit | pkg/analyzer/recommendation_engine.go:131-150 | a request multiplier in [0, 1] keeps the request between 0 and a non-negative limit |
| Engine.RequestAboveNegativeLimit | pkg/analyzer/recommendation_engine.go:131-150 | with a multiplier strictly inside (0, 1), a negative limit yields a request above it: requests stay below limits only when limits are non-negative |
| Engine.CopyValues | pkg/analyzer/recommendation_engine.go:199-202 | the copy loop yields a fresh array holding the history's values in order |
| Engine.RecommendationEngine.EffectiveMargin | pkg/analyzer/recommendation_engine.go:215-218 | a positive configured safety margin replaces the engine default |
| Engine.RecommendationEngine.Analysis | pkg/analyzer/recommendation_engine.go:189-252 | analysis of one resource fails exactly when there are fewer samples than the minimum, reporting the count and the minimum; otherwise it records the sample count and the confidence of the sorted values |
| Engine.RecommendationEngine.LimitOf | pkg/analyzer/recommendation_engine.go:205-235 | the percentile defaults to 95 unless a positive one is configured; the limit is that percentile of the sorted samples, raised by the safety margin and clamped |
| Engine.RecommendationEngine.AnalyzeUsage | pkg/analyzer/recommendation_engine.go:255-318 | the CPU and memory analysers compute that analysis on the history's values and return its confidence, or 0 on error |
| Engine.RecommendationEngine.BuildReasonString | pkg/analyzer/recommendation_engine.go:416-446 | the reason opens with the fixed sentence and closes with the effective safety margin |
| Engine.RecommendationEngine.ReasonNamesMargin | pkg/analyzer/recommendation_engine.go:431-443 | two reasons for the same analyses are equal only when their effective margins are equal |
| Engine.RecommendationEngine.GeneratePodRecommendation | pkg/analyzer/recommendation_engine.go:81-176 | the method computes the per-pod outcome function |
| Engine.RecommendationEngine.GenerateRecommendations | pkg/analyzer/recommendation_engine.go:41-78 | it fails exactly when there are no pods; otherwise it returns the gated recommendations in pod order |
| Engine.RecommendationEngine.InsufficientSamplesFail | pkg/analyzer/recommendation_engine.go:93-102 | too few CPU samples fails the pod on CPU; enough CPU samples but too few memory samples fails it on memory; a pod succeeds exactly when both histories reach the minimum |
| Engine.RecommendationEngine.RecommendationShape | pkg/analyzer/recommendation_engine.go:104-163 | a stored recommendation passes the confidence threshold, names its pod, sets CPU and memory requests and limits, is not applied and states the effective margin |
| Engine.RecommendationEngine.LimitWithinBounds | pkg/analyzer/recommendation_engine.go:222-241 | the recommended limit obeys the resource's configured minimum and maximum; it is the quantised raised percentile when that lies within the bounds, exactly the minimum quantity when the raised percentile falls below it, and exactly the maximum quantity when it rises above |
| Engine.RecommendationEngine.GateIffVariable | pkg/analyzer/recommendation_engine.go:104-118 | with the default threshold of 70, a pod with enough samples is skipped exactly when the cv of its CPU or its memory exceeds 0.5 |
| Engine.RecommendationEngine.RecommendationsAppend | pkg/analyzer/recommendation_engine.go:59-71 | the recommendations of concatenated pod lists concatenate |
| Engine.RecommendationEngine.RecommendationsGated | pkg/analyzer/recommendation_engine.go:59-71 | there are at most as many recommendations as pods; each one passes the threshold and names one of the pods |
| Engine.NewRecommendationEngine | pkg/analyzer/recommendation_engine.go:30-38 | defaults: 10 data points, threshold 70, margin 20, multipliers 0.8 and 0.9 |
| Engine.DefaultRequestsWithinLimits | pkg/analyzer/recommendation_engine.go:131-150 | with the default multipliers, a request stays at or below its limit exactly when the limit is non-negative |
| Engine.DefaultMarginReason | pkg/analyzer/recommendation_engine.go:431-443 | without a configured margin, the reason ends "Applied 20% safety margin." |
| AzurePricing.CostPerCore | pkg/analyzer/azure_pricing.go:275-279 | with positive cores, the per-core cost times the cores is the monthly price (730 hours of the unit price); with none it is 0 |
| AzurePricing.CostPerGB | pkg/analyzer/azure_pricing.go:281-284 | with positive memory, the per-GiB cost times the GiB is the monthly price; with none it is 0 |
| AzurePricing.UnitCostExamples | pkg/analyzer/azure_pricing_test.go:163-178 | $0.096/h on 2 cores and 8 GiB, and $0.192/h on 4 cores and 16 GiB, both give $35.04 per core and $8.76 per GiB |
| AzurePricing.GetVMSpecifications | pkg/analyzer/azure_pricing.go:307-361 | every SKU gets positive cores and memory; an unknown SKU gets the default of 2 cores and 8 GiB |
| AzurePricing.VMSpecificationExamples | pkg/analyzer/azure_pricing.go:309-350 | table entries for several series, and the default for an unknown name |
| AzurePricing.RoundUpCores | pkg/analyzer/azure_pricing.go:126-128 | Quantity.Value of a CPU capacity rounds millicores up to whole cores |
| AzurePricing.NodeInfoOf | pkg/analyzer/azure_pricing.go:106-133 | a node's record carries its name and instance type as SKU; positive CPU capacity gives at least one core and positive memory a positive size, and zero capacity leaves them 0 |
| AzurePricing.NodeInfoExample | pkg/analyzer/azure_pricing_test.go:17-94 | the labelled 2-core, 8 GiB test node yields its SKU, region, zone, cores and memory |
| AzurePricing.NodeInfoMap | pkg/analyzer/azure_pricing.go:104-158 | every discovered record is stored under its own node name and has a SKU |
| AzurePricing.NodeInfoMapKeys | pkg/analyzer/azure_pricing.go:149-150 | a node name is discovered exactly when some node of that name carries an instance type |
| AzurePricing.NodeInfoMapLastWins | pkg/analyzer/azure_pricing.go:106-150 | when names repeat, the last node of the name that has a SKU decides its record |
| AzurePricing.FetchItems | pkg/analyzer/azure_pricing.go:188-216 | the fetch succeeds exactly on an HTTP 200 whose body decodes to a non-empty item list, and then yields those items |
| AzurePricing.BestItemUnique | pkg/analyzer/azure_pricing.go:242-256 | the preferred item is determined by the list |
| AzurePricing.SelectBestItem | pkg/analyzer/azure_pricing.go:242-256 | the loop picks the first taken item in a primary meter region, else the last taken item, else the first item; an item is taken when it names Linux, or names neither Windows nor follows an earlier choice |
| AzurePricing.PriceFromItem | pkg/analyzer/azure_pricing.go:259-284 | the record copies the chosen item's price and SKU, the table specs and the time, and its per-core and per-GiB costs agree with them |
| AzurePricing.WithNodeSpecs | pkg/analyzer/azure_pricing.go:386-402 | positive reported cores and memory replace the record's; nothing beyond the specs and the two costs changes |
| AzurePricing.WithNodeSpecsConsistent | pkg/analyzer/azure_pricing.go:394-402 | with a non-negative unit price, recomputing the costs after the spec update keeps them in agreement |
| AzurePricing.AzurePricingClient.constructor | pkg/analyzer/azure_pricing.go:84-93 | an empty cache, a 24-hour TTL and the retail-prices endpoint |
| AzurePricing.AzurePricingClient.GetNodeSKUInfo | pkg/analyzer/azure_pricing.go:96-161 | a failed node listing is an error; otherwise the records of the nodes that carry a SKU |
| AzurePricing.AzurePricingClient.GetSKUPricing | pkg/analyzer/azure_pricing.go:164-297 | a fresh cache entry is returned unchanged; otherwise the stale entry is dropped and the fetch decides: an error leaves the key uncached, success caches a new record built from the best item; other keys are untouched |
| AzurePricing.AzurePricingClient.TakeFresh | pkg/analyzer/azure_pricing.go:166-177 | a record younger than the time to live is returned and kept; a stale one is deleted and nothing is returned |
| AzurePricing.AzurePricingClient.FetchAndStore | pkg/analyzer/azure_pricing.go:179-297 | for a SKU without a record, a failed fetch caches nothing and returns its error; a successful one caches and returns a new record, stamped now, priced from the best item |
| AzurePricing.AzurePricingClient.PriceNode | pkg/analyzer/azure_pricing.go:372-404 | a node without SKU or region, or whose lookup fails, is skipped, and a failed lookup leaves its key uncached; a priced node's record is the fresh cache entry for its SKU and region, and it is the looked-up record (the fresh cached one, or one built from the best item of a successful fetch) with the node's reported specs written in and its costs recomputed; fresh entries stay the same objects with at most their specs and costs changed, and no record under another key changes |
| AzurePricing.AzurePricingClient.PriceInto | pkg/analyzer/azure_pricing.go:372-404 | one round of the pass keeps its state: priced nodes keep their fresh shared records, the node just priced is recorded as the last one for its key, its record carries its specs, records under other keys are untouched, the node is priced when its key was fresh or its lookup succeeds, and every fresh record still either is the object found fresh when the pass began (price, SKU, region and time kept) or comes from a successful lookup for a node with its key |
| AzurePricing.WithNodeSpecsApplied | pkg/analyzer/azure_pricing.go:386-402 | a record updated with a node's specs already carries them: writing the same specs again changes nothing |
| AzurePricing.AzurePricingClient.UpdateWithNodeSpecs | pkg/analyzer/azure_pricing.go:386-402 | the shared cached record is updated in place with the node's specs and recomputed costs |
| AzurePricing.AzurePricingClient.GetClusterPricingInfo | pkg/analyzer/azure_pricing.go:364-408 | a failed listing is an error and leaves the cache as it was; otherwise every priced node has a SKU and region, its price is the cache entry for them and its costs are consistent; every node that has a fresh entry or a successful fetch is priced; every priced record carries the reported specs of some priced node with the same SKU and region (the one priced last, because those nodes share one record); and a priced node's record is either the cached object that was fresh for its key, with price, SKU, region and time kept, or, when no entry was fresh, built from the best item of a successful lookup for a node with its key, so a node whose lookup fails is never priced from it |
| AzurePricing.AzurePricingClient.PriceNodes | pkg/analyzer/azure_pricing.go:372-405 | the loop over the discovered nodes processes every node, keeps the pass state and the provenance of the fresh records, and prices every priceable node whose key was fresh or whose lookup succeeds |
| AzurePricing.AzurePricingClient.PricedRecordOrigin | pkg/analyzer/azure_pricing.go:372-405 | a priced node's record is the cached object that was fresh for its key, with unit price and SKU kept, or else its unit price and SKU are those of the best item of a successful lookup for a node with that key |
| AzurePricing.AzurePricingClient.PricedFromProvenance | pkg/analyzer/azure_pricing.go:372-405 | at the end of the pass, the pass state and the provenance of the fresh records give every priced node's origin |
| AzurePricing.AzurePricingClient.LastSpecsGiveNodeSpecs | pkg/analyzer/azure_pricing.go:386-402 | at the end of the pass, every priced record carries the reported specs of some priceable node with its key |
| AzurePricing.PricedByFetchKeptBySpecs | pkg/analyzer/azure_pricing.go:386-402 | writing specs and costs into a record fetched for a key keeps it the record of that lookup |
| Cost.SavedAmount | pkg/analyzer/cost_calculator.go:121-140 | a saving for a resource exists exactly when both requests name it and the current one is larger; it is their difference |
| Cost.CostCalculator.PricesForNode | pkg/analyzer/cost_calculator.go:161-175 | a named node with pricing data uses its per-core and per-GiB costs, each replaced by the calculator's default when zero; any other node uses the defaults |
| Cost.CostCalculator.CalculateSavingsForNode | pkg/analyzer/cost_calculator.go:117-149 | the CPU and memory savings are the saved amounts; a cost saving is reported exactly when the node's monthly saving is positive, and it is that saving |
| Cost.CostCalculator.CalculateSavings | pkg/analyzer/cost_calculator.go:111-113 | without a node, a reported cost saving prices the saved cores and GiB at the calculator's defaults |
| Cost.CostCalculator.ClusterReport | pkg/analyzer/cost_calculator.go:193-226 | the report counts the recommendations and names the provider; annual savings are twelve months; a payback period exists exactly when annual savings exceed the 10000 alternative cost, and it recovers that cost |
| Cost.CostCalculator.EstimateClusterSavings | pkg/analyzer/cost_calculator.go:199-211 | the loop totals the saved cores and GiB over all recommendations and prices them at the defaults |
| Cost.CostCalculator.EstimateClusterSavingsWithAzureBreakdown | pkg/analyzer/cost_calculator.go:229-298 | the plain report is kept; real pricing and a breakdown appear exactly when there is pricing data; the breakdown has one group per SKU built from that SKU's nodes, every group receives the same share of each positive cost saving, and the shares add up to the total saving |
| Cost.CostCalculator.GroupBySku | pkg/analyzer/cost_calculator.go:238-258 | the grouping loop yields one group per non-empty SKU, counting its nodes and summing their monthly prices |
| Cost.CostCalculator.CountNode | pkg/analyzer/cost_calculator.go:241-257 | a node's SKU group is created from its prices if missing, then counts it and adds its monthly price |
| Cost.CostCalculator.AddNodeToGroups | pkg/analyzer/cost_calculator.go:240-258 | counting one more node keeps the groups exactly those of the nodes seen |
| Cost.CostCalculator.AddNodeToGroup | pkg/analyzer/cost_calculator.go:246-257 | counting one more node keeps each single group that of its SKU's nodes |
| Cost.CostCalculator.GroupedFromOtherNode | pkg/analyzer/cost_calculator.go:240-258 | a node of another SKU leaves a group as it was |
| Cost.CostCalculator.GroupedFromCountedNode | pkg/analyzer/cost_calculator.go:254-257 | a node of the group's SKU adds one to its count and its monthly price to the total |
| Cost.CostCalculator.DistributeSavings | pkg/analyzer/cost_calculator.go:261-283 | the distribution loop keeps the groups and gives every group the same share of each positive cost saving and one count per such recommendation |
| Cost.AddToEveryGroup | pkg/analyzer/cost_calculator.go:275-279 | one recommendation's share is added to every group, with one more count each |
| Cost.TotalsAppend | pkg/analyzer/cost_calculator.go:202-209 | the saved-core and saved-GiB totals of concatenated lists add |
| Cost.DistributedSavingsTotal | pkg/analyzer/cost_calculator.go:273-279 | with at least one SKU, the per-SKU share times the number of SKUs is the total positive cost saving |
| Cost.SharesAddUp | pkg/analyzer/cost_calculator.go:261-285 | summing the groups' potential savings recovers the total positive cost saving |
| Cost.SkusOfAdd | pkg/analyzer/cost_calculator.go:240-252 | one more node adds its SKU, if it has one, to the set of SKUs |
| Cost.AccumulateNode | pkg/analyzer/cost_calculator.go:68-76 | one more node adds its positive per-core and per-GiB costs, and counts it when its per-core cost is positive |
| Cost.AveragePrices | pkg/analyzer/cost_calculator.go:64-87 | the defaults become the sums of the positive per-core and per-GiB costs divided by the number of nodes with a positive per-core cost; with no such node the defaults of 20 and 2.5 stay |
| Cost.SumPrices | pkg/analyzer/cost_calculator.go:65-76 | the summing loop accumulates exactly those sums and that count |
| Cost.NewCostCalculatorWithAzurePricing | pkg/analyzer/cost_calculator.go:42-90 | an Azure calculator; when node listing fails it is the default calculator; otherwise it holds prices only for discovered nodes, and for every discovered node with SKU, region and a successful fetch; its costs are consistent; its per-core and per-GiB defaults are the sums of the positive per-core and per-GiB costs, both divided by the number of nodes with a positive per-core cost, or 20 and 2.5 when there is no such node |
| Cost.NoSavingsForUnchangedRequests | pkg/analyzer/cost_calculator.go:117-149 | recommending the current requests saves nothing |
| Cost.CostSavingsPresentIffSaving | pkg/analyzer/cost_calculator.go:143-146 | with positive prices, a cost saving is reported exactly when CPU or memory is saved |
| Cost.MonthlyPositive | pkg/analyzer/cost_calculator.go:178-189 | with positive prices, a monthly saving is positive exactly when some cores or GiB are saved |
| Cost.FallbackIsPerResource | pkg/analyzer/cost_calculator.go:170-175 | the fallback to the default price applies to each resource separately |
| Cost.DefaultPrices | pkg/analyzer/cost_calculator.go:30-108 | the default, AWS and GCP calculators price cores at 20, 25 and 22 and GiB at 2.5, 3 and 2.8, and name their providers |
| Cost.SavingsExample | test/integration/integration_test.go:166-189 | 200m and 256Mi cut to 100m and 128Mi saves 100m, 128Mi and $2.3125 a month |
| Cost.NodeSavingsExample | pkg/analyzer/azure_pricing_test.go:183-216 | at $35.04 per core and $8.76 per GiB, 500m and 1Gi cut to 200m and 512Mi saves 300m, 512Mi and $14.892 a month |
| Cost.ClusterTotalsExample | test/integration/integration_test.go:322-360 | 50m plus 100m and 64Mi plus 128Mi total 0.150 cores and 0.1875 GiB over two recommendations |
| Cost.BreakdownExample | pkg/analyzer/azure_pricing_test.go:160-250 | two nodes of two SKUs and savings of $5.00 and $3.50 give two groups of $4.25 each |
| Cost.AverageOfUniformPrices | pkg/analyzer/cost_calculator.go:64-80 | when every node has the same positive per-core cost, every node counts and the average is that cost |
| Classifier.ClassName | pkg/analyzer/workload_classifier.go:32-39 | every workload class has a non-empty name |
| Classifier.Variation | pkg/analyzer/workload_classifier.go:158-160 | the coefficient of variation is never negative and is 0 without spread |
| Classifier.Least | pkg/analyzer/workload_classifier.go:352-363 | 0 for no values, otherwise a member of the values no greater than any of them |
| Classifier.Greatest | pkg/analyzer/workload_classifier.go:365-376 | 0 for no values, otherwise a member of the values no smaller than any of them |
| Classifier.CalculateMin | pkg/analyzer/workload_classifier.go:352-363 | the minimum loop computes the least value |
| Classifier.CalculateMax | pkg/analyzer/workload_classifier.go:365-376 | the maximum loop computes the greatest value |
| Classifier.Percentile | pkg/analyzer/workload_classifier.go:378-406 | 0 for no values, otherwise a value between the least and the greatest |
| Classifier.CalculatePercentile | pkg/analyzer/workload_classifier.go:378-406 | copying, exchange-sorting and interpolating computes that percentile |
| Classifier.IndexSumClosedForm | pkg/analyzer/workload_classifier.go:420-426 | the sum of the indices 0 to n−1 is n(n−1)/2 |
| Classifier.IndexSquareSumClosedForm | pkg/analyzer/workload_classifier.go:420-426 | the sum of their squares is (n−1)n(2n−1)/6 |
| Classifier.RegressionDenominator | pkg/analyzer/workload_classifier.go:429 | the regression denominator n·Σx² − (Σx)² is n²(n−1)(n+1)/12 |
| Classifier.RegressionDenominatorPositive | pkg/analyzer/workload_classifier.go:429 | with two or more values the slope's denominator is positive, so the division is defined |
| Classifier.TrendOf | pkg/analyzer/workload_classifier.go:408-455 | fewer than ten values are a stable trend of strength 0; the strength never exceeds 1 |
| Classifier.RegressionStep | pkg/analyzer/workload_classifier.go:420-426 | one loop step adds x, y, xy and x² to the four running sums |
| Classifier.AnalyzeTrend | pkg/analyzer/workload_classifier.go:408-455 | the regression loop computes the trend function |
| Classifier.RegressionLoop | pkg/analyzer/workload_classifier.go:415-426 | the accumulation loop yields the sum of the indices, of the values, of index times value and of the squared indices |
| Classifier.TrendWithPositiveMean | pkg/analyzer/workload_classifier.go:432-454 | with at least ten values and a positive mean: the strength lies in [0, 1], the trend is stable exactly when the strength is 0, and it is increasing exactly when the slope is positive and at least 0.1 % of the mean |
| Classifier.TrendOfConstant | pkg/analyzer/workload_classifier.go:408-455 | a constant non-negative series has a stable trend of strength 0 |
| Classifier.ConstantSlope | pkg/analyzer/workload_classifier.go:429 | a constant series has slope 0 |
| Classifier.ConstantMean | pkg/analyzer/workload_classifier.go:328-337 | a constant series has its value as mean |
| Classifier.FlatTrend | pkg/analyzer/workload_classifier.go:432-442 | a zero slope with a non-negative mean is a stable trend of strength 0 |
| Classifier.SpikeFrequency | pkg/analyzer/workload_classifier.go:457-472 | a fraction in [0, 1]; 0 without values or without spread |
| Classifier.NoSpikesIffZeroFrequency | pkg/analyzer/workload_classifier.go:462-471 | with values and spread, the frequency is 0 exactly when no value exceeds the mean plus the threshold times the deviation |
| Classifier.CalculateSpikeFrequency | pkg/analyzer/workload_classifier.go:457-472 | the counting loop computes the spike frequency |
| Classifier.AppendValues | pkg/analyzer/workload_classifier.go:142-144 | the loop appends the history's values in order |
| Classifier.NewWorkloadClassifier | pkg/analyzer/workload_classifier.go:21-27 | defaults: variability threshold 0.3, spike threshold 2.0, 20 data points |
| Classifier.WorkloadClassifier.ResourcePatternOf | pkg/analyzer/workload_classifier.go:127-175 | an unknown resource type fails exactly when there is a pod to look at; otherwise too few pooled values fail with the count |
| Classifier.WorkloadClassifier.PooledOutcome | pkg/analyzer/workload_classifier.go:147-174 | the pattern is the error for too few pooled values, and otherwise the statistics of the pooled values |
| Classifier.WorkloadClassifier.SummarizePattern | pkg/analyzer/workload_classifier.go:152-174 | the method computes the statistics of the pooled values |
| Classifier.WorkloadClassifier.AnalyzeResourcePattern | pkg/analyzer/workload_classifier.go:127-175 | the pooling loop and the summary compute the pattern function |
| Classifier.WorkloadClassifier.PatternExtremes | pkg/analyzer/workload_classifier.go:155-164 | the mean and the 95th percentile lie between the minimum and the maximum |
| Classifier.WorkloadClassifier.PatternShares | pkg/analyzer/workload_classifier.go:152-174 | the deviation and the cv are never negative, the spike frequency lies in [0, 1] and the trend strength never exceeds 1 |
| Classifier.WorkloadClassifier.ClassMeaning | pkg/analyzer/workload_classifier.go:178-209 | Growing or Shrinking exactly when some trend is stronger than 0.7 and some direction is not stable; otherwise Periodic, Bursty or Unpredictable exactly when a cv exceeds the threshold, else Stable; Periodic means a CPU spike frequency strictly between 0.1 and 0.3, Bursty one of the frequencies above 0.3 |
| Classifier.WorkloadClassifier.DirectionUntiedFromStrength | pkg/analyzer/workload_classifier.go:180-186 | a strong decreasing CPU trend beside a weak increasing memory trend classifies as Growing, since direction is checked apart from strength |
| Classifier.WorkloadClassifier.ConstantWorkloadIsStable | pkg/analyzer/workload_classifier.go:178-209 | constant non-negative CPU and memory series classify as Stable |
| Classifier.WorkloadClassifier.ConstantPattern | pkg/analyzer/workload_classifier.go:152-174 | a constant non-negative series has a cv and a trend strength of 0 |
| Classifier.WorkloadClassifier.ConstantVariation | pkg/analyzer/workload_classifier.go:155-160 | a constant series has a cv of 0 |
| Classifier.WorkloadClassifier.NoSpreadNoVariation | pkg/analyzer/workload_classifier.go:158-160 | no deviation means a cv of 0 |
| Classifier.WorkloadClassifier.ClassifyWorkload | pkg/analyzer/workload_classifier.go:90-124 | the method computes the classification function |
| Classifier.WorkloadClassifier.ClassificationOutcome | pkg/analyzer/workload_classifier.go:90-124 | no pods is the no-metrics error; classification succeeds exactly when there are pods and both pooled histories reach the minimum |
| Classifier.WorkloadClassifier.ClassifiedShape | pkg/analyzer/workload_classifier.go:117-121 | a classification has confidence in (0, 1] and at least one recommendation, each of them complete |
| Classifier.ClassificationConfidence | pkg/analyzer/workload_classifier.go:212-242 | the confidence is clamped to [0.1, 1] |
| Classifier.CalculateClassificationConfidence | pkg/analyzer/workload_classifier.go:212-242 | the method computes the confidence function |
| Classifier.ConfidenceAtLeast | pkg/analyzer/workload_classifier.go:213-241 | the penalties of 0.7 and 0.8 can at worst give 0.56, so the 0.1 floor is never reached |
| Classifier.SteadyPatternsFullConfidence | pkg/analyzer/workload_classifier.go:231-241 | two cvs below 0.1 without opposing strong trends give full confidence |
| Classifier.InconsistentVariabilityConfidence | pkg/analyzer/workload_classifier.go:219-241 | cvs more than 0.5 apart cap the confidence at 0.77 |
| Classifier.GenerateClassificationRecommendations | pkg/analyzer/workload_classifier.go:245-324 | the method computes the recommendation list for the class and the two cvs |
| Classifier.RecommendationCount | pkg/analyzer/workload_classifier.go:248-321 | two items for Bursty and one for every other class, plus one for a CPU cv above 0.5 and one for a memory cv above 0.3 |
| Classifier.VariabilityItems | pkg/analyzer/workload_classifier.go:305-321 | the CPU item appears exactly when the CPU cv exceeds 0.5, the memory item exactly when the memory cv exceeds 0.3 |
| Classifier.RecommendationsComplete | pkg/analyzer/workload_classifier.go:248-321 | every item has a type, a priority, a description and an action |
| AdvancedAnalysis.CountAbove | pkg/analyzer/recommendation_engine.go:632-637 | the spike count is at most the number of values, and 0 exactly when no value exceeds the bound |
| AdvancedAnalysis.TimeSeriesPattern | pkg/analyzer/recommendation_engine.go:605-653 | no pattern for fewer than 24 samples; otherwise the pattern names the resource, leaves the pod to the caller and carries the engine's confidence of the values |
| AdvancedAnalysis.AnalyzeTimeSeries | pkg/analyzer/recommendation_engine.go:605-653 | the copying and counting loops compute the time-series pattern |
| AdvancedAnalysis.CountSpikes | pkg/analyzer/recommendation_engine.go:631-636 | the counting loop finds how many samples lie strictly above the spike bound |
| AdvancedAnalysis.PatternTypeByVariation | pkg/analyzer/recommendation_engine.go:622-629 | with a positive mean the pattern is variable exactly when the cv exceeds 0.3, moderate when it lies in (0.1, 0.3] and steady otherwise |
| AdvancedAnalysis.PatternTypeWithoutPositiveMean | pkg/analyzer/recommendation_engine.go:622-629 | the IEEE quotient decides the other cases: a negative mean is steady; a zero mean is variable exactly when there is spread, and never moderate |
| AdvancedAnalysis.SpikeCuts | pkg/analyzer/recommendation_engine.go:632-644 | spikes are frequent above a tenth of the samples (integer division), occasional when there are some but no more, and none exactly when no sample exceeds mean plus two deviations |
| AdvancedAnalysis.ConstantSeriesIsSteady | pkg/analyzer/recommendation_engine.go:605-653 | a constant series of 24 or more samples is steady, has no spikes and has confidence 100 |
| AdvancedAnalysis.DetectUsagePatterns | pkg/analyzer/recommendation_engine.go:575-602 | the loop over pods computes the usage-pattern list |
| AdvancedAnalysis.AppendPodPatterns | pkg/analyzer/recommendation_engine.go:582-598 | one pod appends its CPU and memory patterns |
| AdvancedAnalysis.PodPatternsShape | pkg/analyzer/recommendation_engine.go:582-598 | a pod contributes one pattern per history of more than 24 samples, each carrying its pod name and resource |
| AdvancedAnalysis.UsagePatternsFromPods | pkg/analyzer/recommendation_engine.go:575-602 | at most two patterns per pod, each naming one of the pods |
| AdvancedAnalysis.SummarizePod | pkg/analyzer/recommendation_engine.go:522-534 | sorting a pod's values in place and summarising them yields the pod summary of what the array held |
| AdvancedAnalysis.CollectPodValues | pkg/analyzer/recommendation_engine.go:516-520 | the copy loop fills a fresh array with the pod's values and appends them to the pooled values |
| AdvancedAnalysis.AnalyzePod | pkg/analyzer/recommendation_engine.go:510-537 | a pod with no samples is skipped; otherwise its values are pooled and its summary appended |
| AdvancedAnalysis.AnalyzeResourcePatterns | pkg/analyzer/recommendation_engine.go:502-572 | the loop over pods computes the resource-analysis function |
| AdvancedAnalysis.SummarizeWorkload | pkg/analyzer/recommendation_engine.go:543-557 | sorting and summarising the pooled values yields the workload statistics |
| AdvancedAnalysis.AllValuesEmpty | pkg/analyzer/recommendation_engine.go:510-520 | nothing is pooled exactly when every pod's history is empty |
| AdvancedAnalysis.AllValuesHoldsEverySample | pkg/analyzer/recommendation_engine.go:517-519 | every sample of every pod is among the pooled values |
| AdvancedAnalysis.ResourcePatternsFailIff | pkg/analyzer/recommendation_engine.go:539-541 | the analysis fails, with the no-data error for the resource, exactly when every pod's history is empty |
| AdvancedAnalysis.SortedStatisticsBounds | pkg/analyzer/recommendation_engine.go:522-555 | after sorting, the first and last values occur in the input and bound it, and the mean and the 50th, 95th and 99th percentiles lie between them |
| AdvancedAnalysis.PodSummaryBounds | pkg/analyzer/recommendation_engine.go:524-534 | a pod's min and max occur among its values and bound them, and its mean and percentiles lie between them |
| AdvancedAnalysis.WorkloadBounds | pkg/analyzer/recommendation_engine.go:545-557 | the workload min and max occur among the pooled values and bound every sample of every pod; the mean and 95th percentile lie between them; the point count is the pooled count |
| AdvancedAnalysis.PodAnalysesFromPods | pkg/analyzer/recommendation_engine.go:510-537 | at most one summary per pod, each naming a pod with data and counting its samples |
| AdvancedAnalysis.PriorityByVariation | pkg/analyzer/recommendation_engine.go:717-726 | with a positive mean, priority is High above a cv of 0.5, Medium in (0.2, 0.5] and Low otherwise |
| AdvancedAnalysis.PriorityWithoutPositiveMean | pkg/analyzer/recommendation_engine.go:717-726 | by the IEEE quotient: no spread is Low, a zero mean with spread is High, a negative mean is Low |
| AdvancedAnalysis.GenerateWorkloadRecommendations | pkg/analyzer/recommendation_engine.go:656-714 | the method computes the workload recommendation list |
| AdvancedAnalysis.ScalingRecommendationsOf | pkg/analyzer/recommendation_engine.go:695-711 | the pattern loop yields one scaling-strategy item per variable pattern, in pattern order, and nothing for the others |
| AdvancedAnalysis.ScalingRecommendationsFromVariable | pkg/analyzer/recommendation_engine.go:696-711 | at most one scaling item per pattern, and one exists exactly when some pattern is variable |
| AdvancedAnalysis.AnalyzeWorkloadPatterns | pkg/analyzer/recommendation_engine.go:461-499 | the method computes the workload-pattern function |
| AdvancedAnalysis.MemoryPatternsStep | pkg/analyzer/recommendation_engine.go:486-498 | after a CPU analysis, a memory failure is wrapped as such, and otherwise the assembled analysis is the result |
| AdvancedAnalysis.CpuPatternsStep | pkg/analyzer/recommendation_engine.go:479-482 | a CPU failure is wrapped as such |
| AdvancedAnalysis.AssembledLeadsWithResources | pkg/analyzer/recommendation_engine.go:469-496 | an assembled analysis counts the pods, holds both analyses, and lists the CPU item (impact Medium), then the memory item (impact High), then the scaling items |
| AdvancedAnalysis.WorkloadPatternsOutcome | pkg/analyzer/recommendation_engine.go:461-499 | no pods is its own error; success holds exactly when some pod has CPU samples and some pod has memory samples |
| Webhook.RequiredError | api/v1alpha1/podrightsizing_webhook.go:88-89 | field.Required: a Required error on the path without a value |
| Webhook.InvalidError | api/v1alpha1/podrightsizing_webhook.go:94-95 | field.Invalid: an Invalid error on the path with the offending value |
| Webhook.ChildPath | api/v1alpha1/podrightsizing_webhook.go:82 | Path.Child extends a path by one named step |
| Webhook.When | api/v1alpha1/podrightsizing_webhook.go:85-96 | a guarded append adds the error exactly when the guard holds |
| Webhook.ReportsAppend | api/v1alpha1/podrightsizing_webhook.go:43-70 | a concatenated list reports a path exactly when one of its parts does |
| Webhook.ReportsWhen | api/v1alpha1/podrightsizing_webhook.go:85-96 | a guarded error reports a path exactly when the guard holds and the error is on that path |
| Webhook.WorkloadTypeStep | api/v1alpha1/podrightsizing_webhook.go:108-115 | one step of the loop adds an error exactly for an unknown type, at its index |
| Webhook.WorkloadTypeErrorsExact | api/v1alpha1/podrightsizing_webhook.go:99-116 | the type errors are exactly one per unknown entry, at its index and with its value |
| Webhook.TargetErrorsEmptyIff | api/v1alpha1/podrightsizing_webhook.go:80-119 | a target passes exactly when it names a namespace or a selector, does not name both a namespace and a namespace selector, and lists only the five known workload kinds |
| Webhook.ValidateTarget | api/v1alpha1/podrightsizing_webhook.go:80-119 | the method computes the target errors |
| Webhook.AppendWorkloadTypeErrors | api/v1alpha1/podrightsizing_webhook.go:108-115 | the loop appends the type errors to what came before |
| Webhook.ThresholdErrorsEmptyIff | api/v1alpha1/podrightsizing_webhook.go:122-177 | thresholds pass exactly when both percentiles and the change threshold lie in [0, 100], the margin lies in [0, 1000] and neither non-zero minimum exceeds its non-zero maximum |
| Webhook.ThresholdReported | api/v1alpha1/podrightsizing_webhook.go:122-177 | each threshold field is reported exactly when its own rule fails |
| Webhook.ValidateThresholds | api/v1alpha1/podrightsizing_webhook.go:122-177 | the method computes the threshold errors |
| Webhook.CheckRange | api/v1alpha1/podrightsizing_webhook.go:127-132 | one error is appended exactly when the value lies outside the closed range, and the list is otherwise left as it was |
| Webhook.CheckOrdered | api/v1alpha1/podrightsizing_webhook.go:158-166 | one error is appended exactly when both quantities are set and the minimum exceeds the maximum |
| Webhook.WindowErrorsShape | api/v1alpha1/podrightsizing_webhook.go:180-207 | at most one error; none exactly when the window is empty, or parses to between one hour and 90 days; an unparsable window gives exactly one |
| Webhook.ValidateAnalysisWindow | api/v1alpha1/podrightsizing_webhook.go:180-207 | the method computes the window errors |
| Webhook.ScheduleErrorsShape | api/v1alpha1/podrightsizing_webhook.go:210-225 | at most one error, present exactly when a non-empty schedule fails to parse as cron |
| Webhook.ValidateSchedule | api/v1alpha1/podrightsizing_webhook.go:210-225 | the method computes the schedule errors |
| Webhook.UpdatePolicyErrorsEmptyIff | api/v1alpha1/podrightsizing_webhook.go:228-265 | a policy passes exactly when its strategy is empty or known, its backoff limit is non-negative and its stability period is empty or parses |
| Webhook.ValidateUpdatePolicy | api/v1alpha1/podrightsizing_webhook.go:228-265 | the method computes the update-policy errors |
| Webhook.SourcePathsDistinct | api/v1alpha1/podrightsizing_webhook.go:270-314 | the four metrics-source error paths are distinct |
| Webhook.MetricsSourceReports | api/v1alpha1/podrightsizing_webhook.go:268-321 | each metrics-source path is reported exactly under its rule: an unknown non-empty type; a Prometheus config without URL; an auth config with an unknown type; a non-"none" auth without secret |
| Webhook.KnownTexts | api/v1alpha1/podrightsizing_webhook.go:233-303 | the enumeration readers recognise exactly the texts the validator accepts |
| Webhook.MetricsSourceRules | api/v1alpha1/podrightsizing_webhook.go:278-317 | the same rules, stated on the parsed enumerations |
| Webhook.ValidateMetricsSource | api/v1alpha1/podrightsizing_webhook.go:268-321 | the method computes the metrics-source errors |
| Webhook.Validation | api/v1alpha1/podrightsizing_webhook.go:39-77 | a spec is accepted exactly when all six validators find nothing; otherwise the error holds their errors in order, at least one |
| Webhook.ValidatePodRightSizing | api/v1alpha1/podrightsizing_webhook.go:39-77 | the method computes that validation |
| Webhook.Accumulate | api/v1alpha1/podrightsizing_webhook.go:43-45 | a validator's errors are appended after those gathered so far, and an empty list leaves them unchanged |
| Webhook.ExampleSpecAccepted | api/v1alpha1/podrightsizing_webhook_test.go:33-57 | the valid namespace-targeted example with a 168h window and a daily cron passes |
| Webhook.UnselectedTargetRejected | api/v1alpha1/podrightsizing_webhook_test.go:59-65 | a spec with no target is rejected |
| Webhook.InvertedCpuBoundsRejected | api/v1alpha1/podrightsizing_webhook_test.go:78-90 | a CPU minimum above a non-zero maximum is rejected |
| Webhook.UnknownWorkloadTypeRejected | api/v1alpha1/podrightsizing_webhook_test.go:126-135 | an unknown workload kind is rejected |
| PromMetrics.SampleHistoryPointwise | pkg/metrics/prometheus.go:218-228 | the converted history has one entry per sample, with its timestamp, its value and the unit |
| PromMetrics.ConvertSamplePairToUsageHistory | pkg/metrics/prometheus.go:218-228 | the loop computes that conversion |
| PromMetrics.SeriesHistoryAppend | pkg/metrics/prometheus.go:202-216 | flattening concatenated series concatenates their histories |
| PromMetrics.SampleCountAppend | pkg/metrics/prometheus.go:202-216 | the sample count of concatenated series is the sum of their counts |
| PromMetrics.SeriesHistoryShape | pkg/metrics/prometheus.go:202-216 | a flattened matrix has one entry per sample of every series, all with the given unit |
| PromMetrics.MatrixHistoryUnits | pkg/metrics/prometheus.go:202-216 | every entry of a converted result carries the unit; a result that is not a matrix converts to nothing |
| PromMetrics.ConvertMatrixToUsageHistory | pkg/metrics/prometheus.go:202-216 | the nested loops compute the flattened history |
| PromMetrics.SelectorLabel | pkg/metrics/prometheus.go:187-200 | the label is "app" exactly for workload kinds other than Deployment, StatefulSet, DaemonSet and Job |
| PromMetrics.SelectorRoundTrip | pkg/metrics/prometheus.go:187-200 | the workload name can be read back from its selector, which starts with the kind's label |
| PromMetrics.SelectorInjective | internal/metrics/prometheus_client.go:190-204 | different workloads of one kind get different selectors |
| PromMetrics.GetPodMetrics | pkg/metrics/prometheus.go:38-84 | it fails exactly when one of the two range queries fails, with the CPU error (prefixed "failed to query CPU metrics: ") taking precedence over the memory error (prefixed "failed to query memory metrics: "); otherwise the pod metrics name the pod, span the window ending now, and hold the CPU and memory results converted from the matrix in cores and bytes |
| PromMetrics.LastForFound | pkg/metrics/prometheus.go:137-154 | a pod gets a series exactly when its name is non-empty and some series carries it; that series is the last such |
| PromMetrics.WithHistoryTwice | pkg/metrics/prometheus.go:153 | a later series for the same pod overwrites the earlier history |
| PromMetrics.AddAllEntry | pkg/metrics/prometheus.go:137-176 | after one result is processed, a pod is present exactly when it was or a series named it, and its history is that of its last series |
| PromMetrics.GroupedEntry | pkg/metrics/prometheus.go:133-176 | a pod is grouped exactly when a CPU or memory series names it; its entry carries its name, namespace and window and the histories of its last CPU and memory series (empty when none) |
| PromMetrics.AddSeriesInPlace | pkg/metrics/prometheus.go:138-154 | one series updates the map and records a new pod once in the order list |
| PromMetrics.AddAllInPlace | pkg/metrics/prometheus.go:137-176 | the loop over series computes the grouping and keeps the order list a duplicate-free list of the map's keys |
| PromMetrics.GroupByPod | pkg/metrics/prometheus.go:133-181 | the returned pods are exactly the grouped ones, each once, with its grouped entry |
| PromMetrics.NamesAreKeys | pkg/metrics/prometheus.go:144-151 | every grouped entry is stored under its own pod name |
| PromMetrics.GetWorkloadMetrics | pkg/metrics/prometheus.go:87-184 | a failed CPU or memory query is reported with its prefix, CPU first; otherwise the workload metrics name the workload and window and hold each grouped pod exactly once |
| PromMetrics.MetricsServerPodMetrics | pkg/metrics/prometheus.go:245-260 | the stub returns one CPU and one memory sample for the named pod |
| PromMetrics.MetricsServerWorkloadMetrics | pkg/metrics/prometheus.go:263-284 | the stub returns a single "-sample-pod" pod with one sample per resource |
| PromMetrics.StubNeverRecommends | pkg/metrics/prometheus.go:263-284 | the stub's single sample is below the engine's ten-point minimum, so its pod fails CPU analysis and yields no recommendation |
| PromMetrics.ParseQuantitySuffixes | pkg/metrics/prometheus.go:287-322 | Ki, Mi, Gi and m suffixes scale the number before them by 1024, 1024², 1024³ and 0.001 |
| PromMetrics.SuffixParts | pkg/metrics/prometheus.go:296-309 | a binary suffix splits off the number and its multiplier |
| PromMetrics.ParseQuantityPlain | internal/metrics/prometheus_client.go:400-440 | a quantity without a recognised suffix is parsed whole, unscaled; the copy of the parser in internal/metrics is the same code, so both copies share this model |
| PromMetrics.ParseQuantityEmpty | pkg/metrics/prometheus.go:288-290 | the empty quantity is an error, and any other failure is a failure of the float parser |
| InternalMetrics.DeploymentMembership | internal/metrics/prometheus_client.go:384-390 | a Deployment owns exactly the pod names that strictly extend its own name |
| InternalMetrics.StatefulSetMembership | internal/metrics/prometheus_client.go:391-396 | a StatefulSet owns exactly the names made of its name, a dash and something more |
| InternalMetrics.OtherKindsOwnNothing | internal/metrics/prometheus_client.go:384-397 | no other workload kind owns any pod |
| InternalMetrics.OrdinalPodsBelong | internal/metrics/prometheus_client.go:391-396 | the ordinal pods name-0, name-1 and so on belong to their StatefulSet |
| InternalMetrics.StatefulSetImpliesDeployment | internal/metrics/prometheus_client.go:384-397 | a StatefulSet's pods would also be claimed by a Deployment of the same name |
| InternalMetrics.DeploymentClaimsNeighbour | internal/metrics/prometheus_client.go:388-390 | without a separator, Deployment "web" claims pod "webapp-1" while StatefulSet "web" does not |
| InternalMetrics.NameItselfNotOwned | internal/metrics/prometheus_client.go:384-397 | a workload's own name is never one of its pods |
| Cluster.FilterMembers | internal/controller/podrightsizing_controller.go:236-283 | the kept items are exactly those of the input that satisfy the predicate |
| Cluster.FilterAppend | internal/controller/podrightsizing_controller.go:236-283 | filtering distributes over concatenation |
| Cluster.ListPods | internal/controller/podrightsizing_controller.go:238-244 | a pod listing fails exactly when the snapshot rejects that namespace; otherwise it returns exactly the pods in the namespace (or anywhere) whose labels match |
| Cluster.NamespaceNames | internal/controller/podrightsizing_controller.go:262-266 | the names of the namespaces, in order |
| Cluster.ListNamespaces | internal/controller/podrightsizing_controller.go:256-266 | a namespace listing fails exactly when the snapshot says so; otherwise it names exactly the namespaces whose labels match |
| Cluster.NamesOf | internal/controller/podrightsizing_controller.go:262-266 | a name is listed exactly when some namespace has it |
| Cluster.GetNamespace | internal/controller/podrightsizing_controller.go:289-296 | a found namespace has the name and is in the cluster; none is found only when no namespace has the name |
| Cluster.ApiServer.constructor | internal/controller/podrightsizing_controller.go:70-178 | a pass starts from the snapshot's templates, with no changes and no status writes |
| Cluster.ApiServer.UpdateStatus | internal/controller/podrightsizing_controller.go:684-696 | a status write counts as an attempt and is recorded unless the snapshot rejects that attempt, which is then its error; templates are untouched |
| Cluster.ApiServer.UpdateWorkload | internal/controller/podrightsizing_controller.go:622-640 | a template update is stored and recorded unless the snapshot rejects that workload; status attempts are untouched |
| Controller.ScheduleRules | internal/controller/podrightsizing_controller.go:181-216 | an unparsable or missing window means a daily interval; a window under a day means hourly analysis; a longer one means a twenty-fourth of it; the interval is at least an hour, and the requeue is daily exactly for a parsable window of a day or more, hourly otherwise |
| Controller.ShouldRunMonotone | internal/controller/podrightsizing_controller.go:181-202 | analysis runs on the first pass, not again at the instant of the last one, and once due stays due |
| Controller.IsNamespaceExcluded | internal/controller/podrightsizing_controller.go:289-296 | a namespace is excluded exactly when it is in the exclude list |
| Controller.HasResources | internal/controller/podrightsizing_controller.go:325-334 | true exactly when some container has requests or limits |
| Controller.ShouldIncludePod | internal/controller/podrightsizing_controller.go:299-335 | a pod is kept exactly when it is running, has an owner, has an allowed workload type and has a container with resources |
| Controller.Kept | internal/controller/podrightsizing_controller.go:277-283 | the pods kept from a listing are exactly the listed pods shouldIncludePod accepts, never more than were listed |
| Controller.OwnersType | internal/controller/podrightsizing_controller.go:338-354 | the type is that of the first owner of a known kind, and "Pod" when none is |
| Controller.WorkloadTypeRange | internal/controller/podrightsizing_controller.go:338-354 | the workload type is one of six names, none with a slash |
| Controller.DeploymentOwner | internal/controller/podrightsizing_controller.go:380-384 | a Deployment owner is found exactly when the ReplicaSet has one, and it is the first |
| Controller.OwnersName | internal/controller/podrightsizing_controller.go:371-392 | the name comes from the first owner that yields one, and is the pod's own name when none does |
| Controller.WorkloadIdentity | internal/controller/podrightsizing_controller.go:338-392 | a pod of a ReplicaSet owned by a Deployment is grouped under that Deployment; a pod whose first owner is something else takes that owner's name; an ownerless pod is a "Pod" of its own name |
| Controller.OrphanReplicaSetPod | internal/controller/podrightsizing_controller.go:371-392 | a pod whose ReplicaSet cannot be loaded counts as a Deployment named after the pod itself |
| Controller.SplitWorkloadKey | internal/controller/podrightsizing_controller.go:698-700 | splitting on "/" into at most three parts leaves no slash in any part but the last |
| Controller.SplitJoin | internal/controller/podrightsizing_controller.go:698-700 | joining the parts with "/" gives the key back |
| Controller.SplitWorkloadKeyOfKey | internal/controller/podrightsizing_controller.go:357-368 | a key built from a slash-free namespace and type splits back into namespace, type and name |
| Controller.SplitUnique | internal/controller/podrightsizing_controller.go:698-700 | any key made of two slash-free parts and a rest splits into exactly those |
| Controller.SplitThreeParts | internal/controller/podrightsizing_controller.go:698-700 | a key has three parts exactly when it holds two slashes |
| Controller.ListsEqualIff | internal/controller/podrightsizing_controller.go:659-681 | two resource lists compare equal exactly when they are the same map |
| Controller.ResourcesEqualIff | internal/controller/podrightsizing_controller.go:659-681 | two resource requirements compare equal exactly when their requests and limits are equal |
| Controller.ContainerResourcesEqual | internal/controller/podrightsizing_controller.go:749-766 | equal exactly when the lists have the same length and the containers at each position have equal resources |
| Controller.PodMatchesTarget | internal/controller/podrightsizing_controller.go:817-872 | a pod matches exactly when it is in the target namespace (or any when none is set), is not in an excluded namespace, is matched by the label selector when one is given and parses, lies in an existing namespace whose labels the namespace selector matches when one is given, and has an allowed workload type |
| Controller.IncludedPodMatches | internal/controller/podrightsizing_controller.go:299-335 | with no selectors, a discovered pod in the target namespace also matches the watch filter |
| Controller.DiscoveredInQualify | internal/controller/podrightsizing_controller.go:258-285 | every pod found across the listed namespaces is in the cluster, matches the selector, passes the inclusion rules and lies in a listed namespace that is not excluded |
| Controller.DiscoveryQualifies | internal/controller/podrightsizing_controller.go:219-286 | every discovered pod is in the cluster, passes the inclusion rules, matches the label selector and lies in the target namespace when one is named |
| Controller.AllNamespacesIgnoresExclusions | internal/controller/podrightsizing_controller.go:253-263 | listing all namespaces at once skips the exclude list, so excluded namespaces still contribute pods |
| Controller.NamespaceSelectorFirst | internal/controller/podrightsizing_controller.go:235-256 | with a namespace selector, the namespace field has no effect |
| Controller.ExcludedNamespaceEmpty | internal/controller/podrightsizing_controller.go:250-263 | a named namespace that is also excluded yields no pods and no error |
| Controller.DiscoverTargetPods | internal/controller/podrightsizing_controller.go:219-286 | the routine computes the discovery function, errors included |
| Controller.DiscoverInNamespaces | internal/controller/podrightsizing_controller.go:258-285 | the loop over namespaces stops at the first failed listing and otherwise appends each namespace's kept pods |
| Controller.KeepIncluded | internal/controller/podrightsizing_controller.go:277-282 | the loop keeps exactly the pods that pass the inclusion rules, in order |
| Controller.FirstSeen | internal/controller/podrightsizing_controller.go:357-368 | each key appears once, and every key appears |
| Controller.GroupByKey | internal/controller/podrightsizing_controller.go:357-368 | each key maps to exactly the items carrying it, in order |
| Controller.GroupingMembers | internal/controller/podrightsizing_controller.go:357-368 | appending item by item to a map of groups files exactly the keys that occur, each with the items carrying it in input order |
| Controller.PodKeys | internal/controller/podrightsizing_controller.go:360-363 | each pod's key is its namespace, workload type and workload name |
| Controller.WorkloadGroup | internal/controller/podrightsizing_controller.go:357-368 | a group holds exactly the pods of one key |
| Controller.MembersAreGroup | internal/controller/podrightsizing_controller.go:357-368 | grouping by the pod keys gives the workload groups |
| Controller.GroupPodsByWorkload | internal/controller/podrightsizing_controller.go:357-368 | every workload key present maps to exactly its pods |
| Controller.AddResourceToTotal | internal/controller/podrightsizing_controller.go:476-485 | a resource present in the source is added to the running total, or starts it; nothing else changes |
| Controller.TotalsMeaning | internal/controller/podrightsizing_controller.go:458-473 | the totals name only CPU and memory; a resource is totalled exactly when some container has it, and its total is the sum over containers |
| Controller.GetCurrentResources | internal/controller/podrightsizing_controller.go:458-473 | the loop computes the totals of requests and of limits |
| Controller.FirstNamed | internal/controller/podrightsizing_controller.go:445-450 | the first pod of the given name, or none when no pod has it |
| Controller.EnhancedAll | internal/controller/podrightsizing_controller.go:440-451 | each recommendation is enhanced in place, one for one |
| Controller.WorkloadRecommendationsShape | internal/controller/podrightsizing_controller.go:395-455 | a malformed key is an error; a success comes from metrics that loaded with at least one pod, has no more recommendations than pods, and tags each with the key's workload type and name |
| Controller.RecommendationsAtMost | pkg/analyzer/recommendation_engine.go:41-78 | the engine yields at most one recommendation per pod |
| Controller.GroupKeyQueriesItsWorkload | internal/controller/podrightsizing_controller.go:360-363 | the workload key of a pod splits back into the namespace, type and name it was built from |
| Controller.GenerateWorkloadRecommendations | internal/controller/podrightsizing_controller.go:395-455 | the routine computes the per-workload recommendation function |
| Controller.EnhanceRecommendation | internal/controller/podrightsizing_controller.go:440-451 | a recommendation gets the workload's type and name and the current resources of its pod |
| Controller.CalculateAverageRecommendation | internal/controller/podrightsizing_controller.go:565-573 | the first recommendation's resources, or empty requirements for no recommendation |
| Controller.Retemplated | internal/controller/podrightsizing_controller.go:642-656 | every container gets exactly the recommended resources |
| Controller.RetemplatedSettles | internal/controller/podrightsizing_controller.go:642-656 | after an update no container needs updating; an update with nothing to change leaves the template alone; updating twice is updating once |
| Controller.UpdateContainerResources | internal/controller/podrightsizing_controller.go:642-656 | the array is updated in place to the retemplated containers, and the result says whether any container differed |
| Controller.UpdateOutcomeMeaning | internal/controller/podrightsizing_controller.go:576-640 | an update counts one exactly when the workload exists, needs a change and the server accepts it; it fails when the workload is missing or the server rejects a needed change; a count of zero changes nothing |
| Controller.UpdateIdempotent | internal/controller/podrightsizing_controller.go:622-640 | updating a workload again with the same resources counts nothing and changes nothing |
| Controller.UpdateWorkloadResources | internal/controller/podrightsizing_controller.go:576-640 | the routine computes that outcome on the server |
| Controller.ApplyWorkloadMeaning | internal/controller/podrightsizing_controller.go:521-562 | a workload yields at most one update, never with an error, and only for a non-manual strategy and an updatable kind named by the key, with every container set to the first recommendation |
| Controller.ApplyWorkloadRecommendations | internal/controller/podrightsizing_controller.go:521-562 | the routine computes that outcome on the server |
| Controller.RecKeys | internal/controller/podrightsizing_controller.go:499-501 | each recommendation's key is built from its pod reference |
| Controller.ApplyAllMeaning | internal/controller/podrightsizing_controller.go:488-518 | applying all workloads only appends updates, each taken from a recommendation, writes no status, and the count is the number of updates appended |
| Controller.ManualAppliesNothing | internal/controller/podrightsizing_controller.go:530-533 | the manual strategy changes nothing and counts nothing |
| Controller.ApplyRecommendations | internal/controller/podrightsizing_controller.go:488-518 | the routine groups recommendations by workload and computes the apply-all outcome |
| Controller.ApplyGroups | internal/controller/podrightsizing_controller.go:505-515 | the loop over workload groups skips failed ones and adds up the counts |
| Controller.ApplyGroup | internal/controller/podrightsizing_controller.go:506-514 | one workload's recommendations are applied, and its count is added unless applying failed |
| Controller.UpdatePhase | internal/controller/podrightsizing_controller.go:684-696 | the status gets the phase and message and is written to the server |
| Controller.CollectRecommendations | internal/controller/podrightsizing_controller.go:128-141 | the loop concatenates the recommendations of each workload, skipping failed ones |
| Controller.Reconcile | internal/controller/podrightsizing_controller.go:70-178 | the routine computes the reconcile outcome on the server |
| Controller.RunAnalysis | internal/controller/podrightsizing_controller.go:91-177 | the routine computes the outcome of one analysis pass |
| Controller.RecommendAndApply | internal/controller/podrightsizing_controller.go:120-177 | the routine computes the outcome of recommending and applying |
| Controller.ConcludeMeaning | internal/controller/podrightsizing_controller.go:162-171 | the last status write leaves templates alone, records the Completed status unless rejected, and on success requeues by schedule |
| Controller.RecommendDryRun | internal/controller/podrightsizing_controller.go:123-177 | in dry-run mode nothing is updated, the phases written are a prefix of Recommending then Completed, and a success writes both and ends with the final status |
| Controller.AppliedUpdates | internal/controller/podrightsizing_controller.go:488-518 | applying writes no status, appends only updates taken from recommendations, counts exactly those, and does nothing for the manual strategy |
| Controller.ApplyAndConcludeMeaning | internal/controller/podrightsizing_controller.go:153-171 | after applying, a success writes exactly one Completed status carrying the update count and time, and no update |
| Controller.RecommendApply | internal/controller/podrightsizing_controller.go:123-177 | outside dry-run the phases written are a prefix of Recommending, Updating, Completed; the manual strategy updates nothing; a success writes all three and ends with the final status |
| Controller.RecommendApplyRecorded | internal/controller/podrightsizing_controller.go:123-177 | the same when the first two status writes are accepted |
| Controller.RecommendErrorRequeue | internal/controller/podrightsizing_controller.go:123-171 | a failed recommending pass requeues at once |
| Controller.PassDiscoveryFailed | internal/controller/podrightsizing_controller.go:96-104 | a failed discovery retries after five minutes with that error, updates nothing, and writes the Error phase unless that write is rejected |
| Controller.PassNoPods | internal/controller/podrightsizing_controller.go:106-118 | no matching pods writes Completed with a zero pod count and requeues by schedule, unless that write is rejected |
| Controller.PassTargets | internal/controller/podrightsizing_controller.go:106-177 | with pods found, the phases follow the pass schedule; dry-run or manual updates nothing; a success ends with the final status for the pod count |
| Controller.PassMeaning | internal/controller/podrightsizing_controller.go:86-177 | a rejected first write changes nothing; a success requeues by schedule and an error at once, or after five minutes when discovery failed; the Error phase appears only after a failed discovery, and then nothing is updated |
| Controller.ReconcileMeaning | internal/controller/podrightsizing_controller.go:70-89 | a missing object or an analysis not yet due changes nothing; a failed get is that error; a success requeues by schedule, or not at all for a missing object |

## Left out

- Floating point: samples, prices and ratios are exact reals, so IEEE-754 rounding is not modelled. The zero-mean division in the advanced analyzer (pkg/analyzer/recommendation_engine.go:622 and 718) is the one place where Go's infinity and NaN are modelled, through `AdvancedAnalysis.Quotient`, instead of excluding a zero mean.
- math.Sqrt is a caller-supplied function of which only a non-negative result is assumed, so the exact standard deviation is not computed.
- time.ParseDuration, cron.ParseStandard, strconv.ParseFloat and metav1.LabelSelectorAsSelector are caller-supplied parsers: their grammars are not modelled.
- The clock: time.Now and time.Since become the `now` parameter. PricingDataAge (pkg/analyzer/cost_calculator.go:288-294) depends only on the clock and is left out.
- Text formatting of floats: the "$%.2f/month", "%.3f cores" and ROI texts of the cost report are represented by the numbers they print, and the breakdown's re-parse of that text is the identity. Rounding to cents is therefore not modelled. The Description strings of the advanced analyzer and GetClassificationSummary (pkg/analyzer/workload_classifier.go:475-503) are left out.
- Go error texts: the engine's errors are structured values naming the failed resource and the counts, not their text; elsewhere a wrapped error is the prefix the source adds followed by the cause, and numbers inside error texts are rendered only where the model has a rendering (`%d` of integers).
- Go map iteration order is unspecified. Where it decides an output order, the model uses the order in which keys are first seen: workload groups, recommendations grouped for apply, and the pods of a workload's metrics. Contracts about those outputs state sets and counts, not order.
- Cluster I/O: r.Get, r.List, r.Update and Status().Update are reads of a `Cluster.Snapshot` and writes recorded on a `Cluster.ApiServer`. Watches, predicates, SetupWithManager and MaxConcurrentReconciles (internal/controller/podrightsizing_controller.go:702-746 and 769-814) are left out, and so are workloadMatchesTarget and its callers (875-965), which run only from those watches.
- Concurrency: concurrent reconciles and the unguarded shared pricing cache are modelled as one sequential caller.
- Network clients: the Prometheus QueryRange call and the Azure HTTP request and JSON decoding are caller-supplied oracles. The Metrics Server HTTP paths of internal/metrics/prometheus_client.go (its methods other than podBelongsToWorkload, parseQuantity and buildWorkloadSelector) are left out, since they read typed fields off a `map[string]string` and do not compile as written.
- HTTP client timeouts and logging are left out.
- pkg/analyzer/engine.go is an older duplicate of the recommendation engine that redeclares the same type in the same package; it is not part of this model. pkg/metrics/mock.go draws random series and is not part of this model either.
- cmd/main.go, test/demo.go and test/utils are wiring, printing and shell helpers and are not part of this model.
- The integration tests' expectation that a request is at least the configured minimum (test/integration/integration_test.go:117-118) does not follow from the code, because the clamp applies to the limit and the request is a fraction of it; the model proves only what the code gives (`Engine.DefaultRequestsWithinLimits`).
- Classifier.Percentile: requires the percentile to lie in [0, 100]; outside it the Go code indexes out of range and panics, and the classifier only ever asks for the 95th.
- Common.ToLower: lowers ASCII letters only. Go's strings.ToLower lowers every upper-case rune ('İ' to 'i', 'Ä' to 'ä'), so for a product name such as "LİNUX" the source's linux test in item selection (pkg/analyzer/azure_pricing.go:242-256) holds while `AzurePricing.IsLinux` does not; Unicode case tables are not modelled, and the Azure retail price list uses ASCII product names.
- Go integer widths: `int32` conversions of pod counts are guarded in the source (internal/controller/podrightsizing_controller.go:107-109 and 155-157) and modelled by that guard; other integers are unbounded.

## Behaviour of the source worth knowing

These follow from the code and are proved in the model; none is treated as a defect.

- The classification confidence never falls below 0.56, so its 0.1 floor is unreachable (`Classifier.ConfidenceAtLeast`).
- The growing/shrinking decision tests the trend direction of either resource, not of the resource whose trend was strong.
- The Metrics Server stub returns one sample per resource, below the engine's ten-sample minimum, so that metrics source never yields a recommendation (`PromMetrics.StubNeverRecommends`).
- The pod-name heuristic of internal/metrics lets Deployment "web" claim pod "webapp-1" (`InternalMetrics.DeploymentClaimsNeighbour`).
- In all-namespaces mode the exclude list has no effect (`Controller.AllNamespacesIgnoresExclusions`).
- The Azure-priced calculator divides the summed memory price by the number of nodes with a CPU price, not with a memory price.
- A request stays at or below its limit only for a non-negative limit (`Engine.RequestAboveNegativeLimit`).
