/**
 * The cost calculator: per-pod savings from a current and a recommended
 * set of requests, their monthly price with node-specific or default
 * prices, cluster-wide totals, and the per-SKU breakdown when real Azure
 * prices are known.
 *
 * Report texts ("$%.2f/month", "%.3f cores", ...) are represented by the
 * numbers they print. A calculator is a value; its node prices are the
 * price records as they were read when it was built.
 */
module Cost {
  import opened Common
  import opened Types
  import opened AzurePricing

  const GiB: real := 1073741824.0
  const AlternativeCost: real := 10000.0

  datatype Prices = Prices(cpuPerCore: real, memoryPerGB: real)

  datatype NodeSKUSavings = NodeSKUSavings(
    skuName: string,
    nodeCount: int,
    totalMonthlyCost: real,
    potentialSavings: real,
    recommendationCount: int,
    cpuCostPerCore: real,
    memoryCostPerGB: real)

  /** ClusterSavingsReport; the payback period stands for the ROI text, which is set only with it. */
  datatype ClusterSavingsReport = ClusterSavingsReport(
    totalRecommendations: int,
    totalCPUSavings: real,
    totalMemorySavings: real,
    estimatedMonthlySavings: real,
    estimatedAnnualSavings: real,
    paybackMonths: Option<real>,
    cloudProvider: string,
    nodeSKUBreakdown: Option<map<string, NodeSKUSavings>>,
    usingRealPricing: bool)

  /** The amount by which a request shrinks, in the resource's own unit; None if it does not shrink. */
  function SavedAmount(current: ResourceRequirements, recommended: ResourceRequirements, name: ResourceName): (r: Option<int>)
    ensures r.Some? <==> name in current.requests && name in recommended.requests
                         && current.requests[name] > recommended.requests[name]
    ensures r.Some? ==> r.value == current.requests[name] - recommended.requests[name]
  {
    if name in current.requests && name in recommended.requests then
      var diff := ApproximateFloat(name, current.requests[name]) - ApproximateFloat(name, recommended.requests[name]);
      if diff > 0.0 then
        Some(if name == Cpu then Trunc(diff * 1000.0) else Trunc(diff))
      else None
    else None
  }

  /** Saved cores of a savings record; an absent CPU saving counts 0. */
  function SavedCores(s: ResourceSavings): real
  {
    if s.cpuSavings.Some? then s.cpuSavings.value as real / 1000.0 else 0.0
  }

  /** Saved GiB of a savings record; an absent memory saving counts 0. */
  function SavedGiB(s: ResourceSavings): real
  {
    if s.memorySavings.Some? then s.memorySavings.value as real / GiB else 0.0
  }

  datatype CostCalculator = CostCalculator(
    cpuCostPerCoreMonth: real,
    memoryCostPerGBMonth: real,
    cloudProvider: string,
    nodePricingData: map<string, PriceInfo>)
  {
    /**
     * The prices for a node: its own record's price when a node is named,
     * known and that price is non-zero, else the calculator's default,
     * decided for CPU and memory independently.
     */
    function PricesForNode(nodeName: string): (p: Prices)
      ensures nodeName == "" || nodeName !in nodePricingData ==>
        p == Prices(cpuCostPerCoreMonth, memoryCostPerGBMonth)
      ensures nodeName != "" && nodeName in nodePricingData ==>
        && p.cpuPerCore == (if nodePricingData[nodeName].cpuCostPerCore != 0.0
                            then nodePricingData[nodeName].cpuCostPerCore else cpuCostPerCoreMonth)
        && p.memoryPerGB == (if nodePricingData[nodeName].memoryCostPerGB != 0.0
                             then nodePricingData[nodeName].memoryCostPerGB else memoryCostPerGBMonth)
    {
      var cpu := if nodeName != "" && nodeName in nodePricingData then nodePricingData[nodeName].cpuCostPerCore else 0.0;
      var mem := if nodeName != "" && nodeName in nodePricingData then nodePricingData[nodeName].memoryCostPerGB else 0.0;
      Prices(if cpu == 0.0 then cpuCostPerCoreMonth else cpu, if mem == 0.0 then memoryCostPerGBMonth else mem)
    }

    /** Monthly price of the saved cores and GiB at the node's prices. */
    function MonthlySavingsForNode(savings: ResourceSavings, nodeName: string): real
    {
      var p := PricesForNode(nodeName);
      SavedCores(savings) * p.cpuPerCore + SavedGiB(savings) * p.memoryPerGB
    }

    /**
     * The savings of moving from the current to the recommended requests:
     * CPU and memory each when the request shrinks, by exactly the
     * difference, and the monthly amount when it is positive.
     */
    function CalculateSavingsForNode(current: ResourceRequirements, recommended: ResourceRequirements, nodeName: string): (s: ResourceSavings)
      ensures s.cpuSavings == SavedAmount(current, recommended, Cpu)
      ensures s.memorySavings == SavedAmount(current, recommended, Memory)
      ensures s.costSavings.Some? <==> MonthlySavingsForNode(s, nodeName) > 0.0
      ensures s.costSavings.Some? ==> s.costSavings.value == MonthlySavingsForNode(s, nodeName)
    {
      var amounts := ResourceSavings(SavedAmount(current, recommended, Cpu), SavedAmount(current, recommended, Memory), None);
      var monthly := MonthlySavingsForNode(amounts, nodeName);
      amounts.(costSavings := if monthly > 0.0 then Some(monthly) else None)
    }

    /** CalculateSavings: the savings at the default prices. */
    function CalculateSavings(current: ResourceRequirements, recommended: ResourceRequirements): (s: ResourceSavings)
      ensures s.cpuSavings == SavedAmount(current, recommended, Cpu)
      ensures s.memorySavings == SavedAmount(current, recommended, Memory)
      ensures s.costSavings.Some? ==>
        s.costSavings.value == SavedCores(s) * cpuCostPerCoreMonth + SavedGiB(s) * memoryCostPerGBMonth
    {
      CalculateSavingsForNode(current, recommended, "")
    }

    /** The numeric part of a cluster report, before any Azure breakdown. */
    function ClusterReport(recs: seq<PodRecommendation>): (r: ClusterSavingsReport)
      ensures r.totalRecommendations == |recs| && r.cloudProvider == cloudProvider
      ensures r.estimatedAnnualSavings == 12.0 * r.estimatedMonthlySavings
      ensures r.paybackMonths.Some? <==> r.estimatedAnnualSavings > AlternativeCost
      ensures r.paybackMonths.Some? ==> r.paybackMonths.value * r.estimatedMonthlySavings == AlternativeCost
      ensures r.nodeSKUBreakdown.None? && !r.usingRealPricing
    {
      var cores := TotalSavedCores(recs);
      var gib := TotalSavedGiB(recs);
      var monthly := cores * cpuCostPerCoreMonth + gib * memoryCostPerGBMonth;
      ClusterSavingsReport(
        totalRecommendations := |recs|,
        totalCPUSavings := cores,
        totalMemorySavings := gib,
        estimatedMonthlySavings := monthly,
        estimatedAnnualSavings := monthly * 12.0,
        paybackMonths := if monthly * 12.0 > AlternativeCost then Some(AlternativeCost / monthly) else None,
        cloudProvider := cloudProvider,
        nodeSKUBreakdown := None,
        usingRealPricing := false)
    }

    /**
     * The cluster-wide totals: saved cores and GiB summed over the
     * recommendations and priced at the default prices.
     */
    method EstimateClusterSavings(recs: seq<PodRecommendation>) returns (report: ClusterSavingsReport)
      ensures report == ClusterReport(recs)
      ensures report.totalCPUSavings == TotalSavedCores(recs) && report.totalMemorySavings == TotalSavedGiB(recs)
      ensures report.estimatedMonthlySavings
        == TotalSavedCores(recs) * cpuCostPerCoreMonth + TotalSavedGiB(recs) * memoryCostPerGBMonth
    {
      var totalCPUSavings := 0.0;
      var totalMemorySavings := 0.0;
      var i := 0;
      while i < |recs|
        invariant 0 <= i <= |recs|
        invariant totalCPUSavings == TotalSavedCores(recs[..i])
        invariant totalMemorySavings == TotalSavedGiB(recs[..i])
      {
        assert recs[..i + 1][..i] == recs[..i];
        var savings := recs[i].potentialSavings;
        if savings.cpuSavings.Some? {
          totalCPUSavings := totalCPUSavings + savings.cpuSavings.value as real / 1000.0;
        }
        if savings.memorySavings.Some? {
          totalMemorySavings := totalMemorySavings + savings.memorySavings.value as real / GiB;
        }
        i := i + 1;
      }
      assert recs[..|recs|] == recs;
      var monthly := totalCPUSavings * cpuCostPerCoreMonth + totalMemorySavings * memoryCostPerGBMonth;
      var payback: Option<real> := None;
      if monthly * 12.0 > AlternativeCost {
        payback := Some(AlternativeCost / monthly);
      }
      report := ClusterSavingsReport(|recs|, totalCPUSavings, totalMemorySavings, monthly, monthly * 12.0,
        payback, cloudProvider, None, false);
    }

    /**
     * The cluster report with a per-SKU breakdown when node prices are
     * known: nodes are grouped by SKU name (records without one are
     * skipped), and every positive per-pod monthly amount is split equally
     * over all SKUs.
     */
    method EstimateClusterSavingsWithAzureBreakdown(recs: seq<PodRecommendation>) returns (report: ClusterSavingsReport)
      ensures report.(nodeSKUBreakdown := None, usingRealPricing := false) == ClusterReport(recs)
      ensures report.usingRealPricing <==> |nodePricingData| > 0
      ensures report.nodeSKUBreakdown.Some? <==> |nodePricingData| > 0
      ensures report.nodeSKUBreakdown.Some? ==>
        var g := report.nodeSKUBreakdown.value;
        && g.Keys == SkusOf(nodePricingData, nodePricingData.Keys)
        && forall s :: s in g ==>
          && GroupedFrom(g[s], s, nodePricingData.Keys)
          && g[s].potentialSavings == DistributedSavings(recs, |g|)
          && g[s].recommendationCount == PricedRecommendations(recs)
      ensures report.nodeSKUBreakdown.Some? && |report.nodeSKUBreakdown.value| > 0 ==>
        SumOver(report.nodeSKUBreakdown.value.Keys, PotentialOf(report.nodeSKUBreakdown.value)) == ParsedTotal(recs)
    {
      report := EstimateClusterSavings(recs);
      if |nodePricingData| == 0 {
        return;
      }
      var skuGroups := GroupBySku();
      var distributed := DistributeSavings(skuGroups, recs);
      if |distributed| > 0 {
        SharesAddUp(distributed, recs);
      }
      report := report.(usingRealPricing := true, nodeSKUBreakdown := Some(distributed));
    }

    /** The first loop of the breakdown: one group per SKU name, counting its nodes and their monthly price. */
    method GroupBySku() returns (groups: map<string, NodeSKUSavings>)
      ensures GroupsFrom(groups, nodePricingData.Keys)
    {
      var data := nodePricingData;
      groups := map[];
      var remaining := data.Keys;
      ghost var processed: set<string> := {};
      assert SkusOf(data, processed) == {};
      while remaining != {}
        invariant remaining <= data.Keys && processed == data.Keys - remaining
        invariant GroupsFrom(groups, processed)
        decreases remaining
      {
        var n :| n in remaining;
        var priceData := data[n];
        var skuName := priceData.skuName;
        AddNodeToGroups(groups, processed, n);
        remaining := remaining - {n};
        processed := processed + {n};
        if skuName == "" {
          continue;
        }
        groups := CountNode(groups, priceData);
      }
      assert processed == data.Keys;
    }

    /** The body of the grouping loop for a node with a SKU name: create its group when new, then count the node. */
    static method CountNode(groups: map<string, NodeSKUSavings>, priceData: PriceInfo) returns (next: map<string, NodeSKUSavings>)
      requires priceData.skuName != ""
      ensures next == WithNode(groups, priceData)
    {
      var skuName := priceData.skuName;
      next := groups;
      if skuName !in next {
        next := next[skuName := NodeSKUSavings(skuName, 0, 0.0, 0.0, 0, priceData.cpuCostPerCore, priceData.memoryCostPerGB)];
      }
      var group := next[skuName];
      next := next[skuName := group.(nodeCount := group.nodeCount + 1,
                                    totalMonthlyCost := group.totalMonthlyCost + priceData.unitPrice * HoursPerMonth)];
    }

    /** The groups hold one entry per SKU seen among the nodes in keys, grouped from those nodes, with nothing distributed yet. */
    ghost predicate GroupsFrom(groups: map<string, NodeSKUSavings>, keys: set<string>)
    {
      && groups.Keys == SkusOf(nodePricingData, keys)
      && (forall s :: s in groups ==> GroupedFrom(groups[s], s, keys))
      && (forall s :: s in groups ==> groups[s].potentialSavings == 0.0 && groups[s].recommendationCount == 0)
    }

    /** Taking one more node into the grouping keeps GroupsFrom. */
    lemma {:induction false} AddNodeToGroups(groups: map<string, NodeSKUSavings>, keys: set<string>, n: string)
      requires n in nodePricingData && n !in keys && GroupsFrom(groups, keys)
      ensures GroupsFrom(WithNode(groups, nodePricingData[n]), keys + {n})
    {
      var next := WithNode(groups, nodePricingData[n]);
      SkusOfAdd(nodePricingData, keys, n);
      forall s | s in next
        ensures GroupedFrom(next[s], s, keys + {n})
        ensures next[s].potentialSavings == 0.0 && next[s].recommendationCount == 0
      {
        AddNodeToGroup(groups, keys, n, s);
      }
    }

    /** Each group after the step is grouped from the nodes seen so far. */
    lemma {:induction false} AddNodeToGroup(groups: map<string, NodeSKUSavings>, keys: set<string>, n: string, s: string)
      requires n in nodePricingData && n !in keys && GroupsFrom(groups, keys)
      requires s in WithNode(groups, nodePricingData[n])
      ensures GroupedFrom(WithNode(groups, nodePricingData[n])[s], s, keys + {n})
    {
      var p := nodePricingData[n];
      if p.skuName != "" && s == p.skuName {
        if s !in groups {
          SkusOfAdd(nodePricingData, keys, n);
          NoNodesWithUnseenSku(keys, s);
          GroupedFromCountedNode(NodeSKUSavings(s, 0, 0.0, 0.0, 0, p.cpuCostPerCore, p.memoryCostPerGB), s, keys, n);
        } else {
          GroupedFromCountedNode(groups[s], s, keys, n);
        }
      } else {
        GroupedFromOtherNode(groups[s], s, keys, n);
      }
    }

    /** A group's SKU, node count, monthly price and unit costs as they come from the nodes in `keys`. */
    ghost predicate GroupedFrom(g: NodeSKUSavings, s: string, keys: set<string>)
    {
      && g.skuName == s
      && g.nodeCount == |NodesWithSku(nodePricingData, keys, s)|
      && g.totalMonthlyCost == SumOver(NodesWithSku(nodePricingData, keys, s), MonthlyPriceOf(nodePricingData))
      && exists n :: n in keys && n in nodePricingData && nodePricingData[n].skuName == s
           && g.cpuCostPerCore == nodePricingData[n].cpuCostPerCore
           && g.memoryCostPerGB == nodePricingData[n].memoryCostPerGB
    }

    lemma {:induction false} GroupedFromOtherNode(g: NodeSKUSavings, s: string, keys: set<string>, n: string)
      requires GroupedFrom(g, s, keys) && n in nodePricingData && n !in keys && nodePricingData[n].skuName != s
      ensures GroupedFrom(g, s, keys + {n})
    {
      NodesWithSkuAdd(nodePricingData, keys, n, s);
    }

    /** A group before its SKU's first node: no node of that SKU has been seen. */
    lemma {:induction false} NoNodesWithUnseenSku(keys: set<string>, s: string)
      requires s != "" && s !in SkusOf(nodePricingData, keys)
      ensures NodesWithSku(nodePricingData, keys, s) == {}
    {
    }

    lemma {:induction false} GroupedFromCountedNode(g: NodeSKUSavings, s: string, keys: set<string>, n: string)
      requires n in nodePricingData && n !in keys && nodePricingData[n].skuName == s
      requires g.skuName == s
      requires g.nodeCount == |NodesWithSku(nodePricingData, keys, s)|
      requires g.totalMonthlyCost == SumOver(NodesWithSku(nodePricingData, keys, s), MonthlyPriceOf(nodePricingData))
      requires (g.cpuCostPerCore == nodePricingData[n].cpuCostPerCore && g.memoryCostPerGB == nodePricingData[n].memoryCostPerGB)
        || GroupedFrom(g, s, keys)
      ensures GroupedFrom(g.(nodeCount := g.nodeCount + 1,
                             totalMonthlyCost := g.totalMonthlyCost + nodePricingData[n].unitPrice * HoursPerMonth), s, keys + {n})
    {
      var before := NodesWithSku(nodePricingData, keys, s);
      NodesWithSkuAdd(nodePricingData, keys, n, s);
      assert NodesWithSku(nodePricingData, keys + {n}, s) == before + {n};
      assert |before + {n}| == |before| + 1;
      SumOverAdd(before, MonthlyPriceOf(nodePricingData), n);
      assert MonthlyPriceOf(nodePricingData)(n) == nodePricingData[n].unitPrice * HoursPerMonth;
      if !GroupedFrom(g, s, keys) {
        assert n in keys + {n};
      } else {
        var m :| m in keys && m in nodePricingData && nodePricingData[m].skuName == s
           && g.cpuCostPerCore == nodePricingData[m].cpuCostPerCore
           && g.memoryCostPerGB == nodePricingData[m].memoryCostPerGB;
        assert m in keys + {n};
      }
    }

    /** The second loop of the breakdown: each positive amount split equally over all groups. */
    method DistributeSavings(groups: map<string, NodeSKUSavings>, recs: seq<PodRecommendation>)
      returns (result: map<string, NodeSKUSavings>)
      requires forall s :: s in groups ==> groups[s].potentialSavings == 0.0 && groups[s].recommendationCount == 0
      requires forall s :: s in groups ==> GroupedFrom(groups[s], s, nodePricingData.Keys)
      ensures result.Keys == groups.Keys
      ensures forall s :: s in result ==> GroupedFrom(result[s], s, nodePricingData.Keys)
      ensures forall s :: s in result ==> result[s] == groups[s].(
        potentialSavings := DistributedSavings(recs, |groups|),
        recommendationCount := PricedRecommendations(recs))
    {
      result := groups;
      var i := 0;
      while i < |recs|
        invariant 0 <= i <= |recs|
        invariant result.Keys == groups.Keys
        invariant forall s :: s in result ==> result[s] == groups[s].(
          potentialSavings := DistributedSavings(recs[..i], |groups|),
          recommendationCount := PricedRecommendations(recs[..i]))
      {
        DistributionStep(recs, i, |groups|);
        var cost := recs[i].potentialSavings.costSavings;
        if cost.Some? && cost.value > 0.0 {
          var skuCount := |result|;
          if skuCount > 0 {
            var savingsPerSKU := cost.value / skuCount as real;
            result := AddToEveryGroup(result, savingsPerSKU);
          }
        }
        i := i + 1;
      }
      assert recs[..|recs|] == recs;
      forall s | s in result
        ensures GroupedFrom(result[s], s, nodePricingData.Keys)
      {
        GroupedFromIgnoresSavings(groups[s], s, nodePricingData.Keys, result[s].potentialSavings, result[s].recommendationCount);
      }
    }

    lemma {:induction false} GroupedFromIgnoresSavings(g: NodeSKUSavings, s: string, keys: set<string>, p: real, r: int)
      requires GroupedFrom(g, s, keys)
      ensures GroupedFrom(g.(potentialSavings := p, recommendationCount := r), s, keys)
    {
    }
  }

  /** One step of the grouping loop: the node's SKU group, created when new, counts it and its monthly price. */
  function WithNode(groups: map<string, NodeSKUSavings>, p: PriceInfo): map<string, NodeSKUSavings>
  {
    if p.skuName == "" then groups
    else
      var g := if p.skuName in groups then groups[p.skuName]
               else NodeSKUSavings(p.skuName, 0, 0.0, 0.0, 0, p.cpuCostPerCore, p.memoryCostPerGB);
      groups[p.skuName := g.(nodeCount := g.nodeCount + 1, totalMonthlyCost := g.totalMonthlyCost + p.unitPrice * HoursPerMonth)]
  }

  /** The inner loop of the distribution: every group gains the share and one recommendation. */
  method AddToEveryGroup(groups: map<string, NodeSKUSavings>, share: real) returns (result: map<string, NodeSKUSavings>)
    ensures result.Keys == groups.Keys
    ensures forall s :: s in result ==> result[s] == groups[s].(
      potentialSavings := groups[s].potentialSavings + share,
      recommendationCount := groups[s].recommendationCount + 1)
  {
    result := groups;
    var remaining := groups.Keys;
    while remaining != {}
      invariant remaining <= groups.Keys && result.Keys == groups.Keys
      invariant forall s :: s in result && s !in remaining ==> result[s] == groups[s].(
        potentialSavings := groups[s].potentialSavings + share,
        recommendationCount := groups[s].recommendationCount + 1)
      invariant forall s :: s in remaining ==> result[s] == groups[s]
      decreases remaining
    {
      var s :| s in remaining;
      var skuSavings := result[s];
      result := result[s := skuSavings.(potentialSavings := skuSavings.potentialSavings + share,
                                        recommendationCount := skuSavings.recommendationCount + 1)];
      remaining := remaining - {s};
    }
  }

  // ---------------------------------------------------------------
  // Totals over recommendations
  // ---------------------------------------------------------------

  function TotalSavedCores(recs: seq<PodRecommendation>): real
    decreases |recs|
  {
    if recs == [] then 0.0 else TotalSavedCores(recs[..|recs| - 1]) + SavedCores(recs[|recs| - 1].potentialSavings)
  }

  function TotalSavedGiB(recs: seq<PodRecommendation>): real
    decreases |recs|
  {
    if recs == [] then 0.0 else TotalSavedGiB(recs[..|recs| - 1]) + SavedGiB(recs[|recs| - 1].potentialSavings)
  }

  /** The totals of two lists of recommendations together are the sums of their totals. */
  lemma {:induction false} TotalsAppend(a: seq<PodRecommendation>, b: seq<PodRecommendation>)
    ensures TotalSavedCores(a + b) == TotalSavedCores(a) + TotalSavedCores(b)
    ensures TotalSavedGiB(a + b) == TotalSavedGiB(a) + TotalSavedGiB(b)
    decreases |b|
  {
    if b == [] {
      assert a + b == a;
    } else {
      var b' := b[..|b| - 1];
      assert (a + b)[..|a + b| - 1] == a + b';
      assert (a + b)[|a + b| - 1] == b[|b| - 1];
      TotalsAppend(a, b');
    }
  }

  /** The monthly amount a recommendation's CostSavings text carries, 0 when empty or not positive. */
  function ParsedCost(rec: PodRecommendation): real
  {
    var c := rec.potentialSavings.costSavings;
    if c.Some? && c.value > 0.0 then c.value else 0.0
  }

  function ParsedTotal(recs: seq<PodRecommendation>): real
    decreases |recs|
  {
    if recs == [] then 0.0 else ParsedTotal(recs[..|recs| - 1]) + ParsedCost(recs[|recs| - 1])
  }

  /** The number of recommendations with a positive monthly amount. */
  function PricedRecommendations(recs: seq<PodRecommendation>): int
    decreases |recs|
  {
    if recs == [] then 0
    else PricedRecommendations(recs[..|recs| - 1]) + (if ParsedCost(recs[|recs| - 1]) > 0.0 then 1 else 0)
  }

  /** One more recommendation in the distribution. */
  lemma {:induction false} DistributionStep(recs: seq<PodRecommendation>, i: nat, skuCount: nat)
    requires i < |recs|
    ensures PricedRecommendations(recs[..i + 1])
      == PricedRecommendations(recs[..i]) + (if ParsedCost(recs[i]) > 0.0 then 1 else 0)
    ensures DistributedSavings(recs[..i + 1], skuCount)
      == DistributedSavings(recs[..i], skuCount) + (if skuCount > 0 && ParsedCost(recs[i]) > 0.0 then ParsedCost(recs[i]) / skuCount as real else 0.0)
  {
    assert recs[..i + 1][..i] == recs[..i];
  }

  /** The share of every SKU: the sum, over the recommendations, of each positive amount divided by the SKU count. */
  function DistributedSavings(recs: seq<PodRecommendation>, skuCount: nat): real
    decreases |recs|
  {
    if recs == [] || skuCount == 0 then 0.0
    else
      var c := ParsedCost(recs[|recs| - 1]);
      DistributedSavings(recs[..|recs| - 1], skuCount) + (if c > 0.0 then c / skuCount as real else 0.0)
  }

  /** Splitting every amount equally over the SKUs loses nothing: the shares add up to the total. */
  lemma {:induction false} DistributedSavingsTotal(recs: seq<PodRecommendation>, skuCount: nat)
    requires skuCount > 0
    ensures skuCount as real * DistributedSavings(recs, skuCount) == ParsedTotal(recs)
    decreases |recs|
  {
    if recs != [] {
      DistributedSavingsTotal(recs[..|recs| - 1], skuCount);
      var c := ParsedCost(recs[|recs| - 1]);
      if c > 0.0 {
        assert skuCount as real * (c / skuCount as real) == c;
      }
    }
  }

  /** When every group holds the same share, the groups' savings add up to the total of the amounts. */
  lemma {:induction false} SharesAddUp(groups: map<string, NodeSKUSavings>, recs: seq<PodRecommendation>)
    requires |groups| > 0
    requires forall s :: s in groups ==> groups[s].potentialSavings == DistributedSavings(recs, |groups|)
    ensures SumOver(groups.Keys, PotentialOf(groups)) == ParsedTotal(recs)
  {
    var share := DistributedSavings(recs, |groups|);
    SumOverConstant(groups.Keys, PotentialOf(groups), share);
    DistributedSavingsTotal(recs, |groups|);
    assert |groups.Keys| == |groups|;
  }

  // ---------------------------------------------------------------
  // Sets of nodes and SKUs in the price data
  // ---------------------------------------------------------------

  ghost function NodesWithSku(data: map<string, PriceInfo>, keys: set<string>, sku: string): set<string>
  {
    set n | n in keys && n in data && data[n].skuName == sku
  }

  ghost function SkusOf(data: map<string, PriceInfo>, keys: set<string>): set<string>
  {
    set n | n in keys && n in data && data[n].skuName != "" :: data[n].skuName
  }

  function MonthlyPriceOf(data: map<string, PriceInfo>): string -> real
  {
    n => if n in data then data[n].unitPrice * HoursPerMonth else 0.0
  }

  function PotentialOf(groups: map<string, NodeSKUSavings>): string -> real
  {
    s => if s in groups then groups[s].potentialSavings else 0.0
  }

  lemma {:induction false} NodesWithSkuAdd(data: map<string, PriceInfo>, keys: set<string>, n: string, sku: string)
    requires n in data && n !in keys
    ensures NodesWithSku(data, keys + {n}, sku)
      == NodesWithSku(data, keys, sku) + (if data[n].skuName == sku then {n} else {})
  {
  }

  lemma {:induction false} SkusOfAdd(data: map<string, PriceInfo>, keys: set<string>, n: string)
    requires n in data
    ensures SkusOf(data, keys + {n}) == SkusOf(data, keys) + (if data[n].skuName != "" then {data[n].skuName} else {})
  {
  }

  // ---------------------------------------------------------------
  // Constructors
  // ---------------------------------------------------------------

  function NewCostCalculator(): CostCalculator
  {
    CostCalculator(20.0, 2.5, "azure", map[])
  }

  function NewAWSCostCalculator(): CostCalculator
  {
    CostCalculator(25.0, 3.0, "aws", map[])
  }

  function NewGCPCostCalculator(): CostCalculator
  {
    CostCalculator(22.0, 2.8, "gcp", map[])
  }

  /** Nodes whose record has a positive CPU price. */
  ghost function CpuPricedNodes(data: map<string, PriceInfo>, keys: set<string>): set<string>
  {
    set n | n in keys && n in data && data[n].cpuCostPerCore > 0.0
  }

  function CpuTerm(data: map<string, PriceInfo>): string -> real
  {
    n => if n in data && data[n].cpuCostPerCore > 0.0 then data[n].cpuCostPerCore else 0.0
  }

  function MemoryTerm(data: map<string, PriceInfo>): string -> real
  {
    n => if n in data && data[n].memoryCostPerGB > 0.0 then data[n].memoryCostPerGB else 0.0
  }

  /** The three running totals of the averaging loop over the nodes in keys. */
  ghost predicate Accumulated(data: map<string, PriceInfo>, keys: set<string>, cpu: real, memory: real, count: int)
  {
    && cpu == SumOver(keys, CpuTerm(data))
    && memory == SumOver(keys, MemoryTerm(data))
    && count == |CpuPricedNodes(data, keys)|
  }

  /** One more node adds its positive prices, and counts when its CPU price is positive. */
  lemma {:induction false} AccumulateNode(data: map<string, PriceInfo>, keys: set<string>, n: string, cpu: real, memory: real, count: int)
    requires n in data && n !in keys && Accumulated(data, keys, cpu, memory, count)
    ensures Accumulated(data, keys + {n},
      cpu + (if data[n].cpuCostPerCore > 0.0 then data[n].cpuCostPerCore else 0.0),
      memory + (if data[n].memoryCostPerGB > 0.0 then data[n].memoryCostPerGB else 0.0),
      count + (if data[n].cpuCostPerCore > 0.0 then 1 else 0))
  {
    SumOverAdd(keys, CpuTerm(data), n);
    SumOverAdd(keys, MemoryTerm(data), n);
    CpuPricedNodesAdd(data, keys, n);
  }

  lemma {:induction false} CpuPricedNodesAdd(data: map<string, PriceInfo>, keys: set<string>, n: string)
    requires n in data && n !in keys
    ensures CpuPricedNodes(data, keys + {n})
      == CpuPricedNodes(data, keys) + (if data[n].cpuCostPerCore > 0.0 then {n} else {})
    ensures |CpuPricedNodes(data, keys + {n})|
      == |CpuPricedNodes(data, keys)| + (if data[n].cpuCostPerCore > 0.0 then 1 else 0)
  {
    assert CpuPricedNodes(data, keys + {n})
      == CpuPricedNodes(data, keys) + (if data[n].cpuCostPerCore > 0.0 then {n} else {});
  }

  /**
   * The averaging of the Azure constructor: the positive CPU prices summed
   * and the positive memory prices summed, both divided by the number of
   * nodes with a positive CPU price; the defaults when there is none.
   */
  method AveragePrices(data: map<string, PriceInfo>) returns (cpu: real, memory: real)
    ensures |CpuPricedNodes(data, data.Keys)| > 0 ==>
      && cpu == SumOver(data.Keys, CpuTerm(data)) / |CpuPricedNodes(data, data.Keys)| as real
      && memory == SumOver(data.Keys, MemoryTerm(data)) / |CpuPricedNodes(data, data.Keys)| as real
    ensures |CpuPricedNodes(data, data.Keys)| == 0 ==> cpu == 20.0 && memory == 2.5
  {
    cpu, memory := 20.0, 2.5;
    if |data| == 0 {
      assert CpuPricedNodes(data, data.Keys) == {};
      return;
    }
    var totalCPUCost, totalMemoryCost, nodeCount := SumPrices(data);
    if nodeCount > 0 {
      cpu := totalCPUCost / nodeCount as real;
      memory := totalMemoryCost / nodeCount as real;
    }
  }

  /** The loop of the averaging: positive CPU prices, positive memory prices, and the CPU-priced nodes. */
  method SumPrices(data: map<string, PriceInfo>) returns (totalCPUCost: real, totalMemoryCost: real, nodeCount: int)
    ensures Accumulated(data, data.Keys, totalCPUCost, totalMemoryCost, nodeCount)
  {
    totalCPUCost, totalMemoryCost, nodeCount := 0.0, 0.0, 0;
    var remaining := data.Keys;
    ghost var processed: set<string> := {};
    while remaining != {}
      invariant remaining <= data.Keys && processed == data.Keys - remaining
      invariant Accumulated(data, processed, totalCPUCost, totalMemoryCost, nodeCount)
      decreases remaining
    {
      var n :| n in remaining;
      var priceData := data[n];
      AccumulateNode(data, processed, n, totalCPUCost, totalMemoryCost, nodeCount);
      if priceData.cpuCostPerCore > 0.0 {
        totalCPUCost := totalCPUCost + priceData.cpuCostPerCore;
        nodeCount := nodeCount + 1;
      }
      if priceData.memoryCostPerGB > 0.0 {
        totalMemoryCost := totalMemoryCost + priceData.memoryCostPerGB;
      }
      remaining := remaining - {n};
      processed := processed + {n};
    }
    assert processed == data.Keys;
  }

  /**
   * The Azure constructor: the prices of the cluster's nodes from a fresh
   * pricing client, averaged into the default prices; on a failure to
   * list the nodes, the plain default calculator.
   */
  method NewCostCalculatorWithAzurePricing(nodes: Listing<Node>, now: int, fetch: PriceFetcher) returns (c: CostCalculator)
    ensures c.cloudProvider == "azure"
    ensures nodes.ListFailed? ==> c == NewCostCalculator()
    ensures nodes.Listed? ==> c.nodePricingData.Keys <= NodeInfoMap(nodes.items).Keys
    ensures nodes.Listed? ==>
      var info := NodeInfoMap(nodes.items);
      forall n :: n in info && Priceable(info[n])
        && FetchItems(info[n].skuName, info[n].region, fetch(info[n].skuName, info[n].region)).Ok?
        ==> n in c.nodePricingData
    ensures forall n :: n in c.nodePricingData && c.nodePricingData[n].unitPrice >= 0.0 ==> Consistent(c.nodePricingData[n])
    ensures var priced := CpuPricedNodes(c.nodePricingData, c.nodePricingData.Keys);
      && (|priced| > 0 ==> c.cpuCostPerCoreMonth == SumOver(c.nodePricingData.Keys, CpuTerm(c.nodePricingData)) / |priced| as real)
      && (|priced| > 0 ==> c.memoryCostPerGBMonth == SumOver(c.nodePricingData.Keys, MemoryTerm(c.nodePricingData)) / |priced| as real)
      && (|priced| == 0 ==> c.cpuCostPerCoreMonth == 20.0 && c.memoryCostPerGBMonth == 2.5)
  {
    c := NewCostCalculator();
    var client := new AzurePricingClient();
    var pricingInfo := client.GetClusterPricingInfo(nodes, now, fetch);
    if pricingInfo.Err? {
      return;
    }
    var data := Snapshot(pricingInfo.value);
    var cpu, memory := AveragePrices(data);
    c := c.(nodePricingData := data, cpuCostPerCoreMonth := cpu, memoryCostPerGBMonth := memory);
  }

  // ---------------------------------------------------------------
  // Properties
  // ---------------------------------------------------------------

  /** Recommending what is already requested saves nothing and prices nothing. */
  lemma {:induction false} NoSavingsForUnchangedRequests(c: CostCalculator, r: ResourceRequirements, nodeName: string)
    ensures c.CalculateSavingsForNode(r, r, nodeName) == ResourceSavings(None, None, None)
  {
  }

  /**
   * With positive prices, the cost text is present exactly when some
   * request shrinks, and then the amount is positive.
   */
  lemma {:induction false} CostSavingsPresentIffSaving(c: CostCalculator, current: ResourceRequirements, recommended: ResourceRequirements, nodeName: string)
    requires c.PricesForNode(nodeName).cpuPerCore > 0.0 && c.PricesForNode(nodeName).memoryPerGB > 0.0
    ensures var s := c.CalculateSavingsForNode(current, recommended, nodeName);
      s.costSavings.Some? <==> s.cpuSavings.Some? || s.memorySavings.Some?
  {
    var s := c.CalculateSavingsForNode(current, recommended, nodeName);
    var p := c.PricesForNode(nodeName);
    assert 0.0 <= SavedCores(s) && 0.0 <= SavedGiB(s);
    MonthlyPositive(SavedCores(s), p.cpuPerCore, SavedGiB(s), p.memoryPerGB);
  }

  lemma {:induction false} MonthlyPositive(cores: real, cpuPrice: real, gib: real, memPrice: real)
    requires 0.0 <= cores && 0.0 <= gib && cpuPrice > 0.0 && memPrice > 0.0
    ensures cores * cpuPrice + gib * memPrice > 0.0 <==> cores > 0.0 || gib > 0.0
  {
    if cores > 0.0 {
      assert cores * cpuPrice > 0.0;
    }
    if gib > 0.0 {
      assert gib * memPrice > 0.0;
    }
  }

  /** A node whose record has no CPU price but a memory price uses the default CPU price and its own memory price. */
  lemma {:induction false} FallbackIsPerResource(c: CostCalculator, nodeName: string)
    requires nodeName != "" && nodeName in c.nodePricingData
    requires c.nodePricingData[nodeName].cpuCostPerCore == 0.0 && c.nodePricingData[nodeName].memoryCostPerGB == 8.76
    ensures c.PricesForNode(nodeName) == Prices(c.cpuCostPerCoreMonth, 8.76)
  {
  }

  /** The default calculators' prices, and what they make of a saving. */
  lemma {:induction false} DefaultPrices(current: ResourceRequirements, recommended: ResourceRequirements)
    ensures var s := NewCostCalculator().CalculateSavings(current, recommended);
      s.costSavings.Some? ==> s.costSavings.value == SavedCores(s) * 20.0 + SavedGiB(s) * 2.5
    ensures var s := NewAWSCostCalculator().CalculateSavings(current, recommended);
      s.costSavings.Some? ==> s.costSavings.value == SavedCores(s) * 25.0 + SavedGiB(s) * 3.0
    ensures var s := NewGCPCostCalculator().CalculateSavings(current, recommended);
      s.costSavings.Some? ==> s.costSavings.value == SavedCores(s) * 22.0 + SavedGiB(s) * 2.8
    ensures NewCostCalculator().cloudProvider == "azure" && NewAWSCostCalculator().cloudProvider == "aws"
      && NewGCPCostCalculator().cloudProvider == "gcp"
  {
  }

  /** 200m and 256Mi recommended down to 100m and 128Mi save 100m and 134217728 bytes, $2.3125 a month at default prices. */
  lemma {:induction false} SavingsExample()
    ensures var s := NewCostCalculator().CalculateSavings(
        ResourceRequirements(map[Cpu := 200, Memory := 268435456], map[]),
        ResourceRequirements(map[Cpu := 100, Memory := 134217728], map[]));
      s == ResourceSavings(Some(100), Some(134217728), Some(2.3125))
  {
    var s := NewCostCalculator().CalculateSavings(
        ResourceRequirements(map[Cpu := 200, Memory := 268435456], map[]),
        ResourceRequirements(map[Cpu := 100, Memory := 134217728], map[]));
    assert SavedCores(s) == 0.1;
    assert SavedGiB(s) == 0.125;
  }

  /** 500m and 1Gi down to 200m and 512Mi on a node priced 35.04 and 8.76 saves 300m and prices 14.892 a month. */
  lemma {:induction false} NodeSavingsExample(c: CostCalculator, p: PriceInfo)
    requires "node1" in c.nodePricingData && c.nodePricingData["node1"] == p
    requires p.cpuCostPerCore == 35.04 && p.memoryCostPerGB == 8.76
    ensures var s := c.CalculateSavingsForNode(
        ResourceRequirements(map[Cpu := 500, Memory := 1073741824], map[]),
        ResourceRequirements(map[Cpu := 200, Memory := 536870912], map[]), "node1");
      s == ResourceSavings(Some(300), Some(536870912), Some(14.892))
  {
    var s := c.CalculateSavingsForNode(
        ResourceRequirements(map[Cpu := 500, Memory := 1073741824], map[]),
        ResourceRequirements(map[Cpu := 200, Memory := 536870912], map[]), "node1");
    assert SavedCores(s) == 0.3;
    assert SavedGiB(s) == 0.5;
  }

  /** Recommendations saving 50m with 64Mi and 100m with 128Mi total 0.150 cores and 0.1875 GiB. */
  lemma {:induction false} ClusterTotalsExample(r1: PodRecommendation, r2: PodRecommendation)
    requires r1.potentialSavings.cpuSavings == Some(50) && r1.potentialSavings.memorySavings == Some(67108864)
    requires r2.potentialSavings.cpuSavings == Some(100) && r2.potentialSavings.memorySavings == Some(134217728)
    ensures TotalSavedCores([r1, r2]) == 0.150
    ensures TotalSavedGiB([r1, r2]) == 0.1875
    ensures NewCostCalculator().ClusterReport([r1, r2]).totalRecommendations == 2
  {
    assert [r1, r2][..1] == [r1];
    assert [r1][..0] == [];
    assert TotalSavedCores([r1]) == 0.05;
    assert TotalSavedGiB([r1]) == 0.0625;
  }

  /**
   * Two nodes of two SKUs and two recommendations of $5.00 and $3.50 a
   * month: two groups, each credited with both recommendations and $4.25.
   */
  lemma {:induction false} BreakdownExample(data: map<string, PriceInfo>, r1: PodRecommendation, r2: PodRecommendation)
    requires data.Keys == {"node1", "node2"}
    requires data["node1"].skuName == "Standard_D2s_v3" && data["node2"].skuName == "Standard_D4s_v3"
    requires r1.potentialSavings.costSavings == Some(5.0) && r2.potentialSavings.costSavings == Some(3.5)
    ensures SkusOf(data, data.Keys) == {"Standard_D2s_v3", "Standard_D4s_v3"}
    ensures DistributedSavings([r1, r2], 2) == 4.25
    ensures PricedRecommendations([r1, r2]) == 2
    ensures ParsedTotal([r1, r2]) == 8.5
  {
    assert [r1, r2][..1] == [r1];
    assert [r1][..0] == [];
    assert ParsedCost(r1) == 5.0 && ParsedCost(r2) == 3.5;
    assert ParsedTotal([r1]) == 5.0 && DistributedSavings([r1], 2) == 2.5 && PricedRecommendations([r1]) == 1;
    assert "Standard_D2s_v3" == data["node1"].skuName;
    assert "Standard_D4s_v3" == data["node2"].skuName;
  }

  /** When every priced node has the same CPU price, the average is that price. */
  lemma {:induction false} AverageOfUniformPrices(data: map<string, PriceInfo>, price: real)
    requires price > 0.0
    requires forall n :: n in data ==> data[n].cpuCostPerCore == price
    ensures CpuPricedNodes(data, data.Keys) == data.Keys
    ensures SumOver(data.Keys, CpuTerm(data)) == |data| as real * price
  {
    assert CpuPricedNodes(data, data.Keys) == data.Keys;
    SumOverConstant(data.Keys, CpuTerm(data), price);
    assert |data.Keys| == |data|;
  }
}
