/**
 * The Azure Retail Prices client: node SKU discovery from node labels and
 * capacity, the per-SKU price lookup with its 24-hour cache, the fallback
 * VM specification table, and the cluster-wide price map.
 *
 * The HTTP exchange is an oracle `PriceFetcher` from (sku, region) to the
 * outcome of one request; the clock is the parameter `now` (nanoseconds).
 * Price records are shared objects: the cache and the cluster price map
 * hold the same AzurePriceData objects, and the cluster pass updates them
 * in place.
 */
module AzurePricing {
  import opened Common
  import opened Types

  const HoursPerMonth: real := 730.0
  const BytesPerGiB: int := 1024 * 1024 * 1024

  const InstanceTypeLabel: string := "node.kubernetes.io/instance-type"
  const RegionLabel: string := "topology.kubernetes.io/region"
  const ZoneLabel: string := "topology.kubernetes.io/zone"

  // ---------------------------------------------------------------
  // Price records
  // ---------------------------------------------------------------

  /** The value of an AzurePriceData record at one moment. */
  datatype PriceInfo = PriceInfo(
    skuName: string,
    serviceName: string,
    productName: string,
    unitPrice: real,
    currencyCode: string,
    unitOfMeasure: string,
    location: string,
    lastUpdated: int,
    cpuCores: int,
    memoryGB: real,
    cpuCostPerCore: real,
    memoryCostPerGB: real)

  /** Monthly price (730 hours of the hourly unit price) spread over the cores; 0 without cores. */
  function CostPerCore(unitPrice: real, cores: int): (c: real)
    ensures cores > 0 ==> c * cores as real == unitPrice * HoursPerMonth
    ensures cores <= 0 ==> c == 0.0
  {
    if cores > 0 then unitPrice * HoursPerMonth / cores as real else 0.0
  }

  /** Monthly price spread over the memory in GiB; 0 without memory. */
  function CostPerGB(unitPrice: real, gb: real): (c: real)
    ensures gb > 0.0 ==> c * gb == unitPrice * HoursPerMonth
    ensures gb <= 0.0 ==> c == 0.0
  {
    if gb > 0.0 then unitPrice * HoursPerMonth / gb else 0.0
  }

  /** The unit costs of an hourly price of 0.096 on two cores and 8 GiB, and of 0.192 on four cores and 16 GiB. */
  lemma {:induction false} UnitCostExamples()
    ensures CostPerCore(0.096, 2) == 35.04 && CostPerGB(0.096, 8.0) == 8.76
    ensures CostPerCore(0.192, 4) == 35.04 && CostPerGB(0.192, 16.0) == 8.76
  {
  }

  /** A price record whose per-core and per-GiB costs agree with its unit price and specs. */
  predicate Consistent(p: PriceInfo)
  {
    p.cpuCostPerCore == CostPerCore(p.unitPrice, p.cpuCores)
    && p.memoryCostPerGB == CostPerGB(p.unitPrice, p.memoryGB)
  }

  class AzurePriceData {
    var skuName: string
    var serviceName: string
    var productName: string
    var unitPrice: real
    var currencyCode: string
    var unitOfMeasure: string
    var location: string
    var lastUpdated: int
    var cpuCores: int
    var memoryGB: real
    var cpuCostPerCore: real
    var memoryCostPerGB: real

    constructor (p: PriceInfo)
      ensures Info() == p
    {
      skuName := p.skuName;
      serviceName := p.serviceName;
      productName := p.productName;
      unitPrice := p.unitPrice;
      currencyCode := p.currencyCode;
      unitOfMeasure := p.unitOfMeasure;
      location := p.location;
      lastUpdated := p.lastUpdated;
      cpuCores := p.cpuCores;
      memoryGB := p.memoryGB;
      cpuCostPerCore := p.cpuCostPerCore;
      memoryCostPerGB := p.memoryCostPerGB;
    }

    function Info(): PriceInfo
      reads this
    {
      PriceInfo(skuName, serviceName, productName, unitPrice, currencyCode, unitOfMeasure,
        location, lastUpdated, cpuCores, memoryGB, cpuCostPerCore, memoryCostPerGB)
    }
  }

  /**
   * The invariant the client keeps for every record it holds: a record with
   * a non-negative unit price has costs that agree with its specs. (The
   * cluster pass does not recompute the costs of a negative price.)
   */
  predicate PriceConsistent(o: AzurePriceData)
    reads o
  {
    o.unitPrice >= 0.0 ==> Consistent(o.Info())
  }

  /** The values of a map of shared records, read at one moment. */
  function Snapshot(m: map<string, AzurePriceData>): (s: map<string, PriceInfo>)
    reads m.Values
    ensures s.Keys == m.Keys
    ensures forall k :: k in m ==> s[k] == m[k].Info()
  {
    map k | k in m :: m[k].Info()
  }

  // ---------------------------------------------------------------
  // VM specifications
  // ---------------------------------------------------------------

  datatype VMSpecifications = VMSpecifications(cpuCores: int, memoryGB: real)

  const KnownVMSpecifications: map<string, VMSpecifications> := map[
    "Standard_D2s_v3" := VMSpecifications(2, 8.0),
    "Standard_D4s_v3" := VMSpecifications(4, 16.0),
    "Standard_D8s_v3" := VMSpecifications(8, 32.0),
    "Standard_D16s_v3" := VMSpecifications(16, 64.0),
    "Standard_D32s_v3" := VMSpecifications(32, 128.0),
    "Standard_D2s_v4" := VMSpecifications(2, 8.0),
    "Standard_D4s_v4" := VMSpecifications(4, 16.0),
    "Standard_D8s_v4" := VMSpecifications(8, 32.0),
    "Standard_D16s_v4" := VMSpecifications(16, 64.0),
    "Standard_D2s_v5" := VMSpecifications(2, 8.0),
    "Standard_D4s_v5" := VMSpecifications(4, 16.0),
    "Standard_D8s_v5" := VMSpecifications(8, 32.0),
    "Standard_B1ms" := VMSpecifications(1, 2.0),
    "Standard_B2s" := VMSpecifications(2, 4.0),
    "Standard_B4ms" := VMSpecifications(4, 16.0),
    "Standard_B8ms" := VMSpecifications(8, 32.0),
    "Standard_F2s_v2" := VMSpecifications(2, 4.0),
    "Standard_F4s_v2" := VMSpecifications(4, 8.0),
    "Standard_F8s_v2" := VMSpecifications(8, 16.0),
    "Standard_F16s_v2" := VMSpecifications(16, 32.0),
    "Standard_E2s_v3" := VMSpecifications(2, 16.0),
    "Standard_E4s_v3" := VMSpecifications(4, 32.0),
    "Standard_E8s_v3" := VMSpecifications(8, 64.0),
    "Standard_E16s_v3" := VMSpecifications(16, 128.0),
    "Standard_E2s_v4" := VMSpecifications(2, 16.0),
    "Standard_E4s_v4" := VMSpecifications(4, 32.0),
    "Standard_E8s_v4" := VMSpecifications(8, 64.0)
  ]

  const DefaultVMSpecifications: VMSpecifications := VMSpecifications(2, 8.0)

  /**
   * The table entry of a known SKU, else 2 cores and 8 GiB. Every answer
   * has positive cores and memory, so a freshly fetched price always gets
   * both unit costs.
   */
  function GetVMSpecifications(skuName: string): (s: VMSpecifications)
    ensures s.cpuCores > 0 && s.memoryGB > 0.0
    ensures skuName !in KnownVMSpecifications ==> s == DefaultVMSpecifications
  {
    if skuName in KnownVMSpecifications then KnownVMSpecifications[skuName] else DefaultVMSpecifications
  }

  lemma {:induction false} VMSpecificationExamples()
    ensures GetVMSpecifications("Standard_D2s_v3") == VMSpecifications(2, 8.0)
    ensures GetVMSpecifications("Standard_E4s_v4") == VMSpecifications(4, 32.0)
    ensures GetVMSpecifications("Standard_B1ms") == VMSpecifications(1, 2.0)
    ensures GetVMSpecifications("Standard_D32s_v3") == VMSpecifications(32, 128.0)
    ensures GetVMSpecifications("Standard_NC6") == VMSpecifications(2, 8.0)
  {
    assert "Standard_NC6" !in KnownVMSpecifications;
  }

  // ---------------------------------------------------------------
  // Node SKU discovery
  // ---------------------------------------------------------------

  datatype Node = Node(name: string, labels: map<string, string>, capacity: ResourceList, providerID: string)

  datatype NodeSKUInfo = NodeSKUInfo(
    nodeName: string,
    skuName: string,
    region: string,
    cpuCores: int,
    memoryGB: real,
    instanceType: string,
    zone: string)

  function LabelOr(labels: map<string, string>, key: string): string
  {
    if key in labels then labels[key] else ""
  }

  /** Quantity.Value() of a CPU quantity: whole cores, rounded away from zero. */
  function RoundUpCores(millis: int): (cores: int)
    ensures millis > 0 ==> (cores - 1) * 1000 < millis <= cores * 1000
    ensures millis == 0 ==> cores == 0
    ensures millis < 0 ==> cores * 1000 <= millis < (cores + 1) * 1000
  {
    if millis >= 0 then (millis + 999) / 1000 else -((-millis + 999) / 1000)
  }

  function CapacityOf(capacity: ResourceList, name: ResourceName): int
  {
    if name in capacity then capacity[name] else 0
  }

  /** What one node's labels and capacity say about its VM. */
  function NodeInfoOf(node: Node): (info: NodeSKUInfo)
    ensures info.nodeName == node.name
    ensures info.skuName == info.instanceType == LabelOr(node.labels, InstanceTypeLabel)
    ensures CapacityOf(node.capacity, Cpu) > 0 ==> info.cpuCores >= 1
    ensures CapacityOf(node.capacity, Cpu) == 0 ==> info.cpuCores == 0
    ensures CapacityOf(node.capacity, Memory) > 0 ==> info.memoryGB > 0.0
    ensures CapacityOf(node.capacity, Memory) == 0 ==> info.memoryGB == 0.0
  {
    var millis := CapacityOf(node.capacity, Cpu);
    var bytes := CapacityOf(node.capacity, Memory);
    var sku := LabelOr(node.labels, InstanceTypeLabel);
    NodeSKUInfo(
      nodeName := node.name,
      skuName := sku,
      region := LabelOr(node.labels, RegionLabel),
      cpuCores := if millis != 0 then RoundUpCores(millis) else 0,
      memoryGB := if bytes != 0 then bytes as real / BytesPerGiB as real else 0.0,
      instanceType := sku,
      zone := LabelOr(node.labels, ZoneLabel))
  }

  /** A two-core node with 8 GiB of memory, labelled Standard_D2s_v3 in eastus. */
  lemma {:induction false} NodeInfoExample(node: Node)
    requires node.name == "node1"
    requires node.labels == map[InstanceTypeLabel := "Standard_D2s_v3", RegionLabel := "eastus", ZoneLabel := "eastus-1"]
    requires node.capacity == map[Cpu := 2000, Memory := 8 * BytesPerGiB]
    ensures NodeInfoOf(node) == NodeSKUInfo("node1", "Standard_D2s_v3", "eastus", 2, 8.0, "Standard_D2s_v3", "eastus-1")
  {
    assert CapacityOf(node.capacity, Cpu) == 2000;
    assert CapacityOf(node.capacity, Memory) == 8 * BytesPerGiB;
  }

  /**
   * The discovered nodes keyed by name: a node enters iff it has an
   * instance-type label value; a later node of the same name replaces an
   * earlier one.
   */
  function NodeInfoMap(nodes: seq<Node>): (m: map<string, NodeSKUInfo>)
    ensures forall k :: k in m ==> m[k].nodeName == k && m[k].skuName != ""
    decreases |nodes|
  {
    if nodes == [] then map[]
    else
      var info := NodeInfoOf(nodes[|nodes| - 1]);
      var m := NodeInfoMap(nodes[..|nodes| - 1]);
      if info.skuName != "" then m[info.nodeName := info] else m
  }

  predicate HasSKU(node: Node) { LabelOr(node.labels, InstanceTypeLabel) != "" }

  /** A name is discovered iff some node of that name carries an instance type. */
  lemma {:induction false} NodeInfoMapKeys(nodes: seq<Node>, k: string)
    ensures k in NodeInfoMap(nodes) <==> exists i :: 0 <= i < |nodes| && nodes[i].name == k && HasSKU(nodes[i])
    decreases |nodes|
  {
    if nodes != [] {
      var init := nodes[..|nodes| - 1];
      NodeInfoMapKeys(init, k);
      if k in NodeInfoMap(init) {
        var i :| 0 <= i < |init| && init[i].name == k && HasSKU(init[i]);
        assert nodes[i] == init[i];
      }
      if exists i :: 0 <= i < |nodes| && nodes[i].name == k && HasSKU(nodes[i]) {
        var i :| 0 <= i < |nodes| && nodes[i].name == k && HasSKU(nodes[i]);
        if i < |init| {
          assert init[i] == nodes[i];
        }
      }
    }
  }

  /** The entry of a discovered name is the last node of that name that has an instance type. */
  lemma {:induction false} NodeInfoMapLastWins(nodes: seq<Node>, i: int)
    requires 0 <= i < |nodes| && HasSKU(nodes[i])
    requires forall j :: i < j < |nodes| ==> nodes[j].name != nodes[i].name || !HasSKU(nodes[j])
    ensures nodes[i].name in NodeInfoMap(nodes)
    ensures NodeInfoMap(nodes)[nodes[i].name] == NodeInfoOf(nodes[i])
    decreases |nodes|
  {
    var init := nodes[..|nodes| - 1];
    if i < |nodes| - 1 {
      assert init[i] == nodes[i];
      forall j | i < j < |init|
        ensures init[j].name != init[i].name || !HasSKU(init[j])
      {
        assert init[j] == nodes[j];
      }
      NodeInfoMapLastWins(init, i);
    }
  }

  datatype PricingError =
    | NodeListFailed
    | RequestNotCreated
    | FetchFailed
    | BadStatus(code: int)
    | BodyReadFailed
    | DecodeFailed
    | NoPricingData(sku: string, region: string)

  // ---------------------------------------------------------------
  // The Retail Prices response and the choice of a price item
  // ---------------------------------------------------------------

  datatype PriceItem = PriceItem(
    currencyCode: string,
    unitPrice: real,
    location: string,
    productName: string,
    serviceName: string,
    unitOfMeasure: string,
    isPrimaryMeterRegion: bool,
    armSkuName: string)

  datatype ResponseBody = Unreadable | Malformed | Decoded(items: seq<PriceItem>)

  datatype HttpOutcome = RequestInvalid | TransportError | Response(statusCode: int, body: ResponseBody)

  /** One request for (sku, region), as the Retail Prices API answers it. */
  type PriceFetcher = (string, string) -> HttpOutcome

  /** The items of a successful answer, or why there are none. */
  function FetchItems(sku: string, region: string, outcome: HttpOutcome): (r: Result<seq<PriceItem>, PricingError>)
    ensures r.Ok? <==> outcome.Response? && outcome.statusCode == 200 && outcome.body.Decoded? && |outcome.body.items| > 0
    ensures r.Ok? ==> r.value == outcome.body.items
  {
    match outcome
    case RequestInvalid => Err(RequestNotCreated)
    case TransportError => Err(FetchFailed)
    case Response(code, body) =>
      if code != 200 then Err(BadStatus(code))
      else match body
        case Unreadable => Err(BodyReadFailed)
        case Malformed => Err(DecodeFailed)
        case Decoded(items) => if |items| == 0 then Err(NoPricingData(sku, region)) else Ok(items)
  }

  predicate IsLinux(item: PriceItem) { Contains(ToLower(item.productName), "linux") }

  predicate IsWindows(item: PriceItem) { Contains(ToLower(item.productName), "windows") }

  /** Items the scan may take as long as it has none yet. */
  predicate Eligible(item: PriceItem) { IsLinux(item) || !IsWindows(item) }

  predicate NoneEligibleBefore(items: seq<PriceItem>, i: int)
  {
    forall j :: 0 <= j < i && j < |items| ==> !Eligible(items[j])
  }

  /** Items the scan takes: every Linux item, and the first item that is not Windows. */
  predicate Taken(items: seq<PriceItem>, i: int)
    requires 0 <= i < |items|
  {
    IsLinux(items[i]) || (!IsWindows(items[i]) && NoneEligibleBefore(items, i))
  }

  /**
   * The chosen item: the first taken item in a primary meter region, else
   * the last taken item, else (nothing taken) the first item.
   */
  predicate IsBestItem(items: seq<PriceItem>, k: int)
  {
    && 0 <= k < |items|
    && if NoneEligibleBefore(items, |items|) then k == 0
       else
         && Taken(items, k)
         && (forall j :: 0 <= j < k ==> Taken(items, j) ==> !items[j].isPrimaryMeterRegion)
         && (!items[k].isPrimaryMeterRegion ==> forall j :: k < j < |items| ==> !Taken(items, j))
  }

  /** The choice is determined by the items. */
  lemma {:induction false} BestItemUnique(items: seq<PriceItem>, k1: int, k2: int)
    requires IsBestItem(items, k1) && IsBestItem(items, k2)
    ensures k1 == k2
  {
  }

  /** The scan over the response items, stopping at a primary-region item it takes. */
  method SelectBestItem(items: seq<PriceItem>) returns (k: nat)
    requires |items| > 0
    ensures IsBestItem(items, k)
  {
    var best: Option<nat> := None;
    var i := 0;
    while i < |items|
      invariant 0 <= i <= |items|
      invariant best.None? <==> NoneEligibleBefore(items, i)
      invariant best.Some? ==> best.value < i && Taken(items, best.value)
      invariant best.Some? ==> forall j :: best.value < j < i ==> !Taken(items, j)
      invariant forall j :: 0 <= j < i ==> Taken(items, j) ==> !items[j].isPrimaryMeterRegion
    {
      var item := items[i];
      if Contains(ToLower(item.productName), "linux")
        || (!Contains(ToLower(item.productName), "windows") && best == None)
      {
        best := Some(i);
        if item.isPrimaryMeterRegion {
          break;
        }
      }
      i := i + 1;
    }
    if best == None {
      k := 0;
    } else {
      k := best.value;
    }
  }

  /** The record built from the chosen item, the SKU's table specs and the clock. */
  function PriceFromItem(item: PriceItem, specs: VMSpecifications, now: int): (p: PriceInfo)
    ensures Consistent(p)
    ensures p.unitPrice == item.unitPrice && p.skuName == item.armSkuName && p.lastUpdated == now
    ensures p.cpuCores == specs.cpuCores && p.memoryGB == specs.memoryGB
  {
    PriceInfo(
      skuName := item.armSkuName,
      serviceName := item.serviceName,
      productName := item.productName,
      unitPrice := item.unitPrice,
      currencyCode := item.currencyCode,
      unitOfMeasure := item.unitOfMeasure,
      location := item.location,
      lastUpdated := now,
      cpuCores := specs.cpuCores,
      memoryGB := specs.memoryGB,
      cpuCostPerCore := CostPerCore(item.unitPrice, specs.cpuCores),
      memoryCostPerGB := CostPerGB(item.unitPrice, specs.memoryGB))
  }

  function CacheKey(sku: string, region: string): string
  {
    sku + "-" + region
  }

  /** A node the cluster pass asks a price for. */
  predicate Priceable(info: NodeSKUInfo) { info.skuName != "" && info.region != "" }

  /**
   * A record after the cluster pass has seen a node: positive reported
   * cores and memory replace the record's, and each cost is recomputed
   * when its spec and the unit price are positive.
   */
  function WithNodeSpecs(p: PriceInfo, info: NodeSKUInfo): (q: PriceInfo)
    ensures q.cpuCores == (if info.cpuCores > 0 then info.cpuCores else p.cpuCores)
    ensures q.memoryGB == (if info.memoryGB > 0.0 then info.memoryGB else p.memoryGB)
    ensures q.(cpuCores := p.cpuCores, memoryGB := p.memoryGB, cpuCostPerCore := p.cpuCostPerCore, memoryCostPerGB := p.memoryCostPerGB) == p
  {
    var cores := if info.cpuCores > 0 then info.cpuCores else p.cpuCores;
    var gb := if info.memoryGB > 0.0 then info.memoryGB else p.memoryGB;
    p.(
      cpuCores := cores,
      memoryGB := gb,
      cpuCostPerCore := if cores > 0 && p.unitPrice > 0.0 then p.unitPrice * HoursPerMonth / cores as real else p.cpuCostPerCore,
      memoryCostPerGB := if gb > 0.0 && p.unitPrice > 0.0 then p.unitPrice * HoursPerMonth / gb else p.memoryCostPerGB)
  }

  /** The update keeps a consistent record with a non-negative price consistent. */
  lemma {:induction false} WithNodeSpecsConsistent(p: PriceInfo, info: NodeSKUInfo)
    requires p.unitPrice >= 0.0 && Consistent(p)
    ensures Consistent(WithNodeSpecs(p, info))
  {
    var q := WithNodeSpecs(p, info);
    if p.unitPrice == 0.0 {
      assert p.cpuCostPerCore == 0.0 && p.memoryCostPerGB == 0.0;
      assert CostPerCore(0.0, q.cpuCores) == 0.0;
      assert CostPerGB(0.0, q.memoryGB) == 0.0;
    }
  }

  /**
   * A record that already carries a node's specs: its positive reported
   * cores and memory, and the costs recomputed from them.
   */
  predicate SpecsApplied(p: PriceInfo, info: NodeSKUInfo)
  {
    WithNodeSpecs(p, info) == p
  }

  /** Writing a node's specs twice changes nothing the second time. */
  lemma {:induction false} WithNodeSpecsApplied(p: PriceInfo, info: NodeSKUInfo)
    ensures SpecsApplied(WithNodeSpecs(p, info), info)
  {
    var q := WithNodeSpecs(p, info);
    assert WithNodeSpecs(q, info).cpuCores == q.cpuCores;
    assert WithNodeSpecs(q, info).memoryGB == q.memoryGB;
  }

  /** `q` is `p` with at most its specs and costs changed: price, SKU, region and time are kept. */
  predicate SpecsOnlyDiffer(p: PriceInfo, q: PriceInfo)
  {
    && q.skuName == p.skuName && q.serviceName == p.serviceName && q.productName == p.productName
    && q.unitPrice == p.unitPrice && q.currencyCode == p.currencyCode && q.unitOfMeasure == p.unitOfMeasure
    && q.location == p.location && q.lastUpdated == p.lastUpdated
  }

  /**
   * `p` is, up to its specs and costs, the record built from the best item
   * of a successful lookup for `node`.
   */
  ghost predicate FetchedPrice(node: NodeSKUInfo, fetch: PriceFetcher, now: int, p: PriceInfo)
  {
    var fetched := FetchItems(node.skuName, node.region, fetch(node.skuName, node.region));
    && fetched.Ok?
    && exists k :: IsBestItem(fetched.value, k)
         && SpecsOnlyDiffer(PriceFromItem(fetched.value[k], GetVMSpecifications(node.skuName), now), p)
  }

  /**
   * `p` comes from a successful lookup for some priceable node whose SKU and
   * region give `key`. (Distinct pairs can share a key: "Standard-D2" in
   * "eastus" and "Standard" in "D2-eastus" both give "Standard-D2-eastus".)
   */
  ghost predicate PricedByFetch(nodeInfo: map<string, NodeSKUInfo>, key: string, fetch: PriceFetcher, now: int, p: PriceInfo)
  {
    exists m :: m in nodeInfo && Priceable(nodeInfo[m])
      && CacheKey(nodeInfo[m].skuName, nodeInfo[m].region) == key
      && FetchedPrice(nodeInfo[m], fetch, now, p)
  }

  lemma {:induction false} SpecsOnlyDifferTransitive(p: PriceInfo, q: PriceInfo, r: PriceInfo)
    requires SpecsOnlyDiffer(p, q) && SpecsOnlyDiffer(q, r)
    ensures SpecsOnlyDiffer(p, r)
  {
  }

  /** Writing specs into a record keeps where its price came from. */
  lemma {:induction false} PricedByFetchKeptBySpecs(nodeInfo: map<string, NodeSKUInfo>, key: string, fetch: PriceFetcher,
                                                    now: int, p: PriceInfo, q: PriceInfo)
    requires PricedByFetch(nodeInfo, key, fetch, now, p) && SpecsOnlyDiffer(p, q)
    ensures PricedByFetch(nodeInfo, key, fetch, now, q)
  {
    var m :| m in nodeInfo && Priceable(nodeInfo[m])
      && CacheKey(nodeInfo[m].skuName, nodeInfo[m].region) == key
      && FetchedPrice(nodeInfo[m], fetch, now, p);
    var node := nodeInfo[m];
    var items := FetchItems(node.skuName, node.region, fetch(node.skuName, node.region)).value;
    var k :| IsBestItem(items, k) && SpecsOnlyDiffer(PriceFromItem(items[k], GetVMSpecifications(node.skuName), now), p);
    assert SpecsOnlyDiffer(PriceFromItem(items[k], GetVMSpecifications(node.skuName), now), q);
    assert FetchedPrice(node, fetch, now, q);
  }

  // ---------------------------------------------------------------
  // The client
  // ---------------------------------------------------------------

  class AzurePricingClient {
    const baseURL: string
    const cacheTTL: int
    var cache: map<string, AzurePriceData>

    ghost predicate Valid()
      reads this, cache.Values
    {
      && 0 < cacheTTL
      && (forall k :: k in cache ==> PriceConsistent(cache[k]))
      && RecordsDistinct()
    }

    /** Every key holds a record of its own: records are created per lookup and never shared. */
    ghost predicate RecordsDistinct()
      reads this
    {
      forall k1, k2 :: k1 in cache && k2 in cache && k1 != k2 ==> cache[k1] != cache[k2]
    }

    constructor ()
      ensures Valid()
      ensures cache == map[] && cacheTTL == 24 * Hour
      ensures baseURL == "https://prices.azure.com/api/retail/prices"
    {
      baseURL := "https://prices.azure.com/api/retail/prices";
      cacheTTL := 24 * Hour;
      cache := map[];
    }

    /** A cached record younger than the time to live. */
    predicate IsFresh(key: string, now: int)
      reads this, cache.Values
    {
      key in cache && now - cache[key].lastUpdated < cacheTTL
    }

    /**
     * In the cluster pass: the fresh record cached under `key` carries the
     * specs of the node `last` says was priced with that key most recently.
     */
    ghost predicate LastSpecsHeld(nodeInfo: map<string, NodeSKUInfo>, processed: set<string>,
                                  last: map<string, string>, key: string, now: int)
      requires key in last
      reads this, cache.Values
    {
      && IsFresh(key, now)
      && last[key] in processed && last[key] in nodeInfo
      && Priceable(nodeInfo[last[key]])
      && CacheKey(nodeInfo[last[key]].skuName, nodeInfo[last[key]].region) == key
      && SpecsApplied(cache[key].Info(), nodeInfo[last[key]])
    }

    /** Node SKU discovery; a failed node listing is an error. */
    method GetNodeSKUInfo(nodes: Listing<Node>) returns (r: Result<map<string, NodeSKUInfo>, PricingError>)
      ensures nodes.ListFailed? ==> r == Err(NodeListFailed)
      ensures nodes.Listed? ==> r == Ok(NodeInfoMap(nodes.items))
    {
      if nodes.ListFailed? {
        return Err(NodeListFailed);
      }
      var items := nodes.items;
      var nodeInfo: map<string, NodeSKUInfo> := map[];
      var i := 0;
      while i < |items|
        invariant 0 <= i <= |items|
        invariant nodeInfo == NodeInfoMap(items[..i])
      {
        var info := NodeInfoOf(items[i]);
        assert items[..i + 1][..i] == items[..i];
        if info.skuName != "" {
          nodeInfo := nodeInfo[items[i].name := info];
        }
        i := i + 1;
      }
      assert items[..|items|] == items;
      return Ok(nodeInfo);
    }

    /**
     * The price record of a SKU in a region: a fresh cached record is
     * returned as is; otherwise a stale record is dropped, the API is asked,
     * and a successful answer is cached as a new record.
     */
    method GetSKUPricing(skuName: string, region: string, now: int, fetch: PriceFetcher)
      returns (r: Result<AzurePriceData, PricingError>)
      requires Valid()
      modifies this
      ensures Valid()
      ensures old(IsFresh(CacheKey(skuName, region), now)) ==>
        r == Ok(old(cache[CacheKey(skuName, region)])) && cache == old(cache)
      ensures !old(IsFresh(CacheKey(skuName, region), now)) ==>
        match FetchItems(skuName, region, fetch(skuName, region))
        case Err(e) => r == Err(e) && cache == old(cache) - {CacheKey(skuName, region)}
        case Ok(items) =>
          && r.Ok? && fresh(r.value)
          && cache == old(cache)[CacheKey(skuName, region) := r.value]
          && exists k :: IsBestItem(items, k) && r.value.Info() == PriceFromItem(items[k], GetVMSpecifications(skuName), now)
      ensures r.Ok? ==> IsFresh(CacheKey(skuName, region), now) && cache[CacheKey(skuName, region)] == r.value
      ensures r.Ok? ==> r.value in old(cache.Values) || fresh(r.value)
      ensures r.Err? ==> CacheKey(skuName, region) !in cache
      ensures forall k :: k != CacheKey(skuName, region) && k in old(cache) ==> k in cache && cache[k] == old(cache)[k]
      ensures forall k :: k != CacheKey(skuName, region) && k in cache ==> k in old(cache)
    {
      var hit := TakeFresh(CacheKey(skuName, region), now);
      if hit.Some? {
        return Ok(hit.value);
      }
      r := FetchAndStore(skuName, region, now, fetch);
    }

    /** The cache lookup: a fresh record is kept and returned, a stale one dropped. */
    method TakeFresh(cacheKey: string, now: int) returns (hit: Option<AzurePriceData>)
      requires Valid()
      modifies this
      ensures Valid()
      ensures old(IsFresh(cacheKey, now)) ==> hit == Some(old(cache[cacheKey])) && cache == old(cache)
      ensures !old(IsFresh(cacheKey, now)) ==> hit.None? && cache == old(cache) - {cacheKey}
    {
      if cacheKey in cache {
        var cached := cache[cacheKey];
        if now - cached.lastUpdated < cacheTTL {
          return Some(cached);
        }
        cache := cache - {cacheKey};
        return None;
      }
      assert cache - {cacheKey} == cache;
      return None;
    }

    /** The API asked about a SKU that has no record: a successful answer is cached as a new one. */
    method FetchAndStore(skuName: string, region: string, now: int, fetch: PriceFetcher)
      returns (r: Result<AzurePriceData, PricingError>)
      requires Valid() && CacheKey(skuName, region) !in cache
      modifies this
      ensures Valid()
      ensures match FetchItems(skuName, region, fetch(skuName, region))
        case Err(e) => r == Err(e) && cache == old(cache)
        case Ok(items) =>
          && r.Ok? && fresh(r.value) && r.value.lastUpdated == now
          && cache == old(cache)[CacheKey(skuName, region) := r.value]
          && exists k :: IsBestItem(items, k) && r.value.Info() == PriceFromItem(items[k], GetVMSpecifications(skuName), now)
    {
      var fetched := FetchItems(skuName, region, fetch(skuName, region));
      if fetched.Err? {
        return Err(fetched.error);
      }
      var items := fetched.value;
      var k := SelectBestItem(items);
      var priceData := new AzurePriceData(PriceFromItem(items[k], GetVMSpecifications(skuName), now));
      cache := cache[CacheKey(skuName, region) := priceData];
      return Ok(priceData);
    }

    /**
     * The price record of every discovered node that has a SKU and a region
     * and whose lookup succeeds, with the node's reported cores and memory
     * written into the (shared) record and its costs recomputed.
     */
    method GetClusterPricingInfo(nodes: Listing<Node>, now: int, fetch: PriceFetcher)
      returns (r: Result<map<string, AzurePriceData>, PricingError>)
      requires Valid()
      modifies this, cache.Values
      ensures Valid()
      ensures nodes.ListFailed? ==> r == Err(NodeListFailed) && cache == old(cache)
      ensures nodes.Listed? ==> r.Ok?
      ensures nodes.Listed? ==>
        var info := NodeInfoMap(nodes.items);
        forall n :: n in r.value ==>
          && n in info && Priceable(info[n])
          && CacheKey(info[n].skuName, info[n].region) in cache
          && cache[CacheKey(info[n].skuName, info[n].region)] == r.value[n]
          && PriceConsistent(r.value[n])
      ensures nodes.Listed? ==>
        var info := NodeInfoMap(nodes.items);
        forall n :: n in info && Priceable(info[n]) ==>
          (old(IsFresh(CacheKey(info[n].skuName, info[n].region), now))
           || FetchItems(info[n].skuName, info[n].region, fetch(info[n].skuName, info[n].region)).Ok?)
          ==> n in r.value
      ensures nodes.Listed? ==>
        var info := NodeInfoMap(nodes.items);
        forall n :: n in r.value ==>
          exists m :: m in info && Priceable(info[m])
            && CacheKey(info[m].skuName, info[m].region) == CacheKey(info[n].skuName, info[n].region)
            && SpecsApplied(r.value[n].Info(), info[m])
      ensures nodes.Listed? ==>
        PricedFromOrigin(NodeInfoMap(nodes.items), r.value, old(FreshKeys(now)), old(cache), old(Snapshot(cache)), now, fetch)
    {
      var infoResult := GetNodeSKUInfo(nodes);
      if infoResult.Err? {
        return Err(infoResult.error);
      }
      var info := infoResult.value;
      ghost var fresh0 := FreshKeys(now);
      ghost var cache0 := cache;
      ghost var info0 := Snapshot(cache);
      assert fresh0 == old(FreshKeys(now)) && cache0 == old(cache) && info0 == old(Snapshot(cache));
      var pricingInfo;
      ghost var processed, last;
      pricingInfo, processed, last := PriceNodes(info, fresh0, cache0, info0, now, fetch);
      LastSpecsGiveNodeSpecs(info, processed, pricingInfo, last, now);
      PricedFromProvenance(info, processed, pricingInfo, last, fresh0, cache0, info0, now, fetch);
      return Ok(pricingInfo);
    }

    /**
     * The loop of the cluster pass over the discovered nodes: each priceable
     * node whose lookup succeeds is priced with the looked-up shared record,
     * its specs written in; a node whose lookup fails is skipped. `fresh0`,
     * `cache0` and `info0` record the cache as the pass found it.
     */
    method PriceNodes(nodeInfo: map<string, NodeSKUInfo>, ghost fresh0: set<string>, ghost cache0: map<string, AzurePriceData>,
                      ghost info0: map<string, PriceInfo>, now: int, fetch: PriceFetcher)
      returns (pricingInfo: map<string, AzurePriceData>, ghost processed: set<string>, ghost last: map<string, string>)
      requires Valid()
      requires Provenance(nodeInfo, fresh0, cache0, info0, now, fetch)
      modifies this, cache.Values
      ensures Valid()
      ensures processed == nodeInfo.Keys
      ensures Provenance(nodeInfo, fresh0, cache0, info0, now, fetch)
      ensures PassState(nodeInfo, processed, pricingInfo, last, now)
      ensures forall n :: n in nodeInfo && Priceable(nodeInfo[n]) ==>
        (CacheKey(nodeInfo[n].skuName, nodeInfo[n].region) in fresh0
         || FetchItems(nodeInfo[n].skuName, nodeInfo[n].region, fetch(nodeInfo[n].skuName, nodeInfo[n].region)).Ok?)
        ==> n in pricingInfo
    {
      pricingInfo := map[];
      var remaining := nodeInfo.Keys;
      processed := {};
      last := map[];
      while remaining != {}
        invariant remaining + processed == nodeInfo.Keys && remaining !! processed
        invariant Valid()
        invariant forall o :: o in cache.Values ==> o in old(cache.Values) || fresh(o)
        invariant Provenance(nodeInfo, fresh0, cache0, info0, now, fetch)
        invariant PassState(nodeInfo, processed, pricingInfo, last, now)
        invariant forall n :: n in processed && Priceable(nodeInfo[n]) ==>
          (CacheKey(nodeInfo[n].skuName, nodeInfo[n].region) in fresh0
           || FetchItems(nodeInfo[n].skuName, nodeInfo[n].region, fetch(nodeInfo[n].skuName, nodeInfo[n].region)).Ok?)
          ==> n in pricingInfo
        decreases remaining
      {
        var nodeName :| nodeName in remaining;
        pricingInfo, last := PriceInto(nodeInfo, nodeName, pricingInfo, processed, last, fresh0, cache0, info0, now, fetch);
        remaining := remaining - {nodeName};
        processed := processed + {nodeName};
      }
    }

    /** The keys whose records are fresh at `now`. */
    ghost function FreshKeys(now: int): (keys: set<string>)
      reads this, cache.Values
      ensures forall k :: k in keys <==> IsFresh(k, now)
    {
      set k | k in cache && IsFresh(k, now)
    }

    /**
     * Where each priced node's record comes from, given the keys `fresh0`
     * that were fresh, and the cache `cache0` with its values `info0`, when
     * the pass began: for a key that was fresh, the node's record is the
     * cached object itself with at most its specs and costs changed;
     * otherwise it was built from the best item of a successful lookup for
     * a node with that key.
     */
    ghost predicate PricedFromOrigin(nodeInfo: map<string, NodeSKUInfo>, pricingInfo: map<string, AzurePriceData>,
                                     fresh0: set<string>, cache0: map<string, AzurePriceData>, info0: map<string, PriceInfo>,
                                     now: int, fetch: PriceFetcher)
      reads pricingInfo.Values
    {
      forall n :: n in pricingInfo && n in nodeInfo ==>
        var key := CacheKey(nodeInfo[n].skuName, nodeInfo[n].region);
        if key in fresh0 then
          && key in cache0 && key in info0
          && pricingInfo[n] == cache0[key]
          && SpecsOnlyDiffer(info0[key], pricingInfo[n].Info())
        else
          PricedByFetch(nodeInfo, key, fetch, now, pricingInfo[n].Info())
    }

    /**
     * What `PricedFromOrigin` says of one priced node, field by field: a
     * node is priced only from a fresh entry or a successful lookup for a
     * node with its key; from a fresh entry, its record is that cached object
     * with its unit price and SKU kept; otherwise the unit price and SKU are
     * those of the best item of such a lookup.
     */
    lemma {:induction false} PricedRecordOrigin(nodeInfo: map<string, NodeSKUInfo>, pricingInfo: map<string, AzurePriceData>,
                                                fresh0: set<string>, cache0: map<string, AzurePriceData>,
                                                info0: map<string, PriceInfo>, now: int, fetch: PriceFetcher, n: string)
      requires PricedFromOrigin(nodeInfo, pricingInfo, fresh0, cache0, info0, now, fetch)
      requires n in pricingInfo && n in nodeInfo
      ensures var key := CacheKey(nodeInfo[n].skuName, nodeInfo[n].region);
        key in fresh0 ==>
          && key in cache0 && key in info0 && pricingInfo[n] == cache0[key]
          && pricingInfo[n].unitPrice == info0[key].unitPrice && pricingInfo[n].skuName == info0[key].skuName
      ensures var key := CacheKey(nodeInfo[n].skuName, nodeInfo[n].region);
        key !in fresh0 ==>
          exists m :: m in nodeInfo && Priceable(nodeInfo[m])
            && CacheKey(nodeInfo[m].skuName, nodeInfo[m].region) == key
            && var fetched := FetchItems(nodeInfo[m].skuName, nodeInfo[m].region, fetch(nodeInfo[m].skuName, nodeInfo[m].region));
               && fetched.Ok?
               && exists k :: IsBestItem(fetched.value, k)
                    && pricingInfo[n].unitPrice == fetched.value[k].unitPrice
                    && pricingInfo[n].skuName == fetched.value[k].armSkuName
    {
      var key := CacheKey(nodeInfo[n].skuName, nodeInfo[n].region);
      if key !in fresh0 {
        assert PricedByFetch(nodeInfo, key, fetch, now, pricingInfo[n].Info());
        var m :| m in nodeInfo && Priceable(nodeInfo[m])
          && CacheKey(nodeInfo[m].skuName, nodeInfo[m].region) == key
          && FetchedPrice(nodeInfo[m], fetch, now, pricingInfo[n].Info());
        var node := nodeInfo[m];
        var items := FetchItems(node.skuName, node.region, fetch(node.skuName, node.region)).value;
        var k :| IsBestItem(items, k)
          && SpecsOnlyDiffer(PriceFromItem(items[k], GetVMSpecifications(node.skuName), now), pricingInfo[n].Info());
        assert pricingInfo[n].unitPrice == items[k].unitPrice && pricingInfo[n].skuName == items[k].armSkuName;
      }
    }

    /** At the end of the pass, every priced record carries the specs of some node with its key. */
    lemma {:induction false} LastSpecsGiveNodeSpecs(nodeInfo: map<string, NodeSKUInfo>, processed: set<string>,
                                                    pricingInfo: map<string, AzurePriceData>, last: map<string, string>, now: int)
      requires PassState(nodeInfo, processed, pricingInfo, last, now)
      ensures forall n :: n in pricingInfo ==>
        exists m :: m in nodeInfo && Priceable(nodeInfo[m])
          && CacheKey(nodeInfo[m].skuName, nodeInfo[m].region) == CacheKey(nodeInfo[n].skuName, nodeInfo[n].region)
          && SpecsApplied(pricingInfo[n].Info(), nodeInfo[m])
    {
      forall n | n in pricingInfo
        ensures exists m :: && m in nodeInfo && Priceable(nodeInfo[m])
                            && CacheKey(nodeInfo[m].skuName, nodeInfo[m].region) == CacheKey(nodeInfo[n].skuName, nodeInfo[n].region)
                            && SpecsApplied(pricingInfo[n].Info(), nodeInfo[m])
      {
        assert LastSpecsHeld(nodeInfo, processed, last, CacheKey(nodeInfo[n].skuName, nodeInfo[n].region), now);
      }
    }

    /** At the end of the pass, the pass state and the provenance of the fresh records give each priced node's origin. */
    lemma {:induction false} PricedFromProvenance(nodeInfo: map<string, NodeSKUInfo>, processed: set<string>,
                                                  pricingInfo: map<string, AzurePriceData>, last: map<string, string>,
                                                  fresh0: set<string>, cache0: map<string, AzurePriceData>,
                                                  info0: map<string, PriceInfo>, now: int, fetch: PriceFetcher)
      requires PassState(nodeInfo, processed, pricingInfo, last, now)
      requires Provenance(nodeInfo, fresh0, cache0, info0, now, fetch)
      ensures PricedFromOrigin(nodeInfo, pricingInfo, fresh0, cache0, info0, now, fetch)
    {
      forall n | n in pricingInfo && n in nodeInfo
        ensures var key := CacheKey(nodeInfo[n].skuName, nodeInfo[n].region);
          if key in fresh0 then
            && key in cache0 && key in info0
            && pricingInfo[n] == cache0[key]
            && SpecsOnlyDiffer(info0[key], pricingInfo[n].Info())
          else
            PricedByFetch(nodeInfo, key, fetch, now, pricingInfo[n].Info())
      {
        var key := CacheKey(nodeInfo[n].skuName, nodeInfo[n].region);
        assert IsFresh(key, now) && cache[key] == pricingInfo[n];
      }
    }

    /**
     * Where the fresh records of the cluster pass come from: a record fresh
     * when the pass began (`fresh0`, with the cache `cache0` and its values
     * `info0` at that moment) is still that object and has at most its specs
     * and costs changed; any other fresh record comes from a successful
     * lookup for a node with its key.
     */
    ghost predicate Provenance(nodeInfo: map<string, NodeSKUInfo>, fresh0: set<string>, cache0: map<string, AzurePriceData>,
                               info0: map<string, PriceInfo>, now: int, fetch: PriceFetcher)
      reads this, cache.Values
    {
      && (forall k :: k in fresh0 ==>
            && k in cache0 && k in info0 && IsFresh(k, now)
            && cache[k] == cache0[k] && SpecsOnlyDiffer(info0[k], cache[k].Info()))
      && (forall k :: IsFresh(k, now) && k !in fresh0 ==> PricedByFetch(nodeInfo, k, fetch, now, cache[k].Info()))
    }

    /**
     * What the cluster pass keeps true of the nodes it has processed: every
     * priced node is priceable and its record is the fresh cache entry for
     * its SKU and region, and the entry under each key carries the specs of
     * the node last priced with that key.
     */
    ghost predicate PassState(nodeInfo: map<string, NodeSKUInfo>, processed: set<string>,
                              pricingInfo: map<string, AzurePriceData>, last: map<string, string>, now: int)
      reads this, cache.Values
    {
      && pricingInfo.Keys <= processed <= nodeInfo.Keys
      && (forall n :: n in pricingInfo ==>
            && Priceable(nodeInfo[n])
            && IsFresh(CacheKey(nodeInfo[n].skuName, nodeInfo[n].region), now)
            && cache[CacheKey(nodeInfo[n].skuName, nodeInfo[n].region)] == pricingInfo[n]
            && CacheKey(nodeInfo[n].skuName, nodeInfo[n].region) in last)
      && (forall key :: key in last ==> LastSpecsHeld(nodeInfo, processed, last, key, now))
    }

    /** One step of the cluster pass: node `nodeName` is priced, if it can be, into the pass's map. */
    method PriceInto(nodeInfo: map<string, NodeSKUInfo>, nodeName: string, pricingInfo: map<string, AzurePriceData>,
                     ghost processed: set<string>, ghost last: map<string, string>,
                     ghost fresh0: set<string>, ghost cache0: map<string, AzurePriceData>, ghost info0: map<string, PriceInfo>,
                     now: int, fetch: PriceFetcher)
      returns (updated: map<string, AzurePriceData>, ghost updatedLast: map<string, string>)
      requires Valid() && nodeName in nodeInfo && nodeName !in processed
      requires PassState(nodeInfo, processed, pricingInfo, last, now)
      requires Provenance(nodeInfo, fresh0, cache0, info0, now, fetch)
      modifies this, cache.Values
      ensures Valid()
      ensures PassState(nodeInfo, processed + {nodeName}, updated, updatedLast, now)
      ensures pricingInfo.Keys <= updated.Keys
      ensures forall o :: o in cache.Values ==> o in old(cache.Values) || fresh(o)
      ensures Priceable(nodeInfo[nodeName])
        && (CacheKey(nodeInfo[nodeName].skuName, nodeInfo[nodeName].region) in fresh0
            || old(IsFresh(CacheKey(nodeInfo[nodeName].skuName, nodeInfo[nodeName].region), now))
            || FetchItems(nodeInfo[nodeName].skuName, nodeInfo[nodeName].region,
                          fetch(nodeInfo[nodeName].skuName, nodeInfo[nodeName].region)).Ok?)
        ==> nodeName in updated
      ensures Provenance(nodeInfo, fresh0, cache0, info0, now, fetch)
    {
      var priced := PriceNode(nodeInfo[nodeName], now, fetch);
      ghost var key := CacheKey(nodeInfo[nodeName].skuName, nodeInfo[nodeName].region);
      updated, updatedLast := pricingInfo, last;
      if priced.Some? {
        updated := pricingInfo[nodeName := priced.value];
        updatedLast := last[key := nodeName];
      }
      forall n | n in updated
        ensures && Priceable(nodeInfo[n])
                && IsFresh(CacheKey(nodeInfo[n].skuName, nodeInfo[n].region), now)
                && cache[CacheKey(nodeInfo[n].skuName, nodeInfo[n].region)] == updated[n]
                && CacheKey(nodeInfo[n].skuName, nodeInfo[n].region) in updatedLast
      {
        if n != nodeName || priced.None? {
          assert old(IsFresh(CacheKey(nodeInfo[n].skuName, nodeInfo[n].region), now));
        }
      }
      forall k | k in updatedLast
        ensures LastSpecsHeld(nodeInfo, processed + {nodeName}, updatedLast, k, now)
      {
        if k != key || priced.None? {
          assert old(LastSpecsHeld(nodeInfo, processed, last, k, now));
          assert cache[k].Info() == old(cache[k].Info());
        }
      }
      forall k | k in fresh0
        ensures SpecsOnlyDiffer(info0[k], cache[k].Info())
      {
        SpecsOnlyDifferTransitive(info0[k], old(cache[k].Info()), cache[k].Info());
      }
      forall k | IsFresh(k, now) && k !in fresh0
        ensures PricedByFetch(nodeInfo, k, fetch, now, cache[k].Info())
      {
        if old(IsFresh(k, now)) {
          PricedByFetchKeptBySpecs(nodeInfo, k, fetch, now, old(cache[k].Info()), cache[k].Info());
        } else {
          var info := nodeInfo[nodeName];
          assert k == key && Priceable(info) && priced.Some?;
          var items := FetchItems(info.skuName, info.region, fetch(info.skuName, info.region)).value;
          var j :| IsBestItem(items, j)
            && priced.value.Info() == WithNodeSpecs(PriceFromItem(items[j], GetVMSpecifications(info.skuName), now), info);
          assert FetchedPrice(info, fetch, now, cache[k].Info());
        }
      }
    }

    /**
     * One round of the cluster pass: nodes without a SKU or region are
     * skipped, a failed lookup skips the node, and otherwise the looked-up
     * record, updated with the node's specs, is the node's price.
     */
    method PriceNode(info: NodeSKUInfo, now: int, fetch: PriceFetcher) returns (priced: Option<AzurePriceData>)
      requires Valid()
      modifies this, cache.Values
      ensures Valid()
      ensures forall k :: k in cache ==> cache[k] in old(cache.Values) || fresh(cache[k])
      ensures forall k :: old(IsFresh(k, now)) ==> IsFresh(k, now) && cache[k] == old(cache[k])
      ensures priced.Some? ==>
        && Priceable(info)
        && CacheKey(info.skuName, info.region) in cache
        && cache[CacheKey(info.skuName, info.region)] == priced.value
        && IsFresh(CacheKey(info.skuName, info.region), now)
        && SpecsApplied(priced.value.Info(), info)
      ensures Priceable(info)
        && (old(IsFresh(CacheKey(info.skuName, info.region), now))
            || FetchItems(info.skuName, info.region, fetch(info.skuName, info.region)).Ok?)
        ==> priced.Some?
      ensures priced.Some? && old(IsFresh(CacheKey(info.skuName, info.region), now)) ==>
        priced.value.Info() == WithNodeSpecs(old(cache[CacheKey(info.skuName, info.region)].Info()), info)
      ensures priced.Some? && !old(IsFresh(CacheKey(info.skuName, info.region), now)) ==>
        var fetched := FetchItems(info.skuName, info.region, fetch(info.skuName, info.region));
        && fetched.Ok?
        && exists k :: IsBestItem(fetched.value, k)
             && priced.value.Info() == WithNodeSpecs(PriceFromItem(fetched.value[k], GetVMSpecifications(info.skuName), now), info)
      ensures !Priceable(info) ==> priced.None? && cache == old(cache)
      ensures Priceable(info) && priced.None? ==> CacheKey(info.skuName, info.region) !in cache
      ensures forall k :: old(IsFresh(k, now)) ==> k in cache && SpecsOnlyDiffer(old(cache[k].Info()), cache[k].Info())
      ensures forall k :: k in cache && (k != CacheKey(info.skuName, info.region) || !Priceable(info)) ==>
        k in old(cache) && cache[k] == old(cache[k]) && cache[k].Info() == old(cache[k].Info())
    {
      if info.skuName == "" || info.region == "" {
        return None;
      }
      var r := GetSKUPricing(info.skuName, info.region, now, fetch);
      if r.Err? {
        return None;
      }
      var priceData := r.value;
      ghost var looked := priceData.Info();
      UpdateWithNodeSpecs(priceData, info);
      WithNodeSpecsApplied(looked, info);
      return Some(priceData);
    }

    /** Writes a node's reported specs into a cached record and recomputes its costs. */
    method UpdateWithNodeSpecs(priceData: AzurePriceData, info: NodeSKUInfo)
      requires Valid() && priceData in cache.Values
      modifies priceData
      ensures Valid()
      ensures priceData.Info() == WithNodeSpecs(old(priceData.Info()), info)
      ensures priceData.lastUpdated == old(priceData.lastUpdated)
    {
      var updated := WithNodeSpecs(priceData.Info(), info);
      if priceData.unitPrice >= 0.0 {
        WithNodeSpecsConsistent(priceData.Info(), info);
      }
      priceData.cpuCores := updated.cpuCores;
      priceData.memoryGB := updated.memoryGB;
      priceData.cpuCostPerCore := updated.cpuCostPerCore;
      priceData.memoryCostPerGB := updated.memoryCostPerGB;
    }
  }
}
