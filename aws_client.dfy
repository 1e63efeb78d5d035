/**
 * The AWS pricing client (internal/pricing/aws/client.go): a client that
 * initializes itself once, and a per-resource lookup that classifies the
 * resource type, builds a product filter, queries the price list and reads
 * the on-demand hourly price of the first product.
 *
 * The SDK, `json.Unmarshal`, the float scan and the clock are outside the
 * model: their outcomes arrive in an `Sdk` value.
 */
module AwsPricing {
  import opened Wrappers
  import opened Strings
  import opened Resources

  // ---------------------------------------------------------------------
  // The environment

  /** A decoded JSON value, as far as the lookup inspects it. */
  datatype Json =
    | JObject(fields: map<string, Json>)
    | JString(s: string)
    | JOther

  datatype Filter = Filter(field: string, matchType: string, value: string)

  /** A `GetProducts` request. */
  datatype ProductsQuery = ProductsQuery(serviceCode: string, filters: seq<Filter>, maxResults: int)

  /**
   * What the outside world answers: the two initialization calls, the
   * price-list query, the JSON decoder, the `%f` scan of a price string,
   * and the current time.
   */
  datatype Sdk = Sdk(
    configError: Option<string>,
    describeError: Option<string>,
    getProducts: ProductsQuery -> Result<seq<string>>,
    unmarshal: string -> Result<map<string, Json>>,
    scanFloat: string -> Result<real>,
    now: int)

  const TermMatch: string := "TERM_MATCH"
  const DefaultRegion: string := "us-east-1"
  const MaxResults: int := 100

  // ---------------------------------------------------------------------
  // Classification and filters

  datatype Service = EC2 | RDS | ElastiCache

  function ServiceCode(s: Service): string {
    match s
    case EC2 => "AmazonEC2"
    case RDS => "AmazonRDS"
    case ElastiCache => "AmazonElastiCache"
  }

  /** The service a resource type is priced under; the prefixes are tried in this order. */
  function ServiceFor(resourceType: string): (s: Option<Service>)
    ensures s == Some(EC2) <==> HasPrefix(resourceType, "aws_instance")
    ensures s == Some(RDS) <==> !HasPrefix(resourceType, "aws_instance") && HasPrefix(resourceType, "aws_db_instance")
    ensures s == Some(ElastiCache) <==>
      !HasPrefix(resourceType, "aws_instance") && !HasPrefix(resourceType, "aws_db_instance")
      && HasPrefix(resourceType, "aws_elasticache")
  {
    if HasPrefix(resourceType, "aws_instance") then Some(EC2)
    else if HasPrefix(resourceType, "aws_db_instance") then Some(RDS)
    else if HasPrefix(resourceType, "aws_elasticache") then Some(ElastiCache)
    else None
  }

  /** The region a query is made for: the resource's, or the default. */
  function QueryRegion(region: string): (q: string)
    ensures q != ""
    ensures region != "" ==> q == region
  {
    if region == "" then DefaultRegion else region
  }

  /**
   * The filter list: the service code, the region, and the instance type
   * only when the size is known and the service is EC2 or RDS.
   */
  function Filters(service: Service, region: string, size: string): (fs: seq<Filter>)
    ensures 2 <= |fs| <= 3
    ensures fs[0] == Filter("ServiceCode", TermMatch, ServiceCode(service))
    ensures fs[1] == Filter("regionCode", TermMatch, QueryRegion(region))
    ensures |fs| == 3 <==> size != "" && service != ElastiCache
    ensures |fs| == 3 ==> fs[2] == Filter("instanceType", TermMatch, size)
    ensures forall i :: 0 <= i < |fs| ==> fs[i].matchType == TermMatch && fs[i].value != ""
  {
    var base := [Filter("ServiceCode", TermMatch, ServiceCode(service)),
                 Filter("regionCode", TermMatch, QueryRegion(region))];
    if size != "" && (service == EC2 || service == RDS) then base + [Filter("instanceType", TermMatch, size)]
    else base
  }

  function QueryFor(service: Service, r: Resource): ProductsQuery {
    ProductsQuery(ServiceCode(service), Filters(service, r.region, r.size), MaxResults)
  }

  // ---------------------------------------------------------------------
  // Reading the first product

  /** The member `k` of `m` when it is an object. */
  function ObjectField(m: map<string, Json>, k: string): Option<map<string, Json>> {
    if k in m && m[k].JObject? then Some(m[k].fields) else None
  }

  /** The member `k` of `m` when it is a string. */
  function StringField(m: map<string, Json>, k: string): Option<string> {
    if k in m && m[k].JString? then Some(m[k].s) else None
  }

  /** What reading one product yields: a price and unit, or the source text and error of the first check that failed. */
  datatype Lookup =
    | Found(hourly: real, unit: Option<string>)
    | Malformed(source: string, message: string)

  /** A failed lookup: the pricing source records the error behind an `Error: ` prefix. */
  function Failure(what: string, message: string): (r: Lookup)
    ensures r.Malformed? && HasPrefix(r.source, "Error: ") && r.message == message
  {
    Malformed("Error: " + what, message)
  }

  /**
   * The chain of checks on the first product, in the order the client makes
   * them; `sku` and `dimKey` are the first keys Go's range visited in the
   * on-demand terms and in the price dimensions.
   */
  function ReadPrice(doc: Result<map<string, Json>>, sku: string, dimKey: string, scan: string -> Result<real>): (r: Lookup)
    ensures doc.Err? || sku == "" || dimKey == "" ==> r.Malformed?
    ensures r.Malformed? ==> HasPrefix(r.source, "Error: ")
  {
    if doc.Err? then Failure("Failed to parse pricing data", "failed to parse pricing data: " + doc.error)
    else
      var terms := ObjectField(doc.value, "terms");
      if terms.None? then Failure("Invalid pricing data structure", "invalid pricing data structure")
      else
        var onDemand := ObjectField(terms.value, "OnDemand");
        if onDemand.None? then Failure("No on-demand pricing available", "no on-demand pricing available")
        else if sku == "" then Failure("No pricing SKU found", "no pricing SKU found")
        else ReadTerm(onDemand.value, sku, dimKey, scan)
  }

  /** The checks on the on-demand term `sku` and its price dimension `dimKey`. */
  function ReadTerm(onDemand: map<string, Json>, sku: string, dimKey: string, scan: string -> Result<real>): (r: Lookup)
    ensures r.Found? ==> sku in onDemand && dimKey != ""
    ensures r.Malformed? ==> HasPrefix(r.source, "Error: ")
  {
    var term := ObjectField(onDemand, sku);
    if term.None? then Failure("Invalid SKU pricing structure", "invalid SKU pricing structure")
    else
      var dims := ObjectField(term.value, "priceDimensions");
      if dims.None? then Failure("No price dimensions found", "no price dimensions found")
      else if dimKey == "" then Failure("No price dimension key found", "no price dimension key found")
      else
        var dim := ObjectField(dims.value, dimKey);
        if dim.None? then Failure("Invalid price dimension structure", "invalid price dimension structure")
        else ReadDimension(dim.value, scan)
  }

  /** The checks on one price dimension: its USD price per unit, scanned, and its unit. */
  function ReadDimension(dim: map<string, Json>, scan: string -> Result<real>): (r: Lookup)
    ensures r.Found? ==> "pricePerUnit" in dim && r.unit == StringField(dim, "unit")
    ensures r.Malformed? ==> HasPrefix(r.source, "Error: ")
  {
    var perUnit := ObjectField(dim, "pricePerUnit");
    if perUnit.None? then Failure("No price per unit found", "no price per unit found")
    else
      var usd := StringField(perUnit.value, "USD");
      if usd.None? then Failure("No USD price found", "no USD price found")
      else
        var price := scan(usd.value);
        if price.Err? then Failure("Failed to parse price", "failed to parse price: " + price.error)
        else Found(price.value, StringField(dim, "unit"))
  }

  /** The JSON value at `path` below `j`. */
  function At(j: Json, path: seq<string>): Option<Json>
    decreases |path|
  {
    if path == [] then Some(j)
    else if j.JObject? && path[0] in j.fields then At(j.fields[path[0]], path[1..])
    else None
  }

  /** The path of the hourly USD price of dimension `dimKey` of on-demand term `sku`. */
  function PricePath(sku: string, dimKey: string): seq<string> {
    ["terms", "OnDemand", sku, "priceDimensions", dimKey, "pricePerUnit", "USD"]
  }

  function UnitPath(sku: string, dimKey: string): seq<string> {
    ["terms", "OnDemand", sku, "priceDimensions", dimKey, "unit"]
  }

  lemma AtObjectField(m: map<string, Json>, k: string, rest: seq<string>)
    ensures ObjectField(m, k).Some? ==> At(JObject(m), [k] + rest) == At(JObject(ObjectField(m, k).value), rest)
    ensures ObjectField(m, k).None? && rest != [] ==> At(JObject(m), [k] + rest).None?
  {
    assert ([k] + rest)[1..] == rest;
    if k in m && rest != [] {
      assert rest == [rest[0]] + rest[1..];
    }
  }

  /**
   * Reading succeeds exactly when both picked keys are non-empty and the
   * price path leads to a string the scan accepts; the price is that scan
   * and the unit is the dimension's string `unit`, if any.
   */
  lemma ReadPriceFollowsPath(doc: Result<map<string, Json>>, sku: string, dimKey: string, scan: string -> Result<real>)
    ensures ReadPrice(doc, sku, dimKey, scan).Found? <==>
      && doc.Ok? && sku != "" && dimKey != ""
      && At(JObject(doc.value), PricePath(sku, dimKey)).Some?
      && At(JObject(doc.value), PricePath(sku, dimKey)).value.JString?
      && scan(At(JObject(doc.value), PricePath(sku, dimKey)).value.s).Ok?
    ensures ReadPrice(doc, sku, dimKey, scan).Found? ==>
      && ReadPrice(doc, sku, dimKey, scan).hourly == scan(At(JObject(doc.value), PricePath(sku, dimKey)).value.s).value
      && (ReadPrice(doc, sku, dimKey, scan).unit.Some? <==>
           At(JObject(doc.value), UnitPath(sku, dimKey)).Some? && At(JObject(doc.value), UnitPath(sku, dimKey)).value.JString?)
  {
    if doc.Ok? && sku != "" {
      var tail := ["priceDimensions", dimKey];
      assert PricePath(sku, dimKey) == ["terms"] + (["OnDemand"] + ([sku] + tail + ["pricePerUnit", "USD"]));
      assert UnitPath(sku, dimKey) == ["terms"] + (["OnDemand"] + ([sku] + tail + ["unit"]));
      AtObjectField(doc.value, "terms", ["OnDemand"] + ([sku] + tail + ["pricePerUnit", "USD"]));
      AtObjectField(doc.value, "terms", ["OnDemand"] + ([sku] + tail + ["unit"]));
      var terms := ObjectField(doc.value, "terms");
      if terms.Some? {
        AtObjectField(terms.value, "OnDemand", [sku] + tail + ["pricePerUnit", "USD"]);
        AtObjectField(terms.value, "OnDemand", [sku] + tail + ["unit"]);
        var onDemand := ObjectField(terms.value, "OnDemand");
        if onDemand.Some? {
          ReadTermFollowsPath(onDemand.value, sku, dimKey, scan);
        }
      }
    }
  }

  lemma ReadTermFollowsPath(onDemand: map<string, Json>, sku: string, dimKey: string, scan: string -> Result<real>)
    ensures var r := ReadTerm(onDemand, sku, dimKey, scan);
            var price := At(JObject(onDemand), [sku] + ["priceDimensions", dimKey] + ["pricePerUnit", "USD"]);
            var unit := At(JObject(onDemand), [sku] + ["priceDimensions", dimKey] + ["unit"]);
            && (r.Found? <==> dimKey != "" && price.Some? && price.value.JString? && scan(price.value.s).Ok?)
            && (r.Found? ==> r.hourly == scan(price.value.s).value)
            && (r.Found? ==> (r.unit.Some? <==> unit.Some? && unit.value.JString?))
  {
    var price, unit := ["pricePerUnit", "USD"], ["unit"];
    assert [sku] + ["priceDimensions", dimKey] + price == [sku] + (["priceDimensions"] + ([dimKey] + price));
    assert [sku] + ["priceDimensions", dimKey] + unit == [sku] + (["priceDimensions"] + ([dimKey] + unit));
    AtObjectField(onDemand, sku, ["priceDimensions"] + ([dimKey] + price));
    AtObjectField(onDemand, sku, ["priceDimensions"] + ([dimKey] + unit));
    var term := ObjectField(onDemand, sku);
    if term.Some? {
      AtObjectField(term.value, "priceDimensions", [dimKey] + price);
      AtObjectField(term.value, "priceDimensions", [dimKey] + unit);
      var dims := ObjectField(term.value, "priceDimensions");
      if dims.Some? {
        AtObjectField(dims.value, dimKey, price);
        AtObjectField(dims.value, dimKey, unit);
        var dim := ObjectField(dims.value, dimKey);
        if dim.Some? {
          ReadDimensionFollowsPath(dim.value, scan);
        }
      }
    }
  }

  lemma ReadDimensionFollowsPath(dim: map<string, Json>, scan: string -> Result<real>)
    ensures var r := ReadDimension(dim, scan);
            var price := At(JObject(dim), ["pricePerUnit", "USD"]);
            var unit := At(JObject(dim), ["unit"]);
            && (r.Found? <==> price.Some? && price.value.JString? && scan(price.value.s).Ok?)
            && (r.Found? ==> r.hourly == scan(price.value.s).value)
            && (r.Found? ==> (r.unit.Some? <==> unit.Some? && unit.value.JString?))
  {
    assert ["pricePerUnit", "USD"] == ["pricePerUnit"] + ["USD"];
    AtObjectField(dim, "pricePerUnit", ["USD"]);
    AtLeaf(dim, "unit");
    var perUnit := ObjectField(dim, "pricePerUnit");
    if perUnit.Some? {
      AtLeaf(perUnit.value, "USD");
    }
  }

  lemma AtLeaf(m: map<string, Json>, k: string)
    ensures At(JObject(m), [k]) == if k in m then Some(m[k]) else None
  {
    if k in m {
      assert [k][1..] == [];
    }
  }

  /** `k` is what `for k := range m { ...; break }` leaves in a key variable that starts empty. */
  predicate IsRangeFirst(m: map<string, Json>, k: string) {
    if m == map[] then k == "" else k in m
  }

  /** The on-demand terms of a decoded product, when the checks reach them. */
  function OnDemandTerms(doc: Result<map<string, Json>>): Option<map<string, Json>> {
    if doc.Err? then None
    else
      var terms := ObjectField(doc.value, "terms");
      if terms.None? then None else ObjectField(terms.value, "OnDemand")
  }

  /** The price dimensions of on-demand term `sku`, when the checks reach them. */
  function Dimensions(doc: Result<map<string, Json>>, sku: string): Option<map<string, Json>> {
    var onDemand := OnDemandTerms(doc);
    if onDemand.None? || sku == "" then None
    else
      var term := ObjectField(onDemand.value, sku);
      if term.None? then None else ObjectField(term.value, "priceDimensions")
  }

  /** The two first-key picks are ones Go's range order can make. */
  predicate ValidPicks(doc: Result<map<string, Json>>, sku: string, dimKey: string) {
    && (OnDemandTerms(doc).Some? ==> IsRangeFirst(OnDemandTerms(doc).value, sku))
    && (Dimensions(doc, sku).Some? ==> IsRangeFirst(Dimensions(doc, sku).value, dimKey))
  }

  // ---------------------------------------------------------------------
  // What a lookup writes to the resource

  /** An error outcome that zeroes the three prices and replaces the pricing details. */
  function Zeroed(r: Resource, source: string, now: int): (z: Resource)
    ensures z.hourlyPrice == 0.0 && z.monthlyPrice == 0.0 && z.yearlyPrice == 0.0 && z.PricesConsistent()
    ensures z.pricingDetails == Some(PricingDetails("USD", source, now, []))
    ensures z.(hourlyPrice := r.hourlyPrice, monthlyPrice := r.monthlyPrice, yearlyPrice := r.yearlyPrice,
               pricingDetails := r.pricingDetails) == r
  {
    r.(hourlyPrice := 0.0, monthlyPrice := 0.0, yearlyPrice := 0.0,
       pricingDetails := Some(PricingDetails("USD", source, now, [])))
  }

  /** The success outcome: the scanned hourly price and the two derived from it. */
  function Priced(r: Resource, hourly: real, unit: Option<string>, now: int): (p: Resource)
    ensures p.hourlyPrice == hourly && p.PricesConsistent()
    ensures p.pricingDetails.Some? && p.pricingDetails.value.pricingSource == "AWS Pricing API"
    ensures |p.pricingDetails.value.priceComponents| == (if unit.Some? then 1 else 0)
  {
    var components := if unit.Some? then [PriceComponent("On-Demand " + unit.value, hourly, 1.0, hourly)] else [];
    r.(hourlyPrice := hourly, monthlyPrice := hourly * HoursPerMonth, yearlyPrice := hourly * HoursPerYear,
       pricingDetails := Some(PricingDetails("USD", "AWS Pricing API", now, components)))
  }

  /** The error `GetPrice` sees from initialization: a fresh attempt's, or the one cached. */
  function InitError(configError: Option<string>, describeError: Option<string>): (e: Option<string>)
    ensures e.None? <==> configError.None? && describeError.None?
    ensures configError.Some? ==> e == Some("AWS credentials not found: " + configError.value)
  {
    if configError.Some? then Some("AWS credentials not found: " + configError.value)
    else if describeError.Some? then Some("AWS API access failed: " + describeError.value)
    else None
  }

  /** The query made for `r`, when its type has a service. */
  function QueryOf(r: Resource): Option<ProductsQuery> {
    match ServiceFor(r.resourceType)
    case None => None
    case Some(service) => Some(QueryFor(service, r))
  }

  /** The lookup gets as far as decoding the first product listed. */
  predicate ReachesProduct(r: Resource, initError: Option<string>, sdk: Sdk) {
    && initError.None? && QueryOf(r).Some?
    && sdk.getProducts(QueryOf(r).value).Ok? && sdk.getProducts(QueryOf(r).value).value != []
  }

  /** The decoded first product. */
  function FirstDocument(r: Resource, initError: Option<string>, sdk: Sdk): Result<map<string, Json>>
    requires ReachesProduct(r, initError, sdk)
  {
    sdk.unmarshal(sdk.getProducts(QueryOf(r).value).value[0])
  }

  /**
   * The outcome of `GetPrice` on `r`, given the initialization error it
   * sees and the SDK's answers: the updated resource and the returned error.
   */
  function PriceOutcome(r: Resource, initError: Option<string>, sdk: Sdk, sku: string, dimKey: string): (out: (Resource, Option<string>))
    ensures out.0.(hourlyPrice := r.hourlyPrice, monthlyPrice := r.monthlyPrice, yearlyPrice := r.yearlyPrice,
                   pricingDetails := r.pricingDetails) == r
    ensures out.0.pricingDetails.Some? && out.0.pricingDetails.value.lastUpdated == sdk.now
  {
    if initError.Some? then
      (Zeroed(r, "Error: " + initError.value, sdk.now), Some("AWS pricing data unavailable: " + initError.value))
    else
      match ServiceFor(r.resourceType)
      case None =>
        (Zeroed(r, "Error: Unsupported resource type", sdk.now), Some("unsupported resource type for pricing: " + r.resourceType))
      case Some(service) =>
        var products := sdk.getProducts(QueryFor(service, r));
        if products.Err? then
          (Zeroed(r, "Error: " + products.error, sdk.now), Some("failed to get pricing data: " + products.error))
        else if products.value == [] then
          (Zeroed(r, "Error: No pricing data found", sdk.now), Some("no pricing data found for resource: " + r.id))
        else
          LookupOutcome(r, ReadPrice(sdk.unmarshal(products.value[0]), sku, dimKey, sdk.scanFloat), sdk.now)
  }

  /** What the result of reading the first product does to the resource. */
  function LookupOutcome(r: Resource, lookup: Lookup, now: int): (out: (Resource, Option<string>))
    ensures out.1.None? <==> lookup.Found?
    ensures out.0.pricingDetails.Some? && out.0.pricingDetails.value.lastUpdated == now
    ensures lookup.Malformed? ==> out.0 == r.(pricingDetails := out.0.pricingDetails)
    ensures lookup.Malformed? ==> out.0.pricingDetails.value.pricingSource == lookup.source && out.0.pricingDetails.value.priceComponents == []
  {
    match lookup
    case Malformed(source, message) =>
      (r.(pricingDetails := Some(PricingDetails("USD", source, now, []))), Some(message))
    case Found(hourly, unit) =>
      (Priced(r, hourly, unit, now), None)
  }

  /**
   * `GetPrice` succeeds exactly when the first product is reached and read;
   * then the hourly price is the one read and the other two derive from it.
   */
  lemma PriceOutcomeSucceeds(r: Resource, initError: Option<string>, sdk: Sdk, sku: string, dimKey: string)
    ensures var out := PriceOutcome(r, initError, sdk, sku, dimKey);
      out.1.None? <==> ReachesProduct(r, initError, sdk) && ReadPrice(FirstDocument(r, initError, sdk), sku, dimKey, sdk.scanFloat).Found?
    ensures var out := PriceOutcome(r, initError, sdk, sku, dimKey);
      out.1.None? ==>
        && out.0.hourlyPrice == ReadPrice(FirstDocument(r, initError, sdk), sku, dimKey, sdk.scanFloat).hourly
        && out.0.PricesConsistent()
        && out.0.pricingDetails.value.pricingSource == "AWS Pricing API"
  {
  }

  /** Every failure before a product is read zeroes the three prices. */
  lemma PriceOutcomeZeroes(r: Resource, initError: Option<string>, sdk: Sdk, sku: string, dimKey: string)
    ensures !ReachesProduct(r, initError, sdk) ==>
      var out := PriceOutcome(r, initError, sdk, sku, dimKey);
      && out.1.Some?
      && out.0.hourlyPrice == 0.0 && out.0.monthlyPrice == 0.0 && out.0.yearlyPrice == 0.0
      && out.0.pricingDetails.value.priceComponents == []
  {
    if initError.None? && QueryOf(r).Some? {
      var products := sdk.getProducts(QueryOf(r).value);
      assert products.Err? || products.value == [] ==> !ReachesProduct(r, initError, sdk);
    }
  }

  /** A product that cannot be read keeps the old prices and records why in the details. */
  lemma PriceOutcomeKeepsPrices(r: Resource, initError: Option<string>, sdk: Sdk, sku: string, dimKey: string)
    ensures ReachesProduct(r, initError, sdk) && ReadPrice(FirstDocument(r, initError, sdk), sku, dimKey, sdk.scanFloat).Malformed? ==>
      var out := PriceOutcome(r, initError, sdk, sku, dimKey);
      var lookup := ReadPrice(FirstDocument(r, initError, sdk), sku, dimKey, sdk.scanFloat);
      && out.1 == Some(lookup.message)
      && out.0.hourlyPrice == r.hourlyPrice && out.0.monthlyPrice == r.monthlyPrice && out.0.yearlyPrice == r.yearlyPrice
      && out.0.pricingDetails == Some(PricingDetails("USD", lookup.source, sdk.now, []))
  {
  }

  /** The error text names the stage that failed. */
  lemma PriceOutcomeMessages(r: Resource, initError: Option<string>, sdk: Sdk, sku: string, dimKey: string)
    ensures var out := PriceOutcome(r, initError, sdk, sku, dimKey);
      && (initError.Some? ==> out.1 == Some("AWS pricing data unavailable: " + initError.value))
      && (initError.None? && QueryOf(r).None? ==> out.1 == Some("unsupported resource type for pricing: " + r.resourceType))
      && (initError.None? && QueryOf(r).Some? && sdk.getProducts(QueryOf(r).value).Err? ==>
            out.1 == Some("failed to get pricing data: " + sdk.getProducts(QueryOf(r).value).error))
      && (initError.None? && QueryOf(r).Some? && sdk.getProducts(QueryOf(r).value) == Ok([]) ==>
            out.1 == Some("no pricing data found for resource: " + r.id))
  {
  }

  // ---------------------------------------------------------------------
  // The client

  class Client {
    /** The region queries are sent to. */
    var region: string
    var initialized: bool
    /** The cached initialization error. */
    var error: Option<string>
    /** A pricing client has been created from a loaded configuration. */
    var hasPricingClient: bool
    /** How many initialization attempts were made. */
    ghost var initAttempts: nat

    ghost predicate Valid()
      reads this
    {
      && (initialized <==> initAttempts > 0)
      && (!initialized ==> error.None? && !hasPricingClient)
      && (initialized && error.None? ==> hasPricingClient)
    }

    /** `NewClient`. */
    constructor NewClient()
      ensures Valid() && !initialized && error.None? && region == "us-east-1"
    {
      region := "us-east-1";
      initialized := false;
      error := None;
      hasPricingClient := false;
      initAttempts := 0;
    }

    /** `GetName`. */
    function Name(): (n: string)
      ensures n == "AWS"
    {
      "AWS"
    }

    /**
     * `Initialize`: marks the client initialized first, then loads the
     * configuration and probes the API. A failure is cached; success leaves
     * an earlier cached error in place.
     */
    method Initialize(configError: Option<string>, describeError: Option<string>) returns (err: Option<string>)
      requires Valid()
      modifies this`initialized, this`error, this`hasPricingClient, this`initAttempts
      ensures Valid() && initialized && initAttempts == old(initAttempts) + 1
      ensures err == InitError(configError, describeError)
      ensures error == if err.Some? then err else old(error)
      ensures hasPricingClient == (old(hasPricingClient) || configError.None?)
    {
      initialized := true;
      initAttempts := initAttempts + 1;
      if configError.Some? {
        error := Some("AWS credentials not found: " + configError.value);
        return error;
      }
      hasPricingClient := true;
      if describeError.Some? {
        error := Some("AWS API access failed: " + describeError.value);
        return error;
      }
      return None;
    }

    /**
     * `GetPrice`: initializes on first use, then prices `resource`. The
     * updated resource is returned; `sku` and `dimKey` are the first keys
     * the two range loops picked.
     */
    method GetPrice(resource: Resource, sdk: Sdk) returns (priced: Resource, err: Option<string>, ghost sku: string, ghost dimKey: string)
      requires Valid()
      modifies this`initialized, this`error, this`hasPricingClient, this`initAttempts
      ensures Valid() && initialized
      ensures initAttempts == if old(initialized) then old(initAttempts) else 1
      ensures var seen := if old(initialized) then old(error) else InitError(sdk.configError, sdk.describeError);
              (priced, err) == PriceOutcome(resource, seen, sdk, sku, dimKey)
      ensures var seen := if old(initialized) then old(error) else InitError(sdk.configError, sdk.describeError);
              ReachesProduct(resource, seen, sdk) ==> ValidPicks(FirstDocument(resource, seen, sdk), sku, dimKey)
      ensures error == if old(initialized) then old(error) else InitError(sdk.configError, sdk.describeError)
      ensures hasPricingClient == (old(hasPricingClient) || (!old(initialized) && sdk.configError.None?))
    {
      sku, dimKey := "", "";
      priced := resource;
      if !initialized {
        var e := Initialize(sdk.configError, sdk.describeError);
        if e.Some? {
          priced := Zeroed(priced, "Error: " + e.value, sdk.now);
          return priced, Some("AWS pricing data unavailable: " + e.value), sku, dimKey;
        }
      } else if error.Some? {
        priced := Zeroed(priced, "Error: " + error.value, sdk.now);
        return priced, Some("AWS pricing data unavailable: " + error.value), sku, dimKey;
      }

      assert !old(initialized) ==> InitError(sdk.configError, sdk.describeError) == None;
      priced, err, sku, dimKey := PriceReady(resource, sdk);
    }

    /** `GetPrice` once initialization is known to have succeeded. */
    static method PriceReady(resource: Resource, sdk: Sdk) returns (priced: Resource, err: Option<string>, ghost sku: string, ghost dimKey: string)
      ensures (priced, err) == PriceOutcome(resource, None, sdk, sku, dimKey)
      ensures ReachesProduct(resource, None, sdk) ==> ValidPicks(FirstDocument(resource, None, sdk), sku, dimKey)
    {
      sku, dimKey := "", "";
      priced := resource;
      var queryRegion := resource.region;
      if queryRegion == "" {
        queryRegion := "us-east-1";
      }
      assert queryRegion == QueryRegion(resource.region);

      var selected := SelectService(resource.resourceType);
      if selected.None? {
        priced := Zeroed(priced, "Error: Unsupported resource type", sdk.now);
        return priced, Some("unsupported resource type for pricing: " + resource.resourceType), sku, dimKey;
      }
      var service := selected.value;
      var filters := BuildFilters(service, queryRegion, resource.size);

      var response := sdk.getProducts(ProductsQuery(ServiceCode(service), filters, 100));
      if response.Err? {
        priced := Zeroed(priced, "Error: " + response.error, sdk.now);
        return priced, Some("failed to get pricing data: " + response.error), sku, dimKey;
      }
      if |response.value| == 0 {
        priced := Zeroed(priced, "Error: No pricing data found", sdk.now);
        return priced, Some("no pricing data found for resource: " + resource.id), sku, dimKey;
      }

      var doc := sdk.unmarshal(response.value[0]);
      var lookup;
      lookup, sku, dimKey := ReadFirstProduct(doc, sdk.scanFloat);
      priced, err := RecordLookup(priced, lookup, sdk.now);
    }

    /** The `switch` on the resource type's prefix. */
    static method SelectService(resourceType: string) returns (service: Option<Service>)
      ensures service == ServiceFor(resourceType)
    {
      if HasPrefix(resourceType, "aws_instance") {
        service := Some(EC2);
      } else if HasPrefix(resourceType, "aws_db_instance") {
        service := Some(RDS);
      } else if HasPrefix(resourceType, "aws_elasticache") {
        service := Some(ElastiCache);
      } else {
        service := None;
      }
    }

    /** The filter list, built by appending as the client does. */
    static method BuildFilters(service: Service, queryRegion: string, instanceType: string) returns (filters: seq<Filter>)
      requires queryRegion != ""
      ensures filters == Filters(service, queryRegion, instanceType)
    {
      filters := [Filter("ServiceCode", TermMatch, ServiceCode(service))];
      filters := filters + [Filter("regionCode", TermMatch, queryRegion)];
      if instanceType != "" {
        if service == EC2 {
          filters := filters + [Filter("instanceType", TermMatch, instanceType)];
        } else if service == RDS {
          filters := filters + [Filter("instanceType", TermMatch, instanceType)];
        }
      }
    }

    /**
     * The tail of `GetPrice`: fresh details, then either the source of the
     * failed check, or the price, its derived prices and its unit component.
     */
    static method RecordLookup(resource: Resource, lookup: Lookup, now: int) returns (priced: Resource, err: Option<string>)
      ensures (priced, err) == LookupOutcome(resource, lookup, now)
    {
      priced := resource.(pricingDetails := Some(PricingDetails("USD", "", now, [])));
      match lookup
      case Malformed(source, message) =>
        priced := priced.(pricingDetails := Some(priced.pricingDetails.value.(pricingSource := source)));
        err := Some(message);
      case Found(hourly, unit) =>
        priced := priced.(hourlyPrice := hourly);
        priced := priced.(monthlyPrice := priced.hourlyPrice * 730.0, yearlyPrice := priced.hourlyPrice * 8760.0);
        priced := priced.(pricingDetails := Some(priced.pricingDetails.value.(pricingSource := "AWS Pricing API")));
        if unit.Some? {
          var component := PriceComponent("On-Demand " + unit.value, hourly, 1.0, hourly);
          priced := priced.(pricingDetails := Some(priced.pricingDetails.value.(
            priceComponents := priced.pricingDetails.value.priceComponents + [component])));
          assert priced.pricingDetails.value.priceComponents == [component];
        }
        err := None;
    }

    /**
     * The checks on the first product, picking the first SKU and the first
     * price dimension in Go's range order.
     */
    static method ReadFirstProduct(doc: Result<map<string, Json>>, scan: string -> Result<real>)
      returns (lookup: Lookup, ghost sku: string, ghost dimKey: string)
      ensures lookup == ReadPrice(doc, sku, dimKey, scan)
      ensures ValidPicks(doc, sku, dimKey)
    {
      sku, dimKey := "", "";
      if doc.Err? {
        return Failure("Failed to parse pricing data", "failed to parse pricing data: " + doc.error), sku, dimKey;
      }
      var priceData := doc.value;
      if !("terms" in priceData && priceData["terms"].JObject?) {
        return Failure("Invalid pricing data structure", "invalid pricing data structure"), sku, dimKey;
      }
      var terms := priceData["terms"].fields;
      if !("OnDemand" in terms && terms["OnDemand"].JObject?) {
        return Failure("No on-demand pricing available", "no on-demand pricing available"), sku, dimKey;
      }
      var onDemand := terms["OnDemand"].fields;
      var firstSku := "";
      if onDemand != map[] {
        firstSku :| firstSku in onDemand;
      }
      sku := firstSku;
      if firstSku == "" {
        return Failure("No pricing SKU found", "no pricing SKU found"), sku, dimKey;
      }
      lookup, dimKey := ReadFirstDimension(onDemand, firstSku, scan);
    }

    /** The checks on on-demand term `sku`, picking its first price dimension in Go's range order. */
    static method ReadFirstDimension(onDemand: map<string, Json>, sku: string, scan: string -> Result<real>)
      returns (lookup: Lookup, ghost dimKey: string)
      requires sku != ""
      ensures lookup == ReadTerm(onDemand, sku, dimKey, scan)
      ensures ObjectField(onDemand, sku).Some? && ObjectField(ObjectField(onDemand, sku).value, "priceDimensions").Some? ==>
                IsRangeFirst(ObjectField(ObjectField(onDemand, sku).value, "priceDimensions").value, dimKey)
    {
      dimKey := "";
      if !(sku in onDemand && onDemand[sku].JObject?) {
        return Failure("Invalid SKU pricing structure", "invalid SKU pricing structure"), dimKey;
      }
      var priceData := onDemand[sku].fields;
      if !("priceDimensions" in priceData && priceData["priceDimensions"].JObject?) {
        return Failure("No price dimensions found", "no price dimensions found"), dimKey;
      }
      var dimensions := priceData["priceDimensions"].fields;
      var firstKey := "";
      if dimensions != map[] {
        firstKey :| firstKey in dimensions;
      }
      dimKey := firstKey;
      if firstKey == "" {
        return Failure("No price dimension key found", "no price dimension key found"), dimKey;
      }
      if !dimensions[firstKey].JObject? {
        return Failure("Invalid price dimension structure", "invalid price dimension structure"), dimKey;
      }
      lookup := ReadUsdPrice(dimensions[firstKey].fields, scan);
    }

    /** The checks on one price dimension: the USD price per unit, scanned, and the unit. */
    static method ReadUsdPrice(dimension: map<string, Json>, scan: string -> Result<real>) returns (lookup: Lookup)
      ensures lookup == ReadDimension(dimension, scan)
    {
      if !("pricePerUnit" in dimension && dimension["pricePerUnit"].JObject?) {
        return Failure("No price per unit found", "no price per unit found");
      }
      var pricePerUnit := dimension["pricePerUnit"].fields;
      if !("USD" in pricePerUnit && pricePerUnit["USD"].JString?) {
        return Failure("No USD price found", "no USD price found");
      }
      var usdPrice := pricePerUnit["USD"].s;
      var hourlyPrice := scan(usdPrice);
      if hourlyPrice.Err? {
        return Failure("Failed to parse price", "failed to parse price: " + hourlyPrice.error);
      }
      var unit := None;
      if "unit" in dimension && dimension["unit"].JString? {
        unit := Some(dimension["unit"].s);
      }
      return Found(hourlyPrice.value, unit);
    }
  }
}
