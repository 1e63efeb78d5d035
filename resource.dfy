/** The cost-bearing resource record and its derived prices (pkg/model/resource.go). */
module Resources {
  import opened Wrappers

  /** Hours in the fixed month and year the model prices with. */
  const HoursPerMonth: real := 730.0
  const HoursPerYear: real := 8760.0

  datatype PriceComponent = PriceComponent(name: string, unitPrice: real, units: real, total: real)

  /** Diagnostic record; `lastUpdated` is an abstract timestamp supplied by the caller. */
  datatype PricingDetails = PricingDetails(
    currency: string,
    pricingSource: string,
    lastUpdated: int,
    priceComponents: seq<PriceComponent>)

  datatype Resource = Resource(
    id: string,
    name: string,
    resourceType: string,
    provider: string,
    region: string,
    size: string,
    quantity: int,
    tags: map<string, string>,
    hourlyPrice: real,
    monthlyPrice: real,
    yearlyPrice: real,
    pricingDetails: Option<PricingDetails>,
    parentId: string,
    children: seq<string>)
  {
    /**
     * The record's price invariant: either unpriced (all three prices zero)
     * or monthly and yearly both derived from the hourly price.
     */
    predicate PricesConsistent() {
      || (hourlyPrice == 0.0 && monthlyPrice == 0.0 && yearlyPrice == 0.0)
      || (monthlyPrice == hourlyPrice * HoursPerMonth && yearlyPrice == hourlyPrice * HoursPerYear)
    }

    /** `CalculateDerivedPrices`: refresh monthly and yearly from a positive hourly price. */
    function CalculateDerivedPrices(): (r: Resource)
      ensures r.hourlyPrice == hourlyPrice
      ensures hourlyPrice > 0.0 ==> r.PricesConsistent()
      ensures hourlyPrice <= 0.0 ==> r == this
      ensures r.(monthlyPrice := monthlyPrice, yearlyPrice := yearlyPrice) == this
    {
      if hourlyPrice > 0.0 then
        this.(monthlyPrice := hourlyPrice * HoursPerMonth, yearlyPrice := hourlyPrice * HoursPerYear)
      else
        this
    }
  }

  /** `NewResource`: a resource with default values. */
  function NewResource(): (r: Resource)
    ensures r.quantity >= 1 && r.PricesConsistent()
    ensures r.hourlyPrice == 0.0 && r.tags == map[] && r.pricingDetails.None?
    ensures r.id == r.name == r.resourceType == r.provider == r.region == r.size == ""
  {
    Resource("", "", "", "", "", "", 1, map[], 0.0, 0.0, 0.0, None, "", [])
  }

  /** Deriving prices is idempotent, and on a consistent record it changes nothing. */
  lemma DerivedPricesIdempotent(r: Resource)
    ensures r.CalculateDerivedPrices().CalculateDerivedPrices() == r.CalculateDerivedPrices()
    ensures r.PricesConsistent() ==> r.CalculateDerivedPrices() == r
  {
  }
}
