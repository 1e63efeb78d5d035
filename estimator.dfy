/**
 * The estimation controller (internal/controller/estimator.go): parser and
 * pricing-client registries, and `Estimate`, which detects the format,
 * picks the first parser that accepts the path, parses and prices.
 */
module Estimation {
  import opened Wrappers
  import opened Resources
  import opened Reports
  import opened AwsPricing
  import opened Calculation
  import Terraform
  import Detection

  /**
   * A registered parser: the Terraform parser, or another implementation
   * of the parser interface known by its name and its answers.
   */
  datatype ParserPlugin =
    | TerraformParser
    | OtherParser(name: string, canHandle: string -> bool, parse: string -> Result<seq<Resource>>)

  /** What the outside world answers during one estimate. */
  datatype World = World(
    detectFs: Detection.DetectFs,
    parserFs: Terraform.Filesystem,
    /** the pricing answers for the i-th parsed resource */
    sdkAt: nat -> Sdk,
    now: int)

  /** `CanHandle` of a plugin. */
  function Handles(p: ParserPlugin, path: string, w: World): bool {
    match p
    case TerraformParser => Terraform.CanHandle(path, w.parserFs)
    case OtherParser(_, canHandle, _) => canHandle(path)
  }

  /** The position of the first parser that accepts `path`, if any. */
  function FirstHandler(parsers: seq<ParserPlugin>, path: string, w: World): (r: Option<nat>)
    ensures r.None? <==> forall i :: 0 <= i < |parsers| ==> !Handles(parsers[i], path, w)
    ensures r.Some? ==> r.value < |parsers| && Handles(parsers[r.value], path, w)
    ensures r.Some? ==> forall j :: 0 <= j < r.value ==> !Handles(parsers[j], path, w)
  {
    if parsers == [] then None
    else if Handles(parsers[0], path, w) then Some(0)
    else
      match FirstHandler(parsers[1..], path, w)
      case None => None
      case Some(i) => Some(i + 1)
  }

  /** The error a plugin's `Parse` returns on `path`, if any. */
  function ParseError(p: ParserPlugin, path: string, w: World): Option<string> {
    match p
    case TerraformParser =>
      var blocks := Terraform.ParsedBlocks(path, w.parserFs);
      if blocks.Err? then Some(blocks.error) else None
    case OtherParser(_, _, parse) =>
      if parse(path).Err? then Some(parse(path).error) else None
  }

  /** `parsed` is a resource list the plugin's `Parse` can return on `path`. */
  ghost predicate ParsedBy(p: ParserPlugin, path: string, w: World, parsed: seq<Resource>) {
    match p
    case TerraformParser =>
      var blocks := Terraform.ParsedBlocks(path, w.parserFs);
      blocks.Ok? && Terraform.AllBuilt(blocks.value, parsed)
    case OtherParser(_, _, parse) => parse(path) == Ok(parsed)
  }

  /** The error `Estimate` returns, stage by stage, or none when it gets to pricing. */
  function EstimateError(parsers: seq<ParserPlugin>, path: string, w: World): (e: Option<string>)
    ensures Detection.Detect(path, w.detectFs).err.Some? || Detection.Detect(path, w.detectFs).iacType == Detection.Unknown ==> e.Some?
    ensures e.None? ==> FirstHandler(parsers, path, w).Some?
  {
    var detected := Detection.Detect(path, w.detectFs);
    if detected.err.Some? then Some("failed to detect IaC type: " + detected.err.value)
    else if detected.iacType == Detection.Unknown then Some("could not determine IaC type for path: " + path)
    else
      match FirstHandler(parsers, path, w)
      case None => Some("no parser available for IaC type: " + Detection.TypeName(detected.iacType))
      case Some(i) =>
        match ParseError(parsers[i], path, w)
        case Some(e) => Some("failed to parse IaC files: " + e)
        case None => None
  }

  /** No parser is consulted when detection fails or finds no known format. */
  lemma DetectionFailsFirst(parsers: seq<ParserPlugin>, other: seq<ParserPlugin>, path: string, w: World)
    requires Detection.Detect(path, w.detectFs).err.Some? || Detection.Detect(path, w.detectFs).iacType == Detection.Unknown
    ensures EstimateError(parsers, path, w) == EstimateError(other, path, w)
    ensures EstimateError(parsers, path, w).Some?
  {
  }

  /** Parsers after the first one that accepts the path make no difference. */
  lemma LaterParsersIgnored(parsers: seq<ParserPlugin>, more: seq<ParserPlugin>, path: string, w: World)
    requires FirstHandler(parsers, path, w).Some?
    ensures FirstHandler(parsers + more, path, w) == FirstHandler(parsers, path, w)
    ensures EstimateError(parsers + more, path, w) == EstimateError(parsers, path, w)
  {
    var i := FirstHandler(parsers, path, w).value;
    var r := FirstHandler(parsers + more, path, w);
    assert (parsers + more)[i] == parsers[i];
    assert forall j :: 0 <= j < i ==> (parsers + more)[j] == parsers[j];
  }

  class Estimator {
    var parsers: seq<ParserPlugin>
    var pricingClients: map<string, Client>
    var calculator: Calculator

    /** The calculator prices with the clients the estimator registered. */
    ghost predicate Valid()
      reads this, calculator, pricingClients.Values
    {
      && calculator.pricingClients == pricingClients
      && calculator.Valid()
    }

    /** `NewEstimator`. */
    constructor NewEstimator()
      ensures Valid() && fresh(calculator)
      ensures parsers == [] && pricingClients == map[]
    {
      parsers := [];
      pricingClients := map[];
      calculator := new Calculator.NewCalculator();
    }

    /** `RegisterParser`: appended after the ones already registered. */
    method RegisterParser(p: ParserPlugin)
      modifies this`parsers
      ensures parsers == old(parsers) + [p]
    {
      parsers := parsers + [p];
    }

    /** `RegisterPricingClient`: recorded both here and in the calculator. */
    method RegisterPricingClient(provider: string, client: Client)
      requires Valid() && client.Valid()
      modifies this`pricingClients, calculator`pricingClients
      ensures Valid()
      ensures pricingClients == old(pricingClients)[provider := client]
    {
      pricingClients := pricingClients[provider := client];
      calculator.RegisterPricingClient(provider, client);
    }

    /** The first-match loop of `Estimate`. */
    method SelectParser(path: string, w: World) returns (selected: Option<nat>)
      ensures selected == FirstHandler(parsers, path, w)
    {
      selected := None;
      var i := 0;
      while i < |parsers|
        invariant 0 <= i <= |parsers|
        invariant forall j :: 0 <= j < i ==> !Handles(parsers[j], path, w)
      {
        if Handles(parsers[i], path, w) {
          selected := Some(i);
          break;
        }
        i := i + 1;
      }
      FirstHandlerIsFirst(parsers, path, w, selected);
    }

    /**
     * The stages of `Estimate` before pricing: detection, the choice of a
     * parser and parsing, each with its own error.
     */
    method DetectAndParse(path: string, w: World) returns (result: Result<(Detection.IaCType, seq<Resource>)>)
      ensures result.Err? <==> EstimateError(parsers, path, w).Some?
      ensures result.Err? ==> result.error == EstimateError(parsers, path, w).value
      ensures result.Ok? ==> ParsedStages(parsers, path, w, result.value.0, result.value.1)
    {
      var detected := Detection.DetectIaCType(path, w.detectFs);
      if detected.err.Some? {
        return Err("failed to detect IaC type: " + detected.err.value);
      }
      if detected.iacType == Detection.Unknown {
        return Err("could not determine IaC type for path: " + path);
      }
      var selected := SelectParser(path, w);
      if selected.None? {
        return Err("no parser available for IaC type: " + Detection.TypeName(detected.iacType));
      }
      var resources := RunParser(parsers[selected.value], path, w);
      if resources.Err? {
        return Err("failed to parse IaC files: " + resources.error);
      }
      return Ok((detected.iacType, resources.value));
    }

    /**
     * `Estimate`: on success, a fresh report holding the parsed resources as
     * the calculator priced them, stamped with the detected format and the
     * time.
     */
    method Estimate(path: string, w: World)
      returns (result: Result<Report>, ghost parsed: seq<Resource>, ghost ok: seq<bool>, ghost calls: seq<Call>)
      requires Valid()
      modifies pricingClients.Values
      ensures Valid()
      ensures result.Err? <==> EstimateError(parsers, path, w).Some?
      ensures result.Err? ==> result.error == EstimateError(parsers, path, w).value
      ensures result.Ok? ==> Estimated(parsers, path, w, pricingClients, old(StatesOf(pricingClients)), result.value, parsed, ok, calls)
      ensures result.Ok? ==> Cached(pricingClients, old(StatesOf(pricingClients)), StatesOf(pricingClients), parsed, calls, |parsed|)
      ensures result.Err? ==> StatesOf(pricingClients) == old(StatesOf(pricingClients))
      ensures result.Ok? ==> fresh(result.value)
    {
      parsed, ok, calls := [], [], [];
      var stage := DetectAndParse(path, w);
      if stage.Err? {
        return Err(stage.error), parsed, ok, calls;
      }
      var (iacType, resources) := stage.value;
      parsed := resources;
      var report;
      report, ok, calls := PriceAndStamp(iacType, resources, w);
      return Ok(report), parsed, ok, calls;
    }

    /** The pricing stage of `Estimate`, then the format and the time stamped on the report. */
    method PriceAndStamp(iacType: Detection.IaCType, resources: seq<Resource>, w: World)
      returns (report: Report, ghost ok: seq<bool>, ghost calls: seq<Call>)
      requires Valid()
      modifies pricingClients.Values
      ensures Valid() && fresh(report)
      ensures report.iacFormat == Detection.TypeName(iacType) && report.timestamp == w.now
      ensures PricedReport(pricingClients, old(StatesOf(pricingClients)), report, resources, ok, calls, w.sdkAt)
      ensures Cached(pricingClients, old(StatesOf(pricingClients)), StatesOf(pricingClients), resources, calls, |resources|)
    {
      ghost var start := StatesOf(pricingClients);
      var err;
      report, err, ok, calls := calculator.CalculateCosts(resources, w.sdkAt);
      assert PricedReport(pricingClients, start, report, resources, ok, calls, w.sdkAt);
      ghost var now := StatesOf(pricingClients);
      assert Cached(pricingClients, start, now, resources, calls, |resources|);
      report.iacFormat := Detection.TypeName(iacType);
      report.timestamp := w.now;
      assert StatesOf(pricingClients) == now;
    }

    /** `Compare`: the current estimate, its error wrapped. */
    method Compare(path: string, previousReportPath: string, w: World)
      returns (result: Result<Report>, ghost parsed: seq<Resource>, ghost ok: seq<bool>, ghost calls: seq<Call>)
      requires Valid()
      modifies pricingClients.Values
      ensures Valid()
      ensures result.Err? <==> EstimateError(parsers, path, w).Some?
      ensures result.Err? ==> result.error == "failed to estimate current costs: " + EstimateError(parsers, path, w).value
      ensures result.Ok? ==> Estimated(parsers, path, w, pricingClients, old(StatesOf(pricingClients)), result.value, parsed, ok, calls)
      ensures result.Ok? ==> Cached(pricingClients, old(StatesOf(pricingClients)), StatesOf(pricingClients), parsed, calls, |parsed|)
      ensures result.Err? ==> StatesOf(pricingClients) == old(StatesOf(pricingClients))
      ensures result.Ok? ==> fresh(result.value)
    {
      result, parsed, ok, calls := Estimate(path, w);
      if result.Err? {
        result := Err("failed to estimate current costs: " + result.error);
      }
    }
  }

  /** Detection found `iacType` and the first parser that accepts the path returned `parsed`. */
  ghost predicate ParsedStages(parsers: seq<ParserPlugin>, path: string, w: World, iacType: Detection.IaCType, parsed: seq<Resource>) {
    && Detection.Detect(path, w.detectFs) == Detection.Detected(iacType, None)
    && iacType != Detection.Unknown
    && FirstHandler(parsers, path, w).Some?
    && ParsedBy(parsers[FirstHandler(parsers, path, w).value], path, w, parsed)
  }

  /** The report holds `parsed` as the clients priced it, and its totals are the tally of the ones priced without error. */
  ghost predicate PricedReport(clients: map<string, Client>, start: map<Client, InitState>, report: Report, parsed: seq<Resource>,
                               ok: seq<bool>, calls: seq<Call>, sdkAt: nat -> Sdk)
    reads report`resources, report`totalHourly, report`totalMonthly, report`totalYearly
    reads report`byProvider, report`byResourceType, report`byRegion, report`byTag
  {
    && |report.resources| == |parsed| == |ok| == |calls|
    && CallsDone(clients, start, parsed, report.resources, ok, calls, sdkAt, |parsed|)
    && report.Totals() == Tally(report.resources, ok)
  }

  /** A successful estimate: the first accepting parser's resources, priced, and the report stamped. */
  ghost predicate Estimated(parsers: seq<ParserPlugin>, path: string, w: World, clients: map<string, Client>, start: map<Client, InitState>,
                            report: Report, parsed: seq<Resource>, ok: seq<bool>, calls: seq<Call>)
    reads report`iacFormat, report`timestamp, report`resources, report`totalHourly, report`totalMonthly, report`totalYearly
    reads report`byProvider, report`byResourceType, report`byRegion, report`byTag
  {
    && ParsedStages(parsers, path, w, Detection.Detect(path, w.detectFs).iacType, parsed)
    && report.iacFormat == Detection.TypeName(Detection.Detect(path, w.detectFs).iacType)
    && report.timestamp == w.now
    && PricedReport(clients, start, report, parsed, ok, calls, w.sdkAt)
  }

  lemma FirstHandlerIsFirst(parsers: seq<ParserPlugin>, path: string, w: World, selected: Option<nat>)
    requires selected.None? ==> forall j :: 0 <= j < |parsers| ==> !Handles(parsers[j], path, w)
    requires selected.Some? ==> selected.value < |parsers| && Handles(parsers[selected.value], path, w)
    requires selected.Some? ==> forall j :: 0 <= j < selected.value ==> !Handles(parsers[j], path, w)
    ensures selected == FirstHandler(parsers, path, w)
  {
  }

  /** `Parse` of the selected plugin. */
  method RunParser(p: ParserPlugin, path: string, w: World) returns (resources: Result<seq<Resource>>)
    ensures resources.Err? <==> ParseError(p, path, w).Some?
    ensures resources.Err? ==> resources.error == ParseError(p, path, w).value
    ensures resources.Ok? ==> ParsedBy(p, path, w, resources.value)
  {
    match p
    case TerraformParser =>
      resources := Terraform.Parse(path, w.parserFs);
    case OtherParser(_, _, parse) =>
      resources := parse(path);
  }
}
