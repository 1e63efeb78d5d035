/**
 * The cost calculator (internal/calculator/calculator.go): a registry of
 * pricing clients by provider, and a pass over the resources that asks
 * each resource's client for its price and adds the successfully priced
 * ones to a fresh report.
 */
module Calculation {
  import opened Wrappers
  import opened Resources
  import opened Reports
  import opened AwsPricing

  /** One priced resource added the way the calculator adds it: its prices once, whatever its quantity. */
  function AddPrices(s: Summary, r: Resource): (t: Summary)
    ensures t.hourly == s.hourly + r.hourlyPrice && t.monthly == s.monthly + r.monthlyPrice
    ensures t.yearly == s.yearly + r.yearlyPrice && t.byTag == s.byTag
    ensures t.byProvider.Keys == s.byProvider.Keys + {r.provider}
  {
    Summary(
      s.hourly + r.hourlyPrice,
      s.monthly + r.monthlyPrice,
      s.yearly + r.yearlyPrice,
      AddTo(s.byProvider, r.provider, r.monthlyPrice),
      AddTo(s.byResourceType, r.resourceType, r.monthlyPrice),
      AddTo(s.byRegion, r.region, r.monthlyPrice),
      s.byTag)
  }

  /** The totals and breakdowns of the resources marked in `ok`, in list order. */
  function Tally(rs: seq<Resource>, ok: seq<bool>): Summary
    requires |ok| == |rs|
  {
    if rs == [] then EmptySummary
    else
      var s := Tally(rs[..|rs| - 1], ok[..|ok| - 1]);
      if ok[|ok| - 1] then AddPrices(s, rs[|rs| - 1]) else s
  }

  lemma TallySnoc(rs: seq<Resource>, ok: seq<bool>, r: Resource, b: bool)
    requires |ok| == |rs|
    ensures Tally(rs + [r], ok + [b]) == if b then AddPrices(Tally(rs, ok), r) else Tally(rs, ok)
  {
    assert (rs + [r])[..|rs|] == rs;
    assert (ok + [b])[..|ok|] == ok;
  }

  /** The marked resources, each taken at quantity one. */
  function Counted(rs: seq<Resource>, ok: seq<bool>): (cs: seq<Resource>)
    requires |ok| == |rs|
    ensures |cs| <= |rs|
    ensures forall c :: c in cs ==> c.quantity == 1
  {
    if rs == [] then []
    else Counted(rs[..|rs| - 1], ok[..|ok| - 1]) + (if ok[|ok| - 1] then [rs[|rs| - 1].(quantity := 1)] else [])
  }

  /**
   * What the calculator computes is the report's own summary of the priced
   * resources with every quantity taken as one, and with no tag breakdown.
   */
  lemma {:induction false} TallyIsUnitSummary(rs: seq<Resource>, ok: seq<bool>)
    requires |ok| == |rs|
    ensures Tally(rs, ok) == Summarized(Counted(rs, ok)).(byTag := map[])
  {
    if rs != [] {
      var n := |rs| - 1;
      var prefix := Counted(rs[..n], ok[..n]);
      TallyIsUnitSummary(rs[..n], ok[..n]);
      if ok[n] {
        var u := rs[n].(quantity := 1);
        assert Counted(rs, ok) == prefix + [u];
        SummarizedSnoc(prefix, u);
        var s := Summarized(prefix);
        assert HourlyWeight(u) == rs[n].hourlyPrice;
        assert MonthlyWeight(u) == rs[n].monthlyPrice;
        assert YearlyWeight(u) == rs[n].yearlyPrice;
        assert Summarized(Counted(rs, ok)) == Accrue(s, u);
        assert Tally(rs, ok) == AddPrices(s.(byTag := map[]), rs[n]);
      } else {
        assert Counted(rs, ok) == prefix;
      }
    }
  }

  /**
   * A provider has an entry in the breakdown exactly when some counted
   * resource belongs to it: a skipped or failed resource creates no key.
   */
  lemma {:induction false} TallyProviderKeys(rs: seq<Resource>, ok: seq<bool>)
    requires |ok| == |rs|
    ensures forall p :: p in Tally(rs, ok).byProvider <==> exists i :: 0 <= i < |rs| && ok[i] && rs[i].provider == p
  {
    if rs != [] {
      var n := |rs| - 1;
      TallyProviderKeys(rs[..n], ok[..n]);
      forall p | exists i :: 0 <= i < |rs| && ok[i] && rs[i].provider == p
        ensures p in Tally(rs, ok).byProvider
      {
        var i :| 0 <= i < |rs| && ok[i] && rs[i].provider == p;
        if i < n {
          assert ok[..n][i] && rs[..n][i].provider == p;
        }
      }
      forall p | p in Tally(rs, ok).byProvider
        ensures exists i :: 0 <= i < |rs| && ok[i] && rs[i].provider == p
      {
        if p in Tally(rs[..n], ok[..n]).byProvider {
          var i :| 0 <= i < n && ok[..n][i] && rs[..n][i].provider == p;
          assert ok[i] && rs[i].provider == p;
        } else {
          assert ok[n] && rs[n].provider == p;
        }
      }
    }
  }

  /** The monthly total is the sum of the counted resources' monthly prices. */
  function CountedMonthly(rs: seq<Resource>, ok: seq<bool>): real
    requires |ok| == |rs|
  {
    if rs == [] then 0.0
    else CountedMonthly(rs[..|rs| - 1], ok[..|ok| - 1]) + (if ok[|ok| - 1] then rs[|rs| - 1].monthlyPrice else 0.0)
  }

  /**
   * With every counted resource at quantity one, the calculator's totals are
   * the ones the report's `Summarize` gives for the counted resources;
   * otherwise the calculator counts each of them once.
   */
  lemma {:induction false} TallyMonthlyIsUnweighted(rs: seq<Resource>, ok: seq<bool>)
    requires |ok| == |rs|
    ensures Tally(rs, ok).monthly == CountedMonthly(rs, ok)
  {
    if rs != [] {
      TallyMonthlyIsUnweighted(rs[..|rs| - 1], ok[..|ok| - 1]);
    }
  }

  /** What happened to one resource: no client, or a client asked with what it saw. */
  datatype Call = Skipped | Asked(seen: Option<string>, sku: string, dimKey: string)

  /** `after` is `before` as the call left it; `ok` says whether it was counted; the picked keys are ones the document holds. */
  predicate CallDone(call: Call, before: Resource, after: Resource, ok: bool, sdk: Sdk) {
    match call
    case Skipped => after == before && !ok
    case Asked(seen, sku, dimKey) =>
      var out := PriceOutcome(before, seen, sdk, sku, dimKey);
      && after == out.0 && (ok <==> out.1.None?)
      && (ReachesProduct(before, seen, sdk) ==> ValidPicks(FirstDocument(before, seen, sdk), sku, dimKey))
  }

  /** A client's cached initialisation: whether it has run, and the error it left. */
  datatype InitState = InitState(initialized: bool, error: Option<string>)

  function StateOf(c: Client): InitState
    reads c`initialized, c`error
  {
    InitState(c.initialized, c.error)
  }

  /** The initialisation state of every registered client. */
  ghost function StatesOf(clients: map<string, Client>): (states: map<Client, InitState>)
    reads clients.Values
    ensures states.Keys == clients.Values
  {
    map c | c in clients.Values :: StateOf(c)
  }

  /** What a lookup by a client in state `s` sees: the cached outcome, or that of the initialisation it runs. */
  function Seen(s: InitState, sdk: Sdk): Option<string> {
    if s.initialized then s.error else InitError(sdk.configError, sdk.describeError)
  }

  /** None of the first `n` resources goes to client `c`. */
  predicate Unused(clients: map<string, Client>, before: seq<Resource>, c: Client, n: nat)
    requires n <= |before|
  {
    forall k :: 0 <= k < n && before[k].provider in clients ==> clients[before[k].provider] != c
  }

  /**
   * The first `n` calls: a resource whose provider has no client is left
   * alone and not counted; the others are as their client's lookup left them.
   */
  ghost predicate Answered(clients: map<string, Client>, before: seq<Resource>, after: seq<Resource>,
                           ok: seq<bool>, calls: seq<Call>, sdkAt: nat -> Sdk, n: nat)
  {
    && n <= |before| && n <= |after| && n <= |ok| && n <= |calls|
    && forall j :: 0 <= j < n ==>
      && (calls[j].Skipped? <==> before[j].provider !in clients)
      && CallDone(calls[j], before[j], after[j], ok[j], sdkAt(j))
  }

  /** Among the first `n` calls, the first lookup of each client sees what its state in `start` gives. */
  ghost predicate FirstLookups(clients: map<string, Client>, start: map<Client, InitState>, before: seq<Resource>,
                               calls: seq<Call>, sdkAt: nat -> Sdk, n: nat)
  {
    && n <= |before| && n <= |calls|
    && clients.Values <= start.Keys
    && forall j ::
      0 <= j < n && before[j].provider in clients && calls[j].Asked? && Unused(clients, before, clients[before[j].provider], j)
      ==> calls[j].seen == Seen(start[clients[before[j].provider]], sdkAt(j))
  }

  /** Among the first `n` calls, two lookups of the same client see the same: the client initialises once. */
  ghost predicate LaterLookups(clients: map<string, Client>, before: seq<Resource>, calls: seq<Call>, n: nat)
  {
    && n <= |before| && n <= |calls|
    && forall k, j ::
      && 0 <= k < j < n && before[k].provider in clients && before[j].provider in clients
      && clients[before[k].provider] == clients[before[j].provider] && calls[k].Asked? && calls[j].Asked?
      ==> calls[j].seen == calls[k].seen
  }

  /** The first `n` calls, made from the client states `start`. */
  ghost predicate CallsDone(clients: map<string, Client>, start: map<Client, InitState>, before: seq<Resource>, after: seq<Resource>,
                            ok: seq<bool>, calls: seq<Call>, sdkAt: nat -> Sdk, n: nat)
  {
    && Answered(clients, before, after, ok, calls, sdkAt, n)
    && FirstLookups(clients, start, before, calls, sdkAt, n)
    && LaterLookups(clients, before, calls, n)
  }

  /**
   * The client states `now` after the first `n` calls: a client none of them
   * used is as it started; one that was used has initialised and holds what
   * its lookups saw.
   */
  ghost predicate Cached(clients: map<string, Client>, start: map<Client, InitState>, now: map<Client, InitState>,
                         before: seq<Resource>, calls: seq<Call>, n: nat)
  {
    && Untouched(clients, start, now, before, n)
    && Holding(clients, now, before, calls, n)
  }

  /** Clients none of the first `n` resources went to are as they started. */
  ghost predicate Untouched(clients: map<string, Client>, start: map<Client, InitState>, now: map<Client, InitState>,
                            before: seq<Resource>, n: nat)
  {
    && n <= |before|
    && start.Keys == now.Keys == clients.Values
    && forall c :: c in clients.Values && Unused(clients, before, c, n) ==> now[c] == start[c]
  }

  /** A client one of the first `n` resources went to has initialised and holds what that lookup saw. */
  ghost predicate Holding(clients: map<string, Client>, now: map<Client, InitState>, before: seq<Resource>, calls: seq<Call>, n: nat)
  {
    && n <= |before| && n <= |calls|
    && clients.Values <= now.Keys
    && forall k :: 0 <= k < n && before[k].provider in clients && calls[k].Asked? ==>
      now[clients[before[k].provider]] == InitState(true, calls[k].seen)
  }

  /**
   * A client initialises once: when a lookup saw its initialisation fail,
   * every later resource going to the same client is zeroed with that
   * error and not counted.
   */
  lemma InitFailureRepeats(clients: map<string, Client>, start: map<Client, InitState>, before: seq<Resource>, after: seq<Resource>,
                           ok: seq<bool>, calls: seq<Call>, sdkAt: nat -> Sdk, n: nat, k: nat, j: nat)
    requires CallsDone(clients, start, before, after, ok, calls, sdkAt, n)
    requires k < j < n && before[k].provider in clients && before[j].provider in clients
    requires clients[before[k].provider] == clients[before[j].provider]
    requires calls[k].Asked? && calls[k].seen.Some?
    ensures !ok[j] && after[j] == Zeroed(before[j], "Error: " + calls[k].seen.value, sdkAt(j).now)
  {
    assert calls[j].Asked? && CallDone(calls[j], before[j], after[j], ok[j], sdkAt(j));
    assert calls[j].seen == calls[k].seen;
  }

  /** The loop state of `CalculateCosts` after `i` resources: the rest untouched, the calls made, the clients' states. */
  ghost predicate Progress(clients: map<string, Client>, start: map<Client, InitState>, now: map<Client, InitState>,
                           resources: seq<Resource>, rs: seq<Resource>, ok: seq<bool>, calls: seq<Call>, sdkAt: nat -> Sdk, i: nat)
  {
    && i <= |resources| == |rs| && |ok| == |calls| == i
    && (forall j :: i <= j < |resources| ==> rs[j] == resources[j])
    && CallsDone(clients, start, resources, rs, ok, calls, sdkAt, i)
    && Cached(clients, start, now, resources, calls, i)
  }

  /** Nothing is called yet: every client is as it started. */
  lemma CachedAtStart(clients: map<string, Client>, start: map<Client, InitState>, before: seq<Resource>)
    requires start.Keys == clients.Values
    ensures Cached(clients, start, start, before, [], 0)
  {
  }

  /** The lookup `Ask` makes for resource `n`: what it sees, and how it leaves the client states. */
  ghost predicate AskedFrom(clients: map<string, Client>, pre: map<Client, InitState>, post: map<Client, InitState>,
                            r: Resource, sdk: Sdk, call: Call)
  {
    && (call.Skipped? <==> r.provider !in clients)
    && (call.Skipped? ==> post == pre)
    && (call.Asked? ==> var c := clients[r.provider];
      c in pre && call.seen == Seen(pre[c], sdk) && post == pre[c := InitState(true, call.seen)])
  }

  lemma AnsweredStep(clients: map<string, Client>, before: seq<Resource>, after: seq<Resource>,
                     ok: seq<bool>, calls: seq<Call>, sdkAt: nat -> Sdk, n: nat,
                     priced: Resource, counted: bool, call: Call)
    requires Answered(clients, before, after, ok, calls, sdkAt, n)
    requires n < |before| && n < |after| && |ok| == |calls| == n
    requires call.Skipped? <==> before[n].provider !in clients
    requires CallDone(call, before[n], priced, counted, sdkAt(n))
    ensures Answered(clients, before, after[n := priced], ok + [counted], calls + [call], sdkAt, n + 1)
  {
    var after', ok', calls' := after[n := priced], ok + [counted], calls + [call];
    forall j | 0 <= j < n + 1
      ensures calls'[j].Skipped? <==> before[j].provider !in clients
      ensures CallDone(calls'[j], before[j], after'[j], ok'[j], sdkAt(j))
    {
      if j < n {
        assert calls'[j] == calls[j] && ok'[j] == ok[j] && after'[j] == after[j];
      }
    }
  }

  lemma FirstLookupsStep(clients: map<string, Client>, start: map<Client, InitState>, pre: map<Client, InitState>,
                         post: map<Client, InitState>, before: seq<Resource>, calls: seq<Call>, sdkAt: nat -> Sdk, n: nat, call: Call)
    requires FirstLookups(clients, start, before, calls, sdkAt, n)
    requires Cached(clients, start, pre, before, calls, n)
    requires n < |before| && |calls| == n
    requires AskedFrom(clients, pre, post, before[n], sdkAt(n), call)
    ensures FirstLookups(clients, start, before, calls + [call], sdkAt, n + 1)
  {
    var calls' := calls + [call];
    forall j | 0 <= j < n + 1 && before[j].provider in clients && calls'[j].Asked? && Unused(clients, before, clients[before[j].provider], j)
      ensures calls'[j].seen == Seen(start[clients[before[j].provider]], sdkAt(j))
    {
      if j < n {
        assert calls'[j] == calls[j];
      }
    }
  }

  lemma LaterLookupsStep(clients: map<string, Client>, start: map<Client, InitState>, pre: map<Client, InitState>,
                         post: map<Client, InitState>, before: seq<Resource>, calls: seq<Call>, sdkAt: nat -> Sdk, n: nat, call: Call)
    requires LaterLookups(clients, before, calls, n)
    requires Cached(clients, start, pre, before, calls, n)
    requires n < |before| && |calls| == n
    requires AskedFrom(clients, pre, post, before[n], sdkAt(n), call)
    ensures LaterLookups(clients, before, calls + [call], n + 1)
  {
    var calls' := calls + [call];
    forall k, j | && 0 <= k < j < n + 1 && before[k].provider in clients && before[j].provider in clients
                  && clients[before[k].provider] == clients[before[j].provider] && calls'[k].Asked? && calls'[j].Asked?
      ensures calls'[j].seen == calls'[k].seen
    {
      assert calls'[k] == calls[k];
      if j < n {
        assert calls'[j] == calls[j];
      }
    }
  }

  lemma UntouchedStep(clients: map<string, Client>, start: map<Client, InitState>, pre: map<Client, InitState>,
                      post: map<Client, InitState>, before: seq<Resource>, sdkAt: nat -> Sdk, n: nat, call: Call)
    requires Untouched(clients, start, pre, before, n)
    requires n < |before|
    requires AskedFrom(clients, pre, post, before[n], sdkAt(n), call)
    ensures Untouched(clients, start, post, before, n + 1)
  {
    forall c | c in clients.Values && Unused(clients, before, c, n + 1)
      ensures post[c] == start[c]
    {
      assert Unused(clients, before, c, n);
      assert call.Asked? ==> c != clients[before[n].provider];
    }
  }

  lemma HoldingStep(clients: map<string, Client>, pre: map<Client, InitState>, post: map<Client, InitState>,
                    before: seq<Resource>, calls: seq<Call>, sdkAt: nat -> Sdk, n: nat, call: Call)
    requires LaterLookups(clients, before, calls + [call], n + 1)
    requires Holding(clients, pre, before, calls, n)
    requires n < |before| && |calls| == n
    requires AskedFrom(clients, pre, post, before[n], sdkAt(n), call)
    ensures Holding(clients, post, before, calls + [call], n + 1)
  {
    var calls' := calls + [call];
    forall k | 0 <= k < n + 1 && before[k].provider in clients && calls'[k].Asked?
      ensures post[clients[before[k].provider]] == InitState(true, calls'[k].seen)
    {
      if k < n {
        var c := clients[before[k].provider];
        assert calls'[k] == calls[k] && pre[c] == InitState(true, calls[k].seen);
        if call.Asked? && c == clients[before[n].provider] {
          assert calls'[n].seen == calls'[k].seen;
        }
      }
    }
  }

  /** One more call, made the way `Ask` makes it, keeps the record of calls and of client states. */
  lemma CallsDoneStep(clients: map<string, Client>, start: map<Client, InitState>, pre: map<Client, InitState>, post: map<Client, InitState>,
                      before: seq<Resource>, after: seq<Resource>,
                      ok: seq<bool>, calls: seq<Call>, sdkAt: nat -> Sdk, n: nat,
                      priced: Resource, counted: bool, call: Call)
    requires CallsDone(clients, start, before, after, ok, calls, sdkAt, n)
    requires Cached(clients, start, pre, before, calls, n)
    requires n < |before| && n < |after| && |ok| == |calls| == n
    requires CallDone(call, before[n], priced, counted, sdkAt(n))
    requires AskedFrom(clients, pre, post, before[n], sdkAt(n), call)
    ensures CallsDone(clients, start, before, after[n := priced], ok + [counted], calls + [call], sdkAt, n + 1)
    ensures Cached(clients, start, post, before, calls + [call], n + 1)
  {
    AnsweredStep(clients, before, after, ok, calls, sdkAt, n, priced, counted, call);
    FirstLookupsStep(clients, start, pre, post, before, calls, sdkAt, n, call);
    LaterLookupsStep(clients, start, pre, post, before, calls, sdkAt, n, call);
    UntouchedStep(clients, start, pre, post, before, sdkAt, n, call);
    HoldingStep(clients, pre, post, before, calls, sdkAt, n, call);
  }

  /** The report fields the calculator leaves at Go's zero values. */
  predicate Unstamped(report: Report)
    reads report`timestamp, report`currency, report`iacFormat, report`iacVersion
    reads report`reportId, report`reportName, report`reportVersion
    reads report`errors, report`warnings, report`suggestions, report`metaData
  {
    report.Head() == Header(0, "", "", "", "", "", "", [], [], [], map[])
  }

  class Calculator {
    /** The pricing client of each provider. */
    var pricingClients: map<string, Client>

    ghost predicate Valid()
      reads this, pricingClients.Values
    {
      forall c :: c in pricingClients.Values ==> c.Valid()
    }

    /** `NewCalculator`. */
    constructor NewCalculator()
      ensures pricingClients == map[] && Valid()
    {
      pricingClients := map[];
    }

    /** `RegisterPricingClient`: the provider's client is replaced, the others stay. */
    method RegisterPricingClient(provider: string, client: Client)
      requires Valid() && client.Valid()
      modifies this`pricingClients
      ensures pricingClients == old(pricingClients)[provider := client]
      ensures Valid()
    {
      pricingClients := pricingClients[provider := client];
    }

    /**
     * `CalculateCosts`: every resource whose provider has a client is
     * priced by it and written back into the report's resource list; the
     * ones priced without error are added to the totals and breakdowns.
     * `sdkAt(i)` is what the outside world answers for the i-th resource.
     */
    method CalculateCosts(resources: seq<Resource>, sdkAt: nat -> Sdk)
      returns (report: Report, err: Option<string>, ghost ok: seq<bool>, ghost calls: seq<Call>)
      requires Valid()
      modifies pricingClients.Values
      ensures Valid() && fresh(report) && err.None?
      ensures Unstamped(report)
      ensures |report.resources| == |resources| == |ok| == |calls|
      ensures CallsDone(pricingClients, old(StatesOf(pricingClients)), resources, report.resources, ok, calls, sdkAt, |resources|)
      ensures Cached(pricingClients, old(StatesOf(pricingClients)), StatesOf(pricingClients), resources, calls, |resources|)
      ensures report.Totals() == Tally(report.resources, ok)
    {
      ghost var start := StatesOf(pricingClients);
      report := new Report.Literal(0, resources, "");
      assert forall c :: c in pricingClients.Values ==> c as object != report;
      assert StatesOf(pricingClients) == start;
      ok, calls := PriceAll(report, resources, start, sdkAt);
      err := None;
    }

    /** The loop of `CalculateCosts`, over a report that starts with `resources` and nothing counted. */
    method PriceAll(report: Report, resources: seq<Resource>, ghost start: map<Client, InitState>, sdkAt: nat -> Sdk)
      returns (ghost ok: seq<bool>, ghost calls: seq<Call>)
      requires Valid() && report.resources == resources && report.Totals() == EmptySummary
      requires start == StatesOf(pricingClients)
      requires forall c :: c in pricingClients.Values ==> c as object != report
      modifies pricingClients.Values, report`resources
      modifies report`totalHourly, report`totalMonthly, report`totalYearly
      modifies report`byProvider, report`byResourceType, report`byRegion
      ensures Valid()
      ensures |report.resources| == |resources| == |ok| == |calls|
      ensures CallsDone(pricingClients, start, resources, report.resources, ok, calls, sdkAt, |resources|)
      ensures Cached(pricingClients, start, StatesOf(pricingClients), resources, calls, |resources|)
      ensures report.Totals() == Tally(report.resources, ok)
    {
      ok, calls := [], [];
      ghost var rs := resources;
      CachedAtStart(pricingClients, start, resources);
      var i := 0;
      while i < |resources|
        invariant Valid() && report.resources == rs
        invariant Progress(pricingClients, start, StatesOf(pricingClients), resources, rs, ok, calls, sdkAt, i)
        invariant report.Totals() == Tally(rs[..i], ok)
      {
        rs, ok, calls := Step(report, resources, start, rs, ok, calls, sdkAt, i);
        i := i + 1;
      }
      assert rs[..i] == rs;
    }

    /** One iteration of `CalculateCosts`: resource `i` is priced, written back and, on success, counted. */
    method Step(report: Report, resources: seq<Resource>, ghost start: map<Client, InitState>,
                ghost rs: seq<Resource>, ghost ok: seq<bool>, ghost calls: seq<Call>, sdkAt: nat -> Sdk, i: nat)
      returns (ghost rs': seq<Resource>, ghost ok': seq<bool>, ghost calls': seq<Call>)
      requires Valid() && i < |resources| && report.resources == rs
      requires forall c :: c in pricingClients.Values ==> c as object != report
      requires Progress(pricingClients, start, StatesOf(pricingClients), resources, rs, ok, calls, sdkAt, i)
      requires report.Totals() == Tally(rs[..i], ok)
      modifies pricingClients.Values, report`resources
      modifies report`totalHourly, report`totalMonthly, report`totalYearly
      modifies report`byProvider, report`byResourceType, report`byRegion
      ensures Valid() && report.resources == rs'
      ensures Progress(pricingClients, start, StatesOf(pricingClients), resources, rs', ok', calls', sdkAt, i + 1)
      ensures report.Totals() == Tally(rs'[..i + 1], ok')
    {
      var priced, counted;
      priced, counted, calls' := Lookup(resources, start, rs, ok, calls, sdkAt, i, report.resources[i]);
      rs', ok' := Commit(report, rs, ok, i, priced, counted, pricingClients);
    }

    /** The lookup half of one iteration: resource `i` priced by its client, and the record of calls and client states kept. */
    method Lookup(resources: seq<Resource>, ghost start: map<Client, InitState>, ghost rs: seq<Resource>, ghost ok: seq<bool>,
                  ghost calls: seq<Call>, sdkAt: nat -> Sdk, i: nat, r: Resource)
      returns (priced: Resource, counted: bool, ghost calls': seq<Call>)
      requires Valid() && i < |resources| && r == resources[i]
      requires Progress(pricingClients, start, StatesOf(pricingClients), resources, rs, ok, calls, sdkAt, i)
      modifies pricingClients.Values
      ensures Valid()
      ensures Progress(pricingClients, start, StatesOf(pricingClients), resources, rs[i := priced], ok + [counted], calls', sdkAt, i + 1)
    {
      ghost var pre := StatesOf(pricingClients);
      ghost var call;
      priced, counted, call := Ask(r, sdkAt(i));
      CallsDoneStep(pricingClients, start, pre, StatesOf(pricingClients), resources, rs, ok, calls, sdkAt, i, priced, counted, call);
      calls' := calls + [call];
    }

    /**
     * Resource `resource` as its provider's client leaves it, if it has one,
     * and whether pricing succeeded. Only that client's state changes: it
     * has initialised and holds the outcome the lookup saw.
     */
    method Ask(resource: Resource, sdk: Sdk) returns (priced: Resource, counted: bool, ghost call: Call)
      requires Valid()
      modifies pricingClients.Values
      ensures Valid()
      ensures CallDone(call, resource, priced, counted, sdk)
      ensures AskedFrom(pricingClients, old(StatesOf(pricingClients)), StatesOf(pricingClients), resource, sdk, call)
    {
      if resource.provider !in pricingClients {
        return resource, false, Skipped;
      }
      var client := pricingClients[resource.provider];
      ghost var seen := Seen(StateOf(client), sdk);
      var e;
      ghost var sku, dimKey;
      priced, e, sku, dimKey := client.GetPrice(resource, sdk);
      counted := e.None?;
      call := Asked(seen, sku, dimKey);
    }
  }

  /** One iteration's effect on the report: resource `i` written back and the totals kept equal to the tally so far. */
  method Commit(report: Report, ghost rs: seq<Resource>, ghost ok: seq<bool>, i: nat, priced: Resource, counted: bool,
                ghost clients: map<string, Client>)
    returns (ghost rs': seq<Resource>, ghost ok': seq<bool>)
    requires i < |rs| && |ok| == i && report.resources == rs
    requires forall c :: c in clients.Values ==> c as object != report
    requires report.Totals() == Tally(rs[..i], ok)
    modifies report`resources
    modifies report`totalHourly, report`totalMonthly, report`totalYearly
    modifies report`byProvider, report`byResourceType, report`byRegion
    ensures rs' == rs[i := priced] && ok' == ok + [counted] && report.resources == rs'
    ensures report.Totals() == Tally(rs'[..i + 1], ok')
    ensures unchanged(clients.Values) && StatesOf(clients) == old(StatesOf(clients))
  {
    TallySnoc(rs[..i], ok, priced, counted);
    assert rs[i := priced][..i + 1] == rs[..i] + [priced];
    Record(report, i, priced, counted);
    rs', ok' := rs[i := priced], ok + [counted];
  }

  /** Resource `i` is written back and, when it was priced without error, counted. */
  method Record(report: Report, i: nat, priced: Resource, counted: bool)
    requires i < |report.resources|
    modifies report`resources
    modifies report`totalHourly, report`totalMonthly, report`totalYearly
    modifies report`byProvider, report`byResourceType, report`byRegion
    ensures report.resources == old(report.resources)[i := priced]
    ensures report.Totals() == if counted then AddPrices(old(report.Totals()), priced) else old(report.Totals())
  {
    report.resources := report.resources[i := priced];
    if counted {
      Count(report, priced);
    }
  }

  /** The in-place additions the calculator makes for a priced resource. */
  method Count(report: Report, priced: Resource)
    modifies report`totalHourly, report`totalMonthly, report`totalYearly
    modifies report`byProvider, report`byResourceType, report`byRegion
    ensures report.Totals() == AddPrices(old(report.Totals()), priced)
  {
    report.totalHourly := report.totalHourly + priced.hourlyPrice;
    report.totalMonthly := report.totalMonthly + priced.monthlyPrice;
    report.totalYearly := report.totalYearly + priced.yearlyPrice;
    report.byProvider := AddTo(report.byProvider, priced.provider, priced.monthlyPrice);
    report.byResourceType := AddTo(report.byResourceType, priced.resourceType, priced.monthlyPrice);
    report.byRegion := AddTo(report.byRegion, priced.region, priced.monthlyPrice);
  }
}
