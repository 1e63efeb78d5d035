/**
 * The cost report (pkg/model/report.go): resources, their summed prices,
 * and keyed breakdowns of the monthly price by provider, resource type,
 * region and tag. Prices are `real`, so sums are exact.
 */
module Reports {
  import opened Resources

  /** A cost optimisation suggestion; the report only collects them. */
  datatype Suggestion = Suggestion(
    resourceId: string,
    resourceType: string,
    kind: string,
    description: string,
    currentCost: real,
    suggestedCost: real,
    potentialSavings: real,
    savingsPercent: real,
    confidence: real,
    applyCommand: string)

  /** The summary part of a report: three totals and four breakdowns. */
  datatype Summary = Summary(
    hourly: real,
    monthly: real,
    yearly: real,
    byProvider: map<string, real>,
    byResourceType: map<string, real>,
    byRegion: map<string, real>,
    byTag: map<string, map<string, real>>)

  const EmptySummary: Summary := Summary(0.0, 0.0, 0.0, map[], map[], map[], map[])

  /** What one resource contributes to each total: its price times its quantity. */
  function HourlyWeight(r: Resource): real {
    r.hourlyPrice * r.quantity as real
  }

  /** The monthly weight is also what a resource adds to each breakdown entry it falls under. */
  function MonthlyWeight(r: Resource): real {
    r.monthlyPrice * r.quantity as real
  }

  function YearlyWeight(r: Resource): real {
    r.yearlyPrice * r.quantity as real
  }

  /** `m[k] += x` on a Go map: a missing key starts from 0. */
  function AddTo(m: map<string, real>, k: string, x: real): (r: map<string, real>)
    ensures r.Keys == m.Keys + {k}
    ensures r[k] == (if k in m then m[k] else 0.0) + x
    ensures forall j :: j in m && j != k ==> r[j] == m[j]
  {
    m[k := (if k in m then m[k] else 0.0) + x]
  }

  /** The inner map of tag key `k`, empty when `k` has none yet. */
  function Inner(bt: map<string, map<string, real>>, k: string): map<string, real> {
    if k in bt then bt[k] else map[]
  }

  /** For every tag `(k, v)`, `bt[k][v] += x`, creating the inner map on first use. */
  function AddTags(bt: map<string, map<string, real>>, tags: map<string, string>, x: real): (r: map<string, map<string, real>>)
    ensures r.Keys == bt.Keys + tags.Keys
    ensures forall k :: k in tags ==> r[k] == AddTo(Inner(bt, k), tags[k], x)
    ensures forall k :: k in bt && k !in tags ==> r[k] == bt[k]
  {
    map k | k in bt.Keys + tags.Keys :: if k in tags then AddTo(Inner(bt, k), tags[k], x) else bt[k]
  }

  /** The summary after one more resource is accounted for. */
  function Accrue(s: Summary, r: Resource): (t: Summary)
    ensures t.byProvider.Keys == s.byProvider.Keys + {r.provider}
    ensures t.byResourceType.Keys == s.byResourceType.Keys + {r.resourceType}
    ensures t.byRegion.Keys == s.byRegion.Keys + {r.region}
  {
    var w := MonthlyWeight(r);
    Summary(
      s.hourly + HourlyWeight(r),
      s.monthly + w,
      s.yearly + YearlyWeight(r),
      AddTo(s.byProvider, r.provider, w),
      AddTo(s.byResourceType, r.resourceType, w),
      AddTo(s.byRegion, r.region, w),
      AddTags(s.byTag, r.tags, w))
  }

  /** The summary of `rs` accumulated in list order from the empty summary. */
  function Summarized(rs: seq<Resource>): (s: Summary)
    ensures forall r :: r in rs ==> r.provider in s.byProvider && r.resourceType in s.byResourceType && r.region in s.byRegion
  {
    if rs == [] then EmptySummary
    else Accrue(Summarized(rs[..|rs| - 1]), rs[|rs| - 1])
  }

  lemma SummarizedSnoc(rs: seq<Resource>, r: Resource)
    ensures Summarized(rs + [r]) == Accrue(Summarized(rs), r)
  {
    assert (rs + [r])[..|rs|] == rs;
  }

  /** The same step on prefixes of one list. */
  lemma SummarizedPrefix(rs: seq<Resource>, i: nat)
    requires i < |rs|
    ensures Summarized(rs[..i + 1]) == Accrue(Summarized(rs[..i]), rs[i])
  {
    assert rs[..i + 1] == rs[..i] + [rs[i]];
    SummarizedSnoc(rs[..i], rs[i]);
  }

  /** A report's fields other than its resources and its totals, as one value. */
  datatype Header = Header(timestamp: int, currency: string, iacFormat: string, iacVersion: string,
                           reportId: string, reportName: string, reportVersion: string,
                           errors: seq<string>, warnings: seq<string>, suggestions: seq<Suggestion>,
                           metaData: map<string, string>)

  // ---------------------------------------------------------------------
  // The report object

  class Report {
    var timestamp: int
    var currency: string
    var iacFormat: string
    var iacVersion: string
    var reportId: string
    var reportName: string
    var reportVersion: string
    var resources: seq<Resource>
    var totalHourly: real
    var totalMonthly: real
    var totalYearly: real
    var byProvider: map<string, real>
    var byResourceType: map<string, real>
    var byRegion: map<string, real>
    var byTag: map<string, map<string, real>>
    var errors: seq<string>
    var warnings: seq<string>
    var metaData: map<string, string>
    var suggestions: seq<Suggestion>

    /** The totals and breakdowns as one value. */
    function Totals(): Summary
      reads this`totalHourly, this`totalMonthly, this`totalYearly
      reads this`byProvider, this`byResourceType, this`byRegion, this`byTag
    {
      Summary(totalHourly, totalMonthly, totalYearly, byProvider, byResourceType, byRegion, byTag)
    }

    /** The fields other than the resources and totals as one value. */
    function Head(): Header
      reads this`timestamp, this`currency, this`iacFormat, this`iacVersion
      reads this`reportId, this`reportName, this`reportVersion
      reads this`errors, this`warnings, this`suggestions, this`metaData
    {
      Header(timestamp, currency, iacFormat, iacVersion, reportId, reportName, reportVersion, errors, warnings, suggestions, metaData)
    }

    /** Totals and breakdowns agree with the resource list. */
    predicate Consistent()
      reads this`resources, this`totalHourly, this`totalMonthly, this`totalYearly
      reads this`byProvider, this`byResourceType, this`byRegion, this`byTag
    {
      Totals() == Summarized(resources)
    }

    /** `NewReport`; the creation time is supplied by the caller. */
    constructor NewReport(now: int)
      ensures timestamp == now && currency == "USD" && reportVersion == "1.0"
      ensures iacFormat == "" && iacVersion == "" && reportId == "" && reportName == ""
      ensures resources == [] && Totals() == EmptySummary && Consistent()
      ensures errors == [] && warnings == [] && suggestions == [] && metaData == map[]
    {
      timestamp := now;
      currency := "USD";
      iacFormat, iacVersion, reportId, reportName := "", "", "", "";
      reportVersion := "1.0";
      resources := [];
      totalHourly, totalMonthly, totalYearly := 0.0, 0.0, 0.0;
      byProvider, byResourceType, byRegion, byTag := map[], map[], map[], map[];
      errors, warnings, suggestions := [], [], [];
      metaData := map[];
    }

    /**
     * A report as a Go struct literal builds it: the named fields set, every
     * other field at its zero value. Go's nil maps and slices read as empty.
     */
    constructor Literal(now: int, resources: seq<Resource>, currency: string)
      ensures timestamp == now && this.currency == currency && this.resources == resources
      ensures iacFormat == "" && iacVersion == "" && reportId == "" && reportName == "" && reportVersion == ""
      ensures Totals() == EmptySummary
      ensures errors == [] && warnings == [] && suggestions == [] && metaData == map[]
    {
      timestamp := now;
      this.currency := currency;
      iacFormat, iacVersion, reportId, reportName, reportVersion := "", "", "", "", "";
      this.resources := resources;
      totalHourly, totalMonthly, totalYearly := 0.0, 0.0, 0.0;
      byProvider, byResourceType, byRegion, byTag := map[], map[], map[], map[];
      errors, warnings, suggestions := [], [], [];
      metaData := map[];
    }

    /** Add one resource's prices to the totals and breakdowns. */
    method Accumulate(resource: Resource)
      modifies this`totalHourly, this`totalMonthly, this`totalYearly
      modifies this`byProvider, this`byResourceType, this`byRegion, this`byTag
      ensures Totals() == Accrue(old(Totals()), resource)
    {
      var w := MonthlyWeight(resource);
      totalHourly := totalHourly + HourlyWeight(resource);
      totalMonthly := totalMonthly + w;
      totalYearly := totalYearly + YearlyWeight(resource);

      byProvider := AddTo(byProvider, resource.provider, w);
      byResourceType := AddTo(byResourceType, resource.resourceType, w);
      byRegion := AddTo(byRegion, resource.region, w);

      AccumulateTags(resource.tags, w);
    }

    /** The tag loop of `AddResource`, over the tags in Go's range order. */
    method AccumulateTags(tags: map<string, string>, w: real)
      modifies this`byTag
      ensures byTag == AddTags(old(byTag), tags, w)
    {
      var bt := byTag;
      ghost var bt0 := bt;
      var rest := tags.Keys;
      ghost var done: set<string> := {};
      assert Restrict(tags, done) == map[];
      while rest != {}
        invariant rest + done == tags.Keys && rest !! done
        invariant bt == AddTags(bt0, Restrict(tags, done), w)
        decreases rest
      {
        var key :| key in rest;
        AddTagStep(bt0, tags, done, key, w);
        bt := AddToTag(bt, key, tags[key], w);
        rest := rest - {key};
        done := done + {key};
      }
      assert done == tags.Keys;
      RestrictAll(tags);
      byTag := bt;
    }

    /** `AddResource`: append, then account for the new resource. */
    method AddResource(resource: Resource)
      modifies this`resources, this`totalHourly, this`totalMonthly, this`totalYearly
      modifies this`byProvider, this`byResourceType, this`byRegion, this`byTag
      ensures resources == old(resources) + [resource]
      ensures Totals() == Accrue(old(Totals()), resource)
      ensures old(Consistent()) ==> Consistent()
    {
      resources := resources + [resource];
      Accumulate(resource);
      SummarizedSnoc(old(resources), resource);
    }

    /** `AddWarning`. */
    method AddWarning(warning: string)
      modifies this`warnings
      ensures warnings == old(warnings) + [warning]
    {
      warnings := warnings + [warning];
    }

    /** `AddError`. */
    method AddError(err: string)
      modifies this`errors
      ensures errors == old(errors) + [err]
    {
      errors := errors + [err];
    }

    /** `AddSuggestion`. */
    method AddSuggestion(suggestion: Suggestion)
      modifies this`suggestions
      ensures suggestions == old(suggestions) + [suggestion]
    {
      suggestions := suggestions + [suggestion];
    }

    /**
     * `Summarize`: reset the totals and breakdowns and recompute them from
     * the resource list. The result depends on the list alone, so a
     * consistent report is left as it was.
     */
    method Summarize()
      modifies this`totalHourly, this`totalMonthly, this`totalYearly
      modifies this`byProvider, this`byResourceType, this`byRegion, this`byTag
      ensures Consistent()
      ensures old(Consistent()) ==> Totals() == old(Totals())
    {
      totalHourly, totalMonthly, totalYearly := 0.0, 0.0, 0.0;
      byProvider, byResourceType, byRegion, byTag := map[], map[], map[], map[];
      ghost var rs := resources;
      for i := 0 to |resources|
        invariant rs == resources
        invariant Totals() == Summarized(rs[..i])
      {
        Accumulate(resources[i]);
        SummarizedPrefix(rs, i);
      }
      assert rs[..|rs|] == rs;
    }
  }

  /** `tags` restricted to the keys in `keys`. */
  function Restrict(tags: map<string, string>, keys: set<string>): (r: map<string, string>)
    ensures r.Keys == tags.Keys * keys
  {
    map k | k in tags && k in keys :: tags[k]
  }

  /** `bt[key][value] += w`, creating the inner map of `key` first when it is missing. */
  method AddToTag(bt: map<string, map<string, real>>, key: string, value: string, w: real) returns (bt': map<string, map<string, real>>)
    ensures bt' == bt[key := AddTo(Inner(bt, key), value, w)]
  {
    bt' := bt;
    if key !in bt' {
      bt' := bt'[key := map[]];
    }
    bt' := bt'[key := AddTo(bt'[key], value, w)];
  }

  lemma RestrictAll(tags: map<string, string>)
    ensures Restrict(tags, tags.Keys) == tags
  {
  }

  lemma AddTagsInsert(bt: map<string, map<string, real>>, t: map<string, string>, key: string, v: string, w: real)
    requires key !in t
    ensures AddTags(bt, t[key := v], w) == AddTags(bt, t, w)[key := AddTo(Inner(bt, key), v, w)]
  {
    var l := AddTags(bt, t[key := v], w);
    var r := AddTags(bt, t, w)[key := AddTo(Inner(bt, key), v, w)];
    assert l.Keys == r.Keys;
    forall k | k in l
      ensures l[k] == r[k]
    {
      if k != key && k in t {
        assert l[k] == AddTo(Inner(bt, k), t[k], w);
      }
    }
  }

  lemma AddTagStep(bt: map<string, map<string, real>>, tags: map<string, string>, done: set<string>, key: string, w: real)
    requires key in tags && key !in done
    ensures var prev := AddTags(bt, Restrict(tags, done), w);
      AddTags(bt, Restrict(tags, done + {key}), w) == prev[key := AddTo(Inner(prev, key), tags[key], w)]
  {
    assert Restrict(tags, done + {key}) == Restrict(tags, done)[key := tags[key]];
    AddTagsInsert(bt, Restrict(tags, done), key, tags[key], w);
    var prev := AddTags(bt, Restrict(tags, done), w);
    assert Inner(prev, key) == Inner(bt, key);
  }

  // ---------------------------------------------------------------------
  // The summary as sums over the resource list

  /** The three keyed breakdowns. */
  datatype Dimension = Provider | ResourceType | Region

  function KeyOf(r: Resource, d: Dimension): string {
    match d
    case Provider => r.provider
    case ResourceType => r.resourceType
    case Region => r.region
  }

  /** One number of the summary: a total, a breakdown entry or a tag breakdown entry. */
  datatype Measure =
    | Hourly
    | Monthly
    | Yearly
    | InKey(d: Dimension, key: string)
    | InTag(tag: string, value: string)

  /** What resource `r` adds to measure `m`: price times quantity, where it applies. */
  function Contribution(r: Resource, m: Measure): real {
    match m
    case Hourly => HourlyWeight(r)
    case Monthly => MonthlyWeight(r)
    case Yearly => YearlyWeight(r)
    case InKey(d, k) => if KeyOf(r, d) == k then MonthlyWeight(r) else 0.0
    case InTag(t, v) => if t in r.tags && r.tags[t] == v then MonthlyWeight(r) else 0.0
  }

  /** The sum of the contributions of `rs` to `m`. */
  function Sum(rs: seq<Resource>, m: Measure): real {
    if rs == [] then 0.0 else Contribution(rs[0], m) + Sum(rs[1..], m)
  }

  function Keys(rs: seq<Resource>, d: Dimension): set<string> {
    set r | r in rs :: KeyOf(r, d)
  }

  function TagKeys(rs: seq<Resource>): set<string> {
    set r, t | r in rs && t in r.tags :: t
  }

  function TagValues(rs: seq<Resource>, t: string): set<string> {
    set r | r in rs && t in r.tags :: r.tags[t]
  }

  function Breakdown(rs: seq<Resource>, d: Dimension): map<string, real> {
    map k | k in Keys(rs, d) :: Sum(rs, InKey(d, k))
  }

  function TagColumn(rs: seq<Resource>, t: string): map<string, real> {
    map v | v in TagValues(rs, t) :: Sum(rs, InTag(t, v))
  }

  function TagBreakdown(rs: seq<Resource>): map<string, map<string, real>> {
    map t | t in TagKeys(rs) :: TagColumn(rs, t)
  }

  /**
   * The summary stated without accumulation: each total is the sum of
   * price times quantity over the list; each breakdown has a key exactly
   * for the values some resource carries, holding the sum of monthly price
   * times quantity over the resources that carry it.
   */
  function Characterized(rs: seq<Resource>): Summary {
    Summary(Sum(rs, Hourly), Sum(rs, Monthly), Sum(rs, Yearly),
            Breakdown(rs, Provider), Breakdown(rs, ResourceType), Breakdown(rs, Region),
            TagBreakdown(rs))
  }

  lemma {:induction false} SumSnoc(rs: seq<Resource>, r: Resource, m: Measure)
    ensures Sum(rs + [r], m) == Sum(rs, m) + Contribution(r, m)
  {
    if rs != [] {
      assert (rs + [r])[1..] == rs[1..] + [r];
      SumSnoc(rs[1..], r, m);
    }
  }

  lemma {:induction false} SumConcat(rs: seq<Resource>, qs: seq<Resource>, m: Measure)
    ensures Sum(rs + qs, m) == Sum(rs, m) + Sum(qs, m)
  {
    if rs != [] {
      assert (rs + qs)[0] == rs[0];
      assert (rs + qs)[1..] == rs[1..] + qs;
      SumConcat(rs[1..], qs, m);
      assert Sum(rs + qs, m) == Contribution(rs[0], m) + Sum(rs[1..] + qs, m);
    } else {
      assert rs + qs == qs;
    }
  }

  /** A measure nobody in the list contributes to sums to zero. */
  lemma {:induction false} SumOfNoContribution(rs: seq<Resource>, m: Measure)
    requires forall r :: r in rs ==> Contribution(r, m) == 0.0
    ensures Sum(rs, m) == 0.0
  {
    if rs != [] {
      assert rs[0] in rs;
      SumOfNoContribution(rs[1..], m);
    }
  }

  lemma KeysSnoc(rs: seq<Resource>, r: Resource, d: Dimension)
    ensures Keys(rs + [r], d) == Keys(rs, d) + {KeyOf(r, d)}
  {
    var rs' := rs + [r];
    assert r in rs';
    forall x | x in rs' ensures x in rs || x == r { }
    forall x | x in rs ensures x in rs' { }
  }

  lemma BreakdownEntrySnoc(rs: seq<Resource>, r: Resource, d: Dimension, k: string)
    ensures Sum(rs + [r], InKey(d, k)) ==
      (if k in Keys(rs, d) then Sum(rs, InKey(d, k)) else 0.0) + (if KeyOf(r, d) == k then MonthlyWeight(r) else 0.0)
  {
    SumSnoc(rs, r, InKey(d, k));
    if k !in Keys(rs, d) {
      SumOfNoContribution(rs, InKey(d, k));
    }
  }

  lemma BreakdownSnoc(rs: seq<Resource>, r: Resource, d: Dimension)
    ensures Breakdown(rs + [r], d) == AddTo(Breakdown(rs, d), KeyOf(r, d), MonthlyWeight(r))
  {
    KeysSnoc(rs, r, d);
    forall k | k in Keys(rs + [r], d)
      ensures Breakdown(rs + [r], d)[k] == AddTo(Breakdown(rs, d), KeyOf(r, d), MonthlyWeight(r))[k]
    {
      BreakdownEntrySnoc(rs, r, d, k);
    }
  }

  lemma TagColumnSnoc(rs: seq<Resource>, r: Resource, t: string)
    requires t in r.tags
    ensures TagColumn(rs + [r], t) == AddTo(Inner(TagBreakdown(rs), t), r.tags[t], MonthlyWeight(r))
  {
    var rs' := rs + [r];
    assert TagValues(rs', t) == TagValues(rs, t) + {r.tags[t]} by {
      forall x | x in rs' ensures x in rs || x == r { }
    }
    assert Inner(TagBreakdown(rs), t) == TagColumn(rs, t) by {
      if t !in TagKeys(rs) {
        assert TagValues(rs, t) == {};
      }
    }
    var column, added := TagColumn(rs', t), AddTo(TagColumn(rs, t), r.tags[t], MonthlyWeight(r));
    assert column.Keys == added.Keys;
    forall v | v in column
      ensures column[v] == added[v]
    {
      TagEntrySnoc(rs, r, t, v);
    }
  }

  lemma TagEntrySnoc(rs: seq<Resource>, r: Resource, t: string, v: string)
    requires t in r.tags && v in TagValues(rs + [r], t)
    ensures Sum(rs + [r], InTag(t, v)) == AddTo(TagColumn(rs, t), r.tags[t], MonthlyWeight(r))[v]
  {
    var m := InTag(t, v);
    SumSnoc(rs, r, m);
    var before := if v in TagValues(rs, t) then Sum(rs, m) else 0.0;
    if v !in TagValues(rs, t) {
      SumOfNoContribution(rs, m);
    }
    assert Sum(rs + [r], m) == before + Contribution(r, m);
  }

  lemma TagColumnUntouched(rs: seq<Resource>, r: Resource, t: string)
    requires t !in r.tags
    ensures TagColumn(rs + [r], t) == TagColumn(rs, t)
  {
    var rs' := rs + [r];
    assert TagValues(rs', t) == TagValues(rs, t) by {
      forall x | x in rs' ensures x in rs || x == r { }
    }
    forall v | v in TagValues(rs, t)
      ensures Sum(rs', InTag(t, v)) == Sum(rs, InTag(t, v))
    {
      SumSnoc(rs, r, InTag(t, v));
    }
  }

  lemma TagBreakdownSnoc(rs: seq<Resource>, r: Resource)
    ensures TagBreakdown(rs + [r]) == AddTags(TagBreakdown(rs), r.tags, MonthlyWeight(r))
  {
    var rs' := rs + [r];
    assert TagKeys(rs') == TagKeys(rs) + r.tags.Keys by {
      forall t | t in TagKeys(rs')
        ensures t in TagKeys(rs) || t in r.tags
      {
        var x :| x in rs' && t in x.tags;
        if x != r {
          assert x in rs;
        }
      }
      forall t | t in r.tags
        ensures t in TagKeys(rs')
      {
        assert r in rs';
      }
      forall t | t in TagKeys(rs)
        ensures t in TagKeys(rs')
      {
        var x :| x in rs && t in x.tags;
        assert x in rs';
      }
    }
    forall t | t in TagKeys(rs')
      ensures TagBreakdown(rs')[t] == AddTags(TagBreakdown(rs), r.tags, MonthlyWeight(r))[t]
    {
      if t in r.tags {
        TagColumnSnoc(rs, r, t);
      } else {
        TagColumnUntouched(rs, r, t);
      }
    }
  }

  lemma TotalsSnoc(rs: seq<Resource>, r: Resource)
    ensures Sum(rs + [r], Hourly) == Sum(rs, Hourly) + HourlyWeight(r)
    ensures Sum(rs + [r], Monthly) == Sum(rs, Monthly) + MonthlyWeight(r)
    ensures Sum(rs + [r], Yearly) == Sum(rs, Yearly) + YearlyWeight(r)
  {
    SumSnoc(rs, r, Hourly);
    SumSnoc(rs, r, Monthly);
    SumSnoc(rs, r, Yearly);
  }

  /** The breakdown of a summary along dimension `d`. */
  function BreakdownOf(s: Summary, d: Dimension): map<string, real> {
    match d
    case Provider => s.byProvider
    case ResourceType => s.byResourceType
    case Region => s.byRegion
  }

  lemma {:induction false} SummarizedTotals(rs: seq<Resource>)
    ensures Summarized(rs).hourly == Sum(rs, Hourly)
    ensures Summarized(rs).monthly == Sum(rs, Monthly)
    ensures Summarized(rs).yearly == Sum(rs, Yearly)
  {
    if rs != [] {
      var init, r := rs[..|rs| - 1], rs[|rs| - 1];
      assert rs == init + [r];
      SummarizedTotals(init);
      TotalsSnoc(init, r);
    }
  }

  lemma {:induction false} SummarizedBreakdown(rs: seq<Resource>, d: Dimension)
    ensures BreakdownOf(Summarized(rs), d) == Breakdown(rs, d)
  {
    if rs != [] {
      var init, r := rs[..|rs| - 1], rs[|rs| - 1];
      assert rs == init + [r];
      SummarizedBreakdown(init, d);
      BreakdownSnoc(init, r, d);
    }
  }

  lemma {:induction false} SummarizedTags(rs: seq<Resource>)
    ensures Summarized(rs).byTag == TagBreakdown(rs)
  {
    if rs != [] {
      var init, r := rs[..|rs| - 1], rs[|rs| - 1];
      assert rs == init + [r];
      SummarizedTags(init);
      TagBreakdownSnoc(init, r);
    }
  }

  /** Accumulating in list order computes the sums: the summary `Summarize` produces. */
  lemma SummarizedIsCharacterized(rs: seq<Resource>)
    ensures Summarized(rs) == Characterized(rs)
  {
    SummarizedTotals(rs);
    SummarizedBreakdown(rs, Provider);
    SummarizedBreakdown(rs, ResourceType);
    SummarizedBreakdown(rs, Region);
    SummarizedTags(rs);
  }

  lemma {:induction false} SumPermutation(rs: seq<Resource>, qs: seq<Resource>, m: Measure)
    requires multiset(rs) == multiset(qs)
    ensures Sum(rs, m) == Sum(qs, m)
    decreases |rs|
  {
    if rs == [] {
      assert |qs| == |multiset(qs)| == 0;
    } else {
      assert rs[0] in multiset(qs);
      var j :| 0 <= j < |qs| && qs[j] == rs[0];
      var front, back := qs[..j], qs[j + 1..];
      var rest := front + back;
      assert qs == front + ([qs[j]] + back);
      RemoveMatching(rs, qs, j);
      SumPermutation(rs[1..], rest, m);
      SumConcat(front, [qs[j]] + back, m);
      SumConcat(front, back, m);
      assert ([qs[j]] + back)[1..] == back;
      assert Sum([qs[j]] + back, m) == Contribution(qs[j], m) + Sum(back, m);
      assert Sum(rs, m) == Contribution(rs[0], m) + Sum(rs[1..], m);
    }
  }

  /** Removing equal elements from lists with equal multisets leaves equal multisets. */
  lemma RemoveMatching<T>(rs: seq<T>, qs: seq<T>, j: nat)
    requires rs != [] && j < |qs| && qs[j] == rs[0] && multiset(rs) == multiset(qs)
    ensures multiset(rs[1..]) == multiset(qs[..j] + qs[j + 1..])
  {
    assert rs == [rs[0]] + rs[1..];
    assert qs == qs[..j] + [qs[j]] + qs[j + 1..];
    calc {
      multiset(rs[1..]);
      multiset(rs) - multiset{rs[0]};
      multiset(qs) - multiset{qs[j]};
      multiset(qs[..j]) + multiset(qs[j + 1..]);
      multiset(qs[..j] + qs[j + 1..]);
    }
  }

  lemma SameElements(rs: seq<Resource>, qs: seq<Resource>)
    requires multiset(rs) == multiset(qs)
    ensures forall r :: r in rs <==> r in qs
  {
    forall r
      ensures r in rs <==> r in qs
    {
      assert r in rs <==> r in multiset(rs);
      assert r in qs <==> r in multiset(qs);
    }
  }

  lemma BreakdownPermutation(rs: seq<Resource>, qs: seq<Resource>, d: Dimension)
    requires multiset(rs) == multiset(qs)
    ensures Breakdown(rs, d) == Breakdown(qs, d)
  {
    SameElements(rs, qs);
    assert Keys(rs, d) == Keys(qs, d);
    forall k | k in Keys(rs, d)
      ensures Sum(rs, InKey(d, k)) == Sum(qs, InKey(d, k))
    {
      SumPermutation(rs, qs, InKey(d, k));
    }
  }

  lemma TagBreakdownPermutation(rs: seq<Resource>, qs: seq<Resource>)
    requires multiset(rs) == multiset(qs)
    ensures TagBreakdown(rs) == TagBreakdown(qs)
  {
    SameElements(rs, qs);
    assert TagKeys(rs) == TagKeys(qs);
    forall t | t in TagKeys(rs)
      ensures TagColumn(rs, t) == TagColumn(qs, t)
    {
      assert TagValues(rs, t) == TagValues(qs, t);
      forall v | v in TagValues(rs, t)
        ensures Sum(rs, InTag(t, v)) == Sum(qs, InTag(t, v))
      {
        SumPermutation(rs, qs, InTag(t, v));
      }
    }
  }

  /** The summary does not depend on the order of the resource list. */
  lemma SummarizedPermutation(rs: seq<Resource>, qs: seq<Resource>)
    requires multiset(rs) == multiset(qs)
    ensures Summarized(rs) == Summarized(qs)
  {
    SummarizedIsCharacterized(rs);
    SummarizedIsCharacterized(qs);
    SumPermutation(rs, qs, Hourly);
    SumPermutation(rs, qs, Monthly);
    SumPermutation(rs, qs, Yearly);
    BreakdownPermutation(rs, qs, Provider);
    BreakdownPermutation(rs, qs, ResourceType);
    BreakdownPermutation(rs, qs, Region);
    TagBreakdownPermutation(rs, qs);
  }
}
