# cloudcost core, modelled in Dafny

cloudcost estimates the recurring cost of infrastructure declared as code.
It has five stages:

1. **Detection.** It decides which IaC format a path holds: Terraform, Pulumi,
   CloudFormation, Azure ARM or Ansible.
2. **Parser selection.** It picks the first registered parser that accepts the path.
3. **Parsing.** The Terraform parser reads every `resource` block. It infers each
   resource's size, region, quantity and tags from the block's attributes by
   name patterns and value shapes.
4. **Pricing.** The calculator asks the pricing client registered for each
   resource's provider for the resource's price. The AWS client queries the
   AWS Pricing API for the first matching product's on-demand USD price.
5. **Reporting.** The calculator adds the prices into a report of totals and
   per-provider, per-type and per-region breakdowns. The report can also
   re-summarise itself weighted by quantity.

The project follows the program's structure, one module per source file:

| module | file | form |
|---|---|---|
| `Resources` | `resource.dfy` | the resource record as a datatype, with its price invariant |
| `Reports` | `report.dfy` | `Report` as a class whose methods update its fields; `Summarized` and the `Sum`/`Breakdown`/`TagBreakdown` characterisation as functions |
| `Analyzer` | `analyzer.dfy` | the attribute analyzer; its loops are methods proved against specification functions |
| `Terraform` | `terraform.dfy` | the Terraform parser over an abstract filesystem |
| `Detection` | `detector.dfy` | format detection over an abstract filesystem |
| `AwsPricing` | `aws_client.dfy` | the AWS client as a class with its lazily initialised state; the SDK is a record of answers |
| `Calculation` | `calculator.dfy` | the calculator class and its pricing loop |
| `Estimation` | `estimator.dfy` | the estimator class and its parser and client registries |
| `Output` | `formatter.dfy` | the formatter registry |
| `Strings`, `Wrappers` | helpers | Go's `strings` functions; `Option` and `Result` |

The main results are these:

- **`GetPrice`.** `AwsPricing.Client.GetPrice` is tied to one function,
  `PriceOutcome`. That function is characterised by four lemmas:
  - when a price is found;
  - when prices are zeroed;
  - when they are kept;
  - every error message.

  `ReadPriceFollowsPath` states which JSON path the price and unit are read from.
- **`CalculateCosts`.**
  - Every resource is left as its client's lookup left it, or left alone when
    its provider has no client.
  - The totals are the unweighted tally of the resources priced without error.
  - A client initialises once. Its first lookup sees its cached outcome or a
    fresh initialisation's, and every later lookup of the same client sees
    the same outcome. When that outcome is a failure, every later resource of
    that client is zeroed with the error and not counted (`InitFailureRepeats`).
  - `TallyIsUnitSummary` shows that this tally is `Summarize` applied to those
    resources at quantity 1.
- **`Summarize`.**
  - It recomputes exactly what `AddResource` accumulates one by one
    (`SummarizedIsCharacterized`).
  - It gives the same result for any order of the resources (`SummarizedPermutation`).
- **`FindSizeField`.** It returns a highest-priority candidate. Its candidate
  map assigns each value the priority of the last rule that matched it.
- **`FindRegionField`.** It follows its three phases in order, and
  `looksLikeRegion` accepts exactly the three documented shapes.
- **Errors.** `Estimate`, `DetectIaCType` and `Parse` return exactly the source's
  error cases and messages, in the source's order of precedence.

The calculator adds each priced resource's prices once, whatever its
quantity (`internal/calculator/calculator.go:53-60`). `AddResource` weights
them by quantity (`pkg/model/report.go:99-119`). The model keeps both as
written, and `TallyIsUnitSummary` relates them: the calculator's totals are
the weighted summary of the priced resources taken at quantity 1.

`ObjectTagsIgnored` states how `ExtractTags` treats a `tags` attribute
written as an object literal. Only map-typed values are read, so such an
attribute yields no tags.

## Model

| member | source | states |
|---|---|---|
| Resources.Resource.CalculateDerivedPrices | pkg/model/resource.go:63-69 | keeps the hourly price; a positive hourly price yields monthly = hourly × 730 and yearly = hourly × 8760; a non-positive one changes nothing; no other field changes |
| Resources.NewResource | pkg/model/resource.go:54-60 | the default resource has quantity 1, no tags, no pricing details, empty identity strings and all-zero (consistent) prices |
| Resources.DerivedPricesIdempotent | pkg/model/resource.go:63-69 | deriving prices twice equals deriving once, and a record already consistent is left unchanged |
| Reports.AddTo | pkg/model/report.go:108-110 | adding into a breakdown creates a zero entry for a new key, adds to that key only and leaves every other key unchanged |
| Reports.AddTags | pkg/model/report.go:113-118 | each tag key's inner map gets the tag's value incremented by the weight (created if missing); keys not among the resource's tags are unchanged |
| Reports.Accrue | pkg/model/report.go:150-168 | accruing a resource adds its provider, type and region to the breakdown keys and keeps the old ones |
| Reports.Summarized | pkg/model/report.go:137-169 | every resource's provider, type and region has an entry in the summary's breakdowns |
| Reports.SummarizedSnoc | pkg/model/report.go:150-168 | summarising one more resource is accruing it onto the summary of the others |
| Reports.Report.NewReport | pkg/model/report.go:82-96 | a fresh report: given timestamp, currency "USD", version "1.0", no resources, zero totals, empty breakdowns and lists |
| Reports.Report.Literal | internal/calculator/calculator.go:28-33 | the calculator's report literal: the given resources, every total and breakdown empty, all other fields at their zero values |
| Reports.Report.Accumulate | pkg/model/report.go:102-118 | the totals and every breakdown grow by the resource's prices weighted by its quantity |
| Reports.Report.AccumulateTags | pkg/model/report.go:113-118 | the loop over the resource's tags leaves exactly AddTags of the old tag breakdown |
| Reports.Report.AddResource | pkg/model/report.go:99-119 | appends the resource, accrues its weighted prices into totals and breakdowns, and preserves consistency with the resources held |
| Reports.Report.AddWarning | pkg/model/report.go:122-124 | appends the warning; nothing else changes |
| Reports.Report.AddError | pkg/model/report.go:127-129 | appends the error; nothing else changes |
| Reports.Report.AddSuggestion | pkg/model/report.go:132-134 | appends the suggestion; nothing else changes |
| Reports.Report.Summarize | pkg/model/report.go:137-169 | afterwards totals and breakdowns are exactly the weighted summary of the resources; on a consistent report nothing changes |
| Reports.Restrict | pkg/model/report.go:113-118 | the tags restricted to the keys visited so far |
| Reports.AddToTag | pkg/model/report.go:114-117 | one tag step: the tag key's inner map is created if missing and the value's entry incremented |
| Reports.RestrictAll | pkg/model/report.go:113-118 | after all keys are visited the restriction is the whole tag map |
| Reports.AddTagsInsert | pkg/model/report.go:113-118 | adding one more tag is one more AddTo on that key's inner map |
| Reports.AddTagStep | pkg/model/report.go:113-118 | the tag loop's invariant is kept by each iteration whatever the map order |
| Reports.SumSnoc | pkg/model/report.go:150-154 | a running total grows by exactly the new resource's weighted contribution |
| Reports.SumConcat | pkg/model/report.go:150-154 | a total over two lists is the sum of their totals |
| Reports.SumOfNoContribution | pkg/model/report.go:150-154 | resources contributing nothing give a zero total |
| Reports.KeysSnoc | pkg/model/report.go:156-159 | a breakdown's keys grow by the new resource's key |
| Reports.BreakdownEntrySnoc | pkg/model/report.go:156-159 | one breakdown entry grows by the new resource's weighted monthly price exactly when the key is the resource's |
| Reports.BreakdownSnoc | pkg/model/report.go:156-159 | the provider, type and region breakdowns of one more resource are AddTo of the previous ones |
| Reports.TagColumnSnoc | pkg/model/report.go:161-167 | a tag column of one more resource carrying that tag gains its weighted monthly price under its value |
| Reports.TagEntrySnoc | pkg/model/report.go:161-167 | each value entry of such a tag column is the previous entry plus the weight when the value is the resource's |
| Reports.TagColumnUntouched | pkg/model/report.go:161-167 | a resource without a tag key leaves that tag's column unchanged |
| Reports.TagBreakdownSnoc | pkg/model/report.go:161-167 | the tag breakdown of one more resource is AddTags of the previous one |
| Reports.TotalsSnoc | pkg/model/report.go:152-154 | the three totals each grow by the resource's weighted hourly, monthly and yearly price |
| Reports.SummarizedTotals | pkg/model/report.go:150-154 | the summarised totals are the sums of price × quantity over all resources |
| Reports.SummarizedBreakdown | pkg/model/report.go:156-159 | each summarised breakdown maps exactly the keys present to the sum of weighted monthly prices for that key |
| Reports.SummarizedTags | pkg/model/report.go:161-167 | the summarised tag breakdown maps each tag key and value present to the sum of weighted monthly prices carrying them |
| Reports.SummarizedIsCharacterized | pkg/model/report.go:137-169 | the incremental summary equals its closed-form characterisation by sums |
| Reports.SumPermutation | pkg/model/report.go:150-154 | totals do not depend on the order of the resources |
| Reports.RemoveMatching | pkg/model/report.go:150 | removing a matched element from two permutations leaves permutations |
| Reports.SameElements | pkg/model/report.go:150 | permutations hold the same resources |
| Reports.BreakdownPermutation | pkg/model/report.go:156-159 | breakdowns do not depend on the order of the resources |
| Reports.TagBreakdownPermutation | pkg/model/report.go:161-167 | the tag breakdown does not depend on the order of the resources |
| Reports.SummarizedPermutation | pkg/model/report.go:137-169 | the whole summary does not depend on the order of the resources |
| Analyzer.StringValue | internal/parser/analyzer.go:249-255 | a value exactly for string-typed attributes, and it is their string |
| Analyzer.DotSuffixImpliesSuffix | internal/parser/analyzer.go:127 | ending in "." + suffix implies ending in suffix, so the second test never decides |
| Analyzer.ScanLetterDigit | internal/parser/analyzer.go:95-103 | the two flags say whether the first part has an ASCII letter and whether it has a digit |
| Analyzer.EndsWithSizeWord | internal/parser/analyzer.go:124-130 | true exactly when the value ends in one of the seven size words (or "." + word) |
| Analyzer.LooksLikeInstanceType | internal/parser/analyzer.go:85-133 | true exactly for the four instance-type shapes: a dotted family with letter and digit, "Standard_", a dash, a size suffix |
| Analyzer.InstanceTypeShape | internal/parser/analyzer.go:85-133 | only a non-empty value can look like an instance type |
| Analyzer.Overlay | internal/parser/analyzer.go:44-46 | writing a set of values at one priority leaves the old candidates plus those values as keys |
| Analyzer.Pass1Priorities | internal/parser/analyzer.go:17-49 | every first-pass candidate is a non-empty value with priority at least 40 |
| Analyzer.MatchedValuesStep | internal/parser/analyzer.go:39-49 | the values matched by the first k patterns are those of k - 1 plus the k-th pattern's hits |
| Analyzer.Pass1Keys | internal/parser/analyzer.go:39-49 | the first-pass candidates are exactly the matched values |
| Analyzer.Pass1LastPatternWins | internal/parser/analyzer.go:39-49 | a candidate's priority is that of the last pattern that matched it |
| Analyzer.AdmissibleFacts | internal/parser/analyzer.go:36-68 | the candidate values are exactly the pattern and shape hits, each non-empty with priority at least 30 |
| Analyzer.CandidatesSplit | internal/parser/analyzer.go:39-68 | the candidate values split into the first-pass matches and the second-pass shape hits |
| Analyzer.PatternHitsAdd | internal/parser/analyzer.go:40-47 | visiting one more attribute adds its string value to a pattern's hits exactly when its name has the suffix and its value is a non-empty string |
| Analyzer.OverlayInsert | internal/parser/analyzer.go:45 | overlaying one more value is one more map update at the pattern's priority |
| Analyzer.RecordPatternStep | internal/parser/analyzer.go:40-48 | the inner loop's invariant is kept by each attribute in any map order |
| Analyzer.RecordPattern | internal/parser/analyzer.go:40-48 | the inner loop sets every hit of the pattern to the pattern's priority and keeps every other candidate |
| Analyzer.RunPass1 | internal/parser/analyzer.go:39-49 | the first pass computes the pattern-by-pattern overlay Pass1 |
| Analyzer.RecordShapes | internal/parser/analyzer.go:52-68 | the second pass sets each instance-type-shaped value to 75 or 30 by its attribute name, over the first pass |
| Analyzer.SelectBest | internal/parser/analyzer.go:71-81 | the result is "" exactly when there are no candidates, and otherwise a candidate of maximal priority |
| Analyzer.FindSizeField | internal/parser/analyzer.go:15-82 | returns a highest-priority candidate of an admissible candidate map; "" exactly when no attribute yields a candidate |
| Analyzer.SkipScanSpace | internal/parser/analyzer.go:182 | the scanner's leading white space is dropped, and nothing more |
| Analyzer.LeadingDigits | internal/parser/analyzer.go:182 | the length of the maximal run of leading decimal digits |
| Analyzer.Pow10 | internal/parser/analyzer.go:182 | powers of ten are positive |
| Analyzer.DecimalValue | internal/parser/analyzer.go:182 | a k-digit numeral's value is below 10^k |
| Analyzer.ShortNumeralsScan | internal/parser/analyzer.go:182-183 | every numeral of 1 to 18 digits is accepted by the %d scan |
| Analyzer.Pow10Below63 | internal/parser/analyzer.go:182 | 10^18 fits a 64-bit int |
| Analyzer.Pow10Mono | internal/parser/analyzer.go:182 | powers of ten grow with the exponent |
| Analyzer.NoNumeralNoScan | internal/parser/analyzer.go:182-183 | a part starting with neither space, sign nor digit is rejected by the %d scan |
| Analyzer.LowerKeepsDash | internal/parser/analyzer.go:194 | lower-casing keeps a dash |
| Analyzer.DashedIsNotAzure | internal/parser/analyzer.go:188-197 | no dashed value is one of the listed Azure regions |
| Analyzer.AwsGateExcludesOthers | internal/parser/analyzer.go:179-205 | a value passing the AWS shape gate can match neither the Azure nor the GCP test |
| Analyzer.SplitAfterSegment | internal/parser/analyzer.go:179-180 | splitting at the first separator yields the first part and the split of the rest; the separator count grows by one |
| Analyzer.NoDash | internal/parser/analyzer.go:179-180 | a value without a dash has no dash and splits to itself |
| Analyzer.AwsCodeIsRegion | internal/parser/analyzer.go:179-185 | every two-letter, four-or-more-letter, short-numeral AWS code such as us-east-1 is a region |
| Analyzer.ThreeParts | internal/parser/analyzer.go:179-180 | a value joined from three dash-free parts has two dashes and splits back into them |
| Analyzer.GcpCodeIsRegion | internal/parser/analyzer.go:200-205 | every one-dash code with a 2- or 5+-character prefix ending in "1" is a region |
| Analyzer.AzureNamesAnyCase | internal/parser/analyzer.go:188-197 | every listed Azure region, in any ASCII case, is a region |
| Analyzer.OneDashNeedsFinalOne | internal/parser/analyzer.go:200-207 | a one-dash value not ending in "1" is not a region |
| Analyzer.ShortMiddleIsNoRegion | internal/parser/analyzer.go:179-185 | a three-part value with a middle part shorter than four is not a region |
| Analyzer.IsAzureRegion | internal/parser/analyzer.go:188-197 | true exactly when the value equals one of the eight listed Azure regions ignoring case |
| Analyzer.LooksLikeRegion | internal/parser/analyzer.go:177-208 | true exactly for the AWS, Azure and GCP region shapes, with the AWS test's early return |
| Analyzer.RegionShape | internal/parser/analyzer.go:177-208 | a dashless region is one of the listed Azure names; any other region has one or two dashes |
| Analyzer.ListedRegionIsEarliest | internal/parser/analyzer.go:141-148 | the direct phase returns the first listed field holding a non-empty string, and only it |
| Analyzer.ContainsAt | internal/parser/analyzer.go:153-155 | a substring occurring at some position is contained |
| Analyzer.RegionFieldsAreKeywords | internal/parser/analyzer.go:138-155 | each listed region field also contains a region keyword |
| Analyzer.ListedRegionIsKeywordHit | internal/parser/analyzer.go:141-161 | a direct-phase answer is also a keyword-phase answer |
| Analyzer.FirstListedRegion | internal/parser/analyzer.go:141-148 | the direct loop returns the first listed field's non-empty string |
| Analyzer.SomeKeywordRegion | internal/parser/analyzer.go:151-161 | none exactly when no attribute whose lower-cased name holds a region keyword has a non-empty string; otherwise such a value |
| Analyzer.SomeShapedRegion | internal/parser/analyzer.go:164-171 | none exactly when no attribute holds a region-shaped string; otherwise such a value |
| Analyzer.FindRegionField | internal/parser/analyzer.go:136-174 | the three phases in order; "" exactly when no attribute qualifies in any phase |
| Analyzer.FindQuantity | internal/parser/analyzer.go:211-226 | a positive numeric count truncated toward zero, otherwise 1; 0 exactly for a count strictly between 0 and 1 |
| Analyzer.TagsOf | internal/parser/analyzer.go:229-246 | exactly the string-valued entries of a map-typed tags attribute |
| Analyzer.ExtractTags | internal/parser/analyzer.go:229-246 | the element loop yields TagsOf |
| Analyzer.ObjectTagsIgnored | internal/parser/analyzer.go:235 | a tags attribute of object type yields no tags |
| Terraform.CanHandleIffFiles | internal/parser/terraform/parser.go:162-177 | CanHandle holds exactly when Parse's file listing succeeds |
| Terraform.CanHandle | internal/parser/terraform/parser.go:162-177 | only a directory or a .tf path is claimed, never a path that cannot be stat'ed |
| Terraform.TfFiles | internal/parser/terraform/parser.go:33-58 | a successful listing is non-empty, and a file lists only itself; a stat failure is an error |
| Terraform.LoadAll | internal/parser/terraform/parser.go:65-87 | loading succeeds only when every file loaded; no files never fails |
| Terraform.ParsedBlocks | internal/parser/terraform/parser.go:31-87 | blocks are obtained only for a path the parser claims, and only when every listed file loaded |
| Terraform.LoadAllSucceeds | internal/parser/terraform/parser.go:65-87 | loading succeeds exactly when every file loads; the blocks are those of the files in order |
| Terraform.LoadAllKeepsError | internal/parser/terraform/parser.go:66-87 | the first failing file's error is the one returned |
| Terraform.NamedSizeIsCandidate | internal/parser/terraform/parser.go:123-135 | a non-empty string instance_type or size attribute is already a size candidate |
| Terraform.BuildResource | internal/parser/terraform/parser.go:89-153 | the resource built from a block: id type.name, provider before the first "_", inferred size, region and tags, quantity at least 1 |
| Terraform.SizeFallback | internal/parser/terraform/parser.go:123-135 | when the analyzer found no size candidate, the explicit fallback also yields "" |
| Terraform.RegionFallbackIsEmpty | internal/parser/terraform/parser.go:138-146 | when the analyzer found no region, the explicit region attribute can only be "" |
| Terraform.Name | internal/parser/terraform/parser.go:180-182 | the parser's name is "Terraform" |
| Terraform.AllBuiltConcat | internal/parser/terraform/parser.go:89-155 | resources built for two block lists concatenate |
| Terraform.BuildAll | internal/parser/terraform/parser.go:89-155 | one resource per block, in order |
| Terraform.Parse | internal/parser/terraform/parser.go:31-159 | errors exactly on stat, glob, non-.tf file, no files, or a failing file, with those messages; otherwise one resource per block of the files in order |
| Terraform.ListFiles | internal/parser/terraform/parser.go:33-58 | the .tf files of a directory, or the path itself if it is a .tf file; each error case with its message |
| Terraform.ParseFiles | internal/parser/terraform/parser.go:65-158 | fails with the first failing file's error, otherwise builds every block of every file |
| Detection.TypeNamesDistinct | internal/utils/detector.go:13-20 | the six type names are pairwise distinct, so the recorded name identifies the type |
| Detection.Ext | internal/utils/detector.go:88 | empty exactly when no dot follows the last slash; otherwise a suffix of the path that starts with its only dot and holds no slash |
| Detection.DetectFromFile | internal/utils/detector.go:87-129 | Terraform exactly for a .tf extension in any case; Azure ARM only from .json, Ansible only from .yaml or .yml, CloudFormation only from those three; never Pulumi |
| Detection.DetectDir | internal/utils/detector.go:35-83 | Terraform exactly when the directory has a .tf file; Pulumi only when a Pulumi.yaml or Pulumi.yml exists |
| Detection.Detect | internal/utils/detector.go:23-84 | a stat failure is reported with Unknown; a directory never errs and is judged by DetectDir; any error comes with Unknown; Pulumi only for a directory |
| Detection.ContentMattersOnlyForJsonAndYaml | internal/utils/detector.go:87-129 | outside .json, .yaml and .yml the content is not read: .tf is Terraform, anything else Unknown, never an error |
| Detection.FileErrorsAreReadErrors | internal/utils/detector.go:87-129 | a file detection fails exactly when a JSON or YAML file cannot be read, and then reports Unknown |
| Detection.MarkerPrecedence | internal/utils/detector.go:101-123 | the ARM marker wins over CloudFormation in JSON; the CloudFormation marker wins over Ansible in YAML |
| Detection.DirectoryPriority | internal/utils/detector.go:35-83 | each directory answer holds exactly when its check passes and every earlier check fails |
| Detection.FindContent | internal/utils/detector.go:59-65 | true exactly when some file can be read and its content is accepted |
| Detection.DetectIaCType | internal/utils/detector.go:23-84 | stat error, a file by its extension and content, or a directory by its checks in order |
| AwsPricing.ServiceFor | internal/pricing/aws/client.go:80-104 | EC2 for aws_instance*, else RDS for aws_db_instance*, else ElastiCache for aws_elasticache*, else none |
| AwsPricing.QueryRegion | internal/pricing/aws/client.go:71-75 | the resource's region, or us-east-1 when it has none |
| AwsPricing.Filters | internal/pricing/aws/client.go:107-138 | service code and region filters, plus an instance-type filter exactly when a size is known and the service is not ElastiCache |
| AwsPricing.AtObjectField | internal/pricing/aws/client.go:180-255 | a path lookup through an object field continues in that field, and fails when it is missing |
| AwsPricing.AtLeaf | internal/pricing/aws/client.go:276 | a one-step path reads the field |
| AwsPricing.Failure | internal/pricing/aws/client.go:173-263 | every failed product read records a pricing source starting with "Error: " |
| AwsPricing.ReadPrice | internal/pricing/aws/client.go:173-205 | no price without a decoded document, a SKU and a dimension key; every failure's source starts with "Error: " |
| AwsPricing.ReadTerm | internal/pricing/aws/client.go:207-239 | a price is found only for a SKU present in the on-demand terms and a non-empty dimension key; every failure's source starts with "Error: " |
| AwsPricing.ReadDimension | internal/pricing/aws/client.go:242-288 | a price is found only when pricePerUnit is present, and its unit is the dimension's unit string; every failure's source starts with "Error: " |
| AwsPricing.InitError | internal/pricing/aws/client.go:332-359 | no error exactly when both configuration and API access succeed; a credentials error takes precedence |
| AwsPricing.LookupOutcome | internal/pricing/aws/client.go:173-288 | error-free exactly when a price was found; details always stamped; a malformed product changes only the details, recording its source and no components |
| AwsPricing.ReadDimensionFollowsPath | internal/pricing/aws/client.go:242-288 | a price is read from a dimension exactly when pricePerUnit.USD is a string that scans; the unit is taken when it is a string |
| AwsPricing.ReadTermFollowsPath | internal/pricing/aws/client.go:207-288 | a term yields a price exactly when the path sku.priceDimensions.dimKey.pricePerUnit.USD holds a string that scans |
| AwsPricing.ReadPriceFollowsPath | internal/pricing/aws/client.go:173-288 | a product yields a price exactly when terms.OnDemand.sku.priceDimensions.dimKey.pricePerUnit.USD holds a scanning string; the unit component comes from the dimension's unit |
| AwsPricing.Zeroed | internal/pricing/aws/client.go:41-50 | all prices zero, pricing details with the error source and no components; no other field changes |
| AwsPricing.Priced | internal/pricing/aws/client.go:265-288 | the hourly price read, monthly and yearly derived, source "AWS Pricing API", one component exactly when a unit is present |
| AwsPricing.PriceOutcome | internal/pricing/aws/client.go:36-324 | only prices and pricing details change, and the details are always stamped |
| AwsPricing.PriceOutcomeSucceeds | internal/pricing/aws/client.go:36-324 | no error exactly when the first product is reached and its price read; then consistent prices from the read hourly price |
| AwsPricing.PriceOutcomeZeroes | internal/pricing/aws/client.go:38-68 | failing before a product is reached zeroes all prices and records no components |
| AwsPricing.PriceOutcomeKeepsPrices | internal/pricing/aws/client.go:173-263 | a malformed product keeps the old prices and records its error source |
| AwsPricing.PriceOutcomeMessages | internal/pricing/aws/client.go:36-324 | every error message, in the order the checks are made |
| AwsPricing.Client.NewClient | internal/pricing/aws/client.go:28-33 | not initialised, no error, region us-east-1 |
| AwsPricing.Client.Name | internal/pricing/aws/client.go:327-329 | the client's name is "AWS" |
| AwsPricing.Client.Initialize | internal/pricing/aws/client.go:332-359 | marks the client initialised; the error is the credentials error, else the API-access error, else none, and is remembered |
| AwsPricing.Client.GetPrice | internal/pricing/aws/client.go:36-324 | initialises only on first use; the result is PriceOutcome under the cached or fresh initialisation error, with the first SKU and dimension picked; the cached error afterwards is that same error, so a failure repeats on every later call |
| AwsPricing.Client.PriceReady | internal/pricing/aws/client.go:70-324 | after initialization, the result is PriceOutcome with no initialization error |
| AwsPricing.Client.SelectService | internal/pricing/aws/client.go:80-104 | the switch computes ServiceFor |
| AwsPricing.Client.BuildFilters | internal/pricing/aws/client.go:107-138 | the filter list is Filters |
| AwsPricing.Client.RecordLookup | internal/pricing/aws/client.go:173-288 | the resource and error are LookupOutcome of the lookup |
| AwsPricing.Client.ReadFirstProduct | internal/pricing/aws/client.go:173-205 | the lookup is ReadPrice at the SKU and dimension first in range order |
| AwsPricing.Client.ReadFirstDimension | internal/pricing/aws/client.go:207-239 | the lookup is ReadTerm at the first dimension key in range order |
| AwsPricing.Client.ReadUsdPrice | internal/pricing/aws/client.go:242-263 | the lookup is ReadDimension |
| Calculation.AddPrices | internal/calculator/calculator.go:53-60 | the totals grow by the resource's prices unweighted; the provider breakdown gains its key |
| Calculation.TallySnoc | internal/calculator/calculator.go:36-61 | the tally of one more resource adds it exactly when it was priced without error |
| Calculation.Counted | internal/calculator/calculator.go:36-61 | the counted resources, each at quantity 1 |
| Calculation.TallyIsUnitSummary | internal/calculator/calculator.go:36-61 | the calculator's tally is the report summary of the counted resources at quantity 1, with no tag breakdown |
| Calculation.TallyProviderKeys | internal/calculator/calculator.go:58 | the provider breakdown has exactly the providers of counted resources |
| Calculation.TallyMonthlyIsUnweighted | internal/calculator/calculator.go:54 | the monthly total is the plain sum of counted monthly prices, whatever the quantities |
| Calculation.CallsDoneStep | internal/calculator/calculator.go:36-61 | one more call, made as Ask makes it, keeps the per-resource record and the record of client states |
| Calculation.InitFailureRepeats | internal/pricing/aws/client.go:36-68 | once a client's lookup saw an initialisation failure, every later resource of that client is zeroed with that error and not counted |
| Calculation.CachedAtStart | internal/calculator/calculator.go:36 | before the loop every client is as it started |
| Calculation.AnsweredStep | internal/calculator/calculator.go:37-50 | one more call keeps the record of what each lookup did to its resource |
| Calculation.FirstLookupsStep | internal/pricing/aws/client.go:36-68 | a client's first lookup sees what the client's entry state gives |
| Calculation.LaterLookupsStep | internal/pricing/aws/client.go:36-68 | a later lookup of a client sees the same outcome as its earlier ones |
| Calculation.UntouchedStep | internal/calculator/calculator.go:37-50 | a client no resource has gone to is still as it started |
| Calculation.HoldingStep | internal/pricing/aws/client.go:36-68 | a client some resource has gone to is initialised and holds the outcome its lookups saw |
| Calculation.Calculator.NewCalculator | internal/calculator/calculator.go:14-18 | no clients registered |
| Calculation.Calculator.RegisterPricingClient | internal/calculator/calculator.go:21-23 | the client replaces any previous one for the provider |
| Calculation.Calculator.CalculateCosts | internal/calculator/calculator.go:26-64 | never errs; each resource is skipped or as its client's lookup left it; the first lookup of a client sees the outcome of its state on entry and later ones see the same; totals are the tally of the error-free ones; other report fields at zero values; afterwards a client used is initialised and one not used is as it was |
| Calculation.Calculator.PriceAll | internal/calculator/calculator.go:36-61 | the loop prices every resource in place from the clients' entry states, tallies the error-free ones, and leaves each used client initialised with the outcome its lookups saw |
| Calculation.Calculator.Step | internal/calculator/calculator.go:37-60 | one iteration keeps the loop invariant: resources, calls, client states and totals |
| Calculation.Calculator.Lookup | internal/calculator/calculator.go:37-50 | the lookup half of an iteration keeps the record of calls and client states |
| Calculation.Calculator.Ask | internal/calculator/calculator.go:40-50 | skipped exactly when the provider has no client; otherwise the client's lookup outcome, seen from the client's state, after which only that client's state changes, to initialised with the outcome seen |
| Calculation.Commit | internal/calculator/calculator.go:47-60 | the priced resource is written back and counted exactly when error-free; the clients are untouched |
| Calculation.Record | internal/calculator/calculator.go:37-60 | writes the resource back at its index and adds its prices when counted |
| Calculation.Count | internal/calculator/calculator.go:53-60 | the totals grow by AddPrices |
| Estimation.FirstHandler | internal/controller/estimator.go:56-62 | the first parser that accepts the path, or none when none does |
| Estimation.EstimateError | internal/controller/estimator.go:42-74 | a detection error or an unknown type always errs; no error means some parser accepts the path |
| Estimation.FirstHandlerIsFirst | internal/controller/estimator.go:56-62 | any index meeting the first-acceptor conditions is FirstHandler |
| Estimation.DetectionFailsFirst | internal/controller/estimator.go:44-51 | a detection error or an unknown type fails the estimate whatever parsers are registered |
| Estimation.LaterParsersIgnored | internal/controller/estimator.go:56-62 | parsers registered after an accepting one change nothing |
| Estimation.RunParser | internal/controller/estimator.go:71-74 | the selected parser's errors and resources |
| Estimation.Estimator.NewEstimator | internal/controller/estimator.go:22-28 | no parsers, no clients, a fresh calculator |
| Estimation.Estimator.RegisterParser | internal/controller/estimator.go:31-33 | the parser is appended |
| Estimation.Estimator.RegisterPricingClient | internal/controller/estimator.go:36-39 | the client is registered in the estimator and in its calculator |
| Estimation.Estimator.SelectParser | internal/controller/estimator.go:56-62 | the loop with its break finds FirstHandler |
| Estimation.Estimator.DetectAndParse | internal/controller/estimator.go:44-74 | errs exactly on a detection error, an unknown type, no accepting parser or a parse error, with those messages in that order |
| Estimation.Estimator.PriceAndStamp | internal/controller/estimator.go:79-86 | the calculator's report stamped with the format name and the time |
| Estimation.Estimator.Estimate | internal/controller/estimator.go:42-89 | errs exactly as EstimateError says; otherwise the first accepting parser's resources, priced, tallied and stamped |
| Estimation.Estimator.Compare | internal/controller/estimator.go:92-102 | Estimate's result, with its error wrapped as "failed to estimate current costs: " |
| Output.FormatterName | internal/output/formatter.go:10-16 | the text formatter is named "text" |
| Output.FormatterRegistry.NewFormatterRegistry | internal/output/formatter.go:24-28 | an empty registry |
| Output.FormatterRegistry.RegisterFormatter | internal/output/formatter.go:31-33 | the formatter is stored under its own name, replacing any previous one; others are kept |
| Output.FormatterRegistry.GetFormatter | internal/output/formatter.go:36-39 | found exactly when registered, and then the formatter of that name |

## Left out

- Floating point: prices are `real`, so float64 rounding in sums and products is not modelled.
- Analyzer.FindQuantity: the count is taken as an exact real and `int(f)` as truncation toward zero into an unbounded integer. Two float64 effects are not modelled. First, the conversion to float64 rounds, so a count of 2.99999999999999999999 gives 3 in Go and 2 in the model. Second, `int(f)` of a count of 2^63 or more is out of range; on amd64 it yields a negative number, which the parser then raises to quantity 1 (`internal/parser/terraform/parser.go:149-150`). The model's result is never negative.
- Analyzer.LooksLikeRegion: lengths are counted in characters, while Go's `len` counts UTF-8 bytes (`internal/parser/analyzer.go:179-181`, `:201-202`). For ASCII values the two agree. For `"ü-east-1"` they do not: its first part `"ü"` is two bytes, so Go's two-letter test passes and the value is a region, while the model counts one character and rejects it. The same holds for Analyzer.RegionShape.
- Analyzer.LooksLikeInstanceType: the same character-for-byte difference applies to the length tests of the dotted shape (`internal/parser/analyzer.go:89-94`).
- Case folding: `strings.ToLower` and `strings.EqualFold` are modelled on ASCII letters only. Unicode case folding is not modelled.
- Go's nil and empty maps are not distinguished. The calculator's report has a nil tag breakdown; the model has an empty one.
- HCL: the parser, `PartialContent`, `JustAttributes` and expression evaluation are abstracted. A file is loaded into blocks carrying attribute values (`AttrValue`), or fails with the error message. Only `resource` blocks are delivered, so the `block.Type == "resource"` test always holds.
- The filesystem: `os.Stat`, `filepath.Glob`, `filepath.Join`, file existence and file reads are answers supplied as parameters. The detector's view and the parser's view are independent parameters.
- Time: `time.Now()` is an integer parameter. The progress lines `Estimate` prints are omitted.
- The AWS SDK: configuration loading, `DescribeServices`, `GetProducts`, JSON decoding and `fmt.Sscanf` with `%f` are answers supplied in an `Sdk` record. Each resource's call in the calculator gets its own `Sdk`. `%d` scanning in `looksLikeRegion` is modelled for numerals of at most 18 digits and for parts that start with no numeral. Longer numerals are left to a scan predicate.
- Map order: for the JSON maps, the SKU and dimension picked are any key the range could visit first (`IsRangeFirst`). They are returned as ghost outputs.
- AwsPricing.Client.GetPrice: the product-attribute metadata copy (`internal/pricing/aws/client.go:290-306`) is not modelled, because pricing details carry no metadata field in the model.
- AwsPricing.Client.GetPrice: the resource is passed by pointer and updated in place in the source. The model returns the updated value instead. `Calculation.Record` writes it back at its index, which models `&resources[i]`.
- Resource and report fields never read or written by the core are not modelled: `Properties`, the other `PricingDetails` fields, and suggestion internals beyond the record.
- Output: formatters' `Format` and the text formatter's template rendering (`internal/output/text.go`) are not part of this model. A formatter is its name.
- Estimation.Estimator.Estimate: the "failed to calculate costs" error branch is not modelled. `CalculateCosts` never returns an error, so the branch is unreachable.
- Estimation.Estimator.Compare: `previousReportPath` is ignored, as in the source, where loading and comparing the previous report is unimplemented.
- Calculation.Calculator.CalculateCosts: the pricing-client interface is modelled by the AWS client only. Clients of other providers are not part of this model.
- Command-line wiring (`cmd/`, `main.go`) is not part of this model.
