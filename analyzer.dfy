/**
 * Attribute inference over one resource declaration
 * (internal/parser/analyzer.go): size, region, quantity and tags are read
 * from an open-ended attribute map by name patterns and value shapes.
 *
 * Go iterates maps in an unspecified order. Where that order matters the
 * model chooses with `:|`, and the contracts hold for every order.
 */
module Analyzer {
  import opened Wrappers
  import opened Strings

  /** What evaluating an attribute's expression without variables gives. */
  datatype AttrValue =
    | Str(s: string)                          // a cty string
    | Num(n: real)                            // a cty number
    | MapVal(entries: map<string, AttrValue>) // a cty map (e.g. a `tomap` result)
    | ObjVal(fields: map<string, AttrValue>)  // a cty object (what an HCL `{ k = v }` literal evaluates to)
    | Other                                   // any other type, or an evaluation error

  type Attrs = map<string, AttrValue>

  /** `getExprStringValue`: only string-typed expressions yield text. */
  function StringValue(v: AttrValue): (r: Option<string>)
    ensures r.Some? <==> v.Str?
    ensures r.Some? ==> r.value == v.s
  {
    if v.Str? then Some(v.s) else None
  }

  /** Attribute `name` exists and holds a non-empty string. */
  predicate HasText(attrs: Attrs, name: string) {
    name in attrs && attrs[name].Str? && attrs[name].s != ""
  }

  // ---------------------------------------------------------------------
  // Instance-type shape

  const SizeSuffixes: seq<string> := ["small", "medium", "large", "xlarge", "2xlarge", "micro", "nano"]

  predicate HasLetter(s: string) {
    exists i :: 0 <= i < |s| && IsAsciiLetter(s[i])
  }

  predicate HasDigit(s: string) {
    exists i :: 0 <= i < |s| && IsAsciiDigit(s[i])
  }

  /** `t2.micro`-like: a dot, length at least 4, and a first dot-segment of
      at least two characters holding both a letter and a digit. */
  predicate DottedShape(value: string) {
    && '.' in value && |value| >= 4
    && var first := FirstSegment(value, '.');
       |first| >= 2 && HasLetter(first) && HasDigit(first)
  }

  predicate EndsInSizeWord(value: string) {
    exists k :: 0 <= k < |SizeSuffixes| && HasSuffix(value, SizeSuffixes[k])
  }

  /** The value shapes `looksLikeInstanceType` accepts. */
  predicate InstanceTypeShape(value: string)
    ensures InstanceTypeShape(value) ==> value != []
  {
    DottedShape(value) || HasPrefix(value, "Standard_") || '-' in value || EndsInSizeWord(value)
  }

  lemma DotSuffixImpliesSuffix(value: string, suffix: string)
    requires HasSuffix(value, "." + suffix)
    ensures HasSuffix(value, suffix)
  {
    var n := |value|;
    assert value[n - |suffix|..] == value[n - |suffix| - 1..][1..];
  }

  /** The letter and digit flags of `looksLikeInstanceType`'s character scan. */
  method ScanLetterDigit(first: string) returns (hasLetter: bool, hasNumber: bool)
    ensures hasLetter == HasLetter(first) && hasNumber == HasDigit(first)
  {
    hasLetter, hasNumber := false, false;
    for i := 0 to |first|
      invariant hasLetter <==> exists j :: 0 <= j < i && IsAsciiLetter(first[j])
      invariant hasNumber <==> exists j :: 0 <= j < i && IsAsciiDigit(first[j])
    {
      var c := first[i];
      if IsAsciiLetter(c) {
        hasLetter := true;
      } else if IsAsciiDigit(c) {
        hasNumber := true;
      }
    }
  }

  /** The size-word loop of `looksLikeInstanceType`. */
  method EndsWithSizeWord(value: string) returns (b: bool)
    ensures b == EndsInSizeWord(value)
  {
    for k := 0 to |SizeSuffixes|
      invariant forall j :: 0 <= j < k ==> !HasSuffix(value, SizeSuffixes[j])
    {
      var suffix := SizeSuffixes[k];
      var plain := HasSuffix(value, suffix);
      var dotted := HasSuffix(value, "." + suffix);
      if dotted {
        DotSuffixImpliesSuffix(value, suffix);
      }
      if plain || dotted {
        return true;
      }
    }
    return false;
  }

  /** `looksLikeInstanceType`. */
  method LooksLikeInstanceType(value: string) returns (b: bool)
    ensures b == InstanceTypeShape(value)
  {
    if '.' in value && |value| >= 4 {
      var parts := Split(value, '.');
      if |parts| >= 2 {
        var first := parts[0];
        if |first| >= 2 {
          var hasLetter, hasNumber := ScanLetterDigit(first);
          if hasLetter && hasNumber {
            return true;
          }
        }
      }
    }
    assert !DottedShape(value);
    assert HasPrefix(value, "Standard_") ==> value[8] == '_';
    if HasPrefix(value, "Standard_") && '_' in value {
      return true;
    }
    if '-' in value {
      var parts := Split(value, '-');
      if |parts| >= 2 {
        return true;
      }
    }
    b := EndsWithSizeWord(value);
  }

  // ---------------------------------------------------------------------
  // Size inference

  datatype SizePattern = SizePattern(suffix: string, priority: int)

  /** The name-pattern table, in the order the first pass visits it. */
  const SizePatterns: seq<SizePattern> := [
    SizePattern("instance_type", 100),
    SizePattern("_type", 90),
    SizePattern("machine_type", 85),
    SizePattern("size", 80),
    SizePattern("instance_class", 75),
    SizePattern("_class", 70),
    SizePattern("_tier", 65),
    SizePattern("_size", 60),
    SizePattern("node_type", 55),
    SizePattern("bundle_id", 50),
    SizePattern("sku_name", 45),
    SizePattern("flavor", 40)
  ]

  /** Values that attributes among `names` contribute under pattern `p` in the first pass. */
  function PatternHits(attrs: Attrs, names: set<string>, p: SizePattern): set<string> {
    set n | n in names && HasSuffix(n, p.suffix) && HasText(attrs, n) :: attrs[n].s
  }

  /** `cands` with every value of `vals` set to priority `pri`. */
  function Overlay(cands: map<string, int>, vals: set<string>, pri: int): (r: map<string, int>)
    ensures r.Keys == cands.Keys + vals
  {
    cands + map v | v in vals :: pri
  }

  /** Candidate priorities after the first `k` patterns of `table`:
      a later pattern overwrites the priority an earlier one recorded. */
  function Pass1(attrs: Attrs, table: seq<SizePattern>, k: nat): map<string, int>
    requires k <= |table|
  {
    if k == 0 then map[]
    else
      var p := table[k - 1];
      Overlay(Pass1(attrs, table, k - 1), PatternHits(attrs, attrs.Keys, p), p.priority)
  }

  /** The second pass's test on an attribute. */
  predicate ShapeHit(attrs: Attrs, n: string) {
    HasText(attrs, n) && InstanceTypeShape(attrs[n].s)
  }

  /** Priority the second pass gives a shape hit, from its attribute name. */
  function ShapePriority(name: string): int {
    if Contains(name, "instance") || Contains(name, "type") || Contains(name, "size") || Contains(name, "class")
    then 75 else 30
  }

  function ShapeValues(attrs: Attrs, names: set<string>): set<string> {
    set n | n in names && ShapeHit(attrs, n) :: attrs[n].s
  }

  /**
   * The candidate map once the second pass has visited `names`, starting
   * from the first pass's map `p1`: every first-pass value and every shape
   * hit is a key; a value some visited shape hit holds carries the priority
   * of one such attribute (the one visited last), any other value keeps its
   * first-pass priority.
   */
  ghost predicate AfterPass2(attrs: Attrs, p1: map<string, int>, names: set<string>, cands: map<string, int>) {
    && cands.Keys == p1.Keys + ShapeValues(attrs, names)
    && forall v :: v in cands ==>
         if v in ShapeValues(attrs, names)
         then exists n :: n in names && ShapeHit(attrs, n) && attrs[n].s == v && cands[v] == ShapePriority(n)
         else cands[v] == p1[v]
  }

  /** The candidate maps some Go iteration order can produce. */
  ghost predicate AdmissibleCandidates(attrs: Attrs, cands: map<string, int>) {
    AfterPass2(attrs, Pass1(attrs, SizePatterns, |SizePatterns|), attrs.Keys, cands)
  }

  /** `size` is what the final selection can return from `cands`. */
  predicate IsBest(cands: map<string, int>, size: string) {
    if cands == map[] then size == ""
    else size in cands && forall v :: v in cands ==> cands[v] <= cands[size]
  }

  /** Some pattern among the first `k` of `table` matches `name`. */
  predicate MatchesPattern(name: string, table: seq<SizePattern>, k: nat)
    requires k <= |table|
  {
    exists i :: 0 <= i < k && HasSuffix(name, table[i].suffix)
  }

  /** Candidates exist exactly for the non-empty string values whose name
      matches a table pattern or whose value has an instance-type shape. */
  ghost function CandidateValues(attrs: Attrs): set<string> {
    set n | n in attrs && HasText(attrs, n)
                       && (MatchesPattern(n, SizePatterns, |SizePatterns|) || InstanceTypeShape(attrs[n].s))
          :: attrs[n].s
  }

  lemma {:induction false} Pass1Priorities(attrs: Attrs, table: seq<SizePattern>, k: nat)
    requires k <= |table|
    requires forall i :: 0 <= i < |table| ==> table[i].priority >= 40
    ensures forall v :: v in Pass1(attrs, table, k) ==> v != "" && Pass1(attrs, table, k)[v] >= 40
  {
    if k > 0 {
      Pass1Priorities(attrs, table, k - 1);
    }
  }

  /** Values of non-empty string attributes whose name matches one of the first `k` patterns. */
  function MatchedValues(attrs: Attrs, table: seq<SizePattern>, k: nat): set<string>
    requires k <= |table|
  {
    set n | n in attrs && HasText(attrs, n) && MatchesPattern(n, table, k) :: attrs[n].s
  }

  lemma MatchedValuesStep(attrs: Attrs, table: seq<SizePattern>, k: nat)
    requires 0 < k <= |table|
    ensures MatchedValues(attrs, table, k) == MatchedValues(attrs, table, k - 1) + PatternHits(attrs, attrs.Keys, table[k - 1])
  {
    forall v | v in MatchedValues(attrs, table, k)
      ensures v in MatchedValues(attrs, table, k - 1) + PatternHits(attrs, attrs.Keys, table[k - 1])
    {
      var n :| n in attrs && HasText(attrs, n) && MatchesPattern(n, table, k) && attrs[n].s == v;
      var i :| 0 <= i < k && HasSuffix(n, table[i].suffix);
      if i < k - 1 {
        assert MatchesPattern(n, table, k - 1);
      }
    }
    forall v | v in PatternHits(attrs, attrs.Keys, table[k - 1])
      ensures v in MatchedValues(attrs, table, k)
    {
      var n :| n in attrs && HasSuffix(n, table[k - 1].suffix) && HasText(attrs, n) && attrs[n].s == v;
      assert MatchesPattern(n, table, k);
    }
    forall v | v in MatchedValues(attrs, table, k - 1)
      ensures v in MatchedValues(attrs, table, k)
    {
      var n :| n in attrs && HasText(attrs, n) && MatchesPattern(n, table, k - 1) && attrs[n].s == v;
      var i :| 0 <= i < k - 1 && HasSuffix(n, table[i].suffix);
      assert MatchesPattern(n, table, k);
    }
  }

  /** The first pass's candidates are exactly the matched values. */
  lemma {:induction false} Pass1Keys(attrs: Attrs, table: seq<SizePattern>, k: nat)
    requires k <= |table|
    ensures Pass1(attrs, table, k).Keys == MatchedValues(attrs, table, k)
  {
    if k > 0 {
      Pass1Keys(attrs, table, k - 1);
      MatchedValuesStep(attrs, table, k);
    }
  }

  /** Within the first pass the last matching pattern wins: a value's
      priority is that of the last table pattern that saw it. */
  lemma {:induction false} Pass1LastPatternWins(attrs: Attrs, table: seq<SizePattern>, k: nat, v: string)
    requires k <= |table|
    requires v in Pass1(attrs, table, k)
    ensures exists i :: 0 <= i < k && v in PatternHits(attrs, attrs.Keys, table[i])
                        && Pass1(attrs, table, k)[v] == table[i].priority
                        && forall j :: i < j < k ==> v !in PatternHits(attrs, attrs.Keys, table[j])
  {
    var p := table[k - 1];
    if v !in PatternHits(attrs, attrs.Keys, p) {
      Pass1LastPatternWins(attrs, table, k - 1, v);
    }
  }

  /** Every pattern of the table has priority at least 40. */
  lemma SizePatternsAtLeast40()
    ensures forall i :: 0 <= i < |SizePatterns| ==> SizePatterns[i].priority >= 40
  {
  }

  lemma AdmissibleFacts(attrs: Attrs, cands: map<string, int>)
    requires AdmissibleCandidates(attrs, cands)
    ensures cands.Keys == CandidateValues(attrs)
    ensures forall v :: v in cands ==> v != "" && cands[v] >= 30
  {
    AdmissibleKeys(attrs, cands);
    AdmissiblePriorities(attrs, cands);
  }

  lemma AdmissibleKeys(attrs: Attrs, cands: map<string, int>)
    requires AdmissibleCandidates(attrs, cands)
    ensures cands.Keys == CandidateValues(attrs)
  {
    Pass1Keys(attrs, SizePatterns, |SizePatterns|);
    CandidatesSplit(attrs);
  }

  lemma AdmissiblePriorities(attrs: Attrs, cands: map<string, int>)
    requires AdmissibleCandidates(attrs, cands)
    ensures forall v :: v in cands ==> v != "" && cands[v] >= 30
  {
    SizePatternsAtLeast40();
    Pass1Priorities(attrs, SizePatterns, |SizePatterns|);
    forall v | v in cands ensures v != "" && cands[v] >= 30 {
      if v in ShapeValues(attrs, attrs.Keys) {
        var n :| n in attrs.Keys && ShapeHit(attrs, n) && attrs[n].s == v && cands[v] == ShapePriority(n);
      }
    }
  }

  /** The candidate values are the first pass's matched values and the second pass's shape hits. */
  lemma CandidatesSplit(attrs: Attrs)
    ensures CandidateValues(attrs) == MatchedValues(attrs, SizePatterns, |SizePatterns|) + ShapeValues(attrs, attrs.Keys)
  {
    var all, matched, shaped := CandidateValues(attrs), MatchedValues(attrs, SizePatterns, |SizePatterns|), ShapeValues(attrs, attrs.Keys);
    forall v | v in all
      ensures v in matched || v in shaped
    {
      var n :| n in attrs && HasText(attrs, n)
               && (MatchesPattern(n, SizePatterns, |SizePatterns|) || InstanceTypeShape(attrs[n].s)) && attrs[n].s == v;
      if !MatchesPattern(n, SizePatterns, |SizePatterns|) {
        assert ShapeHit(attrs, n);
      }
    }
    forall v | v in shaped
      ensures v in all
    {
      var n :| n in attrs.Keys && ShapeHit(attrs, n) && attrs[n].s == v;
    }
  }

  lemma PatternHitsAdd(attrs: Attrs, seen: set<string>, n: string, p: SizePattern)
    ensures PatternHits(attrs, seen + {n}, p) ==
      if HasSuffix(n, p.suffix) && HasText(attrs, n)
      then PatternHits(attrs, seen, p) + {attrs[n].s}
      else PatternHits(attrs, seen, p)
  {
    var before, after := PatternHits(attrs, seen, p), PatternHits(attrs, seen + {n}, p);
    assert before <= after;
    forall v | v in after
      ensures v in before || (HasSuffix(n, p.suffix) && HasText(attrs, n) && v == attrs[n].s)
    {
      var m :| m in seen + {n} && HasSuffix(m, p.suffix) && HasText(attrs, m) && attrs[m].s == v;
      if m != n {
        assert v in before;
      }
    }
  }

  lemma OverlayInsert(cands: map<string, int>, vals: set<string>, v: string, pri: int)
    ensures Overlay(cands, vals + {v}, pri) == Overlay(cands, vals, pri)[v := pri]
  {
    var l, r := Overlay(cands, vals + {v}, pri), Overlay(cands, vals, pri)[v := pri];
    assert l.Keys == r.Keys;
    forall k | k in l
      ensures l[k] == r[k]
    {
    }
  }

  lemma RecordPatternStep(cands: map<string, int>, attrs: Attrs, seen: set<string>, n: string, p: SizePattern)
    ensures Overlay(cands, PatternHits(attrs, seen + {n}, p), p.priority) ==
      if HasSuffix(n, p.suffix) && HasText(attrs, n)
      then Overlay(cands, PatternHits(attrs, seen, p), p.priority)[attrs[n].s := p.priority]
      else Overlay(cands, PatternHits(attrs, seen, p), p.priority)
  {
    PatternHitsAdd(attrs, seen, n, p);
    if HasSuffix(n, p.suffix) && HasText(attrs, n) {
      OverlayInsert(cands, PatternHits(attrs, seen, p), attrs[n].s, p.priority);
    }
  }

  /** One table pattern of the first pass, over the attributes in Go's range order. */
  method RecordPattern(attrs: Attrs, pattern: SizePattern, cands: map<string, int>) returns (cands': map<string, int>)
    ensures cands' == Overlay(cands, PatternHits(attrs, attrs.Keys, pattern), pattern.priority)
  {
    cands' := cands;
    var remaining := attrs.Keys;
    ghost var seen: set<string> := {};
    while remaining != {}
      invariant remaining + seen == attrs.Keys && remaining !! seen
      invariant cands' == Overlay(cands, PatternHits(attrs, seen, pattern), pattern.priority)
      decreases remaining
    {
      var attrName :| attrName in remaining;
      RecordPatternStep(cands, attrs, seen, attrName, pattern);
      if attrName == pattern.suffix || HasSuffix(attrName, pattern.suffix) {
        var val := StringValue(attrs[attrName]);
        if val.Some? && val.value != "" {
          cands' := cands'[val.value := pattern.priority];
        }
      }
      remaining := remaining - {attrName};
      seen := seen + {attrName};
    }
  }

  /** The first pass: every pattern of `table`, in table order. */
  method RunPass1(attrs: Attrs, table: seq<SizePattern>) returns (cands: map<string, int>)
    ensures cands == Pass1(attrs, table, |table|)
  {
    cands := map[];
    for i := 0 to |table|
      invariant cands == Pass1(attrs, table, i)
    {
      cands := RecordPattern(attrs, table[i], cands);
    }
  }

  /** The second pass, over the attributes in Go's range order. */
  method RecordShapes(attrs: Attrs, p1: map<string, int>) returns (cands: map<string, int>)
    ensures AfterPass2(attrs, p1, attrs.Keys, cands)
  {
    cands := p1;
    var remaining := attrs.Keys;
    ghost var seen: set<string> := {};
    while remaining != {}
      invariant remaining + seen == attrs.Keys && remaining !! seen
      invariant AfterPass2(attrs, p1, seen, cands)
      decreases remaining
    {
      var attrName :| attrName in remaining;
      var val := StringValue(attrs[attrName]);
      if val.Some? && val.value != "" {
        var looks := LooksLikeInstanceType(val.value);
        if looks {
          var priority := 30;
          if Contains(attrName, "instance") || Contains(attrName, "type") || Contains(attrName, "size") || Contains(attrName, "class") {
            priority := 75;
          }
          cands := cands[val.value := priority];
        }
      }
      remaining := remaining - {attrName};
      seen := seen + {attrName};
    }
  }

  /** The final selection: the first strictly higher priority in Go's range order wins. */
  method SelectBest(cands: map<string, int>) returns (bestValue: string)
    requires forall v :: v in cands ==> v != "" && cands[v] >= 0
    ensures IsBest(cands, bestValue)
  {
    bestValue := "";
    var bestPriority := -1;
    var rest := cands.Keys;
    ghost var done: set<string> := {};
    while rest != {}
      invariant rest + done == cands.Keys && rest !! done
      invariant done == {} ==> bestValue == "" && bestPriority == -1
      invariant done != {} ==> bestValue in done && bestPriority == cands[bestValue]
      invariant forall v :: v in done ==> cands[v] <= bestPriority
      decreases rest
    {
      var val :| val in rest;
      if cands[val] > bestPriority {
        bestValue := val;
        bestPriority := cands[val];
      }
      rest := rest - {val};
      done := done + {val};
    }
  }

  /**
   * `FindSizeField`: the first pass records table-pattern hits, the second
   * pass records (and overwrites with) shape hits, and the selection keeps
   * the first strictly higher priority seen. The result is a candidate of
   * maximal priority, or "" when there is no candidate at all.
   */
  method FindSizeField(resourceType: string, attrs: Attrs) returns (size: string, ghost candidates: map<string, int>)
    ensures AdmissibleCandidates(attrs, candidates)
    ensures IsBest(candidates, size)
    ensures size == "" <==> CandidateValues(attrs) == {}
  {
    var cands := RunPass1(attrs, SizePatterns);
    cands := RecordShapes(attrs, cands);
    candidates := cands;
    AdmissibleFacts(attrs, cands);
    size := SelectBest(cands);
  }

  // ---------------------------------------------------------------------
  // Integer scanning (`fmt.Sscanf(s, "%d", new(int))`)

  /** The white space `fmt`'s scanner skips before a number. A newline is
      not skipped: `Sscanf` stops at it with an error. */
  predicate IsScanSpace(c: char) {
    || ('\t' <= c <= '\r' && c != '\n')
    || c == ' ' || c == '\U{85}' || c == '\U{A0}' || c == '\U{1680}'
    || ('\U{2000}' <= c <= '\U{200A}')
    || c == '\U{2028}' || c == '\U{2029}' || c == '\U{202F}' || c == '\U{205F}' || c == '\U{3000}'
  }

  function SkipScanSpace(s: string): (t: string)
    ensures HasSuffix(s, t)
    ensures t == [] || !IsScanSpace(t[0])
    ensures forall i :: 0 <= i < |s| - |t| ==> IsScanSpace(s[i])
  {
    if |s| > 0 && IsScanSpace(s[0]) then SkipScanSpace(s[1..]) else s
  }

  /** Length of the run of ASCII digits `s` starts with. */
  function LeadingDigits(s: string): (n: nat)
    ensures n <= |s|
    ensures forall i :: 0 <= i < n ==> IsAsciiDigit(s[i])
    ensures n == |s| || !IsAsciiDigit(s[n])
  {
    if |s| > 0 && IsAsciiDigit(s[0]) then 1 + LeadingDigits(s[1..]) else 0
  }

  predicate AllDigits(ds: string) {
    forall i :: 0 <= i < |ds| ==> IsAsciiDigit(ds[i])
  }

  function Pow10(k: nat): (r: nat)
    ensures r >= 1
  {
    if k == 0 then 1 else 10 * Pow10(k - 1)
  }

  /** The value of a decimal numeral. */
  function DecimalValue(ds: string): (v: nat)
    requires AllDigits(ds)
    ensures v < Pow10(|ds|)
  {
    if ds == [] then 0
    else DecimalValue(ds[..|ds| - 1]) * 10 + (ds[|ds| - 1] as int - '0' as int)
  }

  /** 2^63: the magnitude bound of Go's 64-bit `int`. */
  const Int64Bound: nat := 0x8000_0000_0000_0000

  /**
   * `fmt.Sscanf(s, "%d", new(int))` returns no error: after skipped white
   * space, an optional sign and at least one decimal digit, and the numeral
   * fits a 64-bit `int`. What follows the digits is not read.
   */
  predicate ScansAsDecimal(s: string) {
    var t := SkipScanSpace(s);
    var signed := |t| > 0 && (t[0] == '+' || t[0] == '-');
    var u := if signed then t[1..] else t;
    var n := LeadingDigits(u);
    && n > 0
    && if signed && t[0] == '-' then DecimalValue(u[..n]) <= Int64Bound
       else DecimalValue(u[..n]) < Int64Bound
  }

  /** Every numeral of one to eighteen digits scans. */
  lemma ShortNumeralsScan(ds: string)
    requires 1 <= |ds| <= 18 && AllDigits(ds)
    ensures ScansAsDecimal(ds)
  {
    assert IsAsciiDigit(ds[0]);
    assert SkipScanSpace(ds) == ds;
    assert LeadingDigits(ds) == |ds|;
    assert ds[..|ds|] == ds;
    Pow10Mono(|ds|, 18);
    Pow10Below63();
    assert DecimalValue(ds) < Int64Bound;
  }

  lemma Pow10Below63()
    ensures Pow10(18) < Int64Bound
  {
    assert Pow10(3) == 1000;
    assert Pow10(6) == 1000 * Pow10(3);
    assert Pow10(9) == 1000 * Pow10(6);
    assert Pow10(12) == 1000 * Pow10(9);
    assert Pow10(15) == 1000 * Pow10(12);
    assert Pow10(18) == 1000 * Pow10(15);
  }

  lemma {:induction false} Pow10Mono(j: nat, k: nat)
    requires j <= k
    ensures Pow10(j) <= Pow10(k)
  {
    if j < k {
      Pow10Mono(j, k - 1);
    }
  }

  /** Text that starts with anything other than white space, a sign or a digit never scans. */
  lemma NoNumeralNoScan(s: string)
    requires |s| > 0 && !IsScanSpace(s[0]) && s[0] != '+' && s[0] != '-' && !IsAsciiDigit(s[0])
    ensures !ScansAsDecimal(s)
  {
    assert SkipScanSpace(s) == s;
  }

  // ---------------------------------------------------------------------
  // Region inference

  const AzureRegions: seq<string> := [
    "eastus", "westus", "centralus", "northeurope", "westeurope",
    "eastasia", "southeastasia", "australiaeast"]

  /** The test that commits `looksLikeRegion` to the `us-east-1` shape. */
  predicate AwsShapeGate(v: string) {
    && CountChar(v, '-') == 2 && |v| >= 7
    && var parts := Split(v, '-');
       |parts[0]| == 2 && |parts[1]| >= 4
  }

  predicate AzureRegion(v: string) {
    exists k :: 0 <= k < |AzureRegions| && EqualFold(v, AzureRegions[k])
  }

  /** `us-central1`-like: one dash, a final `1`, and a first part of two or more than four characters. */
  predicate GcpRegionShape(v: string) {
    && CountChar(v, '-') == 1 && HasSuffix(v, "1")
    && var first := Split(v, '-')[0];
       |first| == 2 || |first| > 4
  }

  /** The values `looksLikeRegion` accepts. */
  predicate RegionShape(v: string)
    ensures RegionShape(v) && CountChar(v, '-') == 0 ==> AzureRegion(v)
    ensures RegionShape(v) && !AzureRegion(v) ==> CountChar(v, '-') in {1, 2}
  {
    if AwsShapeGate(v) then ScansAsDecimal(Split(v, '-')[2])
    else AzureRegion(v) || GcpRegionShape(v)
  }

  lemma LowerKeepsDash(v: string)
    requires '-' in v
    ensures '-' in ToLower(v)
  {
    var i :| 0 <= i < |v| && v[i] == '-';
    assert ToLower(v)[i] == '-';
  }

  /** No listed Azure name has a dash, in any letter case. */
  lemma DashedIsNotAzure(v: string)
    requires '-' in v
    ensures !AzureRegion(v)
  {
    LowerKeepsDash(v);
    forall k | 0 <= k < |AzureRegions|
      ensures !EqualFold(v, AzureRegions[k])
    {
      assert '-' !in ToLower(AzureRegions[k]);
    }
  }

  /** Once a value passes the `us-east-1` gate, the Azure and GCP tests could
      not have accepted it, so returning the scan's verdict loses nothing. */
  lemma AwsGateExcludesOthers(v: string)
    requires AwsShapeGate(v)
    ensures !AzureRegion(v) && !GcpRegionShape(v)
  {
    assert '-' in multiset(v);
    DashedIsNotAzure(v);
  }

  lemma SplitAfterSegment(a: string, rest: string, c: char)
    requires c !in a
    ensures Split(a + [c] + rest, c) == [a] + Split(rest, c)
    ensures CountChar(a + [c] + rest, c) == CountChar(rest, c) + 1
  {
    var s := a + [c] + rest;
    var i := IndexOf(s, c);
    assert s[..|a|] == a;
    assert s[|a|] == c;
    assert forall j :: 0 <= j < i ==> s[..i][j] == s[j];
    assert i == |a|;
    assert s[|a| + 1..] == rest;
    assert multiset(s) == multiset(a) + multiset{c} + multiset(rest);
  }

  /** A dashless value has no dash count and a single part. */
  lemma NoDash(v: string)
    requires '-' !in v
    ensures CountChar(v, '-') == 0 && Split(v, '-') == [v]
  {
    assert '-' !in multiset(v);
  }

  /** `aa-bbbb-N` with a numeral of up to eighteen digits is an AWS-style region. */
  lemma AwsCodeIsRegion(a: string, b: string, n: string)
    requires |a| == 2 && |b| >= 4 && '-' !in a && '-' !in b
    requires 1 <= |n| <= 18 && AllDigits(n)
    ensures RegionShape(a + "-" + b + "-" + n)
  {
    var v := a + "-" + b + "-" + n;
    assert '-' !in n by {
      forall i | 0 <= i < |n|
        ensures n[i] != '-'
      {
        assert IsAsciiDigit(n[i]);
      }
    }
    var parts := ThreeParts(a, b, n);
    assert AwsShapeGate(v);
    ShortNumeralsScan(n);
  }

  lemma ThreeParts(a: string, b: string, n: string) returns (parts: seq<string>)
    requires '-' !in a && '-' !in b && '-' !in n
    ensures parts == Split(a + "-" + b + "-" + n, '-') == [a, b, n]
    ensures CountChar(a + "-" + b + "-" + n, '-') == 2
  {
    var t := b + ['-'] + n;
    NoDash(n);
    SplitAfterSegment(b, n, '-');
    assert Split(t, '-') == [b, n];
    var v := a + "-" + b + "-" + n;
    assert v == a + ['-'] + t;
    SplitAfterSegment(a, t, '-');
    assert Split(v, '-') == [a] + [b, n];
    parts := [a, b, n];
  }

  /** A dashless first part of two or more than four characters, a dash, and a dashless tail ending in `1`, is a GCP-style region. */
  lemma GcpCodeIsRegion(a: string, b: string)
    requires '-' !in a && '-' !in b && (|a| == 2 || |a| > 4) && HasSuffix(b, "1")
    ensures RegionShape(a + "-" + b)
  {
    NoDash(b);
    var v := a + "-" + b;
    assert v == a + ['-'] + b;
    SplitAfterSegment(a, b, '-');
    assert v[|v| - 1..] == b[|b| - 1..];
  }

  /** The Azure names are recognised in any letter case. */
  lemma AzureNamesAnyCase(v: string, k: nat)
    requires k < |AzureRegions| && EqualFold(v, AzureRegions[k])
    ensures RegionShape(v)
  {
    assert '-' !in ToLower(AzureRegions[k]);
    assert '-' !in v by {
      forall i | 0 <= i < |v|
        ensures v[i] != '-'
      {
        assert ToLower(v)[i] in ToLower(AzureRegions[k]);
      }
    }
    NoDash(v);
  }

  /** A value with exactly one dash that does not end in `1` is never a region. */
  lemma OneDashNeedsFinalOne(v: string)
    requires CountChar(v, '-') == 1 && !HasSuffix(v, "1")
    ensures !RegionShape(v)
  {
    assert '-' in multiset(v);
    DashedIsNotAzure(v);
  }

  /** `aa-bbb-c`-like values whose middle part is shorter than four characters (`my-app-server`) are never regions. */
  lemma ShortMiddleIsNoRegion(a: string, b: string, c: string)
    requires '-' !in a && '-' !in b && '-' !in c && |b| < 4
    ensures !RegionShape(a + "-" + b + "-" + c)
  {
    var v := a + "-" + b + "-" + c;
    var parts := ThreeParts(a, b, c);
    assert '-' in v by {
      assert v[|a|] == '-';
    }
    DashedIsNotAzure(v);
  }

  /** The Azure list test (`strings.EqualFold` against each listed name). */
  method IsAzureRegion(value: string) returns (b: bool)
    ensures b == AzureRegion(value)
  {
    for k := 0 to |AzureRegions|
      invariant forall j :: 0 <= j < k ==> !EqualFold(value, AzureRegions[j])
    {
      if EqualFold(value, AzureRegions[k]) {
        return true;
      }
    }
    return false;
  }

  /** `looksLikeRegion`. */
  method LooksLikeRegion(value: string) returns (b: bool)
    ensures b == RegionShape(value)
  {
    if CountChar(value, '-') == 2 && |value| >= 7 {
      var parts := Split(value, '-');
      if |parts| == 3 && |parts[0]| == 2 && |parts[1]| >= 4 {
        return ScansAsDecimal(parts[2]);
      }
    }
    b := IsAzureRegion(value);
    if b {
      return;
    }
    if CountChar(value, '-') == 1 && HasSuffix(value, "1") {
      var parts := Split(value, '-');
      if |parts| == 2 && (|parts[0]| == 2 || |parts[0]| > 4) {
        return true;
      }
    }
    return false;
  }

  /** Attribute names tried first, in this order. */
  const RegionFields: seq<string> := ["region", "location", "zone", "availability_zone"]

  /** The name test of the second phase (case-insensitive). */
  predicate RegionKeyword(name: string) {
    var lower := ToLower(name);
    Contains(lower, "region") || Contains(lower, "location") || Contains(lower, "zone")
  }

  predicate KeywordHit(attrs: Attrs, n: string) {
    RegionKeyword(n) && HasText(attrs, n)
  }

  predicate RegionValueHit(attrs: Attrs, n: string) {
    HasText(attrs, n) && RegionShape(attrs[n].s)
  }

  /** The first phase: the first of `RegionFields[k..]` holding non-empty text. */
  function ListedRegion(attrs: Attrs, k: nat): Option<string>
    requires k <= |RegionFields|
    decreases |RegionFields| - k
  {
    if k == |RegionFields| then None
    else if HasText(attrs, RegionFields[k]) then Some(attrs[RegionFields[k]].s)
    else ListedRegion(attrs, k + 1)
  }

  /** The first phase finds `v` exactly when `v` is the text of the earliest listed field that has any. */
  lemma {:induction false} ListedRegionIsEarliest(attrs: Attrs, k: nat, v: string)
    requires k <= |RegionFields|
    ensures ListedRegion(attrs, k) == Some(v) <==>
      exists i :: k <= i < |RegionFields| && HasText(attrs, RegionFields[i]) && attrs[RegionFields[i]].s == v
                  && forall j :: k <= j < i ==> !HasText(attrs, RegionFields[j])
    decreases |RegionFields| - k
  {
    if k < |RegionFields| && !HasText(attrs, RegionFields[k]) {
      ListedRegionIsEarliest(attrs, k + 1, v);
    }
  }

  lemma {:induction false} ContainsAt(s: string, sub: string, i: nat)
    requires i + |sub| <= |s| && s[i..i + |sub|] == sub
    ensures Contains(s, sub)
  {
    if i > 0 {
      assert s[1..][i - 1..i - 1 + |sub|] == s[i..i + |sub|];
      ContainsAt(s[1..], sub, i - 1);
    }
  }

  /** Every listed field name passes the second phase's name test too. */
  lemma RegionFieldsAreKeywords()
    ensures forall k :: 0 <= k < |RegionFields| ==> RegionKeyword(RegionFields[k])
  {
    ContainsAt(ToLower("region"), "region", 0);
    ContainsAt(ToLower("location"), "location", 0);
    ContainsAt(ToLower("zone"), "zone", 0);
    assert ToLower("availability_zone")[13..17] == "zone";
    ContainsAt(ToLower("availability_zone"), "zone", 13);
  }

  lemma {:induction false} ListedRegionIsKeywordHit(attrs: Attrs, k: nat)
    requires k <= |RegionFields|
    requires ListedRegion(attrs, k).Some?
    ensures exists n :: KeywordHit(attrs, n) && attrs[n].s == ListedRegion(attrs, k).value
    decreases |RegionFields| - k
  {
    RegionFieldsAreKeywords();
    if !HasText(attrs, RegionFields[k]) {
      ListedRegionIsKeywordHit(attrs, k + 1);
    } else {
      assert KeywordHit(attrs, RegionFields[k]);
    }
  }

  /**
   * What `FindRegionField` may return: the first listed field's text; failing
   * that the text of some attribute whose name mentions region, location or
   * zone; failing that some text with a region shape; failing all three, "".
   * The later phases take the first hit in Go's range order, which is why
   * they name some hit and not a particular one.
   */
  ghost predicate RegionResult(attrs: Attrs, region: string) {
    match ListedRegion(attrs, 0)
    case Some(v) => region == v
    case None =>
      if exists n :: KeywordHit(attrs, n) then exists n :: KeywordHit(attrs, n) && attrs[n].s == region
      else if exists n :: RegionValueHit(attrs, n) then exists n :: RegionValueHit(attrs, n) && attrs[n].s == region
      else region == ""
  }

  /** The first phase, in list order. */
  method FirstListedRegion(attrs: Attrs) returns (r: Option<string>)
    ensures r == ListedRegion(attrs, 0)
  {
    for i := 0 to |RegionFields|
      invariant ListedRegion(attrs, 0) == ListedRegion(attrs, i)
    {
      var fieldName := RegionFields[i];
      if fieldName in attrs {
        var val := StringValue(attrs[fieldName]);
        if val.Some? && val.value != "" {
          return val;
        }
      }
    }
    return None;
  }

  /** The second phase, over the attributes in Go's range order. */
  method SomeKeywordRegion(attrs: Attrs) returns (r: Option<string>)
    ensures r.None? <==> forall n :: n in attrs ==> !KeywordHit(attrs, n)
    ensures r.Some? ==> exists n :: KeywordHit(attrs, n) && attrs[n].s == r.value
  {
    var remaining := attrs.Keys;
    while remaining != {}
      invariant remaining <= attrs.Keys
      invariant forall n :: n in attrs && n !in remaining ==> !KeywordHit(attrs, n)
      decreases remaining
    {
      var attrName :| attrName in remaining;
      var lowerName := ToLower(attrName);
      if Contains(lowerName, "region") || Contains(lowerName, "location") || Contains(lowerName, "zone") {
        var val := StringValue(attrs[attrName]);
        if val.Some? && val.value != "" {
          assert KeywordHit(attrs, attrName);
          return val;
        }
      }
      remaining := remaining - {attrName};
    }
    return None;
  }

  /** The third phase, over the attribute values in Go's range order. */
  method SomeShapedRegion(attrs: Attrs) returns (r: Option<string>)
    ensures r.None? <==> forall n :: n in attrs ==> !RegionValueHit(attrs, n)
    ensures r.Some? ==> exists n :: RegionValueHit(attrs, n) && attrs[n].s == r.value
  {
    var remaining := attrs.Keys;
    while remaining != {}
      invariant remaining <= attrs.Keys
      invariant forall n :: n in attrs && n !in remaining ==> !RegionValueHit(attrs, n)
      decreases remaining
    {
      var attrName :| attrName in remaining;
      var val := StringValue(attrs[attrName]);
      if val.Some? && val.value != "" {
        var looks := LooksLikeRegion(val.value);
        if looks {
          assert RegionValueHit(attrs, attrName);
          return val;
        }
      }
      remaining := remaining - {attrName};
    }
    return None;
  }

  /**
   * `FindRegionField`. Besides the phase order, the result is "" exactly
   * when no attribute with text has a region-like name or value.
   */
  method FindRegionField(resourceType: string, attrs: Attrs) returns (region: string)
    ensures RegionResult(attrs, region)
    ensures region == "" <==> forall n :: n in attrs ==> !KeywordHit(attrs, n) && !RegionValueHit(attrs, n)
  {
    var listed := FirstListedRegion(attrs);
    if listed.Some? {
      ListedRegionIsKeywordHit(attrs, 0);
      return listed.value;
    }
    var named := SomeKeywordRegion(attrs);
    if named.Some? {
      return named.value;
    }
    var shaped := SomeShapedRegion(attrs);
    if shaped.Some? {
      return shaped.value;
    }
    return "";
  }

  // ---------------------------------------------------------------------
  // Quantity and tags

  /**
   * `FindQuantity`: a positive numeric `count` truncated to an integer,
   * otherwise 1. A count strictly between 0 and 1 truncates to 0.
   */
  function FindQuantity(attrs: Attrs): (q: int)
    ensures q >= 0
    ensures "count" in attrs && attrs["count"].Num? && attrs["count"].n > 0.0
            ==> q as real <= attrs["count"].n < q as real + 1.0
    ensures !("count" in attrs && attrs["count"].Num? && attrs["count"].n > 0.0) ==> q == 1
    ensures q == 0 <==> "count" in attrs && attrs["count"].Num? && 0.0 < attrs["count"].n < 1.0
  {
    if "count" in attrs && attrs["count"].Num? && attrs["count"].n > 0.0 then attrs["count"].n.Floor
    else 1
  }

  /** The tags a `tags` attribute of map type provides: its string-valued elements. */
  function TagsOf(attrs: Attrs): (tags: map<string, string>)
    ensures forall k :: k in tags <==> "tags" in attrs && attrs["tags"].MapVal?
                                       && k in attrs["tags"].entries && attrs["tags"].entries[k].Str?
    ensures forall k :: k in tags ==> tags[k] == attrs["tags"].entries[k].s
  {
    if "tags" in attrs && attrs["tags"].MapVal? then
      var entries := attrs["tags"].entries;
      map k | k in entries && entries[k].Str? :: entries[k].s
    else map[]
  }

  /** `ExtractTags`, visiting the map's elements in Go's order. */
  method ExtractTags(attrs: Attrs) returns (tags: map<string, string>)
    ensures tags == TagsOf(attrs)
  {
    tags := map[];
    if "tags" in attrs && attrs["tags"].MapVal? {
      var entries := attrs["tags"].entries;
      var remaining := entries.Keys;
      while remaining != {}
        invariant remaining <= entries.Keys
        invariant tags == map k | k in entries && k !in remaining && entries[k].Str? :: entries[k].s
        decreases remaining
      {
        var key :| key in remaining;
        var val := entries[key];
        if val.Str? {
          tags := tags[key := val.s];
        }
        remaining := remaining - {key};
      }
    }
  }

  /** Tags written as an HCL object literal (`tags = { Name = "web" }`) evaluate
      to an object, not a map, and yield no tags. */
  lemma ObjectTagsIgnored(attrs: Attrs)
    requires "tags" in attrs && attrs["tags"].ObjVal?
    ensures TagsOf(attrs) == map[]
  {
  }
}
