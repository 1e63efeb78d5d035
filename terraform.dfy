/**
 * The Terraform parser (internal/parser/terraform/parser.go): which paths
 * it accepts, and the resource it builds from each `resource "type" "name"`
 * block, file by file and block by block.
 *
 * The filesystem and the HCL decoder are outside the model: `os.Stat`, the
 * `*.tf` glob and the reading and decoding of each file arrive as a
 * `Filesystem` value.
 */
module Terraform {
  import opened Wrappers
  import opened Strings
  import opened Resources
  import opened Analyzer

  /** What `os.Stat` says about a path. */
  datatype PathStat = StatError(err: string) | IsFile | IsDir

  /** A `resource` block: its two labels and its attributes. */
  datatype Block = Block(resourceType: string, name: string, attrs: Attrs)

  /** Reading a file, parsing it as HCL and extracting its resource blocks. */
  datatype FileLoad =
    | ReadFailed(readError: string)
    | ParseFailed(parseDiags: string)
    | ExtractFailed(extractDiags: string)
    | Loaded(blocks: seq<Block>)

  datatype Filesystem = Filesystem(
    stat: string -> PathStat,
    /** the `*.tf` files of a directory, in glob order */
    globTf: string -> Result<seq<string>>,
    load: string -> FileLoad)

  /** `CanHandle`: an existing `.tf` file, or a directory with at least one `.tf` file. */
  function CanHandle(path: string, fs: Filesystem): (b: bool)
    ensures b ==> fs.stat(path).IsDir? || HasSuffix(path, ".tf")
    ensures fs.stat(path).StatError? ==> !b
  {
    match fs.stat(path)
    case StatError(_) => false
    case IsDir => fs.globTf(path).Ok? && |fs.globTf(path).value| > 0
    case IsFile => HasSuffix(path, ".tf")
  }

  /** The files `Parse` reads, or the error it stops with before reading any. */
  function TfFiles(path: string, fs: Filesystem): (r: Result<seq<string>>)
    ensures r.Ok? ==> |r.value| > 0
    ensures r.Ok? && fs.stat(path).IsFile? ==> r.value == [path]
    ensures r.Ok? ==> !fs.stat(path).StatError?
  {
    match fs.stat(path)
    case StatError(e) => Err("path error: " + e)
    case IsDir =>
      if fs.globTf(path).Err? then Err("failed to read directory: " + fs.globTf(path).error)
      else if fs.globTf(path).value == [] then Err("no Terraform files found in: " + path)
      else Ok(fs.globTf(path).value)
    case IsFile =>
      if HasSuffix(path, ".tf") then Ok([path]) else Err("not a Terraform file: " + path)
  }

  /** The parser claims a path exactly when parsing it gets past the file-list stage. */
  lemma CanHandleIffFiles(path: string, fs: Filesystem)
    ensures CanHandle(path, fs) <==> TfFiles(path, fs).Ok?
  {
  }

  /** The blocks of `files` in file order, or the error of the first file that fails. */
  function LoadAll(files: seq<string>, load: string -> FileLoad): (r: Result<seq<Block>>)
    ensures r.Ok? ==> forall i :: 0 <= i < |files| ==> load(files[i]).Loaded?
    ensures r.Err? ==> files != []
  {
    if files == [] then Ok([])
    else
      var before := LoadAll(files[..|files| - 1], load);
      var file := files[|files| - 1];
      if before.Err? then before
      else
        match load(file)
        case ReadFailed(e) => Err("failed to read file " + file + ": " + e)
        case ParseFailed(d) => Err("failed to parse file " + file + ": " + d)
        case ExtractFailed(d) => Err("failed to extract blocks from file " + file + ": " + d)
        case Loaded(blocks) => Ok(before.value + blocks)
  }

  /** Loading succeeds exactly when every file loads, and then keeps each file's blocks in order. */
  lemma {:induction false} LoadAllSucceeds(files: seq<string>, load: string -> FileLoad)
    ensures LoadAll(files, load).Ok? <==> forall i :: 0 <= i < |files| ==> load(files[i]).Loaded?
    ensures LoadAll(files, load).Ok? && files != [] ==>
      LoadAll(files, load).value == LoadAll(files[..|files| - 1], load).value + load(files[|files| - 1]).blocks
  {
    if files != [] {
      var n := |files| - 1;
      LoadAllSucceeds(files[..n], load);
      assert forall i :: 0 <= i < n ==> files[..n][i] == files[i];
    }
  }

  // ---------------------------------------------------------------------
  // One block

  /** `size` is a value the size search can return for `attrs`. */
  ghost predicate SizeChosen(attrs: Attrs, size: string) {
    exists cands :: AdmissibleCandidates(attrs, cands) && IsBest(cands, size)
  }

  /** What the block loop of `Parse` builds from `b`, for some map iteration order. */
  ghost predicate BuiltFrom(b: Block, r: Resource) {
    && r.id == b.resourceType + "." + b.name
    && r.name == b.name && r.resourceType == b.resourceType
    && r.provider == FirstSegment(b.resourceType, '_')
    && SizeChosen(b.attrs, r.size)
    && RegionResult(b.attrs, r.region)
    && r.quantity == (if FindQuantity(b.attrs) < 1 then 1 else FindQuantity(b.attrs))
    && r.tags == TagsOf(b.attrs)
    && r.hourlyPrice == 0.0 && r.monthlyPrice == 0.0 && r.yearlyPrice == 0.0
    && r.pricingDetails.None? && r.parentId == "" && r.children == []
  }

  /** A named size attribute with text is always a size candidate. */
  lemma NamedSizeIsCandidate(attrs: Attrs, n: string)
    requires n == "instance_type" || n == "size"
    ensures HasText(attrs, n) ==> attrs[n].s in CandidateValues(attrs)
  {
    if n == "instance_type" {
      assert SizePatterns[0].suffix == n;
    } else {
      assert SizePatterns[3].suffix == n;
    }
    assert HasSuffix(n, n);
    assert MatchesPattern(n, SizePatterns, |SizePatterns|);
  }

  /**
   * The body of the block loop: a fresh resource named after the block,
   * with size, region, quantity and tags from the analyzer, the two
   * fallbacks, and the quantity clamped to at least one.
   */
  method BuildResource(b: Block) returns (r: Resource)
    ensures BuiltFrom(b, r)
    ensures r.quantity >= 1
  {
    r := NewResource();
    r := r.(id := b.resourceType + "." + b.name, name := b.name, resourceType := b.resourceType);

    var parts := Split(b.resourceType, '_');
    if |parts| > 0 {
      r := r.(provider := parts[0]);
    }

    var attrs := b.attrs;
    var size, candidates := FindSizeField(b.resourceType, attrs);
    r := r.(size := size);
    var region := FindRegionField(b.resourceType, attrs);
    if region != "" {
      r := r.(region := region);
    }
    r := r.(quantity := FindQuantity(attrs));
    var tags := ExtractTags(attrs);
    r := r.(tags := tags);

    if r.size == "" {
      var fallback := SizeFallback(attrs);
      r := r.(size := fallback);
    }

    if r.region == "" {
      if "region" in attrs && attrs["region"].Str? {
        r := r.(region := attrs["region"].s);
        RegionFallbackIsEmpty(attrs, region);
      }
    }

    if r.quantity < 1 {
      r := r.(quantity := 1);
    }
  }

  /**
   * The size fallback: the string value of an `instance_type` or `size`
   * attribute, the last one visited winning. It runs only when the size
   * search found no candidate, and then it can find only empty strings.
   */
  method SizeFallback(attrs: Attrs) returns (size: string)
    requires CandidateValues(attrs) == {}
    ensures size == ""
  {
    size := "";
    var remaining := attrs.Keys;
    while remaining != {}
      invariant size == ""
      decreases remaining
    {
      var name :| name in remaining;
      if name == "instance_type" || name == "size" {
        if attrs[name].Str? {
          NamedSizeIsCandidate(attrs, name);
          size := attrs[name].s;
        }
      }
      remaining := remaining - {name};
    }
  }

  /** When the region search finds nothing, a `region` string attribute can only be empty. */
  lemma RegionFallbackIsEmpty(attrs: Attrs, region: string)
    requires RegionResult(attrs, region) && region == ""
    requires "region" in attrs && attrs["region"].Str?
    ensures attrs["region"].s == ""
  {
    assert RegionFields[0] == "region";
  }

  // ---------------------------------------------------------------------
  // Parse

  const ParserName: string := "Terraform"

  /** `GetName`. */
  function Name(): (n: string)
    ensures n == "Terraform"
  {
    ParserName
  }

  /** The blocks `Parse` builds resources from, or the error it returns. */
  function ParsedBlocks(path: string, fs: Filesystem): (r: Result<seq<Block>>)
    ensures r.Ok? ==> CanHandle(path, fs)
    ensures r.Ok? ==> forall f :: f in TfFiles(path, fs).value ==> fs.load(f).Loaded?
  {
    var files := TfFiles(path, fs);
    if files.Err? then Err(files.error) else LoadAll(files.value, fs.load)
  }

  /** Once a prefix of the files fails, loading all of them fails the same way. */
  lemma {:induction false} LoadAllKeepsError(files: seq<string>, k: nat, load: string -> FileLoad)
    requires k <= |files|
    requires LoadAll(files[..k], load).Err?
    ensures LoadAll(files, load) == LoadAll(files[..k], load)
    decreases |files| - k
  {
    if k < |files| {
      assert files[..k + 1][..k] == files[..k];
      LoadAllKeepsError(files, k + 1, load);
    } else {
      assert files[..k] == files;
    }
  }

  /** The resources of one file's blocks, in block order. */
  method BuildAll(blocks: seq<Block>) returns (built: seq<Resource>)
    ensures AllBuilt(blocks, built)
  {
    built := [];
    for i := 0 to |blocks|
      invariant |built| == i
      invariant forall k :: 0 <= k < i ==> BuiltFrom(blocks[k], built[k]) && built[k].quantity >= 1
    {
      var r := BuildResource(blocks[i]);
      built := built + [r];
    }
  }

  /** Each resource is built from the block at the same position. */
  ghost predicate AllBuilt(blocks: seq<Block>, resources: seq<Resource>) {
    && |resources| == |blocks|
    && forall k :: 0 <= k < |blocks| ==> BuiltFrom(blocks[k], resources[k]) && resources[k].quantity >= 1
  }

  lemma AllBuiltConcat(b1: seq<Block>, r1: seq<Resource>, b2: seq<Block>, r2: seq<Resource>)
    requires AllBuilt(b1, r1) && AllBuilt(b2, r2)
    ensures AllBuilt(b1 + b2, r1 + r2)
  {
    forall k | |b1| <= k < |b1| + |b2|
      ensures BuiltFrom((b1 + b2)[k], (r1 + r2)[k]) && (r1 + r2)[k].quantity >= 1
    {
      assert (b1 + b2)[k] == b2[k - |b1|] && (r1 + r2)[k] == r2[k - |r1|];
    }
  }

  /**
   * `Parse`: the file list, then each file read and decoded in turn, the
   * first failure ending the parse; otherwise one resource per block, in
   * file order and block order within a file.
   */
  method Parse(path: string, fs: Filesystem) returns (result: Result<seq<Resource>>)
    ensures result.Err? <==> ParsedBlocks(path, fs).Err?
    ensures result.Err? ==> result.error == ParsedBlocks(path, fs).error
    ensures result.Ok? ==> AllBuilt(ParsedBlocks(path, fs).value, result.value)
  {
    var files := ListFiles(path, fs);
    if files.Err? {
      return Err(files.error);
    }
    result := ParseFiles(files.value, fs.load);
  }

  /** The first stage of `Parse`: the files to read. */
  method ListFiles(path: string, fs: Filesystem) returns (files: Result<seq<string>>)
    ensures files == TfFiles(path, fs)
  {
    var info := fs.stat(path);
    if info.StatError? {
      return Err("path error: " + info.err);
    }
    var tfFiles: seq<string>;
    if info.IsDir? {
      var globbed := fs.globTf(path);
      if globbed.Err? {
        return Err("failed to read directory: " + globbed.error);
      }
      tfFiles := globbed.value;
    } else {
      if HasSuffix(path, ".tf") {
        tfFiles := [path];
      } else {
        return Err("not a Terraform file: " + path);
      }
    }
    if |tfFiles| == 0 {
      return Err("no Terraform files found in: " + path);
    }
    return Ok(tfFiles);
  }

  /** The second stage of `Parse`: the files in order, stopping at the first that fails. */
  method ParseFiles(tfFiles: seq<string>, load: string -> FileLoad) returns (result: Result<seq<Resource>>)
    ensures result.Err? <==> LoadAll(tfFiles, load).Err?
    ensures result.Err? ==> result.error == LoadAll(tfFiles, load).error
    ensures result.Ok? ==> AllBuilt(LoadAll(tfFiles, load).value, result.value)
  {
    var resources: seq<Resource> := [];
    ghost var blocks: seq<Block> := [];
    for fi := 0 to |tfFiles|
      invariant LoadAll(tfFiles[..fi], load) == Ok(blocks)
      invariant AllBuilt(blocks, resources)
    {
      var file := tfFiles[fi];
      assert tfFiles[..fi + 1][..fi] == tfFiles[..fi];
      var loaded := load(file);
      if !loaded.Loaded? {
        var message := match loaded
          case ReadFailed(e) => "failed to read file " + file + ": " + e
          case ParseFailed(d) => "failed to parse file " + file + ": " + d
          case ExtractFailed(d) => "failed to extract blocks from file " + file + ": " + d;
        assert LoadAll(tfFiles[..fi + 1], load) == Err(message);
        LoadAllKeepsError(tfFiles, fi + 1, load);
        return Err(message);
      }
      var built := BuildAll(loaded.blocks);
      AllBuiltConcat(blocks, resources, loaded.blocks, built);
      resources := resources + built;
      blocks := blocks + loaded.blocks;
    }
    assert tfFiles[..|tfFiles|] == tfFiles;
    return Ok(resources);
  }
}
