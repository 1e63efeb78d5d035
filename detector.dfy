/**
 * Detection of the infrastructure-as-code format of a path
 * (internal/utils/detector.go): a file by its extension and, for JSON and
 * YAML, by marker strings in its content; a directory by a fixed sequence
 * of checks on the files it holds.
 *
 * The filesystem is outside the model: `os.Stat`, the glob of a pattern in
 * a directory, the existence of a named entry and the reading of a file
 * arrive as a `DetectFs` value.
 */
module Detection {
  import opened Wrappers
  import opened Strings

  datatype IaCType = Terraform | Pulumi | CloudFormation | AzureArm | Ansible | Unknown

  /** The `IaCType` string constants. */
  function TypeName(t: IaCType): string {
    match t
    case Terraform => "terraform"
    case Pulumi => "pulumi"
    case CloudFormation => "cloudformation"
    case AzureArm => "azure_arm"
    case Ansible => "ansible"
    case Unknown => "unknown"
  }

  /** Distinct types have distinct names, so the name recorded in a report identifies the type. */
  lemma TypeNamesDistinct(t: IaCType, u: IaCType)
    ensures TypeName(t) == TypeName(u) <==> t == u
  {
  }

  datatype DetectFs = DetectFs(
    /** `os.Stat`: an error, or whether the path is a directory */
    stat: string -> Result<bool>,
    /** `filepath.Glob(filepath.Join(dir, pattern))` */
    glob: (string, string) -> Result<seq<string>>,
    /** `fileExists(filepath.Join(dir, name))` */
    fileExists: (string, string) -> bool,
    readFile: string -> Result<string>)

  /** The outcome of a detection: a type and an optional error. */
  datatype Detected = Detected(iacType: IaCType, err: Option<string>)

  const ArmMarker: string := "\"$schema\": \"https://schema.management.azure.com/schemas/"

  /**
   * `filepath.Ext`: the suffix from the last dot of the last path element,
   * or "" when that element has no dot.
   */
  function Ext(path: string): (e: string)
    ensures e == "" || (e[0] == '.' && HasSuffix(path, e) && '/' !in e && '.' !in e[1..])
    ensures e == "" <==> forall i :: 0 <= i < |path| && path[i] == '.' ==> '/' in path[i..]
    decreases |path|
  {
    if path == [] || path[|path| - 1] == '/' then
      assert forall i :: 0 <= i < |path| ==> path[i..][|path| - 1 - i] == '/';
      ""
    else if path[|path| - 1] == '.' then
      assert path[|path| - 1..] == ".";
      "."
    else
      var n := |path| - 1;
      var e := Ext(path[..n]);
      assert forall i :: 0 <= i < n ==> path[i..] == path[..n][i..] + [path[n]];
      assert path[n..] == [path[n]];
      if e == "" then "" else
        assert (e + [path[n]])[1..] == e[1..] + [path[n]];
        e + [path[n]]
  }

  /** JSON content: the ARM schema marker is looked for before the CloudFormation ones. */
  function JsonType(content: string): IaCType {
    if Contains(content, ArmMarker) then AzureArm
    else if Contains(content, "\"AWSTemplateFormatVersion\"") || Contains(content, "\"Resources\"") then CloudFormation
    else Unknown
  }

  /** YAML content: the CloudFormation marker is looked for before the Ansible ones. */
  function YamlType(content: string): IaCType {
    if Contains(content, "AWSTemplateFormatVersion") then CloudFormation
    else if AnsibleContent(content) then Ansible
    else Unknown
  }

  predicate AnsibleContent(content: string) {
    Contains(content, "hosts:") || Contains(content, "tasks:")
  }

  /** `detectFromFile`: by the lower-cased extension, reading the file only for JSON and YAML. */
  function DetectFromFile(path: string, readFile: string -> Result<string>): (r: Detected)
    ensures r.iacType == Terraform <==> ToLower(Ext(path)) == ".tf"
    ensures r.iacType == AzureArm ==> ToLower(Ext(path)) == ".json"
    ensures r.iacType == Ansible ==> ToLower(Ext(path)) in {".yaml", ".yml"}
    ensures r.iacType == CloudFormation ==> ToLower(Ext(path)) in {".json", ".yaml", ".yml"}
    ensures r.iacType != Pulumi
  {
    var ext := ToLower(Ext(path));
    if ext == ".tf" then Detected(Terraform, None)
    else if ext == ".json" then
      match readFile(path)
      case Err(e) => Detected(Unknown, Some(e))
      case Ok(content) => Detected(JsonType(content), None)
    else if ext == ".yaml" || ext == ".yml" then
      match readFile(path)
      case Err(e) => Detected(Unknown, Some(e))
      case Ok(content) => Detected(YamlType(content), None)
    else Detected(Unknown, None)
  }

  /** Only JSON and YAML files are read: for any other extension the content cannot matter. */
  lemma ContentMattersOnlyForJsonAndYaml(path: string, read1: string -> Result<string>, read2: string -> Result<string>)
    requires ToLower(Ext(path)) !in {".json", ".yaml", ".yml"}
    ensures DetectFromFile(path, read1) == DetectFromFile(path, read2)
    ensures DetectFromFile(path, read1).iacType == (if ToLower(Ext(path)) == ".tf" then Terraform else Unknown)
    ensures DetectFromFile(path, read1).err.None?
  {
  }

  /** A file detection fails only when a JSON or YAML file cannot be read, and then says the type is unknown. */
  lemma FileErrorsAreReadErrors(path: string, readFile: string -> Result<string>)
    ensures DetectFromFile(path, readFile).err.Some? <==>
      ToLower(Ext(path)) in {".json", ".yaml", ".yml"} && readFile(path).Err?
    ensures DetectFromFile(path, readFile).err.Some? ==> DetectFromFile(path, readFile).iacType == Unknown
  {
  }

  /** The ARM marker wins over the CloudFormation markers, and the CloudFormation marker over the Ansible ones. */
  lemma MarkerPrecedence(content: string)
    ensures Contains(content, ArmMarker) ==> JsonType(content) == AzureArm
    ensures JsonType(content) == CloudFormation ==> !Contains(content, ArmMarker)
    ensures Contains(content, "AWSTemplateFormatVersion") ==> YamlType(content) == CloudFormation
    ensures YamlType(content) == Ansible <==> !Contains(content, "AWSTemplateFormatVersion") && AnsibleContent(content)
  {
  }

  // ---------------------------------------------------------------------
  // Directories

  /** The files a glob found, none when it failed. */
  function Globbed(fs: DetectFs, dir: string, pattern: string): seq<string> {
    if fs.glob(dir, pattern).Ok? then fs.glob(dir, pattern).value else []
  }

  /** Some file of `files` can be read and satisfies `accept`. */
  predicate SomeContent(files: seq<string>, readFile: string -> Result<string>, accept: string -> bool) {
    exists i :: 0 <= i < |files| && readFile(files[i]).Ok? && accept(readFile(files[i]).value)
  }

  function ArmContent(content: string): bool {
    Contains(content, ArmMarker)
  }

  function AnsibleMarker(content: string): bool {
    AnsibleContent(content)
  }

  /** The directory checks, in their order of priority. */
  function DetectDir(dir: string, fs: DetectFs): (t: IaCType)
    ensures t == Terraform <==> |Globbed(fs, dir, "*.tf")| > 0
    ensures t == Pulumi ==> fs.fileExists(dir, "Pulumi.yaml") || fs.fileExists(dir, "Pulumi.yml")
  {
    if |Globbed(fs, dir, "*.tf")| > 0 then Terraform
    else if fs.fileExists(dir, "Pulumi.yaml") || fs.fileExists(dir, "Pulumi.yml") then Pulumi
    else if |Globbed(fs, dir, "*.template")| > 0 || |Globbed(fs, dir, "*.template.json")| > 0
            || |Globbed(fs, dir, "*.template.yaml")| > 0 then CloudFormation
    else if SomeContent(Globbed(fs, dir, "*.json"), fs.readFile, ArmContent) then AzureArm
    else if SomeContent(Globbed(fs, dir, "*.yml") + Globbed(fs, dir, "*.yaml"), fs.readFile, AnsibleMarker) then Ansible
    else Unknown
  }

  /** `DetectIaCType`: a stat failure, a file by `detectFromFile`, or a directory by its checks. */
  function Detect(path: string, fs: DetectFs): (r: Detected)
    ensures fs.stat(path).Err? ==> r == Detected(Unknown, Some(fs.stat(path).error))
    ensures fs.stat(path) == Ok(true) ==> r.err.None? && r.iacType == DetectDir(path, fs)
    ensures r.err.Some? ==> r.iacType == Unknown
    ensures r.iacType == Pulumi ==> fs.stat(path) == Ok(true)
  {
    match fs.stat(path)
    case Err(e) => Detected(Unknown, Some(e))
    case Ok(isDir) => if isDir then Detected(DetectDir(path, fs), None) else DetectFromFile(path, fs.readFile)
  }

  /**
   * Each directory answer holds exactly when its own check passes and
   * every earlier check fails; a directory never yields an error.
   */
  lemma DirectoryPriority(dir: string, fs: DetectFs)
    ensures var tf := |Globbed(fs, dir, "*.tf")| > 0;
            var pulumi := fs.fileExists(dir, "Pulumi.yaml") || fs.fileExists(dir, "Pulumi.yml");
            var cfn := |Globbed(fs, dir, "*.template")| > 0 || |Globbed(fs, dir, "*.template.json")| > 0
                       || |Globbed(fs, dir, "*.template.yaml")| > 0;
            var arm := SomeContent(Globbed(fs, dir, "*.json"), fs.readFile, ArmContent);
            var ansible := SomeContent(Globbed(fs, dir, "*.yml") + Globbed(fs, dir, "*.yaml"), fs.readFile, AnsibleMarker);
            && (DetectDir(dir, fs) == Terraform <==> tf)
            && (DetectDir(dir, fs) == Pulumi <==> !tf && pulumi)
            && (DetectDir(dir, fs) == CloudFormation <==> !tf && !pulumi && cfn)
            && (DetectDir(dir, fs) == AzureArm <==> !tf && !pulumi && !cfn && arm)
            && (DetectDir(dir, fs) == Ansible <==> !tf && !pulumi && !cfn && !arm && ansible)
            && (DetectDir(dir, fs) == Unknown <==> !tf && !pulumi && !cfn && !arm && !ansible)
  {
  }

  /** The search loops of `DetectIaCType`: the first readable file whose content `accept` takes. */
  method FindContent(files: seq<string>, readFile: string -> Result<string>, accept: string -> bool) returns (found: bool)
    ensures found <==> SomeContent(files, readFile, accept)
  {
    for i := 0 to |files|
      invariant forall j :: 0 <= j < i ==> !(readFile(files[j]).Ok? && accept(readFile(files[j]).value))
    {
      var content := readFile(files[i]);
      if content.Ok? && accept(content.value) {
        return true;
      }
    }
    return false;
  }

  /** `DetectIaCType`, with its early returns and its two content searches. */
  method DetectIaCType(path: string, fs: DetectFs) returns (result: Detected)
    ensures result == Detect(path, fs)
  {
    var info := fs.stat(path);
    if info.Err? {
      return Detected(Unknown, Some(info.error));
    }
    if !info.value {
      return DetectFromFile(path, fs.readFile);
    }
    var tfFiles := fs.glob(path, "*.tf");
    if tfFiles.Ok? && |tfFiles.value| > 0 {
      return Detected(Terraform, None);
    }
    if fs.fileExists(path, "Pulumi.yaml") || fs.fileExists(path, "Pulumi.yml") {
      return Detected(Pulumi, None);
    }
    var cfFiles := fs.glob(path, "*.template");
    var cfJsonFiles := fs.glob(path, "*.template.json");
    var cfYamlFiles := fs.glob(path, "*.template.yaml");
    if (cfFiles.Ok? && |cfFiles.value| > 0) || (cfJsonFiles.Ok? && |cfJsonFiles.value| > 0)
       || (cfYamlFiles.Ok? && |cfYamlFiles.value| > 0) {
      return Detected(CloudFormation, None);
    }
    var armFiles := fs.glob(path, "*.json");
    if armFiles.Ok? && |armFiles.value| > 0 {
      var arm := FindContent(armFiles.value, fs.readFile, ArmContent);
      if arm {
        return Detected(AzureArm, None);
      }
    }
    var ansibleFiles := Globbed(fs, path, "*.yml");
    var ansibleYamlFiles := Globbed(fs, path, "*.yaml");
    if |ansibleFiles| > 0 || |ansibleYamlFiles| > 0 {
      var ansible := FindContent(ansibleFiles + ansibleYamlFiles, fs.readFile, AnsibleMarker);
      if ansible {
        return Detected(Ansible, None);
      }
    }
    return Detected(Unknown, None);
  }
}
