/** The two Terraform command lines the tool builds, and how their exit code
    is read. The process itself (spawning, streaming its output to the log)
    is an oracle supplied by the caller: see Reconcile.Runner. */
module Commands {
  import opened Options

  const Terraform := "/usr/local/bin/terraform"
  const NoColorFlag := "-no-color"
  const BackendConfigPrefix := "-backend-config="

  /** Python truthiness of the optional backend-config argument: neither an
      absent value nor the empty string adds the flag. */
  predicate Given(backendConfig: Option<string>) {
    backendConfig.Some? && backendConfig.value != ""
  }

  /** The backend config as the command sees it: empty counts as absent. */
  function Effective(backendConfig: Option<string>): (r: Option<string>)
    ensures r.Some? <==> Given(backendConfig)
    ensures r.Some? ==> r == backendConfig
  {
    if Given(backendConfig) then backendConfig else None
  }

  /** Python truthiness of an integer. */
  predicate Truthy(n: int) {
    n != 0
  }

  /** `True if not exit_code else False`: how both terraform wrappers report
      their run to the caller. */
  function Succeeded(exitCode: int): (ok: bool)
    ensures ok <==> exitCode == 0
  {
    !Truthy(exitCode)
  }

  /** The argument vector of `terraform init`. */
  function InitCommand(noColor: bool, backendConfig: Option<string>): (cmd: seq<string>)
    ensures |cmd| == 2 + (if noColor then 1 else 0) + (if Given(backendConfig) then 1 else 0)
    ensures cmd[..2] == [Terraform, "init"]
    ensures noColor <==> NoColorFlag in cmd
    ensures noColor ==> cmd[2] == NoColorFlag
    ensures Given(backendConfig) <==> exists i :: 2 <= i < |cmd| && BackendConfigPrefix <= cmd[i]
    ensures Given(backendConfig) ==> cmd[|cmd| - 1] == BackendConfigPrefix + backendConfig.value
  {
    var base := [Terraform, "init"];
    var colored := if noColor then base + [NoColorFlag] else base;
    assert !(BackendConfigPrefix <= NoColorFlag) by { assert |NoColorFlag| < |BackendConfigPrefix|; }
    assert forall i :: 2 <= i < |colored| ==> colored[i] == NoColorFlag;
    if Given(backendConfig) then
      var flag := BackendConfigPrefix + backendConfig.value;
      assert flag[..|BackendConfigPrefix|] == BackendConfigPrefix;
      var cmd := colored + [flag];
      assert BackendConfigPrefix <= cmd[|cmd| - 1];
      cmd
    else colored
  }

  /** The argument vector of `terraform import <address> <id>`. */
  function ImportCommand(noColor: bool, address: string, providerId: string): (cmd: seq<string>)
    ensures |cmd| == (if noColor then 5 else 4)
    ensures cmd[..2] == [Terraform, "import"]
    ensures noColor ==> cmd[2] == NoColorFlag
    ensures cmd[|cmd| - 2..] == [address, providerId]
  {
    var base := [Terraform, "import"];
    (if noColor then base + [NoColorFlag] else base) + [address, providerId]
  }

  /** The options an init command line was built from. */
  datatype InitOptions = InitOptions(noColor: bool, backendConfig: Option<string>)

  /** The options an import command line was built from. */
  datatype ImportOptions = ImportOptions(noColor: bool, address: string, providerId: string)

  /** Reads an init argument vector back into its options; None for any
      vector InitCommand cannot produce. */
  function ParseInit(cmd: seq<string>): Option<InitOptions> {
    if |cmd| < 2 || cmd[..2] != [Terraform, "init"] || |cmd| > 4 then None
    else
      var rest := cmd[2..];
      var noColor := |rest| > 0 && rest[0] == NoColorFlag;
      var flags := if noColor then rest[1..] else rest;
      if flags == [] then Some(InitOptions(noColor, None))
      else if |flags| == 1 && BackendConfigPrefix <= flags[0] && |flags[0]| > |BackendConfigPrefix| then
        Some(InitOptions(noColor, Some(flags[0][|BackendConfigPrefix|..])))
      else None
  }

  /** Reads an import argument vector back into its options. */
  function ParseImport(cmd: seq<string>): Option<ImportOptions> {
    if |cmd| == 4 && cmd[..2] == [Terraform, "import"] then
      Some(ImportOptions(false, cmd[2], cmd[3]))
    else if |cmd| == 5 && cmd[..3] == [Terraform, "import", NoColorFlag] then
      Some(ImportOptions(true, cmd[3], cmd[4]))
    else None
  }

  /** Building then parsing an init command recovers the options, with an
      empty backend config read as absent. */
  lemma InitRoundTrip(noColor: bool, backendConfig: Option<string>)
    ensures ParseInit(InitCommand(noColor, backendConfig)) == Some(InitOptions(noColor, Effective(backendConfig)))
  {
  }

  /** Every vector the parser accepts is exactly the init command of the
      options it returns: the command has no other shape. */
  lemma InitParseSound(cmd: seq<string>)
    requires ParseInit(cmd).Some?
    ensures InitCommand(ParseInit(cmd).value.noColor, ParseInit(cmd).value.backendConfig) == cmd
  {
    var o := ParseInit(cmd).value;
    var rest := cmd[2..];
    var flags := if o.noColor then rest[1..] else rest;
    if flags != [] {
      assert BackendConfigPrefix + o.backendConfig.value == flags[0];
    }
  }

  /** Building then parsing an import command recovers its options. */
  lemma ImportRoundTrip(noColor: bool, address: string, providerId: string)
    ensures ParseImport(ImportCommand(noColor, address, providerId)) == Some(ImportOptions(noColor, address, providerId))
  {
  }

  /** Every vector the import parser accepts is the import command of the
      options it returns. */
  lemma ImportParseSound(cmd: seq<string>)
    requires ParseImport(cmd).Some?
    ensures ImportCommand(ParseImport(cmd).value.noColor, ParseImport(cmd).value.address, ParseImport(cmd).value.providerId) == cmd
  {
  }
}
