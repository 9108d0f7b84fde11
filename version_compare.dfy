/** `version_cmp` (salt/modules/opkg.py:1570-1620): compares two version
    strings by asking a compare-versions utility three questions, one per
    ordering, and answering with the first one the utility confirms. The
    choice of utility depends on the installed opkg's version, compared
    with `LooseVersion`, and on whether the older script is on the path;
    both are parameters here, as is `shlex.quote`. */
module VersionCompare {
  import opened Wrappers
  import opened Text
  import opened ToolInvoker

  /** `str(x).split(":", 1)[-1]` when epochs are ignored (1589). */
  function Normalize(x: string, ignoreEpoch: bool): string {
    if !ignoreEpoch then x
    else
      match SplitFirst(x, ":")
      case None => x
      case Some((_, rest)) => rest
  }

  /** Ignoring the epoch drops everything up to and including the first
      colon, and nothing when there is none. */
  lemma NormalizeSpec(x: string, ignoreEpoch: bool)
    ensures !ignoreEpoch || !Contains(x, ":") ==> Normalize(x, ignoreEpoch) == x
    ensures ignoreEpoch && Contains(x, ":") ==>
      var r := Normalize(x, ignoreEpoch);
      var epoch := x[..|x| - |r| - 1];
      |r| < |x| && x == epoch + ":" + r && !Contains(epoch, ":")
  {
    if ignoreEpoch && Contains(x, ":") {
      var (epoch, rest) := SplitFirst(x, ":").value;
      assert x[..|x| - |rest| - 1] == epoch;
    }
  }

  const VersionCommand: seq<string> := ["opkg", "--version"]

  /** `output.split(" ")[2].strip()` (1596). */
  function OpkgVersion(output: string): Result<string> {
    var pieces := SplitOn(output, " ");
    if |pieces| < 3 then Err(IndexError) else Ok(Strip(pieces[2]))
  }

  /** The compare-versions utility (1597-1608): `opkg compare-versions`
      when the installed opkg is at least 0.3.4, the older
      `opkg-compare-versions` script when that is on the path, otherwise
      none. */
  function CompareCommand(opkgVersion: string, atLeast034: string -> bool, scriptOnPath: bool): Option<seq<string>> {
    if atLeast034(opkgVersion) then Some(["opkg", "compare-versions"])
    else if scriptOnPath then Some(["opkg-compare-versions"])
    else None
  }

  /** The three questions, in the order they are asked (1610). */
  const Probes: seq<(string, int)> := [("<<", -1), ("=", 0), (">>", 1)]

  function ProbeCommand(compare: seq<string>, pkg1: string, pkg2: string, k: nat, quote: string -> string): seq<string>
    requires k < |Probes|
  {
    compare + [quote(pkg1), Probes[k].0, quote(pkg2)]
  }

  predicate Confirms(compare: seq<string>, pkg1: string, pkg2: string, k: nat, quote: string -> string, tool: Tool)
    requires k < |Probes|
  {
    tool(ProbeCommand(compare, pkg1, pkg2, k, quote), 0).retcode == 0
  }

  /** The answer of the questions from the `k`-th on. */
  function FirstConfirmed(compare: seq<string>, pkg1: string, pkg2: string, k: nat, quote: string -> string, tool: Tool): Option<int>
    requires k <= |Probes|
    decreases |Probes| - k
  {
    if k == |Probes| then None
    else if Confirms(compare, pkg1, pkg2, k, quote, tool) then Some(Probes[k].1)
    else FirstConfirmed(compare, pkg1, pkg2, k + 1, quote, tool)
  }

  /** There is an answer exactly when some question from the `k`-th on is
      confirmed, and it is the value of the first confirmed one. */
  lemma {:induction false} FirstConfirmedSpec(compare: seq<string>, pkg1: string, pkg2: string, k: nat, quote: string -> string, tool: Tool)
    requires k <= |Probes|
    ensures FirstConfirmed(compare, pkg1, pkg2, k, quote, tool).None? <==>
      forall j :: k <= j < |Probes| ==> !Confirms(compare, pkg1, pkg2, j, quote, tool)
    ensures FirstConfirmed(compare, pkg1, pkg2, k, quote, tool).Some? ==>
      exists j :: k <= j < |Probes| && Confirms(compare, pkg1, pkg2, j, quote, tool)
        && FirstConfirmed(compare, pkg1, pkg2, k, quote, tool).value == Probes[j].1
        && forall i :: k <= i < j ==> !Confirms(compare, pkg1, pkg2, i, quote, tool)
    decreases |Probes| - k
  {
    if k < |Probes| && !Confirms(compare, pkg1, pkg2, k, quote, tool) {
      FirstConfirmedSpec(compare, pkg1, pkg2, k + 1, quote, tool);
    }
  }

  /** `version_cmp(pkg1, pkg2, ignore_epoch)`: None when no utility is
      found or no question is confirmed; an IndexError when the opkg
      version output has fewer than three space-separated pieces. */
  function VersionCmpResult(pkg1: string, pkg2: string, ignoreEpoch: bool, atLeast034: string -> bool,
                            scriptOnPath: bool, quote: string -> string, tool: Tool): Result<Option<int>> {
    var a := Normalize(pkg1, ignoreEpoch);
    var b := Normalize(pkg2, ignoreEpoch);
    match OpkgVersion(tool(VersionCommand, 0).stdout)
    case Err(e) => Err(e)
    case Ok(version) =>
      match CompareCommand(version, atLeast034, scriptOnPath)
      case None => Ok(None)
      case Some(compare) => Ok(FirstConfirmed(compare, a, b, 0, quote, tool))
  }

  /** The answer is always -1, 0 or 1; for the first confirmed question it
      is -1 for `<<`, 0 for `=` and 1 for `>>`. */
  lemma VersionCmpRange(pkg1: string, pkg2: string, ignoreEpoch: bool, atLeast034: string -> bool,
                        scriptOnPath: bool, quote: string -> string, tool: Tool)
    ensures VersionCmpResult(pkg1, pkg2, ignoreEpoch, atLeast034, scriptOnPath, quote, tool).Ok? ==>
      var v := VersionCmpResult(pkg1, pkg2, ignoreEpoch, atLeast034, scriptOnPath, quote, tool).value;
      v.Some? ==> v.value == -1 || v.value == 0 || v.value == 1
    ensures VersionCmpResult(pkg1, pkg2, ignoreEpoch, atLeast034, scriptOnPath, quote, tool).Err? <==>
      |SplitOn(tool(VersionCommand, 0).stdout, " ")| < 3
  {
    var a := Normalize(pkg1, ignoreEpoch);
    var b := Normalize(pkg2, ignoreEpoch);
    var version := OpkgVersion(tool(VersionCommand, 0).stdout);
    if version.Ok? {
      var compare := CompareCommand(version.value, atLeast034, scriptOnPath);
      if compare.Some? {
        FirstConfirmedSpec(compare.value, a, b, 0, quote, tool);
      }
    }
  }

  /** The probe loop (1610-1620), which returns on the first question the
      utility confirms. */
  method Probe(compare: seq<string>, pkg1: string, pkg2: string, quote: string -> string, tool: Tool) returns (r: Option<int>)
    ensures r == FirstConfirmed(compare, pkg1, pkg2, 0, quote, tool)
  {
    for k := 0 to |Probes|
      invariant FirstConfirmed(compare, pkg1, pkg2, 0, quote, tool) == FirstConfirmed(compare, pkg1, pkg2, k, quote, tool)
    {
      var (oper, ret) := Probes[k];
      var command := compare + [quote(pkg1), oper, quote(pkg2)];
      var retcode := tool(command, 0).retcode;
      if retcode == 0 {
        return Some(ret);
      }
    }
    r := None;
  }

  method VersionCmp(pkg1: string, pkg2: string, ignoreEpoch: bool, atLeast034: string -> bool,
                    scriptOnPath: bool, quote: string -> string, tool: Tool) returns (r: Result<Option<int>>)
    ensures r == VersionCmpResult(pkg1, pkg2, ignoreEpoch, atLeast034, scriptOnPath, quote, tool)
  {
    var a := Normalize(pkg1, ignoreEpoch);
    var b := Normalize(pkg2, ignoreEpoch);
    var output := tool(VersionCommand, 0).stdout;
    var pieces := SplitOn(output, " ");
    if |pieces| < 3 {
      return Err(IndexError);
    }
    var version := Strip(pieces[2]);
    var compare;
    if atLeast034(version) {
      compare := ["opkg", "compare-versions"];
    } else if scriptOnPath {
      compare := ["opkg-compare-versions"];
    } else {
      return Ok(None);
    }
    var answer := Probe(compare, a, b, quote, tool);
    r := Ok(answer);
  }
}
