/** The parsers of the package lists opkg prints: `opkg list-installed` as
    `_execute_list_pkgs` reads it (salt/modules/opkg.py:1349-1393) and
    `opkg list-upgradable` as `list_upgrades` (1396-1427) and
    `latest_version` (222-269) read it. Lines have the form
    `name - version[ - more]`. */
module PackageLists {
  import opened Wrappers
  import opened Text
  import opened ToolInvoker
  import opened FeedRefresh

  /** The field separator of the list output. */
  const Sep: string := " - "

  const ListInstalledCommand: seq<string> := ["opkg", "list-installed"]
  const ListUpgradableCommand: seq<string> := ["opkg", "list-upgradable"]

  /** A line that names an installed package: neither empty nor a
      continuation of a description (1380-1381). */
  predicate IsPackageLine(line: string) {
    |line| > 0 && line[0] != ' '
  }

  /** `pkg_name, pkg_version = line.split(" - ", 2)[:2]` (1385): the first
      two fields; a line without a separator leaves one field to unpack
      into two names and raises ValueError. */
  function InstalledEntry(line: string): Result<(string, string)> {
    var pieces := SplitOn(line, Sep);
    if |pieces| < 2 then Err(ValueError) else Ok((pieces[0], pieces[1]))
  }

  /** A line gives an entry exactly when it holds the separator; the name
      is the text before the first separator and the line starts with the
      name, the separator and the version. */
  lemma InstalledEntrySpec(line: string)
    ensures InstalledEntry(line).Ok? <==> Contains(line, Sep)
    ensures InstalledEntry(line).Ok? ==>
      var (name, version) := InstalledEntry(line).value;
      !Contains(name, Sep) && StartsWith(line, name + Sep + version)
  {
    var r := SplitOn(line, Sep);
    SplitOnHead(line, Sep);
    if |r| >= 2 {
      JoinHead(r[1..], Sep);
      StartsWithAppend(r[0] + Sep, Join(r[1..], Sep), r[1]);
      assert line == (r[0] + Sep) + Join(r[1..], Sep);
      assert r[0] + Sep + r[1] == (r[0] + Sep) + r[1];
    }
  }

  /** The package lines of `lines`, in order. */
  function PackageLines(lines: seq<string>): (r: seq<string>)
    ensures forall k :: 0 <= k < |r| ==> IsPackageLine(r[k])
    decreases |lines|
  {
    if lines == [] then []
    else
      var init := PackageLines(lines[..|lines| - 1]);
      if IsPackageLine(lines[|lines| - 1]) then init + [lines[|lines| - 1]] else init
  }

  /** The entries of the package lines, in order, or the ValueError of the
      first line without a separator. */
  function InstalledEntries(lines: seq<string>): Result<seq<(string, string)>>
    decreases |lines|
  {
    if lines == [] then Ok([])
    else
      match InstalledEntries(lines[..|lines| - 1])
      case Err(e) => Err(e)
      case Ok(entries) =>
        var line := lines[|lines| - 1];
        if !IsPackageLine(line) then Ok(entries)
        else
          match InstalledEntry(line)
          case Err(e) => Err(e)
          case Ok(entry) => Ok(entries + [entry])
  }

  /** Listing succeeds exactly when every package line holds the separator,
      and then it has one entry per package line, in order, each the
      leading name and version of its line. */
  lemma {:induction false} InstalledEntriesSpec(lines: seq<string>)
    ensures InstalledEntries(lines).Ok? <==> forall k :: 0 <= k < |PackageLines(lines)| ==> Contains(PackageLines(lines)[k], Sep)
    ensures InstalledEntries(lines).Err? ==> InstalledEntries(lines).error == ValueError
    ensures InstalledEntries(lines).Ok? ==>
      var entries := InstalledEntries(lines).value;
      |entries| == |PackageLines(lines)|
      && forall k :: 0 <= k < |entries| ==>
        !Contains(entries[k].0, Sep) && StartsWith(PackageLines(lines)[k], entries[k].0 + Sep + entries[k].1)
    decreases |lines|
  {
    if lines != [] {
      var init := lines[..|lines| - 1];
      var line := lines[|lines| - 1];
      InstalledEntriesSpec(init);
      InstalledEntrySpec(line);
      var ps := PackageLines(init);
      if IsPackageLine(line) {
        assert PackageLines(lines) == ps + [line];
        assert forall k :: 0 <= k < |ps| ==> PackageLines(lines)[k] == ps[k];
        assert PackageLines(lines)[|ps|] == line;
      } else {
        assert PackageLines(lines) == ps;
      }
    }
  }

  /** An entry of the `errors` list `_execute_list_pkgs` appends to: the
      error text, or, when that is empty, a one-element list holding the
      output (1374-1377). */
  datatype ListError = Message(text: string) | Wrapped(texts: seq<string>)

  /** What `_execute_list_pkgs` leaves: the errors it appended and the
      entries it passed to `pkg_resource.add_pkg`, or the exception. */
  datatype Listed = Listed(errors: seq<ListError>, entries: Result<seq<(string, string)>>)

  /** `_execute_list_pkgs` for the result of `opkg list-installed`: a
      failed run records one error and lists nothing. */
  function ListInstalledOutcome(call: ToolResult): Listed {
    if call.retcode != 0 then
      Listed([if call.stderr != "" then Message(call.stderr) else Wrapped([call.stdout])], Ok([]))
    else Listed([], InstalledEntries(SplitOn(call.stdout, "\n")))
  }

  /** A failed run yields exactly one error and no entries; a successful
      one yields no error. */
  lemma ListInstalledErrors(call: ToolResult)
    ensures |ListInstalledOutcome(call).errors| == (if call.retcode != 0 then 1 else 0)
    ensures call.retcode != 0 ==> ListInstalledOutcome(call).entries == Ok([])
    ensures call.retcode != 0 && call.stderr == "" ==> ListInstalledOutcome(call).errors == [Wrapped([call.stdout])]
  {
  }

  lemma {:induction false} InstalledStuck(lines: seq<string>, n: nat, e: Failure)
    requires n <= |lines| && InstalledEntries(lines[..n]) == Err(e)
    ensures InstalledEntries(lines) == Err(e)
    decreases |lines|
  {
    if |lines| == n {
      assert lines[..n] == lines;
    } else {
      var init := lines[..|lines| - 1];
      assert init[..n] == lines[..n];
      InstalledStuck(init, n, e);
    }
  }

  /** `_execute_list_pkgs` from the `opkg list-installed` run on: the loop
      at 1379-1387 over the output lines. */
  method ListInstalled(tool: Tool) returns (listed: Listed)
    ensures listed == ListInstalledOutcome(Outcome(ListInstalledCommand, tool))
  {
    var call, _, _ := CallOpkg(ListInstalledCommand, tool);
    if call.retcode != 0 {
      if call.stderr != "" {
        return Listed([Message(call.stderr)], Ok([]));
      }
      return Listed([Wrapped([call.stdout])], Ok([]));
    }
    var lines := SplitOn(call.stdout, "\n");
    var entries: seq<(string, string)> := [];
    for i := 0 to |lines|
      invariant InstalledEntries(lines[..i]) == Ok(entries)
    {
      assert lines[..i + 1][..i] == lines[..i];
      var line := lines[i];
      if IsPackageLine(line) {
        var entry := InstalledEntry(line);
        if entry.Err? {
          InstalledStuck(lines, i + 1, entry.error);
          return Listed([], Err(entry.error));
        }
        entries := entries + [entry.value];
      }
    }
    assert lines[..|lines|] == lines;
    listed := Listed([], Ok(entries));
  }

  /** `name, _oldversion, newversion = line.split(" - ")` (257, 1424): the
      first and third fields of a line with exactly three. */
  function UpgradeFields(line: string): Option<(string, string)> {
    var pieces := SplitOn(line, Sep);
    if |pieces| == 3 then Some((pieces[0], pieces[2])) else None
  }

  /** The upgrade a line offers names a package without a separator in its
      name. */
  lemma UpgradeFieldsSpec(line: string)
    ensures UpgradeFields(line).Some? ==> Contains(line, Sep) && !Contains(UpgradeFields(line).value.0, Sep)
  {
    SplitOnHead(line, Sep);
  }

  /** Line `j` offers an upgrade of `name`. */
  predicate Names(lines: seq<string>, j: int, name: string)
    requires 0 <= j < |lines|
  {
    UpgradeFields(lines[j]).Some? && UpgradeFields(lines[j]).value.0 == name
  }

  /** The loop of `list_upgrades` (1423-1425): each line sets its package's
      new version, a later line overwriting an earlier one; a line without
      exactly three fields raises ValueError. */
  function Upgrades(lines: seq<string>): Result<map<string, string>>
    decreases |lines|
  {
    if lines == [] then Ok(map[])
    else
      match Upgrades(lines[..|lines| - 1])
      case Err(e) => Err(e)
      case Ok(ret) =>
        match UpgradeFields(lines[|lines| - 1])
        case None => Err(ValueError)
        case Some((name, newVersion)) => Ok(ret[name := newVersion])
  }

  /** The table of upgrades is an error exactly when some line lacks
      three fields, and then the error is ValueError. */
  lemma {:induction false} UpgradesOk(lines: seq<string>)
    ensures Upgrades(lines).Ok? <==> forall j :: 0 <= j < |lines| ==> UpgradeFields(lines[j]).Some?
    ensures Upgrades(lines).Err? ==> Upgrades(lines).error == ValueError
    decreases |lines|
  {
    if lines != [] {
      var init := lines[..|lines| - 1];
      UpgradesOk(init);
      assert forall j :: 0 <= j < |init| ==> lines[j] == init[j];
    }
  }

  /** The table of upgrades holds exactly the packages the lines name. */
  lemma {:induction false} UpgradesKeys(lines: seq<string>, name: string)
    requires Upgrades(lines).Ok?
    ensures name in Upgrades(lines).value <==> exists j :: 0 <= j < |lines| && Names(lines, j, name)
    decreases |lines|
  {
    if lines != [] {
      var init := lines[..|lines| - 1];
      UpgradesKeys(init, name);
      assert forall j :: 0 <= j < |init| ==> (Names(init, j, name) <==> Names(lines, j, name));
      var last := |lines| - 1;
      var f := UpgradeFields(lines[last]).value;
      assert Upgrades(lines).value == Upgrades(init).value[f.0 := f.1];
      if name == f.0 {
        assert Names(lines, last, name);
      } else {
        assert !Names(lines, last, name);
      }
    }
  }

  /** A package holds the new version of the last line that names it. */
  lemma {:induction false} UpgradesLast(lines: seq<string>, j: nat, name: string, version: string)
    requires Upgrades(lines).Ok?
    requires j < |lines| && UpgradeFields(lines[j]) == Some((name, version))
    requires forall i :: j < i < |lines| ==> !Names(lines, i, name)
    ensures name in Upgrades(lines).value && Upgrades(lines).value[name] == version
    decreases |lines|
  {
    if j < |lines| - 1 {
      var init := lines[..|lines| - 1];
      assert forall i :: j < i < |init| ==> (Names(init, i, name) <==> Names(lines, i, name));
      UpgradesLast(init, j, name, version);
      var f := UpgradeFields(lines[|lines| - 1]).value;
      assert !Names(lines, |lines| - 1, name);
      assert Upgrades(lines).value == Upgrades(init).value[f.0 := f.1];
    }
  }

  /** `list_upgrades` for the result of `opkg list-upgradable`: a failed
      run raises an error holding its error text and output. */
  function ListUpgradesOutcome(call: ToolResult): Result<map<string, string>> {
    if call.retcode != 0 then Err(CommandExecutionError(call.stderr + call.stdout, []))
    else Upgrades(SplitLines(call.stdout))
  }

  /** `list_upgrades(refresh)` with `tool` running both `opkg update` and
      `opkg list-upgradable`: an error of the refresh propagates. */
  function ListUpgradesResult(refresh: bool, tool: Tool): Result<map<string, string>> {
    if refresh && RefreshOutcome(Outcome(UpdateCommand, tool), false).Err? then
      Err(RefreshOutcome(Outcome(UpdateCommand, tool), false).error)
    else ListUpgradesOutcome(Outcome(ListUpgradableCommand, tool))
  }

  lemma {:induction false} UpgradesStuck(lines: seq<string>, n: nat, e: Failure)
    requires n <= |lines| && Upgrades(lines[..n]) == Err(e)
    ensures Upgrades(lines) == Err(e)
    decreases |lines|
  {
    if |lines| == n {
      assert lines[..n] == lines;
    } else {
      var init := lines[..|lines| - 1];
      assert init[..n] == lines[..n];
      UpgradesStuck(init, n, e);
    }
  }

  method ListUpgrades(refresh: bool, tool: Tool) returns (r: Result<map<string, string>>)
    ensures r == ListUpgradesResult(refresh, tool)
  {
    if refresh {
      var refreshed := RefreshDb(tool, false);
      if refreshed.Err? {
        return Err(refreshed.error);
      }
    }
    var call, _, _ := CallOpkg(ListUpgradableCommand, tool);
    if call.retcode != 0 {
      return Err(CommandExecutionError(call.stderr + call.stdout, []));
    }
    var lines := SplitLines(call.stdout);
    var ret: map<string, string> := map[];
    for i := 0 to |lines|
      invariant Upgrades(lines[..i]) == Ok(ret)
    {
      assert lines[..i + 1][..i] == lines[..i];
      var fields := UpgradeFields(lines[i]);
      if fields.None? {
        UpgradesStuck(lines, i + 1, ValueError);
        return Err(ValueError);
      }
      var (name, newVersion) := fields.value;
      ret := ret[name := newVersion];
    }
    assert lines[..|lines|] == lines;
    r := Ok(ret);
  }

  /** A version query answer: a single text, or a table by name. */
  datatype Versions = Single(version: string) | Table(versions: map<string, string>)

  /** The loop of `latest_version` (254-260) starting from "" for every
      asked name: a line with three fields naming an asked package sets its
      version; other lines are skipped. The table holds exactly the asked
      names. */
  function LatestTable(names: seq<string>, lines: seq<string>): (r: map<string, string>)
    ensures r.Keys == set n | n in names
    decreases |lines|
  {
    if lines == [] then map n | n in names :: ""
    else
      var ret := LatestTable(names, lines[..|lines| - 1]);
      match UpgradeFields(lines[|lines| - 1])
      case None => ret
      case Some((name, newVersion)) => if name in names then ret[name := newVersion] else ret
  }

  /** An asked name that no line names stays "". */
  lemma {:induction false} LatestUnnamed(names: seq<string>, lines: seq<string>, name: string)
    requires name in names && forall j :: 0 <= j < |lines| ==> !Names(lines, j, name)
    ensures LatestTable(names, lines)[name] == ""
    decreases |lines|
  {
    if lines != [] {
      var init := lines[..|lines| - 1];
      assert forall j :: 0 <= j < |init| ==> (Names(init, j, name) <==> Names(lines, j, name));
      LatestUnnamed(names, init, name);
      assert !Names(lines, |lines| - 1, name);
    }
  }

  /** An asked name holds the new version of the last line naming it. */
  lemma {:induction false} LatestLast(names: seq<string>, lines: seq<string>, j: nat, name: string, version: string)
    requires name in names
    requires j < |lines| && UpgradeFields(lines[j]) == Some((name, version))
    requires forall i :: j < i < |lines| ==> !Names(lines, i, name)
    ensures LatestTable(names, lines)[name] == version
    decreases |lines|
  {
    if j < |lines| - 1 {
      var init := lines[..|lines| - 1];
      assert forall i :: j < i < |init| ==> (Names(init, i, name) <==> Names(lines, i, name));
      LatestLast(names, init, j, name, version);
      assert !Names(lines, |lines| - 1, name);
    }
  }

  /** `latest_version(*names)` for the output of `opkg list-upgradable`:
      "" for no name, the version for one name, the table otherwise. */
  function LatestVersionOf(names: seq<string>, out: string): Versions {
    if names == [] then Single("")
    else
      var ret := LatestTable(names, SplitOn(out, "\n"));
      if |names| == 1 then Single(ret[names[0]]) else Table(ret)
  }

  /** `latest_version(*names, refresh)`: the refresh runs only for a
      non-empty query, its error propagates, and the list is read with a
      plain single run of the tool (`cmd.run_stdout`, without the lock
      retry). */
  function LatestVersionResult(names: seq<string>, refresh: bool, tool: Tool): Result<Versions> {
    if names == [] then Ok(Single(""))
    else if refresh && RefreshOutcome(Outcome(UpdateCommand, tool), false).Err? then
      Err(RefreshOutcome(Outcome(UpdateCommand, tool), false).error)
    else Ok(LatestVersionOf(names, tool(ListUpgradableCommand, 0).stdout))
  }

  /** The two loops of `latest_version` (245-258): every asked name
      set to "", then the versions of the upgradable lines. */
  method ReadUpgradable(names: seq<string>, lines: seq<string>) returns (ret: map<string, string>)
    ensures ret == LatestTable(names, lines)
  {
    ret := map[];
    for i := 0 to |names|
      invariant ret == map n | n in names[..i] :: ""
    {
      ret := ret[names[i] := ""];
    }
    assert names[..|names|] == names;
    for i := 0 to |lines|
      invariant ret == LatestTable(names, lines[..i])
    {
      assert lines[..i + 1][..i] == lines[..i];
      var fields := UpgradeFields(lines[i]);
      if fields.Some? && fields.value.0 in names {
        ret := ret[fields.value.0 := fields.value.1];
      }
    }
    assert lines[..|lines|] == lines;
  }

  method LatestVersion(names: seq<string>, refresh: bool, tool: Tool) returns (r: Result<Versions>)
    ensures r == LatestVersionResult(names, refresh, tool)
  {
    if names == [] {
      return Ok(Single(""));
    }
    if refresh {
      var refreshed := RefreshDb(tool, false);
      if refreshed.Err? {
        return Err(refreshed.error);
      }
    }
    var ret := ReadUpgradable(names, SplitOn(tool(ListUpgradableCommand, 0).stdout, "\n"));
    if |names| == 1 {
      return Ok(Single(ret[names[0]]));
    }
    r := Ok(Table(ret));
  }
}
