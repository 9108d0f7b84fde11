/** Single-package queries and their output parsers: the selection state
    `_get_state` reads from `opkg status` (salt/modules/opkg.py:1262-1276),
    the file lists `file_dict` collects from `opkg files` (1942-1979) and the
    owner `owner` reads from `opkg search` (1982-2016). */
module PackageQueries {
  import opened Wrappers
  import opened Text
  import opened ToolInvoker

  /** `["opkg", "status", pkg]`. */
  function StatusCommand(pkg: string): seq<string> {
    ["opkg", "status", pkg]
  }

  /** A `Status: want flag status` line. */
  predicate IsStatusLine(line: string) {
    StartsWith(line, "Status")
  }

  /** The loop of `_get_state` (1272-1274): the flag is the third word of
      the last status line, "" when there is none; a status line that does
      not split into exactly four words raises ValueError. */
  function StateFlag(lines: seq<string>): Result<string>
    decreases |lines|
  {
    if lines == [] then Ok("")
    else
      match StateFlag(lines[..|lines| - 1])
      case Err(e) => Err(e)
      case Ok(flag) =>
        var line := lines[|lines| - 1];
        if !IsStatusLine(line) then Ok(flag)
        else
          var words := Split(line);
          if |words| != 4 then Err(ValueError) else Ok(words[2])
  }

  /** The flag is read without error exactly when every status line has
      four words. */
  lemma {:induction false} StateFlagOk(lines: seq<string>)
    ensures StateFlag(lines).Ok? <==> forall j :: 0 <= j < |lines| && IsStatusLine(lines[j]) ==> |Split(lines[j])| == 4
    ensures StateFlag(lines).Err? ==> StateFlag(lines).error == ValueError
    decreases |lines|
  {
    if lines != [] {
      var init := lines[..|lines| - 1];
      StateFlagOk(init);
      assert forall j :: 0 <= j < |init| ==> lines[j] == init[j];
    }
  }

  /** The flag is "" exactly when no line is a status line. */
  lemma {:induction false} StateFlagNone(lines: seq<string>)
    requires StateFlag(lines).Ok?
    ensures StateFlag(lines).value == "" <==> forall j :: 0 <= j < |lines| ==> !IsStatusLine(lines[j])
    decreases |lines|
  {
    if lines != [] {
      var init := lines[..|lines| - 1];
      StateFlagNone(init);
      assert forall j :: 0 <= j < |init| ==> lines[j] == init[j];
    }
  }

  /** The flag is the third word of the last status line. */
  lemma {:induction false} StateFlagLast(lines: seq<string>, j: nat)
    requires StateFlag(lines).Ok?
    requires j < |lines| && IsStatusLine(lines[j])
    requires forall i :: j < i < |lines| ==> !IsStatusLine(lines[i])
    ensures |Split(lines[j])| == 4 && StateFlag(lines).value == Split(lines[j])[2]
    decreases |lines|
  {
    if j < |lines| - 1 {
      var init := lines[..|lines| - 1];
      assert !IsStatusLine(lines[|lines| - 1]);
      StateFlagLast(init, j);
    }
  }

  lemma {:induction false} StateFlagStuck(lines: seq<string>, n: nat, e: Failure)
    requires n <= |lines| && StateFlag(lines[..n]) == Err(e)
    ensures StateFlag(lines) == Err(e)
    decreases |lines|
  {
    if |lines| == n {
      assert lines[..n] == lines;
    } else {
      var init := lines[..|lines| - 1];
      assert init[..n] == lines[..n];
      StateFlagStuck(init, n, e);
    }
  }

  /** A final empty line, which `salt.utils.itertools.split` does not yield
      but a plain split on "\n" does, is not a status line and leaves the
      flag as it was. */
  lemma TrailingEmptyLine(lines: seq<string>)
    ensures StateFlag(lines + [""]) == StateFlag(lines)
  {
    var all := lines + [""];
    assert all[..|all| - 1] == lines;
    var empty := "";
    assert !IsStatusLine(empty);
  }

  /** The state `_get_state(pkg)` reads from the output of `opkg status
      pkg`, run once with `cmd.run`. */
  function State(pkg: string, tool: Tool): Result<string> {
    StateFlag(SplitOn(tool(StatusCommand(pkg), 0).stdout, "\n"))
  }

  method GetState(pkg: string, tool: Tool) returns (r: Result<string>)
    ensures r == State(pkg, tool)
  {
    var lines := SplitOn(tool(StatusCommand(pkg), 0).stdout, "\n");
    var flag := "";
    for i := 0 to |lines|
      invariant StateFlag(lines[..i]) == Ok(flag)
    {
      assert lines[..i + 1][..i] == lines[..i];
      var line := lines[i];
      if IsStatusLine(line) {
        var words := Split(line);
        if |words| != 4 {
          StateFlagStuck(lines, i + 1, ValueError);
          return Err(ValueError);
        }
        flag := words[2];
      }
    }
    assert lines[..|lines|] == lines;
    r := Ok(flag);
  }

  /** The index of the first ` * ` line, which ends the scan, or |lines|. */
  function StopAt(lines: seq<string>): (n: nat)
    ensures n <= |lines|
    ensures n < |lines| ==> StartsWith(lines[n], " * ")
    ensures forall j :: 0 <= j < n ==> !StartsWith(lines[j], " * ")
    decreases |lines|
  {
    if lines == [] || StartsWith(lines[0], " * ") then 0 else 1 + StopAt(lines[1..])
  }

  /** The lines that are paths, in order. */
  function Paths(lines: seq<string>): (r: seq<string>)
    ensures forall k :: 0 <= k < |r| ==> StartsWith(r[k], "/")
    ensures forall k :: 0 <= k < |r| ==> r[k] in lines
    decreases |lines|
  {
    if lines == [] then []
    else if StartsWith(lines[0], "/") then [lines[0]] + Paths(lines[1..])
    else Paths(lines[1..])
  }

  /** The scan of one package's `opkg files` output (1967-1975): path lines
      are files, and a ` * ` line is an error that ends the scan. */
  function FileScan(lines: seq<string>): (seq<string>, Option<string>)
    decreases |lines|
  {
    if lines == [] then ([], None)
    else if StartsWith(lines[0], "/") then
      var rest := FileScan(lines[1..]);
      ([lines[0]] + rest.0, rest.1)
    else if StartsWith(lines[0], " * ") then ([], Some(lines[0][3..]))
    else FileScan(lines[1..])
  }

  /** The files are the path lines before the first ` * ` line, and the
      error is that line without its marker, if there is one. */
  lemma {:induction false} FileScanSpec(lines: seq<string>)
    ensures FileScan(lines).0 == Paths(lines[..StopAt(lines)])
    ensures FileScan(lines).1 == if StopAt(lines) < |lines| then Some(lines[StopAt(lines)][3..]) else None
    decreases |lines|
  {
    if lines != [] {
      var rest := lines[1..];
      FileScanSpec(rest);
      if StartsWith(lines[0], "/") {
        assert lines[0][..1][0] == lines[0][0];
        assert !StartsWith(lines[0], " * ");
        assert lines[..StopAt(lines)][1..] == rest[..StopAt(rest)];
      } else if !StartsWith(lines[0], " * ") {
        assert lines[..StopAt(lines)][1..] == rest[..StopAt(rest)];
      }
    }
  }

  /** The scan loop with its `break`. */
  method ScanFiles(out: string) returns (files: seq<string>, error: Option<string>)
    ensures (files, error) == FileScan(SplitLines(out))
  {
    var lines := SplitLines(out);
    files := [];
    error := None;
    var i := 0;
    assert lines[0..] == lines;
    assert [] + FileScan(lines).0 == FileScan(lines).0;
    while i < |lines|
      invariant i <= |lines|
      invariant FileScan(lines) == (files + FileScan(lines[i..]).0, FileScan(lines[i..]).1)
    {
      var line := lines[i];
      assert lines[i..][0] == line && lines[i..][1..] == lines[i + 1..];
      if StartsWith(line, "/") {
        assert files + FileScan(lines[i..]).0 == (files + [line]) + FileScan(lines[i + 1..]).0;
        files := files + [line];
      } else if StartsWith(line, " * ") {
        error := Some(line[3..]);
        assert files + [] == files;
        return;
      }
      i := i + 1;
    }
    assert lines[i..] == [];
    assert files + [] == files;
  }

  function FilesCommand(package: string): seq<string> {
    ["opkg", "files", package]
  }

  /** The errors and file table after one more package: a package with
      files gets its list, and a ` * ` line adds its error. */
  function FileStep(acc: (seq<string>, map<string, seq<string>>), package: string, tool: Tool): (seq<string>, map<string, seq<string>>) {
    var scan := FileScan(SplitLines(Outcome(FilesCommand(package), tool).stdout));
    (acc.0 + (if scan.1.Some? then [scan.1.value] else []), if scan.0 != [] then acc.1[package := scan.0] else acc.1)
  }

  /** The `errors` and `packages` of `file_dict` over `packages` in order. */
  function FileTable(packages: seq<string>, tool: Tool): (seq<string>, map<string, seq<string>>)
    decreases |packages|
  {
    if packages == [] then ([], map[])
    else FileStep(FileTable(packages[..|packages| - 1], tool), packages[|packages| - 1], tool)
  }

  /** Each package contributes at most one error, and a listed package has a
      non-empty list of paths. */
  lemma {:induction false} FileTableSpec(packages: seq<string>, tool: Tool)
    ensures |FileTable(packages, tool).0| <= |packages|
    ensures forall p :: p in FileTable(packages, tool).1 ==> p in packages && FileTable(packages, tool).1[p] != []
    ensures forall p, k :: p in FileTable(packages, tool).1 && 0 <= k < |FileTable(packages, tool).1[p]| ==>
      StartsWith(FileTable(packages, tool).1[p][k], "/")
    decreases |packages|
  {
    if packages != [] {
      var init := packages[..|packages| - 1];
      FileTableSpec(init, tool);
      var package := packages[|packages| - 1];
      var lines := SplitLines(Outcome(FilesCommand(package), tool).stdout);
      FileScanSpec(lines);
      assert forall p :: p in init ==> p in packages;
    }
  }

  /** `file_dict(*packages)`; without packages, the names of the installed
      packages are queried. */
  method FileDict(packages: seq<string>, installed: seq<string>, tool: Tool)
    returns (errors: seq<string>, ret: map<string, seq<string>>)
    ensures errors == FileTable(if packages == [] then installed else packages, tool).0
    ensures ret == FileTable(if packages == [] then installed else packages, tool).1
  {
    var queried := if packages == [] then installed else packages;
    errors := [];
    ret := map[];
    for i := 0 to |queried|
      invariant errors == FileTable(queried[..i], tool).0
      invariant ret == FileTable(queried[..i], tool).1
    {
      assert queried[..i + 1][..i] == queried[..i];
      var package := queried[i];
      var files, error := PackageFiles(package, tool);
      if error.Some? {
        errors := errors + [error.value];
      }
      if files != [] {
        ret := ret[package := files];
      }
    }
    assert queried[..|queried|] == queried;
  }

  /** The files and the error of one package (1962-1977). */
  method PackageFiles(package: string, tool: Tool) returns (files: seq<string>, error: Option<string>)
    ensures (files, error) == FileScan(SplitLines(Outcome(FilesCommand(package), tool).stdout))
  {
    var out, _, _ := CallOpkg(FilesCommand(package), tool);
    files, error := ScanFiles(out.stdout);
  }

  const OwnerSep: string := " - "

  function SearchCommand(path: string): seq<string> {
    ["opkg", "search", path]
  }

  /** The owner in the output of `opkg search path` (2009-2012): the text
      before the first " - ", stripped, or "" for an empty output. */
  function OwnerOf(output: string): string {
    if output != "" then Strip(SplitOn(output, OwnerSep)[0]) else ""
  }

  /** The owner never holds the separator, an output without it is the
      owner itself once stripped, and otherwise the owner is the stripped
      text before its first occurrence. */
  lemma OwnerOfSpec(output: string)
    ensures output == "" ==> OwnerOf(output) == ""
    ensures output != "" && !Contains(output, OwnerSep) ==> OwnerOf(output) == Strip(output)
    ensures Contains(output, OwnerSep) ==> OwnerOf(output) == Strip(output[..IndexOf(output, OwnerSep).value])
    ensures output != "" ==> !Contains(SplitOn(output, OwnerSep)[0], OwnerSep)
  {
    SplitOnHead(output, OwnerSep);
  }

  /** A query answer: a single text, or a table by path. */
  datatype Owners = Single(owner: string) | Table(owners: map<string, string>)

  /** The table `owner` builds (2006-2013): each path with its owner. */
  function OwnerTable(paths: seq<string>, tool: Tool): (ret: map<string, string>)
    ensures ret.Keys == set p | p in paths
    ensures forall p :: p in ret ==> ret[p] == OwnerOf(tool(SearchCommand(p), 0).stdout)
    decreases |paths|
  {
    if paths == [] then map[]
    else
      var p := paths[|paths| - 1];
      OwnerTable(paths[..|paths| - 1], tool)[p := OwnerOf(tool(SearchCommand(p), 0).stdout)]
  }

  /** `owner(*paths)`: "" for no path, the owner when the table has one
      entry, the table otherwise; each search is a single `cmd.run_stdout`
      run. */
  function OwnerResult(paths: seq<string>, tool: Tool): Owners {
    if paths == [] then Single("")
    else
      var ret := OwnerTable(paths, tool);
      if |ret| == 1 then Single(ret[paths[0]]) else Table(ret)
  }

  /** The answer is a single text exactly when all the paths are the same
      one (so asking twice for one path gives a text, not a table). */
  lemma OwnerSingle(paths: seq<string>, tool: Tool)
    requires paths != []
    ensures OwnerResult(paths, tool).Single? <==> forall i :: 0 <= i < |paths| ==> paths[i] == paths[0]
  {
    var ret := OwnerTable(paths, tool);
    assert |ret| == |ret.Keys|;
    OnePath(paths);
  }

  lemma OnePath(paths: seq<string>)
    requires paths != []
    ensures |set p | p in paths| == 1 <==> forall i :: 0 <= i < |paths| ==> paths[i] == paths[0]
  {
    var keys := set p | p in paths;
    if forall i :: 0 <= i < |paths| ==> paths[i] == paths[0] {
      assert keys == {paths[0]};
    } else {
      var i :| 0 <= i < |paths| && paths[i] != paths[0];
      assert {paths[0], paths[i]} <= keys;
      assert |{paths[0], paths[i]}| == 2;
      SubsetSize({paths[0], paths[i]}, keys);
    }
  }

  lemma {:induction false} SubsetSize(a: set<string>, b: set<string>)
    requires a <= b
    ensures |a| <= |b|
    decreases |a|
  {
    if a != {} {
      var x :| x in a;
      SubsetSize(a - {x}, b - {x});
    }
  }

  method Owner(paths: seq<string>, tool: Tool) returns (r: Owners)
    ensures r == OwnerResult(paths, tool)
  {
    if paths == [] {
      return Single("");
    }
    var ret: map<string, string> := map[];
    for i := 0 to |paths|
      invariant ret == OwnerTable(paths[..i], tool)
    {
      assert paths[..i + 1][..i] == paths[..i];
      var output := tool(SearchCommand(paths[i]), 0).stdout;
      if output != "" {
        ret := ret[paths[i] := Strip(SplitOn(output, OwnerSep)[0])];
      } else {
        ret := ret[paths[i] := ""];
      }
    }
    assert paths[..|paths|] == paths;
    if |ret| == 1 {
      return Single(ret[paths[0]]);
    }
    r := Table(ret);
  }
}
