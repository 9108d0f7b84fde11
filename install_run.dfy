/** The end of `install` (salt/modules/opkg.py:795-866): the commands of the
    plan are run, the after snapshot is corrected for a dry run, the change
    dictionary is built with the reinstalled packages added, and the errors
    are raised.

    The loop at 816-817 calls `_execute_install_command` with four
    arguments, while its definition at 585 takes six; Python raises
    TypeError at the first command. `InstallResultAsWritten` models that
    call as it stands; `InstallResult` models the call with the job id of
    the request and no detached process, which is what the definition asks
    for, and the rest of the model uses it. */
module InstallRun {
  import opened Wrappers
  import opened Text
  import opened Dicts
  import opened ToolInvoker
  import opened ProgressMonitor
  import opened DryRunReports
  import opened ChangeSets
  import opened InstallPlan
  import opened FeedRefresh
  import opened InfoInstalled

  const BeforeProblem: string := "Problem encountered before installing package(s)"
  const InstallProblem: string := "Problem encountered installing package(s)"

  /** What the runs of the commands see from outside the model: whether
      progress is reported, the job id, the reporting period, the tool, what
      the process run with progress produces for each command, and the
      clock. */
  datatype Runner = Runner(notify: bool, jid: string, period: int, tool: Tool,
                           progress: seq<string> -> ProcessOutput, clock: nat -> int)

  /** The commands that are run (795-797). */
  function Commands(plan: Plan): seq<seq<string>> {
    CommandList(plan.prefix, plan.lists.toInstall, plan.lists.toDowngrade, plan.lists.toReinstall)
  }

  /** The commands for the detached packages (798-800), which are built
      and checked for emptiness but never run. */
  function DetachedCommands(plan: Plan): seq<seq<string>> {
    CommandList(plan.prefix, plan.lists.toInstallDetached, [], [])
  }

  /** The message for the feeds that failed to update (808-811). */
  function FeedError(feeds: Dict<bool>): (e: Option<string>)
    ensures e.None? <==> FailedFeeds(feeds) == []
    ensures e.Some? ==> e.value == "Error getting repos: " + Join(FailedFeeds(feeds), ", ")
  {
    if FailedFeeds(feeds) == [] then None else Some("Error getting repos: " + Join(FailedFeeds(feeds), ", "))
  }

  /** `refresh_db()` when a refresh is asked for (805-807): its error is
      raised, its failed feeds become the message kept for later. */
  function FeedStatus(refresh: bool, tool: Tool): Result<Option<string>> {
    if !refresh then Ok(None)
    else
      match RefreshOutcome(Outcome(UpdateCommand, tool), false)
      case Err(e) => Err(e)
      case Ok(feeds) => Ok(FeedError(feeds))
  }

  /** A feed message is kept only when a refresh ran and some feed failed,
      and then it names every failed feed. */
  lemma FeedStatusSpec(refresh: bool, tool: Tool, feed: string)
    ensures !refresh ==> FeedStatus(refresh, tool) == Ok(None)
    ensures FeedStatus(refresh, tool).Ok? && FeedStatus(refresh, tool).value.Some? ==>
      var feeds := RefreshOutcome(Outcome(UpdateCommand, tool), false).value;
      refresh && FailedFeeds(feeds) != []
      && (feed in feeds.keys && feed in feeds.entries && !feeds.entries[feed] ==> feed in FailedFeeds(feeds))
  {
    if refresh && RefreshOutcome(Outcome(UpdateCommand, tool), false).Ok? {
      FailedFeedsSpec(RefreshOutcome(Outcome(UpdateCommand, tool), false).value, feed);
    }
  }

  /** What the commands leave in `errors` and `test_packages`. */
  datatype Collected = Collected(errors: seq<string>, reported: map<string, string>)

  /** The result of one command, run as `_execute_install_command(cmd,
      is_testmode, errors, test_packages, jid, False)`. */
  function CommandRun(cmd: seq<string>, test: bool, runner: Runner): ToolResult {
    RunResult(cmd, InstallMode(runner.notify, test, false), runner.jid, runner.period, runner.tool,
              runner.progress(cmd), 0, runner.clock)
  }

  /** 608-615 for one result: a failure adds its error text, a dry run's
      success adds what its output reports. */
  function Collect(c: Collected, out: ToolResult, test: bool): Collected {
    if out.retcode != 0 then Collected(c.errors + [ErrorText(out)], c.reported)
    else if test then Collected(c.errors, c.reported + Store(InstallReports(SplitOn(out.stdout, "\n"))))
    else c
  }

  /** The loop at 816-817, from what was collected before it. */
  function RunAll(start: Collected, cmds: seq<seq<string>>, test: bool, runner: Runner): Collected
    decreases |cmds|
  {
    if cmds == [] then start
    else Collect(RunAll(start, cmds[..|cmds| - 1], test, runner), CommandRun(cmds[|cmds| - 1], test, runner), test)
  }

  /** Starting from nothing, no error is collected exactly when every
      command succeeds; each command adds at most one error; outside test
      mode nothing is reported. */
  lemma {:induction false} RunAllSpec(cmds: seq<seq<string>>, test: bool, runner: Runner)
    ensures var c := RunAll(Collected([], map[]), cmds, test, runner);
      (c.errors == [] <==> forall i :: 0 <= i < |cmds| ==> CommandRun(cmds[i], test, runner).retcode == 0)
      && |c.errors| <= |cmds|
      && (!test ==> c.reported == map[])
    decreases |cmds|
  {
    if cmds != [] {
      var init := cmds[..|cmds| - 1];
      RunAllSpec(init, test, runner);
      assert forall i :: 0 <= i < |init| ==> init[i] == cmds[i];
    }
  }

  /** `_execute_install_command` over the commands, in order. */
  method RunInstallCommands(cmds: seq<seq<string>>, test: bool, acc: Accumulated, runner: Runner)
    modifies acc
    ensures Collected(acc.errors, acc.reported) == RunAll(Collected(old(acc.errors), old(acc.reported)), cmds, test, runner)
  {
    ghost var start := Collected(acc.errors, acc.reported);
    for i := 0 to |cmds|
      invariant Collected(acc.errors, acc.reported) == RunAll(start, cmds[..i], test, runner)
    {
      assert cmds[..i + 1][..i] == cmds[..i];
      var cmd := cmds[i];
      var _ := ExecuteInstallCommand(cmd, test, acc, runner.jid, false, runner.notify, runner.period,
                                     runner.tool, runner.progress(cmd), 0, runner.clock);
    }
    assert cmds[..|cmds|] == cmds;
  }

  /** 813-817: the commands run with empty `errors` and `test_packages`. */
  method CollectRuns(cmds: seq<seq<string>>, test: bool, runner: Runner) returns (c: Collected)
    ensures c == RunAll(Collected([], map[]), cmds, test, runner)
  {
    var acc := new Accumulated([], map[]);
    RunInstallCommands(cmds, test, acc, runner);
    c := Collected(acc.errors, acc.reported);
  }

  /** `opkg info <file>` (829). */
  function InfoCommand(file: string): seq<string> {
    ["opkg", "info", file]
  }

  /** The package name read from the result of `opkg info` (832-835): the
      first record of a successful run, parsed with an empty attribute
      filter. */
  function FileName(out: ToolResult): Result<Option<string>> {
    if out.retcode != 0 then Ok(None)
    else
      match ParseOutput(out.stdout, Some({}))
      case Err(e) => Err(e)
      case Ok(d) => Ok(if d.keys != [] then Some(d.keys[0]) else None)
  }

  /** A name read is a package name of the output, and reading never
      raises KeyError. */
  lemma FileNameSpec(out: ToolResult)
    ensures FileName(out) != Err(KeyError)
    ensures FileName(out).Ok? && FileName(out).value.Some? ==>
      out.retcode == 0 && FileName(out).value.value != ""
      && FileName(out).value.value in NamesSet(SplitOn(out.stdout, "\n"))
  {
    var lines := SplitOn(out.stdout, "\n");
    NoKeyError(lines, Some({}));
    ParseLinesSpec(lines, Some({}));
    assert ParseOutput(out.stdout, Some({})) == ParseLines(lines, Some({}));
    if out.retcode == 0 && ParseLines(lines, Some({})).Ok? {
      var d := ParseLines(lines, Some({})).value;
      if d.keys != [] {
        assert d.keys[0] in d.entries;
      }
    }
  }

  /** The names of the package files (826-835), in order. */
  function FileNames(files: seq<string>, tool: Tool): Result<seq<string>>
    decreases |files|
  {
    if files == [] then Ok([])
    else AppendName(FileNames(files[..|files| - 1], tool), FileName(tool(InfoCommand(files[|files| - 1]), 0)))
  }

  /** The names read so far followed by the next one, the first error
      stopping the loop. */
  function AppendName(names: Result<seq<string>>, next: Result<Option<string>>): Result<seq<string>> {
    if names.Err? then names
    else if next.Err? then Err(next.error)
    else Ok(names.value + if next.value.Some? then [next.value.value] else [])
  }

  /** At most one name per file, none of them empty, and no KeyError. */
  lemma {:induction false} FileNamesSpec(files: seq<string>, tool: Tool)
    ensures FileNames(files, tool) != Err(KeyError)
    ensures FileNames(files, tool).Ok? ==>
      |FileNames(files, tool).value| <= |files| && forall n :: n in FileNames(files, tool).value ==> n != ""
    decreases |files|
  {
    if files != [] {
      FileNamesSpec(files[..|files| - 1], tool);
      FileNameSpec(tool(InfoCommand(files[|files| - 1]), 0));
    }
  }

  lemma {:induction false} FileNamesStuck(files: seq<string>, n: nat, tool: Tool, e: Failure)
    requires n <= |files| && FileNames(files[..n], tool) == Err(e)
    ensures FileNames(files, tool) == Err(e)
    decreases |files| - n
  {
    if n < |files| {
      assert files[..n + 1][..n] == files[..n];
      FileNamesStuck(files, n + 1, tool, e);
    } else {
      assert files[..n] == files;
    }
  }

  lemma FileNamesStep(files: seq<string>, i: nat, tool: Tool)
    requires i < |files|
    ensures FileNames(files[..i + 1], tool) == AppendName(FileNames(files[..i], tool), FileName(tool(InfoCommand(files[i]), 0)))
  {
    var upto := files[..i + 1];
    assert upto[..|upto| - 1] == files[..i] && upto[|upto| - 1] == files[i];
  }

  /** The loop at 826-835. */
  method ReadFileNames(files: seq<string>, tool: Tool) returns (r: Result<seq<string>>)
    ensures r == FileNames(files, tool)
  {
    var names := [];
    for i := 0 to |files|
      invariant FileNames(files[..i], tool) == Ok(names)
    {
      FileNamesStep(files, i, tool);
      var out := tool(InfoCommand(files[i]), 0);
      if out.retcode == 0 {
        var info := ProcessInfoInstalledOutput(out.stdout, Some({}));
        if info.Err? {
          FileNamesStuck(files, i + 1, tool, info.error);
          return Err(info.error);
        }
        if info.value.keys != [] {
          names := names + [info.value.keys[0]];
        }
      }
      assert names + [] == names;
    }
    assert files[..|files|] == files;
    r := Ok(names);
  }

  /** The names whose entries are added (826-847): the reinstall list, and
      for package files installed with `reinstall` the names read from
      them. */
  function Reinstalled(fileType: bool, plan: Plan, reinstall: bool, tool: Tool): Result<seq<string>> {
    if fileType && reinstall then
      match FileNames(plan.lists.toInstall, tool)
      case Err(e) => Err(e)
      case Ok(names) => Ok(plan.lists.toReinstall + names)
    else Ok(plan.lists.toReinstall)
  }

  /** The feed message when there is one, as a list. */
  function FeedErrors(feedError: Option<string>): seq<string> {
    if feedError.Some? then [feedError.value] else []
  }

  /** 819-856 once the commands have run: the after snapshot, updated with
      what a dry run reported; the changes with the reinstalled entries;
      and the error when any command failed. */
  function InstallFinish(before: Snapshot, after: Snapshot, test: bool, c: Collected, reinstalled: seq<string>,
                         feedError: Option<string>): Result<ChangeMap> {
    var listed := if test then Overlay(after, c.reported) else after;
    if c.errors != [] then Err(CommandExecutionError(InstallProblem, c.errors + FeedErrors(feedError)))
    else Ok(AddReinstalled(Diff(before, listed), before, listed, reinstalled))
  }

  /** The operation fails exactly when an error was collected, with the
      collected errors and then the feed message; otherwise its changes
      are the differences of the snapshots plus one entry per reinstalled
      name, a dry run's reported package shows its reported version, and
      a run outside test mode with nothing reinstalled reports exactly
      the differences of the snapshots. */
  lemma InstallFinishSpec(before: Snapshot, after: Snapshot, test: bool, c: Collected, reinstalled: seq<string>,
                          feedError: Option<string>, k: string)
    ensures var r := InstallFinish(before, after, test, c, reinstalled, feedError);
      (r.Err? <==> c.errors != [])
      && (r.Err? ==> r.error == CommandExecutionError(InstallProblem, c.errors + FeedErrors(feedError)))
      && (r.Ok? && k in reinstalled ==> k in r.value)
      && (r.Ok? && !test && reinstalled == [] ==> r.value == Diff(before, after))
      && (r.Ok? && test && k in c.reported && !(k in before && before[k] == c.reported[k]) ==>
            k in r.value && r.value[k].newVersion == c.reported[k])
  {
    var listed := if test then Overlay(after, c.reported) else after;
    AddReinstalledSpec(Diff(before, listed), before, listed, reinstalled);
    if k in AddReinstalled(Diff(before, listed), before, listed, reinstalled) {
      AddReinstalledDiff(before, listed, reinstalled, k);
    }
    if test && k in c.reported {
      OverlayReported(before, after, c.reported, k);
    }
  }

  /** 819-856 once the commands have run: the names of reinstalled
      package files are read, then the result is built. */
  function AfterRun(fileType: bool, plan: Plan, opts: InstallOptions, before: Snapshot, after: Snapshot,
                    tool: Tool, c: Collected, feedError: Option<string>): Result<ChangeMap> {
    match Reinstalled(fileType, plan, opts.reinstall, tool)
    case Err(e) => Err(e)
    case Ok(names) => InstallFinish(before, after, opts.test, c, names, feedError)
  }

  /** 795-856 with the call as its definition asks: nothing runs when there
      are no commands at all; a refresh error is raised; then the commands
      run and the result is built. */
  function InstallTail(fileType: bool, plan: Plan, opts: InstallOptions, refresh: bool,
                       before: Snapshot, after: Snapshot, runner: Runner): Result<ChangeMap> {
    if Commands(plan) == [] && DetachedCommands(plan) == [] then Ok(map[])
    else
      match FeedStatus(refresh, runner.tool)
      case Err(e) => Err(e)
      case Ok(feedError) =>
        AfterRun(fileType, plan, opts, before, after, runner.tool,
                 RunAll(Collected([], map[]), Commands(plan), opts.test, runner), feedError)
  }

  /** 795-856 as written: the first command raises TypeError, so only a
      plan without commands reaches the result. */
  function InstallTailAsWritten(fileType: bool, plan: Plan, opts: InstallOptions, refresh: bool,
                                before: Snapshot, after: Snapshot, runner: Runner): Result<ChangeMap> {
    if Commands(plan) == [] && DetachedCommands(plan) == [] then Ok(map[])
    else
      match FeedStatus(refresh, runner.tool)
      case Err(e) => Err(e)
      case Ok(feedError) =>
        if Commands(plan) != [] then Err(TypeError)
        else AfterRun(fileType, plan, opts, before, after, runner.tool, Collected([], map[]), feedError)
  }

  /** `install` from the targets `pkg_resource.parse_targets` returns, the
      errors of the before listing, the snapshots before and after, and
      the options (716-856). */
  function InstallResult(targets: Targets, nameOnly: bool, version: Option<string>, beforeErrors: seq<string>,
                         before: Snapshot, after: Snapshot, opts: InstallOptions, compare: VersionTest,
                         refresh: bool, runner: Runner): Result<ChangeMap> {
    if beforeErrors != [] then Err(CommandExecutionError(BeforeProblem, beforeErrors))
    else
      match Planned(targets, nameOnly, version, before, opts, compare)
      case None => Ok(map[])
      case Some(plan) => InstallTail(targets.PackageFiles?, plan, opts, refresh, before, after, runner)
  }

  /** `install` with the call at 817 as written. */
  function InstallResultAsWritten(targets: Targets, nameOnly: bool, version: Option<string>, beforeErrors: seq<string>,
                                  before: Snapshot, after: Snapshot, opts: InstallOptions, compare: VersionTest,
                                  refresh: bool, runner: Runner): Result<ChangeMap> {
    if beforeErrors != [] then Err(CommandExecutionError(BeforeProblem, beforeErrors))
    else
      match Planned(targets, nameOnly, version, before, opts, compare)
      case None => Ok(map[])
      case Some(plan) => InstallTailAsWritten(targets.PackageFiles?, plan, opts, refresh, before, after, runner)
  }

  /** As written, every install that has a command to run fails with
      TypeError once the refresh, if any, succeeded; installing any package
      file is one. */
  lemma AsWrittenTypeError(targets: Targets, nameOnly: bool, version: Option<string>, beforeErrors: seq<string>,
                           before: Snapshot, after: Snapshot, opts: InstallOptions, compare: VersionTest,
                           refresh: bool, runner: Runner)
    requires beforeErrors == [] && FeedStatus(refresh, runner.tool).Ok?
    ensures var plan := Planned(targets, nameOnly, version, before, opts, compare);
      plan.Some? && Commands(plan.value) != [] ==>
        InstallResultAsWritten(targets, nameOnly, version, beforeErrors, before, after, opts, compare, refresh, runner) == Err(TypeError)
    ensures targets.PackageFiles? && targets.files != [] ==>
      InstallResultAsWritten(targets, nameOnly, version, beforeErrors, before, after, opts, compare, refresh, runner) == Err(TypeError)
  {
  }

  /** A plan without commands, one with only detached packages, gives the
      same result both ways: the differences of the snapshots, nothing
      having run. */
  lemma DetachedOnly(fileType: bool, plan: Plan, opts: InstallOptions, refresh: bool,
                     before: Snapshot, after: Snapshot, runner: Runner)
    requires Commands(plan) == [] && FeedStatus(refresh, runner.tool).Ok?
    ensures InstallTailAsWritten(fileType, plan, opts, refresh, before, after, runner)
         == InstallTail(fileType, plan, opts, refresh, before, after, runner)
    ensures DetachedCommands(plan) != [] ==>
      InstallTail(fileType, plan, opts, refresh, before, after, runner) == Ok(Diff(before, after))
  {
    assert plan.lists.toInstall == [] && plan.lists.toReinstall == [];
    assert RunAll(Collected([], map[]), Commands(plan), opts.test, runner) == Collected([], map[]);
    NothingRun(fileType, plan, opts, before, after, runner.tool, FeedStatus(refresh, runner.tool).value);
  }

  /** With nothing run and nothing to reinstall, the changes are the
      differences of the snapshots. */
  lemma NothingRun(fileType: bool, plan: Plan, opts: InstallOptions, before: Snapshot, after: Snapshot,
                   tool: Tool, feedError: Option<string>)
    requires plan.lists.toInstall == [] && plan.lists.toReinstall == []
    ensures AfterRun(fileType, plan, opts, before, after, tool, Collected([], map[]), feedError) == Ok(Diff(before, after))
  {
    assert FileNames(plan.lists.toInstall, tool) == Ok([]);
    assert plan.lists.toReinstall + [] == [];
    assert Reinstalled(fileType, plan, opts.reinstall, tool) == Ok([]);
    assert Overlay(after, map[]) == after;
  }

  /** With the call as its definition asks, the install fails on a command
      error exactly when some command failed, with every command's error
      and then the feed message; and a successful one lists every
      reinstalled name. */
  lemma IntendedErrors(fileType: bool, plan: Plan, opts: InstallOptions, refresh: bool,
                       before: Snapshot, after: Snapshot, runner: Runner, name: string)
    requires Commands(plan) != []
    requires FeedStatus(refresh, runner.tool).Ok? && Reinstalled(fileType, plan, opts.reinstall, runner.tool).Ok?
    ensures var r := InstallTail(fileType, plan, opts, refresh, before, after, runner);
      var cmds := Commands(plan);
      (r.Err? <==> exists i :: 0 <= i < |cmds| && CommandRun(cmds[i], opts.test, runner).retcode != 0)
      && (r.Err? ==> r.error == CommandExecutionError(InstallProblem,
            RunAll(Collected([], map[]), cmds, opts.test, runner).errors + FeedErrors(FeedStatus(refresh, runner.tool).value)))
      && (r.Ok? && name in Reinstalled(fileType, plan, opts.reinstall, runner.tool).value ==> name in r.value)
  {
    var cmds := Commands(plan);
    RunAllSpec(cmds, opts.test, runner);
    InstallFinishSpec(before, after, opts.test, RunAll(Collected([], map[]), cmds, opts.test, runner),
                      Reinstalled(fileType, plan, opts.reinstall, runner.tool).value,
                      FeedStatus(refresh, runner.tool).value, name);
  }

  /** 805-811, `refresh_db` with `failhard` False. */
  method RefreshFeeds(refresh: bool, tool: Tool) returns (r: Result<Option<string>>)
    ensures r == FeedStatus(refresh, tool)
  {
    if !refresh {
      return Ok(None);
    }
    var feeds := RefreshDb(tool, false);
    if feeds.Err? {
      return Err(feeds.error);
    }
    r := Ok(FeedError(feeds.value));
  }

  /** 819-856: the after snapshot, the changes, the reinstalled names and
      the error. */
  method FinishRun(fileType: bool, plan: Plan, opts: InstallOptions, before: Snapshot, after: Snapshot,
                   tool: Tool, c: Collected, feedError: Option<string>) returns (r: Result<ChangeMap>)
    ensures r == AfterRun(fileType, plan, opts, before, after, tool, c, feedError)
  {
    var listed := after;
    if opts.test {
      listed := Overlay(after, c.reported);
    }
    var ret := Diff(before, listed);
    var names := plan.lists.toReinstall;
    if fileType && opts.reinstall {
      var read := ReadFileNames(plan.lists.toInstall, tool);
      if read.Err? {
        return Err(read.error);
      }
      names := names + read.value;
    }
    assert Reinstalled(fileType, plan, opts.reinstall, tool) == Ok(names);
    ret := AddReinstalledEntries(ret, before, listed, names);
    if c.errors != [] {
      var errors := c.errors;
      if feedError.Some? {
        errors := errors + [feedError.value];
      }
      assert errors == c.errors + FeedErrors(feedError);
      return Err(CommandExecutionError(InstallProblem, errors));
    }
    r := Ok(ret);
  }

  /** 795-856, with the call as its definition asks. */
  method RunTail(fileType: bool, plan: Plan, opts: InstallOptions, refresh: bool,
                 before: Snapshot, after: Snapshot, runner: Runner) returns (r: Result<ChangeMap>)
    ensures r == InstallTail(fileType, plan, opts, refresh, before, after, runner)
  {
    var l := plan.lists;
    var cmds := BuildInstallCommandList(plan.prefix, l.toInstall, l.toDowngrade, l.toReinstall);
    var detached := BuildInstallCommandList(plan.prefix, l.toInstallDetached, [], []);
    assert cmds == Commands(plan) && detached == DetachedCommands(plan);
    if cmds == [] && detached == [] {
      return Ok(map[]);
    }
    var feedError := RefreshFeeds(refresh, runner.tool);
    if feedError.Err? {
      return Err(feedError.error);
    }
    var c := CollectRuns(cmds, opts.test, runner);
    r := FinishRun(fileType, plan, opts, before, after, runner.tool, c, feedError.value);
  }

  /** `install` (716-856), with the call at 817 as its definition asks. */
  method Install(targets: Targets, nameOnly: bool, version: Option<string>, beforeErrors: seq<string>,
                 before: Snapshot, after: Snapshot, opts: InstallOptions, compare: VersionTest,
                 refresh: bool, runner: Runner) returns (r: Result<ChangeMap>)
    ensures r == InstallResult(targets, nameOnly, version, beforeErrors, before, after, opts, compare, refresh, runner)
  {
    if beforeErrors != [] {
      return Err(CommandExecutionError(BeforeProblem, beforeErrors));
    }
    var plan := PlanInstall(targets, nameOnly, version, before, opts, compare);
    if plan.None? {
      return Ok(map[]);
    }
    r := RunTail(targets.PackageFiles?, plan.value, opts, refresh, before, after, runner);
  }
}
