/** `remove` (salt/modules/opkg.py:920-938, 960-1038): the targets are the
    requested packages that are installed, the command is `opkg remove`
    with its flags and the targets, its failure is collected as an error,
    and the result is the difference between the package snapshots before
    and after, where a dry run takes the packages it reports out of the
    after snapshot. */
module RemovePlan {
  import opened Wrappers
  import opened Text
  import opened ToolInvoker
  import opened DryRunReports
  import opened ProgressMonitor
  import opened ChangeSets
  import opened InstallPlan

  /** The remove targets (1003): the requested packages found in the
      snapshot before, in request order. */
  function RemoveTargets(requested: seq<string>, before: Snapshot): (targets: seq<string>)
    ensures |targets| <= |requested|
    decreases |requested|
  {
    if requested == [] then []
    else
      var init := RemoveTargets(requested[..|requested| - 1], before);
      var last := requested[|requested| - 1];
      if last in before then init + [last] else init
  }

  /** A package is a target exactly when it was requested and is
      installed; there are no targets exactly when no requested package is
      installed. */
  lemma {:induction false} RemoveTargetsSpec(requested: seq<string>, before: Snapshot)
    ensures forall x :: x in RemoveTargets(requested, before) <==> x in requested && x in before
    ensures RemoveTargets(requested, before) == [] <==> forall x :: x in requested ==> x !in before
    decreases |requested|
  {
    if requested != [] {
      var init := requested[..|requested| - 1];
      RemoveTargetsSpec(init, before);
      assert forall x :: x in requested <==> x in init || x == requested[|requested| - 1];
    }
  }

  /** A request whose packages are all installed keeps all of them, in
      order. */
  lemma {:induction false} RemoveTargetsAll(requested: seq<string>, before: Snapshot)
    requires forall x :: x in requested ==> x in before
    ensures RemoveTargets(requested, before) == requested
    decreases |requested|
  {
    if requested != [] {
      var init := requested[..|requested| - 1];
      RemoveTargetsAll(init, before);
      assert init + [requested[|requested| - 1]] == requested;
    }
  }

  /** The keyword arguments of `remove` that shape the command. */
  datatype RemoveOptions = RemoveOptions(kwargsTest: bool, optsTest: bool, removeDependencies: bool, autoRemoveDeps: bool)
  {
    /** Whether the run is a dry run (1007, 1016). */
    const test: bool := IsTestmode(kwargsTest, optsTest)
  }

  /** The flags in the order 1007-1011 appends them. */
  function RemoveFlags(opts: RemoveOptions): (flags: seq<string>)
    ensures |flags| <= 3
    ensures "--noaction" in flags <==> opts.test
    ensures "--force-removal-of-dependent-packages" in flags <==> opts.removeDependencies
    ensures "--autoremove" in flags <==> opts.autoRemoveDeps
    ensures opts.test ==> flags[0] == "--noaction"
    ensures opts.autoRemoveDeps ==> flags[|flags| - 1] == "--autoremove"
  {
    (if opts.test then ["--noaction"] else [])
    + (if opts.removeDependencies then ["--force-removal-of-dependent-packages"] else [])
    + (if opts.autoRemoveDeps then ["--autoremove"] else [])
  }

  /** The command `remove` runs (1006-1012), or None when there is no
      target and nothing runs (1004-1005). */
  function RemoveCommand(requested: seq<string>, before: Snapshot, opts: RemoveOptions): Option<seq<string>> {
    var targets := RemoveTargets(requested, before);
    if targets == [] then None else Some(["opkg", "remove"] + RemoveFlags(opts) + targets)
  }

  /** A command runs exactly when some requested package is installed;
      it starts with `opkg remove` and its flags and ends with the
      targets. */
  lemma RemoveCommandSpec(requested: seq<string>, before: Snapshot, opts: RemoveOptions)
    ensures RemoveCommand(requested, before, opts).None? <==> forall x :: x in requested ==> x !in before
    ensures RemoveCommand(requested, before, opts).Some? ==>
      var cmd := RemoveCommand(requested, before, opts).value;
      var n := 2 + |RemoveFlags(opts)|;
      n < |cmd| && cmd[..2] == ["opkg", "remove"] && cmd[2..n] == RemoveFlags(opts)
      && (forall x :: x in cmd[n..] <==> x in requested && x in before)
  {
    RemoveTargetsSpec(requested, before);
    if RemoveCommand(requested, before, opts).Some? {
      var cmd := RemoveCommand(requested, before, opts).value;
      var n := 2 + |RemoveFlags(opts)|;
      assert cmd[n..] == RemoveTargets(requested, before);
    }
  }

  /** What running the remove command gives back: with progress only
      outside test mode when notification is on. */
  function RemoveRun(cmd: seq<string>, test: bool, notify: bool, jid: string, period: int, tool: Tool,
                     progress: ProcessOutput, clock: nat -> int): ToolResult {
    RunResult(cmd, if notify && !test then WithProgress else Plain, jid, period, tool, progress, 0, clock)
  }

  /** The packages a dry-run remove output reports, each mapped to "". */
  function RemoveReported(stdout: string): map<string, string> {
    Store(RemoveReports(SplitOn(stdout, "\n")))
  }

  /** `_execute_remove_command` (920-938): a failure appends its error text;
      a dry run's success merges the packages its output reports. */
  method ExecuteRemoveCommand(cmd: seq<string>, test: bool, acc: Accumulated, jid: string,
                              notify: bool, period: int, tool: Tool, progress: ProcessOutput, clock: nat -> int)
    returns (events: seq<Event>)
    modifies acc
    ensures var out := RemoveRun(cmd, test, notify, jid, period, tool, progress, clock);
      && (out.retcode != 0 ==> acc.errors == old(acc.errors) + [ErrorText(out)] && acc.reported == old(acc.reported))
      && (out.retcode == 0 && test ==> acc.errors == old(acc.errors) && acc.reported == old(acc.reported) + RemoveReported(out.stdout))
      && (out.retcode == 0 && !test ==> acc.errors == old(acc.errors) && acc.reported == old(acc.reported))
  {
    var out: ToolResult;
    events := [];
    if notify && !test {
      var total := TotalPackages(cmd, tool);
      if total != -1 {
        out, events := ProcessWithProgress(jid, total, period, progress, clock);
      } else {
        var plain, _, _ := CallOpkg(cmd, tool);
        out := plain;
      }
    } else {
      var plain, _, _ := CallOpkg(cmd, tool);
      out := plain;
    }
    if out.retcode != 0 {
      if out.stderr != "" {
        acc.errors := acc.errors + [out.stderr];
      } else {
        acc.errors := acc.errors + [out.stdout];
      }
    } else if test {
      var parsed := ParseReportedRemove(out.stdout);
      acc.reported := acc.reported + parsed;
    }
  }

  const RemoveProblem: string := "Problem encountered removing package(s)"

  /** `remove` from the package names `requested` (what
      `pkg_resource.parse_targets` returns): the installed versions before
      and after the command are `before` and `after`. */
  function RemoveResult(requested: seq<string>, before: Snapshot, after: Snapshot, opts: RemoveOptions,
                        notify: bool, jid: string, period: int, tool: Tool, progress: ProcessOutput,
                        clock: nat -> int): Result<ChangeMap> {
    match RemoveCommand(requested, before, opts)
    case None => Ok(map[])
    case Some(cmd) => RemoveFinish(before, after, opts.test, RemoveRun(cmd, opts.test, notify, jid, period, tool, progress, clock))
  }

  /** What follows the command (1017-1035): the error of a failure, else
      the changes, a dry run taking the reported packages out of the after
      snapshot. */
  function RemoveFinish(before: Snapshot, after: Snapshot, test: bool, out: ToolResult): Result<ChangeMap> {
    if out.retcode != 0 then Err(CommandExecutionError(RemoveProblem, [ErrorText(out)]))
    else Ok(Diff(before, if test then Subtract(after, RemoveReported(out.stdout)) else after))
  }

  /** With nothing to remove there are no changes and nothing runs. */
  lemma RemoveNothing(requested: seq<string>, before: Snapshot, after: Snapshot, opts: RemoveOptions,
                      notify: bool, jid: string, period: int, tool: Tool, progress: ProcessOutput, clock: nat -> int)
    requires forall x :: x in requested ==> x !in before
    ensures RemoveCommand(requested, before, opts) == None
    ensures RemoveResult(requested, before, after, opts, notify, jid, period, tool, progress, clock) == Ok(map[])
  {
    RemoveCommandSpec(requested, before, opts);
  }

  /** A run fails exactly when its command does, with the command's error
      text; a successful run reports the changes between the snapshots,
      and a dry run reports every installed package its output names as
      removed. */
  lemma RemoveFinishSpec(before: Snapshot, after: Snapshot, test: bool, out: ToolResult, pkg: string)
    ensures var r := RemoveFinish(before, after, test, out);
      (r.Err? <==> out.retcode != 0)
      && (r.Err? ==> r.error == CommandExecutionError(RemoveProblem, [ErrorText(out)]))
      && (r.Ok? && !test ==> r.value == Diff(before, after))
      && (r.Ok? && test && pkg in RemoveReported(out.stdout) && pkg in before ==> pkg in r.value && r.value[pkg] == Change(before[pkg], ""))
  {
    if pkg in RemoveReported(out.stdout) && pkg in before {
      SubtractReported(before, after, RemoveReported(out.stdout), pkg);
    }
  }

  /** One test mode decides both the `--noaction` flag of the command
      (1007) and the subtraction of the reported packages from the after
      snapshot (1023-1024): it is set when the `test` keyword argument or
      the minion's `test` option is. */
  lemma DryRunAgrees(requested: seq<string>, before: Snapshot, after: Snapshot, opts: RemoveOptions,
                     notify: bool, jid: string, period: int, tool: Tool, progress: ProcessOutput, clock: nat -> int)
    requires RemoveCommand(requested, before, opts).Some?
    ensures "--noaction" in RemoveFlags(opts) <==> opts.kwargsTest || opts.optsTest
    ensures var cmd := RemoveCommand(requested, before, opts).value;
      var out := RemoveRun(cmd, opts.test, notify, jid, period, tool, progress, clock);
      cmd[2..2 + |RemoveFlags(opts)|] == RemoveFlags(opts)
      && (out.retcode == 0 ==>
            RemoveResult(requested, before, after, opts, notify, jid, period, tool, progress, clock)
            == Ok(Diff(before, if "--noaction" in RemoveFlags(opts) then Subtract(after, RemoveReported(out.stdout)) else after)))
  {
    RemoveCommandSpec(requested, before, opts);
  }

  /** The targets and the command of `remove` (1003-1012). */
  method BuildRemoveCommand(requested: seq<string>, before: Snapshot, opts: RemoveOptions) returns (cmd: Option<seq<string>>)
    ensures cmd == RemoveCommand(requested, before, opts)
  {
    var targets := InstalledTargets(requested, before);
    if targets == [] {
      return None;
    }
    var c := ["opkg", "remove"];
    if opts.test {
      c := c + ["--noaction"];
    }
    if opts.removeDependencies {
      c := c + ["--force-removal-of-dependent-packages"];
    }
    if opts.autoRemoveDeps {
      c := c + ["--autoremove"];
    }
    assert c == ["opkg", "remove"] + RemoveFlags(opts);
    cmd := Some(c + targets);
  }

  /** The comprehension at 1003. */
  method InstalledTargets(requested: seq<string>, before: Snapshot) returns (targets: seq<string>)
    ensures targets == RemoveTargets(requested, before)
  {
    targets := [];
    for i := 0 to |requested|
      invariant targets == RemoveTargets(requested[..i], before)
    {
      assert requested[..i + 1][..i] == requested[..i];
      if requested[i] in before {
        targets := targets + [requested[i]];
      }
    }
    assert requested[..|requested|] == requested;
  }

  /** `remove`: the command, if any, runs once; its error, if any, fails
      the whole operation. */
  method Remove(requested: seq<string>, before: Snapshot, after: Snapshot, opts: RemoveOptions,
                notify: bool, jid: string, period: int, tool: Tool, progress: ProcessOutput, clock: nat -> int)
    returns (r: Result<ChangeMap>, ran: Option<seq<string>>)
    ensures ran == RemoveCommand(requested, before, opts)
    ensures r == RemoveResult(requested, before, after, opts, notify, jid, period, tool, progress, clock)
  {
    ran := BuildRemoveCommand(requested, before, opts);
    if ran.None? {
      return Ok(map[]), ran;
    }
    var cmd := ran.value;
    var acc := new Accumulated([], map[]);
    var _ := ExecuteRemoveCommand(cmd, opts.test, acc, jid, notify, period, tool, progress, clock);
    ghost var out := RemoveRun(cmd, opts.test, notify, jid, period, tool, progress, clock);
    assert RemoveResult(requested, before, after, opts, notify, jid, period, tool, progress, clock) == RemoveFinish(before, after, opts.test, out);
    var listed := after;
    if opts.test {
      listed := Subtract(after, acc.reported);
    }
    var ret := Diff(before, listed);
    if acc.errors != [] {
      assert acc.errors == [ErrorText(out)];
      return Err(CommandExecutionError(RemoveProblem, acc.errors)), ran;
    }
    assert out.retcode == 0;
    assert opts.test ==> acc.reported == RemoveReported(out.stdout);
    r := Ok(ret);
  }
}
