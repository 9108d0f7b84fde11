/** The progress events `_process_with_progress` fires while opkg runs
    (salt/modules/opkg.py:513-583). Each loop iteration reads one line of
    the tool's output, classifies it, and fires an event when the period
    has passed or an update is forced and the current package has not been
    announced yet. The clock is an integer the caller supplies; the event
    bus is the `events` sequence. */
module ProgressMonitor {
  import opened Wrappers
  import opened Text
  import opened OutputClassifier
  import opened ToolInvoker

  /** The `data` of one fired event. */
  datatype Event = Event(jid: string, operation: Option<Operation>, package: Option<string>, count: nat, totalCount: int)

  /** The fixed inputs: job id, expected package count and the period in seconds. */
  datatype Config = Config(jid: string, total: int, period: int)

  /** The loop variables of `_process_with_progress`, and the events fired. */
  datatype MonitorState = MonitorState(
    processedCount: nat,
    forceUpdate: bool,
    lastSentPackage: Option<string>,
    currentPackage: Option<string>,
    operation: Option<Operation>,
    lastNotifyTimestamp: int,
    stdout: string,
    events: seq<Event>)

  /** The values the loop starts from (lines 518-526). */
  const Initial: MonitorState := MonitorState(0, true, None, None, None, 0, "", [])

  /** Reading one line: a line that names an operation and a non-empty
      package makes them current, and one that changes a package counts;
      reaching the first or the last package forces an update. */
  function Read(cfg: Config, s: MonitorState, line: string): MonitorState {
    var (op, pkg) := OperationAndPackage(line);
    Absorb(cfg, s, line, op, pkg)
  }

  /** Reading `line`, classified as `op` and `pkg`. */
  function Absorb(cfg: Config, s: MonitorState, line: string, op: Option<Operation>, pkg: Option<string>): MonitorState {
    var s1 := s.(stdout := s.stdout + line);
    if op.Some? && pkg.Some? && pkg.value != "" then
      var s2 := s1.(operation := op, currentPackage := pkg);
      if Changes(op.value) then
        var n := s.processedCount + 1;
        s2.(processedCount := n, forceUpdate := s.forceUpdate || n == 1 || n == cfg.total)
      else s2
    else s1
  }

  /** The test after each line: whether an event is fired at time `now`. */
  predicate Due(cfg: Config, s: MonitorState, now: int) {
    (now - s.lastNotifyTimestamp > cfg.period || s.forceUpdate) && s.lastSentPackage != s.currentPackage
  }

  /** Firing the event, if due. */
  function Notify(cfg: Config, s: MonitorState, now: int): MonitorState {
    if Due(cfg, s, now) then
      s.(forceUpdate := false, lastSentPackage := s.currentPackage, lastNotifyTimestamp := now,
         events := s.events + [Event(cfg.jid, s.operation, s.currentPackage, s.processedCount, cfg.total)])
    else s
  }

  /** One iteration of the loop. */
  function Advance(cfg: Config, s: MonitorState, line: string, now: int): MonitorState {
    Notify(cfg, Read(cfg, s, line), now)
  }

  /** The state after the loop has read `lines`, the i-th at time `clock(i)`. */
  function Run(cfg: Config, lines: seq<string>, clock: nat -> int): MonitorState
    decreases |lines|
  {
    if lines == [] then Initial
    else Advance(cfg, Run(cfg, lines[..|lines| - 1], clock), lines[|lines| - 1], clock(|lines| - 1))
  }

  /** The state a run keeps: every event names a package, consecutive
      events name different packages, the last event names the package
      last sent, nothing was sent before a package was current, and a
      current package stays current until another replaces it. */
  ghost predicate Valid(s: MonitorState) {
    && (forall i :: 0 <= i < |s.events| ==> s.events[i].package.Some?)
    && (forall i :: 0 < i < |s.events| ==> s.events[i].package != s.events[i - 1].package)
    && (s.events == [] <==> s.lastSentPackage.None?)
    && (s.events != [] ==> s.events[|s.events| - 1].package == s.lastSentPackage)
    && (s.lastSentPackage.Some? ==> s.currentPackage.Some?)
  }

  lemma InitialValid()
    ensures Valid(Initial)
  {
  }

  /** Every iteration keeps the state valid. */
  lemma AdvanceValid(cfg: Config, s: MonitorState, line: string, now: int)
    requires Valid(s)
    ensures Valid(Advance(cfg, s, line, now))
  {
    var r := Read(cfg, s, line);
    assert r.events == s.events && r.lastSentPackage == s.lastSentPackage;
    assert r.currentPackage.None? ==> s.currentPackage.None?;
    if Due(cfg, r, now) {
      var t := Notify(cfg, r, now);
      assert t.events[|t.events| - 1].package == r.currentPackage;
    }
  }

  /** How a line changes the count: by one exactly when it names a package
      change with a non-empty package. */
  lemma AdvanceCount(cfg: Config, s: MonitorState, line: string, now: int)
    ensures var (op, pkg) := OperationAndPackage(line);
      Advance(cfg, s, line, now).processedCount ==
        if op.Some? && Changes(op.value) && pkg.Some? && pkg.value != "" then s.processedCount + 1
        else s.processedCount
  {
  }

  /** An event is fired exactly when the period has passed or an update is
      forced, and the current package was not the last one sent; afterwards
      the current package is the last one sent and no update is forced. */
  lemma AdvanceFires(cfg: Config, s: MonitorState, line: string, now: int)
    ensures var r := Read(cfg, s, line); var t := Advance(cfg, s, line, now);
      && (|t.events| == |s.events| + 1 <==>
          (now - s.lastNotifyTimestamp > cfg.period || r.forceUpdate) && s.lastSentPackage != r.currentPackage)
      && (|t.events| == |s.events| + 1 ==>
          t.lastSentPackage == r.currentPackage && !t.forceUpdate && t.lastNotifyTimestamp == now
          && t.events[|s.events|] == Event(cfg.jid, r.operation, r.currentPackage, r.processedCount, cfg.total))
      && (|t.events| != |s.events| + 1 ==> t.events == s.events && t.lastSentPackage == s.lastSentPackage)
  {
  }

  /** Every state a run reaches is valid. */
  lemma {:induction false} RunValid(cfg: Config, lines: seq<string>, clock: nat -> int)
    ensures Valid(Run(cfg, lines, clock))
    decreases |lines|
  {
    if lines == [] {
      InitialValid();
    } else {
      var n := |lines| - 1;
      var before := Run(cfg, lines[..n], clock);
      assert Run(cfg, lines, clock) == Advance(cfg, before, lines[n], clock(n));
      RunValid(cfg, lines[..n], clock);
      AdvanceValid(cfg, before, lines[n], clock(n));
    }
  }

  /** The run's output is the concatenation of the lines read. */
  function Concat(lines: seq<string>): string
    decreases |lines|
  {
    if lines == [] then "" else Concat(lines[..|lines| - 1]) + lines[|lines| - 1]
  }

  lemma {:induction false} RunStdout(cfg: Config, lines: seq<string>, clock: nat -> int)
    ensures Run(cfg, lines, clock).stdout == Concat(lines)
    decreases |lines|
  {
    if lines != [] {
      var n := |lines| - 1;
      var before := Run(cfg, lines[..n], clock);
      assert Run(cfg, lines, clock) == Advance(cfg, before, lines[n], clock(n));
      assert Run(cfg, lines, clock).stdout == before.stdout + lines[n];
      RunStdout(cfg, lines[..n], clock);
    }
  }

  /** `line` names a package change with a non-empty package. */
  predicate Counts(line: string) {
    var (op, pkg) := OperationAndPackage(line);
    op.Some? && Changes(op.value) && pkg.Some? && pkg.value != ""
  }

  /** When every line names a package change and the expected total is the
      number of lines, every line is counted, the first package is
      announced first and the last package is the last one announced. */
  lemma {:induction false} CountedRun(cfg: Config, lines: seq<string>, clock: nat -> int)
    requires forall i :: 0 <= i < |lines| ==> Counts(lines[i])
    requires cfg.total == |lines| > 0
    ensures var s := Run(cfg, lines, clock);
      && s.processedCount == |lines|
      && |s.events| > 0
      && s.events[0].package == OperationAndPackage(lines[0]).1
      && s.events[|s.events| - 1].package == OperationAndPackage(lines[|lines| - 1]).1
  {
    RunCount(cfg, lines, clock);
    RunFirstEvent(cfg, lines, clock);
    var n := |lines| - 1;
    var before := Run(cfg, lines[..n], clock);
    assert Run(cfg, lines, clock) == Advance(cfg, before, lines[n], clock(n));
    RunValid(cfg, lines[..n], clock);
    AdvanceValid(cfg, before, lines[n], clock(n));
    var r := Read(cfg, before, lines[n]);
    assert r.processedCount == cfg.total && r.forceUpdate;
    assert r.currentPackage == OperationAndPackage(lines[n]).1;
  }

  /** A run in which every line counts counts every line. */
  lemma {:induction false} RunCount(cfg: Config, lines: seq<string>, clock: nat -> int)
    requires forall i :: 0 <= i < |lines| ==> Counts(lines[i])
    ensures Run(cfg, lines, clock).processedCount == |lines|
    decreases |lines|
  {
    if lines != [] {
      var n := |lines| - 1;
      var before := Run(cfg, lines[..n], clock);
      assert Run(cfg, lines, clock) == Advance(cfg, before, lines[n], clock(n));
      RunCount(cfg, lines[..n], clock);
      AdvanceCount(cfg, before, lines[n], clock(n));
    }
  }

  /** The first counted line forces an event for its package. */
  lemma {:induction false} RunFirstEvent(cfg: Config, lines: seq<string>, clock: nat -> int)
    requires |lines| > 0 && Counts(lines[0])
    ensures |Run(cfg, lines, clock).events| > 0
    ensures Run(cfg, lines, clock).events[0].package == OperationAndPackage(lines[0]).1
    decreases |lines|
  {
    var n := |lines| - 1;
    var before := Run(cfg, lines[..n], clock);
    var after := Advance(cfg, before, lines[n], clock(n));
    assert Run(cfg, lines, clock) == after;
    if n == 0 {
      assert lines[..0] == [];
      assert before == Initial;
      FirstLine(cfg, lines[0], clock(0));
    } else {
      assert lines[..n][0] == lines[0];
      RunFirstEvent(cfg, lines[..n], clock);
      AdvanceAppends(cfg, before, lines[n], clock(n));
      assert after.events[0] == after.events[..|before.events|][0];
    }
  }

  /** A counted first line is announced at once. */
  lemma FirstLine(cfg: Config, line: string, now: int)
    requires Counts(line)
    ensures Advance(cfg, Initial, line, now).events
            == [Event(cfg.jid, OperationAndPackage(line).0, OperationAndPackage(line).1, 1, cfg.total)]
  {
    var r := Read(cfg, Initial, line);
    assert r.processedCount == 1 && r.forceUpdate && r.currentPackage == OperationAndPackage(line).1;
  }

  /** An iteration only ever appends to the events fired. */
  lemma AdvanceAppends(cfg: Config, s: MonitorState, line: string, now: int)
    ensures var t := Advance(cfg, s, line, now);
      |s.events| <= |t.events| <= |s.events| + 1 && t.events[..|s.events|] == s.events
  {
    var r := Read(cfg, s, line);
    assert r.events == s.events;
  }

  /** The loop of `_process_with_progress` as an object whose fields the
      loop body updates. */
  class Monitor {
    const cfg: Config
    var processedCount: nat
    var forceUpdate: bool
    var lastSentPackage: Option<string>
    var currentPackage: Option<string>
    var operation: Option<Operation>
    var lastNotifyTimestamp: int
    var stdout: string
    var events: seq<Event>

    function Snapshot(): MonitorState
      reads this
    {
      MonitorState(processedCount, forceUpdate, lastSentPackage, currentPackage, operation,
                   lastNotifyTimestamp, stdout, events)
    }

    constructor(jid: string, total: int, period: int)
      ensures cfg == Config(jid, total, period)
      ensures Snapshot() == Initial
    {
      cfg := Config(jid, total, period);
      processedCount := 0;
      forceUpdate := true;
      lastSentPackage := None;
      currentPackage := None;
      operation := None;
      lastNotifyTimestamp := 0;
      stdout := "";
      events := [];
    }

    /** One iteration: read `line`, then test the clock reading `now`. */
    method Step(line: string, now: int)
      modifies this
      ensures Snapshot() == Advance(cfg, old(Snapshot()), line, now)
    {
      stdout := stdout + line;
      var classified := OperationAndPackage(line);
      var lineOperation, linePackage := classified.0, classified.1;
      if lineOperation.Some? && linePackage.Some? && linePackage.value != "" {
        operation := lineOperation;
        currentPackage := linePackage;
        if Changes(lineOperation.value) {
          processedCount := processedCount + 1;
          forceUpdate := forceUpdate || processedCount == 1 || processedCount == cfg.total;
        }
      }
      assert Snapshot() == Absorb(cfg, old(Snapshot()), line, lineOperation, linePackage);
      if (now - lastNotifyTimestamp > cfg.period || forceUpdate) && lastSentPackage != currentPackage {
        forceUpdate := false;
        lastSentPackage := currentPackage;
        lastNotifyTimestamp := now;
        events := events + [Event(cfg.jid, operation, currentPackage, processedCount, cfg.total)];
      }
    }
  }

  /** What the process the tool runs in produces: the lines the loop reads,
      what `communicate` returns after it, and the exit code. */
  datatype ProcessOutput = ProcessOutput(lines: seq<string>, rest: string, stderr: string, retcode: int)

  /** `_process_with_progress`: the tool's result and the events fired. */
  method ProcessWithProgress(jid: string, total: int, period: int, out: ProcessOutput, clock: nat -> int)
    returns (result: ToolResult, events: seq<Event>)
    ensures var s := Run(Config(jid, total, period), out.lines, clock);
      result == ToolResult(out.retcode, s.stdout + out.rest, out.stderr) && events == s.events
  {
    var monitor := new Monitor(jid, total, period);
    var i := 0;
    while i < |out.lines|
      invariant 0 <= i <= |out.lines|
      invariant monitor.cfg == Config(jid, total, period)
      invariant monitor.Snapshot() == Run(monitor.cfg, out.lines[..i], clock)
    {
      assert out.lines[..i + 1][..i] == out.lines[..i];
      monitor.Step(out.lines[i], clock(i));
      i := i + 1;
    }
    assert out.lines[..|out.lines|] == out.lines;
    result := ToolResult(out.retcode, monitor.stdout + out.rest, out.stderr);
    events := monitor.events;
  }
}
