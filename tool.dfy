/** Running the opkg tool (salt/modules/opkg.py, `_call_opkg`). The tool
    itself is outside the model: a `Tool` gives the result of the
    `attempt`-th run of a command line. */
module ToolInvoker {
  import opened Text

  /** What `cmd.run_all` returns: exit code, standard output and standard
      error (an absent `stderr` key is the empty text). */
  datatype ToolResult = ToolResult(retcode: int, stdout: string, stderr: string)

  type Tool = (seq<string>, nat) -> ToolResult

  /** The message opkg prints when another opkg instance holds its lock. */
  const LockMarker: string := "opkg_lock: Could not lock /run/opkg.lock"

  /** The number of times the tool is run at most. */
  const MaxAttempts: nat := 5

  /** The seconds `_call_opkg` sleeps before each retry. */
  const RetryDelay: nat := 2

  /** The result reports lock contention. */
  predicate Locked(r: ToolResult) {
    Contains(r.stderr, LockMarker)
  }

  /** The number of runs `_call_opkg` makes once `k` runs were locked:
      the first run that is not locked ends the retries, and so does the
      fifth. */
  function AttemptsFrom(args: seq<string>, tool: Tool, k: nat): (n: nat)
    requires k < MaxAttempts
    ensures k < n <= MaxAttempts
    decreases MaxAttempts - k
  {
    if k == MaxAttempts - 1 || !Locked(tool(args, k)) then k + 1 else AttemptsFrom(args, tool, k + 1)
  }

  /** The number of runs `_call_opkg` makes. */
  function Attempts(args: seq<string>, tool: Tool): nat {
    AttemptsFrom(args, tool, 0)
  }

  /** The result `_call_opkg` returns. */
  function Outcome(args: seq<string>, tool: Tool): ToolResult {
    tool(args, Attempts(args, tool) - 1)
  }

  /** Counting from `k`, the runs before the last are all locked, and the
      last is unlocked unless it is the fifth. */
  lemma {:induction false} AttemptsFromSpec(args: seq<string>, tool: Tool, k: nat)
    requires k < MaxAttempts
    ensures forall m :: k <= m < AttemptsFrom(args, tool, k) - 1 ==> Locked(tool(args, m))
    ensures AttemptsFrom(args, tool, k) < MaxAttempts ==> !Locked(tool(args, AttemptsFrom(args, tool, k) - 1))
    decreases MaxAttempts - k
  {
    if !(k == MaxAttempts - 1 || !Locked(tool(args, k))) {
      AttemptsFromSpec(args, tool, k + 1);
    }
  }

  /** The result is the first unlocked one, or the fifth: the runs before
      it all reported lock contention. */
  lemma OutcomeSpec(args: seq<string>, tool: Tool)
    ensures 1 <= Attempts(args, tool) <= MaxAttempts
    ensures forall m :: 0 <= m < Attempts(args, tool) - 1 ==> Locked(tool(args, m))
    ensures Attempts(args, tool) < MaxAttempts ==> !Locked(Outcome(args, tool))
  {
    AttemptsFromSpec(args, tool, 0);
  }

  /** `_call_opkg`: run the tool, and while it reports lock contention and
      fewer than five runs were made, wait two seconds and run it again.
      `calls` is the number of runs and `waited` the seconds slept. */
  method CallOpkg(args: seq<string>, tool: Tool) returns (result: ToolResult, calls: nat, waited: nat)
    ensures calls == Attempts(args, tool) && result == Outcome(args, tool)
    ensures 1 <= calls <= MaxAttempts
    ensures result == tool(args, calls - 1)
    ensures forall k :: 0 <= k < calls - 1 ==> Locked(tool(args, k))
    ensures calls < MaxAttempts ==> !Locked(result)
    ensures waited == RetryDelay * (calls - 1)
  {
    calls := 0;
    waited := 0;
    while true
      invariant 0 <= calls < MaxAttempts
      invariant forall k :: 0 <= k < calls ==> Locked(tool(args, k))
      invariant waited == RetryDelay * calls
      invariant AttemptsFrom(args, tool, calls) == Attempts(args, tool)
      decreases MaxAttempts - calls
    {
      result := tool(args, calls);
      if Locked(result) && calls < MaxAttempts - 1 {
        waited := waited + RetryDelay;
        calls := calls + 1;
      } else {
        calls := calls + 1;
        return;
      }
    }
  }
}
