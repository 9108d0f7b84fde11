/** Package selection states (salt/modules/opkg.py:1135-1310): `hold` and
    `unhold` read each target's state with `_get_state` and change it with
    `_set_state`, which runs `opkg flag`. The package database is outside
    the model: `db(flags)` is the tool as it behaves once the `opkg flag`
    commands `flags` have run, so a state written earlier in the loop is
    seen by a later read. */
module HoldState {
  import opened Wrappers
  import opened ToolInvoker
  import opened PackageQueries

  /** The arguments of one `opkg flag <state> <pkg>` run. */
  datatype Flag = Flag(state: string, pkg: string)

  type Database = seq<Flag> -> Tool

  /** `valid_states` (1298). */
  const ValidStates: seq<string> := ["hold", "noprune", "user", "ok", "installed", "unpacked"]

  /** The `{"old": ..., "new": ...}` entry `_set_state` returns for its
      package. */
  datatype StateChange = StateChange(oldState: string, newState: string)

  /** `_set_state(pkg, state)` after the flags `flags` (1279-1310): an
      invalid state raises SaltInvocationError; otherwise the state is read,
      `opkg flag` runs (its result is not checked) and the change from the
      read state to the new one is returned. */
  function SetStateOf(pkg: string, state: string, db: Database, flags: seq<Flag>): Result<(StateChange, seq<Flag>)> {
    if state !in ValidStates then Err(SaltInvocationError("Invalid state: " + state))
    else
      match State(pkg, db(flags))
      case Err(e) => Err(e)
      case Ok(oldState) => Ok((StateChange(oldState, state), flags + [Flag(state, pkg)]))
  }

  /** Setting a valid state runs exactly one `opkg flag` for that state
      and package, and reports the state read before it as the old one;
      an invalid state runs nothing. */
  lemma SetStateSpec(pkg: string, state: string, db: Database, flags: seq<Flag>)
    ensures state !in ValidStates ==> SetStateOf(pkg, state, db, flags) == Err(SaltInvocationError("Invalid state: " + state))
    ensures SetStateOf(pkg, state, db, flags).Ok? ==>
      var (change, after) := SetStateOf(pkg, state, db, flags).value;
      state in ValidStates && after == flags + [Flag(state, pkg)]
      && change.newState == state && Ok(change.oldState) == State(pkg, db(flags))
  {
  }

  method SetState(pkg: string, state: string, db: Database, flags: seq<Flag>)
    returns (r: Result<StateChange>, after: seq<Flag>)
    ensures SetStateOf(pkg, state, db, flags).Err? ==> r == Err(SetStateOf(pkg, state, db, flags).error) && after == flags
    ensures SetStateOf(pkg, state, db, flags).Ok? ==>
      r == Ok(SetStateOf(pkg, state, db, flags).value.0) && after == SetStateOf(pkg, state, db, flags).value.1
  {
    after := flags;
    if state !in ValidStates {
      return Err(SaltInvocationError("Invalid state: " + state)), after;
    }
    var oldState := GetState(pkg, db(flags));
    if oldState.Err? {
      return Err(oldState.error), after;
    }
    after := flags + [Flag(state, pkg)];
    r := Ok(StateChange(oldState.value, state));
  }

  /** The targets of `hold`/`unhold` (1157-1171): `pkgs` if given, else the
      first key of each of `sources` (here already reduced to it), else
      `name` ("" standing for no name). */
  function Targets(name: string, pkgs: seq<string>, sources: seq<string>): Result<seq<string>> {
    if name == "" && pkgs == [] && sources == [] then
      Err(SaltInvocationError("One of name, pkgs, or sources must be specified."))
    else if pkgs != [] && sources != [] then
      Err(SaltInvocationError("Only one of pkgs or sources can be specified."))
    else if pkgs != [] then Ok(pkgs)
    else if sources != [] then Ok(sources)
    else Ok([name])
  }

  /** The targets are refused exactly when none of the three is given or
      both lists are; accepted targets are never empty. */
  lemma TargetsSpec(name: string, pkgs: seq<string>, sources: seq<string>)
    ensures Targets(name, pkgs, sources).Err? <==> (name == "" && pkgs == [] && sources == []) || (pkgs != [] && sources != [])
    ensures Targets(name, pkgs, sources).Ok? ==> Targets(name, pkgs, sources).value != []
  {
  }

  /** One package's entry: `name`, `changes` ({} as None), `result` (None
      in test mode) and `comment`. */
  datatype Entry = Entry(name: string, changes: Option<StateChange>, result: Option<bool>, comment: string)

  /** The entry `hold` makes for one target after the flags `flags`, and
      the flags after it (1174-1193). */
  function HoldTarget(target: string, test: bool, db: Database, flags: seq<Flag>): Result<(Entry, seq<Flag>)> {
    match State(target, db(flags))
    case Err(e) => Err(e)
    case Ok(state) =>
      if state == "" then Ok((Entry(target, None, Some(false), "Package " + target + " not currently held."), flags))
      else if state != "hold" then
        if test then Ok((Entry(target, None, None, "Package " + target + " is set to be held."), flags))
        else
          match SetStateOf(target, "hold", db, flags)
          case Err(e) => Err(e)
          case Ok((change, after)) => Ok((Entry(target, Some(change), Some(true), "Package " + target + " is now being held."), after))
      else Ok((Entry(target, None, Some(true), "Package " + target + " is already set to be held."), flags))
  }

  /** The loop of `hold` over the targets, stopped by the first exception. */
  function HoldRun(targets: seq<string>, test: bool, db: Database): Result<(map<string, Entry>, seq<Flag>)>
    decreases |targets|
  {
    if targets == [] then Ok((map[], []))
    else
      match HoldRun(targets[..|targets| - 1], test, db)
      case Err(e) => Err(e)
      case Ok((ret, flags)) =>
        var target := targets[|targets| - 1];
        match HoldTarget(target, test, db, flags)
        case Err(e) => Err(e)
        case Ok((entry, after)) => Ok((ret[target := entry], after))
  }

  /** `hold(name, pkgs, sources)` with `test` the minion's test option. */
  function HoldResult(name: string, pkgs: seq<string>, sources: seq<string>, test: bool, db: Database): Result<(map<string, Entry>, seq<Flag>)> {
    match Targets(name, pkgs, sources)
    case Err(e) => Err(e)
    case Ok(targets) => HoldRun(targets, test, db)
  }

  /** The entry of one target: the comment matches the state read, a
      change is made (and `hold` flagged) exactly for a target that is
      neither unknown nor held outside test mode, and the result is True
      for a held or newly held target. */
  lemma HoldTargetSpec(target: string, test: bool, db: Database, flags: seq<Flag>)
    ensures HoldTarget(target, test, db, flags).Ok? ==>
      var (entry, after) := HoldTarget(target, test, db, flags).value;
      var state := State(target, db(flags)).value;
      State(target, db(flags)).Ok? && entry.name == target
      && (entry.changes.Some? <==> state != "" && state != "hold" && !test)
      && (entry.changes.Some? ==> entry.changes.value == StateChange(state, "hold") && after == flags + [Flag("hold", target)])
      && (entry.changes.None? ==> after == flags)
      && (entry.result == Some(true) <==> state == "hold" || entry.changes.Some?)
      && (entry.result.None? <==> state != "" && state != "hold" && test)
  {
    assert "hold" in ValidStates;
  }

  /** Every target gets an entry under its own name; in test mode no
      `opkg flag` runs; otherwise every flag run sets `hold` on a target. */
  lemma {:induction false} HoldRunSpec(targets: seq<string>, test: bool, db: Database)
    ensures HoldRun(targets, test, db).Ok? ==>
      var (ret, flags) := HoldRun(targets, test, db).value;
      ret.Keys == (set t | t in targets)
      && (forall t :: t in ret ==> ret[t].name == t)
      && (test ==> flags == [])
      && (forall k :: 0 <= k < |flags| ==> flags[k].state == "hold" && flags[k].pkg in targets)
    decreases |targets|
  {
    if targets != [] {
      var init := targets[..|targets| - 1];
      var target := targets[|targets| - 1];
      HoldRunSpec(init, test, db);
      if HoldRun(targets, test, db).Ok? {
        var (ret, flags) := HoldRun(init, test, db).value;
        HoldTargetSpec(target, test, db, flags);
        assert forall t :: t in targets <==> t in init || t == target;
      }
    }
  }

  /** The entry `unhold` makes for one target (1235-1257). In test mode a
      held target's own comment stays "", and the message is returned as
      the second component, which the caller stores under the top-level
      key "comment". */
  function UnholdTarget(target: string, test: bool, db: Database, flags: seq<Flag>): Result<(Entry, Option<string>, seq<Flag>)> {
    match State(target, db(flags))
    case Err(e) => Err(e)
    case Ok(state) =>
      if state == "" then Ok((Entry(target, None, Some(false), "Package " + target + " does not have a state."), None, flags))
      else if state == "hold" then
        if test then Ok((Entry(target, None, None, ""), Some("Package " + target + " is set not to be held."), flags))
        else
          match SetStateOf(target, "ok", db, flags)
          case Err(e) => Err(e)
          case Ok((change, after)) => Ok((Entry(target, Some(change), Some(true), "Package " + target + " is no longer being held."), None, after))
      else Ok((Entry(target, None, Some(true), "Package " + target + " is already set not to be held."), None, flags))
  }

  /** A value of the dictionary `unhold` returns: a package's entry, or the
      text stored under "comment". */
  datatype Value = PackageEntry(entry: Entry) | Comment(text: string)

  function UnholdRun(targets: seq<string>, test: bool, db: Database): Result<(map<string, Value>, seq<Flag>)>
    decreases |targets|
  {
    if targets == [] then Ok((map[], []))
    else
      match UnholdRun(targets[..|targets| - 1], test, db)
      case Err(e) => Err(e)
      case Ok((ret, flags)) =>
        var target := targets[|targets| - 1];
        match UnholdTarget(target, test, db, flags)
        case Err(e) => Err(e)
        case Ok((entry, comment, after)) =>
          var withEntry := ret[target := PackageEntry(entry)];
          Ok((if comment.Some? then withEntry["comment" := Comment(comment.value)] else withEntry, after))
  }

  function UnholdResult(name: string, pkgs: seq<string>, sources: seq<string>, test: bool, db: Database): Result<(map<string, Value>, seq<Flag>)> {
    match Targets(name, pkgs, sources)
    case Err(e) => Err(e)
    case Ok(targets) => UnholdRun(targets, test, db)
  }

  /** The entry of one target: a change to `ok` is made exactly for a held
      target outside test mode; in test mode a held target leaves its own
      comment empty and produces the top-level message instead. */
  lemma UnholdTargetSpec(target: string, test: bool, db: Database, flags: seq<Flag>)
    ensures UnholdTarget(target, test, db, flags).Ok? ==>
      var (entry, comment, after) := UnholdTarget(target, test, db, flags).value;
      var state := State(target, db(flags)).value;
      State(target, db(flags)).Ok? && entry.name == target
      && (entry.changes.Some? <==> state == "hold" && !test)
      && (entry.changes.Some? ==> entry.changes.value == StateChange("hold", "ok") && after == flags + [Flag("ok", target)])
      && (entry.changes.None? ==> after == flags)
      && (comment.Some? <==> state == "hold" && test)
      && (comment.Some? ==> entry.comment == "" && entry.result.None?)
  {
    assert "ok" in ValidStates;
  }

  /** In test mode `unhold` runs no `opkg flag`; otherwise every flag run
      sets `ok` on a target; every target's key holds its entry unless the
      target is named "comment". */
  lemma {:induction false} UnholdRunSpec(targets: seq<string>, test: bool, db: Database)
    ensures UnholdRun(targets, test, db).Ok? ==>
      var (ret, flags) := UnholdRun(targets, test, db).value;
      (forall t :: t in targets ==> t in ret)
      && (forall t :: t in ret && t != "comment" ==> t in targets && ret[t].PackageEntry? && ret[t].entry.name == t)
      && (test ==> flags == [])
      && (forall k :: 0 <= k < |flags| ==> flags[k].state == "ok" && flags[k].pkg in targets)
    decreases |targets|
  {
    if targets != [] {
      var init := targets[..|targets| - 1];
      var target := targets[|targets| - 1];
      UnholdRunSpec(init, test, db);
      if UnholdRun(targets, test, db).Ok? {
        var (ret, flags) := UnholdRun(init, test, db).value;
        UnholdTargetSpec(target, test, db, flags);
        assert forall t :: t in targets <==> t in init || t == target;
      }
    }
  }

  method SelectTargets(name: string, pkgs: seq<string>, sources: seq<string>) returns (r: Result<seq<string>>)
    ensures r == Targets(name, pkgs, sources)
  {
    if name == "" && pkgs == [] && sources == [] {
      return Err(SaltInvocationError("One of name, pkgs, or sources must be specified."));
    }
    if pkgs != [] && sources != [] {
      return Err(SaltInvocationError("Only one of pkgs or sources can be specified."));
    }
    var targets: seq<string> := [];
    if pkgs != [] {
      targets := pkgs;
    } else if sources != [] {
      for i := 0 to |sources|
        invariant targets == sources[..i]
      {
        targets := targets + [sources[i]];
      }
      assert sources[..|sources|] == sources;
    } else {
      targets := [name];
    }
    r := Ok(targets);
  }

  /** `hold`: the loop over the targets, which runs the `opkg flag`
      commands returned in `flags`. */
  method Hold(name: string, pkgs: seq<string>, sources: seq<string>, test: bool, db: Database)
    returns (r: Result<map<string, Entry>>, flags: seq<Flag>)
    ensures HoldResult(name, pkgs, sources, test, db).Ok? ==>
      r == Ok(HoldResult(name, pkgs, sources, test, db).value.0) && flags == HoldResult(name, pkgs, sources, test, db).value.1
    ensures HoldResult(name, pkgs, sources, test, db).Err? ==> r == Err(HoldResult(name, pkgs, sources, test, db).error)
  {
    flags := [];
    var selected := SelectTargets(name, pkgs, sources);
    if selected.Err? {
      return Err(selected.error), flags;
    }
    var targets := selected.value;
    var ret: map<string, Entry> := map[];
    for i := 0 to |targets|
      invariant HoldRun(targets[..i], test, db) == Ok((ret, flags))
    {
      assert targets[..i + 1][..i] == targets[..i];
      var target := targets[i];
      var entry, after := HoldOne(target, test, db, flags);
      if entry.Err? {
        HoldStuck(targets, i + 1, test, db, entry.error);
        return Err(entry.error), flags;
      }
      ret := ret[target := entry.value];
      flags := after;
    }
    assert targets[..|targets|] == targets;
    r := Ok(ret);
  }

  /** The body of the `hold` loop for one target. */
  method HoldOne(target: string, test: bool, db: Database, flags: seq<Flag>) returns (r: Result<Entry>, after: seq<Flag>)
    ensures HoldTarget(target, test, db, flags).Err? ==> r == Err(HoldTarget(target, test, db, flags).error)
    ensures HoldTarget(target, test, db, flags).Ok? ==>
      r == Ok(HoldTarget(target, test, db, flags).value.0) && after == HoldTarget(target, test, db, flags).value.1
  {
    after := flags;
    var state := GetState(target, db(flags));
    if state.Err? {
      return Err(state.error), after;
    }
    if state.value == "" {
      r := Ok(Entry(target, None, Some(false), "Package " + target + " not currently held."));
    } else if state.value != "hold" {
      if test {
        r := Ok(Entry(target, None, None, "Package " + target + " is set to be held."));
      } else {
        var change;
        change, after := SetState(target, "hold", db, flags);
        if change.Err? {
          return Err(change.error), after;
        }
        r := Ok(Entry(target, Some(change.value), Some(true), "Package " + target + " is now being held."));
      }
    } else {
      r := Ok(Entry(target, None, Some(true), "Package " + target + " is already set to be held."));
    }
  }

  lemma {:induction false} HoldStuck(targets: seq<string>, n: nat, test: bool, db: Database, e: Failure)
    requires n <= |targets| && HoldRun(targets[..n], test, db) == Err(e)
    ensures HoldRun(targets, test, db) == Err(e)
    decreases |targets|
  {
    if |targets| == n {
      assert targets[..n] == targets;
    } else {
      var init := targets[..|targets| - 1];
      assert init[..n] == targets[..n];
      HoldStuck(init, n, test, db, e);
    }
  }

  /** `unhold`: the loop over the targets, which runs the `opkg flag`
      commands returned in `flags`. */
  method Unhold(name: string, pkgs: seq<string>, sources: seq<string>, test: bool, db: Database)
    returns (r: Result<map<string, Value>>, flags: seq<Flag>)
    ensures UnholdResult(name, pkgs, sources, test, db).Ok? ==>
      r == Ok(UnholdResult(name, pkgs, sources, test, db).value.0) && flags == UnholdResult(name, pkgs, sources, test, db).value.1
    ensures UnholdResult(name, pkgs, sources, test, db).Err? ==> r == Err(UnholdResult(name, pkgs, sources, test, db).error)
  {
    flags := [];
    var selected := SelectTargets(name, pkgs, sources);
    if selected.Err? {
      return Err(selected.error), flags;
    }
    var targets := selected.value;
    var ret: map<string, Value> := map[];
    for i := 0 to |targets|
      invariant UnholdRun(targets[..i], test, db) == Ok((ret, flags))
    {
      assert targets[..i + 1][..i] == targets[..i];
      var target := targets[i];
      var entry, comment, after := UnholdOne(target, test, db, flags);
      if entry.Err? {
        UnholdStuck(targets, i + 1, test, db, entry.error);
        return Err(entry.error), flags;
      }
      ret := ret[target := PackageEntry(entry.value)];
      if comment.Some? {
        ret := ret["comment" := Comment(comment.value)];
      }
      flags := after;
    }
    assert targets[..|targets|] == targets;
    r := Ok(ret);
  }

  /** The body of the `unhold` loop for one target. */
  method UnholdOne(target: string, test: bool, db: Database, flags: seq<Flag>)
    returns (r: Result<Entry>, comment: Option<string>, after: seq<Flag>)
    ensures UnholdTarget(target, test, db, flags).Err? ==> r == Err(UnholdTarget(target, test, db, flags).error)
    ensures UnholdTarget(target, test, db, flags).Ok? ==>
      r == Ok(UnholdTarget(target, test, db, flags).value.0) && comment == UnholdTarget(target, test, db, flags).value.1
      && after == UnholdTarget(target, test, db, flags).value.2
  {
    after := flags;
    comment := None;
    var state := GetState(target, db(flags));
    if state.Err? {
      return Err(state.error), comment, after;
    }
    if state.value == "" {
      r := Ok(Entry(target, None, Some(false), "Package " + target + " does not have a state."));
    } else if state.value == "hold" {
      if test {
        r := Ok(Entry(target, None, None, ""));
        comment := Some("Package " + target + " is set not to be held.");
      } else {
        var change;
        change, after := SetState(target, "ok", db, flags);
        if change.Err? {
          return Err(change.error), comment, after;
        }
        r := Ok(Entry(target, Some(change.value), Some(true), "Package " + target + " is no longer being held."));
      }
    } else {
      r := Ok(Entry(target, None, Some(true), "Package " + target + " is already set not to be held."));
    }
  }

  lemma {:induction false} UnholdStuck(targets: seq<string>, n: nat, test: bool, db: Database, e: Failure)
    requires n <= |targets| && UnholdRun(targets[..n], test, db) == Err(e)
    ensures UnholdRun(targets, test, db) == Err(e)
    decreases |targets|
  {
    if |targets| == n {
      assert targets[..n] == targets;
    } else {
      var init := targets[..|targets| - 1];
      assert init[..n] == targets[..n];
      UnholdStuck(init, n, test, db, e);
    }
  }
}
