/** The parsers that turn the output of `opkg install --noaction` and
    `opkg remove --noaction` into the packages the run would change
    (salt/modules/opkg.py, `_parse_reported_packages_from_install_output`
    and `_parse_reported_packages_from_remove_output`). */
module DryRunReports {
  import opened Wrappers
  import opened Text
  import opened LazyPattern

  // `Installing\s(?P<package>.*?)\s\((?P<version>.*?)\)\son\s(?P<target>.*?)`,
  // written back to front so that each group's continuation has a name.
  const InstallAfterVersion: Pattern :=
    Then(Lit(")"), Then(Space, Then(Lit("on"), Then(Space, Then(Lazy, Done)))))
  const InstallAfterPackage: Pattern :=
    Then(Space, Then(Lit("("), Then(Lazy, InstallAfterVersion)))
  const InstallPattern: Pattern :=
    Then(Lit("Installing"), Then(Space, Then(Lazy, InstallAfterPackage)))

  // `Upgrading\s(?P<package>.*?)\sfrom\s(?P<oldVersion>.*?)\sto\s(?P<version>.*?)\son\s(?P<target>.*?)`
  const InternalAfterVersion: Pattern :=
    Then(Space, Then(Lit("on"), Then(Space, Then(Lazy, Done))))
  const InternalAfterOldVersion: Pattern :=
    Then(Space, Then(Lit("to"), Then(Space, Then(Lazy, InternalAfterVersion))))
  const InternalAfterPackage: Pattern :=
    Then(Space, Then(Lit("from"), Then(Space, Then(Lazy, InternalAfterOldVersion))))
  const InternalSolverUpgradePattern: Pattern :=
    Then(Lit("Upgrading"), Then(Space, Then(Lazy, InternalAfterPackage)))

  // `Upgrading\s(?P<oldPackage>.*?)\s\((?P<oldVersion>.*?)\)\sto\s(?P<package>.*?)\s\((?P<version>.*?)\)\son\s(?P<target>.*?)`
  const LibsolvAfterVersion: Pattern :=
    Then(Lit(")"), Then(Space, Then(Lit("on"), Then(Space, Then(Lazy, Done)))))
  const LibsolvAfterPackage: Pattern :=
    Then(Space, Then(Lit("("), Then(Lazy, LibsolvAfterVersion)))
  const LibsolvAfterOldVersion: Pattern :=
    Then(Lit(")"), Then(Space, Then(Lit("to"), Then(Space, Then(Lazy, LibsolvAfterPackage)))))
  const LibsolvAfterOldPackage: Pattern :=
    Then(Space, Then(Lit("("), Then(Lazy, LibsolvAfterOldVersion)))
  const LibsolvSolverUpgradePattern: Pattern :=
    Then(Lit("Upgrading"), Then(Space, Then(Lazy, LibsolvAfterOldPackage)))

  // `Removing\s(?P<package>.*?)\s\((?P<version>.*?)\)\sfrom\s(?P<target>.*?)...`:
  // the final `...` is three arbitrary characters, not three dots.
  const RemoveAfterVersion: Pattern :=
    Then(Lit(")"), Then(Space, Then(Lit("from"), Then(Space,
      Then(Lazy, Then(AnyChar, Then(AnyChar, Then(AnyChar, Done))))))))
  const RemoveAfterPackage: Pattern :=
    Then(Space, Then(Lit("("), Then(Lazy, RemoveAfterVersion)))
  const RemovePattern: Pattern :=
    Then(Lit("Removing"), Then(Space, Then(Lazy, RemoveAfterPackage)))

  /** The number of groups of each pattern. */
  lemma PatternGroups()
    ensures Groups(InstallPattern) == 3 && Groups(InternalSolverUpgradePattern) == 4
    ensures Groups(LibsolvSolverUpgradePattern) == 5 && Groups(RemovePattern) == 3
  {
    assert Groups(InstallAfterVersion) == 1;
    assert Groups(InstallAfterPackage) == 2;
    assert Groups(InternalAfterVersion) == 1;
    assert Groups(InternalAfterOldVersion) == 2;
    assert Groups(InternalAfterPackage) == 3;
    assert Groups(LibsolvAfterVersion) == 1;
    assert Groups(LibsolvAfterPackage) == 2;
    assert Groups(LibsolvAfterOldVersion) == 3;
    assert Groups(LibsolvAfterOldPackage) == 4;
    assert Groups(RemoveAfterVersion) == 1;
    assert Groups(RemoveAfterPackage) == 2;
  }

  /** The (package, version) that one line of install output reports: the
      install pattern, then the internal-solver upgrade pattern, then the
      libsolv upgrade pattern, and the first that matches decides. */
  function InstallLineReport(line: string): Option<(string, string)>
  {
    match Match(InstallPattern, line)
    case Some(g) => if |g| == 3 then Some((g[0], g[1])) else None
    case None =>
      match Match(InternalSolverUpgradePattern, line)
      case Some(g) => if |g| == 4 then Some((g[0], g[2])) else None
      case None =>
        match Match(LibsolvSolverUpgradePattern, line)
        case Some(g) => if |g| == 5 then Some((g[2], g[3])) else None
        case None => None
  }

  /** A line reports nothing iff none of the three patterns matches it; what
      it reports comes from a match of the first pattern that matches. */
  lemma InstallLineReportSpec(line: string)
    ensures InstallLineReport(line).None? <==>
      !MatchesSome(InstallPattern, line) && !MatchesSome(InternalSolverUpgradePattern, line)
      && !MatchesSome(LibsolvSolverUpgradePattern, line)
    ensures InstallLineReport(line).Some? ==> exists gs ::
      || (Matches(InstallPattern, gs, line) && |gs| == 3 && InstallLineReport(line).value == (gs[0], gs[1]))
      || (!MatchesSome(InstallPattern, line) && Matches(InternalSolverUpgradePattern, gs, line)
          && |gs| == 4 && InstallLineReport(line).value == (gs[0], gs[2]))
      || (!MatchesSome(InstallPattern, line) && !MatchesSome(InternalSolverUpgradePattern, line)
          && Matches(LibsolvSolverUpgradePattern, gs, line) && |gs| == 5
          && InstallLineReport(line).value == (gs[2], gs[3]))
  {
    MatchIff(InstallPattern, line);
    MatchIff(InternalSolverUpgradePattern, line);
    MatchIff(LibsolvSolverUpgradePattern, line);
    MatchSound(InstallPattern, line);
    MatchSound(InternalSolverUpgradePattern, line);
    MatchSound(LibsolvSolverUpgradePattern, line);
    PatternGroups();
    var r := InstallLineReport(line);
    if r.Some? {
      var m1 := Match(InstallPattern, line);
      var m2 := Match(InternalSolverUpgradePattern, line);
      if m1.Some? {
        assert Matches(InstallPattern, m1.value, line);
      } else if m2.Some? {
        assert Matches(InternalSolverUpgradePattern, m2.value, line);
      } else {
        assert Matches(LibsolvSolverUpgradePattern, Match(LibsolvSolverUpgradePattern, line).value, line);
      }
    }
  }

  /** The package one line of remove output reports. */
  function RemoveLineReport(line: string): Option<string>
  {
    match Match(RemovePattern, line)
    case Some(g) => if |g| == 3 then Some(g[0]) else None
    case None => None
  }

  /** A line reports a removal iff the remove pattern matches it, and the
      package is the first group of a match. */
  lemma RemoveLineReportSpec(line: string)
    ensures RemoveLineReport(line).None? <==> !MatchesSome(RemovePattern, line)
    ensures RemoveLineReport(line).Some? ==> exists gs ::
      Matches(RemovePattern, gs, line) && |gs| == 3 && RemoveLineReport(line).value == gs[0]
  {
    MatchIff(RemovePattern, line);
    MatchSound(RemovePattern, line);
    PatternGroups();
    if RemoveLineReport(line).Some? {
      assert Matches(RemovePattern, Match(RemovePattern, line).value, line);
    }
  }

  /** The dictionary that assigning `reported[pkg] = version` for each
      report in turn builds: a later report of a package overwrites an
      earlier one, and a line that reports nothing adds nothing. */
  function Store(reports: seq<Option<(string, string)>>): map<string, string>
    decreases |reports|
  {
    if reports == [] then map[]
    else
      var before := Store(reports[..|reports| - 1]);
      match reports[|reports| - 1]
      case Some((pkg, version)) => before[pkg := version]
      case None => before
  }

  /** `reports[i]` reports a value for `pkg`. */
  predicate Reports(reports: seq<Option<(string, string)>>, i: int, pkg: string) {
    0 <= i < |reports| && reports[i].Some? && reports[i].value.0 == pkg
  }

  /** A package is stored iff some report names it. */
  lemma {:induction false} StoreKeys(reports: seq<Option<(string, string)>>, pkg: string)
    ensures pkg in Store(reports) <==> exists i :: Reports(reports, i, pkg)
    decreases |reports|
  {
    if reports != [] {
      var n := |reports| - 1;
      StoreKeys(reports[..n], pkg);
      assert forall i :: Reports(reports[..n], i, pkg) <==> i < n && Reports(reports, i, pkg);
      if Reports(reports, n, pkg) {
        assert pkg in Store(reports);
      } else {
        assert pkg in Store(reports) <==> pkg in Store(reports[..n]);
        assert (exists i :: Reports(reports, i, pkg)) <==> exists i :: Reports(reports[..n], i, pkg);
      }
    }
  }

  /** The stored value of a package is the one of the last report naming it. */
  lemma {:induction false} StoreLastWins(reports: seq<Option<(string, string)>>, pkg: string)
    requires pkg in Store(reports)
    ensures exists i :: 0 <= i < |reports| && reports[i] == Some((pkg, Store(reports)[pkg]))
                        && forall j :: i < j < |reports| ==> !Reports(reports, j, pkg)
    decreases |reports|
  {
    var n := |reports| - 1;
    var init := reports[..n];
    var version := Store(reports)[pkg];
    if Reports(reports, n, pkg) {
      assert reports[n] == Some((pkg, version));
    } else {
      assert pkg in Store(init) && Store(init)[pkg] == version;
      StoreLastWins(init, pkg);
      var i :| 0 <= i < |init| && init[i] == Some((pkg, version))
        && forall j :: i < j < |init| ==> !Reports(init, j, pkg);
      assert forall j :: i < j < n ==> Reports(init, j, pkg) == Reports(reports, j, pkg);
      assert reports[i] == Some((pkg, version));
      assert forall j :: i < j < |reports| ==> !Reports(reports, j, pkg);
    }
  }

  /** What each line of install output reports. */
  function InstallReports(lines: seq<string>): (r: seq<Option<(string, string)>>)
    ensures |r| == |lines| && forall i :: 0 <= i < |lines| ==> r[i] == InstallLineReport(lines[i])
  {
    seq(|lines|, i requires 0 <= i < |lines| => InstallLineReport(lines[i]))
  }

  /** What each line of remove output reports, as a (package, "") pair. */
  function RemoveReports(lines: seq<string>): (r: seq<Option<(string, string)>>)
    ensures |r| == |lines|
    ensures forall i :: 0 <= i < |lines| ==>
      r[i] == (match RemoveLineReport(lines[i]) case Some(pkg) => Some((pkg, "")) case None => None)
  {
    seq(|lines|, i requires 0 <= i < |lines| =>
      match RemoveLineReport(lines[i]) case Some(pkg) => Some((pkg, "")) case None => None)
  }

  /** `_parse_reported_packages_from_install_output`. */
  method ParseReportedInstall(output: string) returns (reported: map<string, string>)
    ensures reported == Store(InstallReports(SplitOn(output, "\n")))
  {
    var lines := SplitOn(output, "\n");
    ghost var reports := InstallReports(lines);
    reported := map[];
    var i := 0;
    while i < |lines|
      invariant 0 <= i <= |lines|
      invariant reported == Store(reports[..i])
    {
      assert reports[..i + 1][..i] == reports[..i];
      var report := InstallLineReport(lines[i]);
      if report.Some? {
        reported := reported[report.value.0 := report.value.1];
      }
      i := i + 1;
    }
    assert reports[..|lines|] == reports;
  }

  /** `_parse_reported_packages_from_remove_output`. */
  method ParseReportedRemove(output: string) returns (reported: map<string, string>)
    ensures reported == Store(RemoveReports(SplitOn(output, "\n")))
  {
    var lines := SplitOn(output, "\n");
    ghost var reports := RemoveReports(lines);
    reported := map[];
    var i := 0;
    while i < |lines|
      invariant 0 <= i <= |lines|
      invariant reported == Store(reports[..i])
    {
      assert reports[..i + 1][..i] == reports[..i];
      var report := RemoveLineReport(lines[i]);
      if report.Some? {
        reported := reported[report.value := ""];
      }
      i := i + 1;
    }
    assert reports[..|lines|] == reports;
  }

  /** The install parser stores a package iff some line reports it, with the
      version of the last line that reports it. */
  lemma InstallReportLastWins(lines: seq<string>, pkg: string)
    ensures pkg in Store(InstallReports(lines)) <==> exists i :: Reports(InstallReports(lines), i, pkg)
    ensures pkg in Store(InstallReports(lines)) ==> exists i ::
      && 0 <= i < |lines| && InstallLineReport(lines[i]) == Some((pkg, Store(InstallReports(lines))[pkg]))
      && forall j :: i < j < |lines| ==> !Reports(InstallReports(lines), j, pkg)
  {
    var reports := InstallReports(lines);
    StoreKeys(reports, pkg);
    if pkg in Store(reports) {
      StoreLastWins(reports, pkg);
    }
  }

  /** The remove parser stores exactly the reported packages, each mapped to "". */
  lemma RemoveReportKeys(lines: seq<string>, pkg: string)
    ensures pkg in Store(RemoveReports(lines)) <==>
      exists i :: 0 <= i < |lines| && RemoveLineReport(lines[i]) == Some(pkg)
    ensures pkg in Store(RemoveReports(lines)) ==> Store(RemoveReports(lines))[pkg] == ""
  {
    var reports := RemoveReports(lines);
    StoreKeys(reports, pkg);
    assert forall i :: Reports(reports, i, pkg) <==> 0 <= i < |lines| && RemoveLineReport(lines[i]) == Some(pkg);
    if pkg in Store(reports) {
      StoreLastWins(reports, pkg);
    }
  }

  /** The text after an install line's version, `) on <target>`. */
  lemma InstallAfterVersionExample(target: string)
    ensures Match(InstallAfterVersion, ") on " + target) == Some([""])
  {
    LazyLast(target);
    MatchSpace(' ', Then(Lazy, Done), target);
    MatchLit("on", Then(Space, Then(Lazy, Done)), [' '] + target);
    MatchSpace(' ', Then(Lit("on"), Then(Space, Then(Lazy, Done))), "on" + ([' '] + target));
    MatchLit(")", Then(Space, Then(Lit("on"), Then(Space, Then(Lazy, Done)))), [' '] + ("on" + ([' '] + target)));
    assert ") on " + target == ")" + ([' '] + ("on" + ([' '] + target)));
  }

  /** The text after an install line's package, ` (<version>) on <target>`. */
  lemma InstallAfterPackageExample(version: string, target: string)
    requires NoNewline(version) && forall i :: 0 <= i < |version| ==> version[i] != ')'
    ensures Match(InstallAfterPackage, " (" + version + ") on " + target) == Some([version, ""])
  {
    var t := ") on " + target;
    InstallAfterVersionExample(target);
    LazyThen(version, InstallAfterVersion, t, [""]);
    assert [version] + [""] == [version, ""];
    MatchLit("(", Then(Lazy, InstallAfterVersion), version + t);
    MatchSpace(' ', Then(Lit("("), Then(Lazy, InstallAfterVersion)), "(" + (version + t));
    assert " (" + version + ") on " + target == [' '] + ("(" + (version + (") on " + target)));
  }

  /** A typical install line reports its package and version: the lazy
      package group stops at the first whitespace, the version group at the
      first `)`. */
  lemma InstallLineExample(pkg: string, version: string, target: string)
    requires NoSpace(pkg) && NoNewline(pkg)
    requires NoNewline(version) && forall i :: 0 <= i < |version| ==> version[i] != ')'
    ensures InstallLineReport("Installing " + pkg + " (" + version + ") on " + target) == Some((pkg, version))
  {
    var s2 := " (" + version + ") on " + target;
    InstallAfterPackageExample(version, target);
    InstallPatternOn(pkg, s2, [version, ""]);
    assert "Installing " + pkg + " (" + version + ") on " + target == "Installing " + pkg + s2;
  }

  lemma InstallPatternOn(pkg: string, s2: string, gs: seq<string>)
    requires NoSpace(pkg) && NoNewline(pkg)
    requires Match(InstallAfterPackage, s2) == Some(gs)
    ensures Match(InstallPattern, "Installing " + pkg + s2) == Some([pkg] + gs)
  {
    LazyThen(pkg, InstallAfterPackage, s2, gs);
    MatchSpace(' ', Then(Lazy, InstallAfterPackage), pkg + s2);
    MatchLit("Installing", Then(Space, Then(Lazy, InstallAfterPackage)), [' '] + (pkg + s2));
    assert "Installing " + pkg + s2 == "Installing" + ([' '] + (pkg + s2));
  }

  lemma InternalAfterVersionExample(target: string)
    ensures Match(InternalAfterVersion, " on " + target) == Some([""])
  {
    LazyLast(target);
    MatchWord("on", Then(Lazy, Done), target);
    assert " " + "on" + " " + target == " on " + target;
  }

  lemma InternalAfterOldVersionExample(version: string, target: string)
    requires NoSpace(version) && NoNewline(version)
    ensures Match(InternalAfterOldVersion, " to " + version + " on " + target) == Some([version, ""])
  {
    var s3 := " on " + target;
    InternalAfterVersionExample(target);
    LazyThen(version, InternalAfterVersion, s3, [""]);
    MatchWord("to", Then(Lazy, InternalAfterVersion), version + s3);
    assert " " + "to" + " " + (version + (" on " + target)) == " to " + version + " on " + target;
    assert [version] + [""] == [version, ""];
  }

  lemma InternalAfterPackageExample(oldVersion: string, version: string, target: string)
    requires NoSpace(oldVersion) && NoNewline(oldVersion)
    requires NoSpace(version) && NoNewline(version)
    ensures Match(InternalAfterPackage, " from " + oldVersion + " to " + version + " on " + target)
            == Some([oldVersion, version, ""])
  {
    var s2 := " to " + version + " on " + target;
    InternalAfterOldVersionExample(version, target);
    LazyThen(oldVersion, InternalAfterOldVersion, s2, [version, ""]);
    MatchWord("from", Then(Lazy, InternalAfterOldVersion), oldVersion + s2);
    assert " " + "from" + " " + (oldVersion + (" to " + version + " on " + target))
        == " from " + oldVersion + " to " + version + " on " + target;
    assert [oldVersion] + [version, ""] == [oldVersion, version, ""];
  }

  /** A typical internal-solver upgrade line reports the package and the new
      version; the install pattern does not apply to it. */
  lemma InternalUpgradeLineExample(pkg: string, oldVersion: string, version: string, target: string)
    requires NoSpace(pkg) && NoNewline(pkg)
    requires NoSpace(oldVersion) && NoNewline(oldVersion)
    requires NoSpace(version) && NoNewline(version)
    ensures InstallLineReport("Upgrading " + pkg + " from " + oldVersion + " to " + version + " on " + target)
            == Some((pkg, version))
  {
    var s1 := " from " + oldVersion + " to " + version + " on " + target;
    InternalAfterPackageExample(oldVersion, version, target);
    UpgradePatternOn(pkg, s1, [oldVersion, version, ""]);
    var line := "Upgrading " + pkg + " from " + oldVersion + " to " + version + " on " + target;
    assert "Upgrading " + pkg + " from " + oldVersion + " to " + version + " on " + target
        == "Upgrading " + pkg + (" from " + oldVersion + " to " + version + " on " + target);
    assert line[0] == 'U';
    assert Match(InstallPattern, line) == None;
  }

  lemma UpgradePatternOn(pkg: string, s1: string, gs: seq<string>)
    requires NoSpace(pkg) && NoNewline(pkg)
    requires Match(InternalAfterPackage, s1) == Some(gs)
    ensures Match(InternalSolverUpgradePattern, "Upgrading " + pkg + s1) == Some([pkg] + gs)
  {
    LazyThen(pkg, InternalAfterPackage, s1, gs);
    MatchSpace(' ', Then(Lazy, InternalAfterPackage), pkg + s1);
    MatchLit("Upgrading", Then(Space, Then(Lazy, InternalAfterPackage)), [' '] + (pkg + s1));
    assert "Upgrading " + pkg + s1 == "Upgrading" + ([' '] + (pkg + s1));
  }

  /** After `from\s`, the target group of the remove pattern is empty when
      three characters other than a newline follow. */
  lemma RemoveAfterVersionExample(target: string)
    requires |target| >= 3 && target[0] != '\n' && target[1] != '\n' && target[2] != '\n'
    ensures Match(RemoveAfterVersion, ") from " + target) == Some([""])
  {
    var any3 := Then(AnyChar, Then(AnyChar, Then(AnyChar, Done)));
    LazyBeforeThreeAny(target);
    MatchSpace(' ', Then(Lazy, any3), target);
    MatchLit("from", Then(Space, Then(Lazy, any3)), [' '] + target);
    MatchSpace(' ', Then(Lit("from"), Then(Space, Then(Lazy, any3))), "from" + ([' '] + target));
    MatchLit(")", Then(Space, Then(Lit("from"), Then(Space, Then(Lazy, any3)))), [' '] + ("from" + ([' '] + target)));
    assert ") from " + target == ")" + ([' '] + ("from" + ([' '] + target)));
  }

  lemma RemoveAfterPackageExample(version: string, target: string)
    requires NoNewline(version) && forall i :: 0 <= i < |version| ==> version[i] != ')'
    requires |target| >= 3 && target[0] != '\n' && target[1] != '\n' && target[2] != '\n'
    ensures Match(RemoveAfterPackage, " (" + version + ") from " + target) == Some([version, ""])
  {
    var t := ") from " + target;
    RemoveAfterVersionExample(target);
    LazyThen(version, RemoveAfterVersion, t, [""]);
    MatchLit("(", Then(Lazy, RemoveAfterVersion), version + t);
    MatchSpace(' ', Then(Lit("("), Then(Lazy, RemoveAfterVersion)), "(" + (version + t));
    assert " (" + version + ") from " + target == [' '] + ("(" + (version + (") from " + target)));
    assert [version] + [""] == [version, ""];
  }

  /** A typical remove line reports its package, whatever the three
      characters after the start of the target are. */
  lemma RemoveLineExample(pkg: string, version: string, target: string)
    requires NoSpace(pkg) && NoNewline(pkg)
    requires NoNewline(version) && forall i :: 0 <= i < |version| ==> version[i] != ')'
    requires |target| >= 3 && target[0] != '\n' && target[1] != '\n' && target[2] != '\n'
    ensures RemoveLineReport("Removing " + pkg + " (" + version + ") from " + target) == Some(pkg)
  {
    var s2 := " (" + version + ") from " + target;
    RemoveAfterPackageExample(version, target);
    RemovePatternOn(pkg, s2, [version, ""]);
    assert "Removing " + pkg + " (" + version + ") from " + target == "Removing " + pkg + s2;
  }

  lemma RemovePatternOn(pkg: string, s2: string, gs: seq<string>)
    requires NoSpace(pkg) && NoNewline(pkg)
    requires Match(RemoveAfterPackage, s2) == Some(gs)
    ensures Match(RemovePattern, "Removing " + pkg + s2) == Some([pkg] + gs)
  {
    LazyThen(pkg, RemoveAfterPackage, s2, gs);
    MatchSpace(' ', Then(Lazy, RemoveAfterPackage), pkg + s2);
    MatchLit("Removing", Then(Space, Then(Lazy, RemoveAfterPackage)), [' '] + (pkg + s2));
    assert "Removing " + pkg + s2 == "Removing" + ([' '] + (pkg + s2));
  }
}
