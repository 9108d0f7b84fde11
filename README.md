# A verified model of Salt's opkg execution module

This project models the package-operation logic of `salt/modules/opkg.py`, Salt's package module for opkg-based systems such as NI Linux RT. The model leaves out the processes, the event bus, the clock and the file system. What remains is the module's own string, list and dictionary logic, written in Dafny and proved against specifications. Processes and helper modules whose code is not part of the model become parameters:

- the opkg tool, with its result for each attempt of a command line;
- `shlex.quote`, `shlex_split` and `LooseVersion`;
- the version comparison used by `install` (`salt.utils.versions.compare` with `version_cmp`);
- the package snapshots before and after an operation.

Modules follow the structure of the source:

- `Wrappers` (wrappers.dfy): `Option` and `Result`. The `Result` error names the Python exception a path raises (IndexError, ValueError, KeyError, TypeError, SaltInvocationError, CommandExecutionError).
- `Text` (text.dfy): the CPython string operations the module uses: `split`, `split(sep)`, `split(sep, 1)`, `strip`, `splitlines`, `lower`, `join`, `str(int)`.
- `Dicts` (dicts.dfy): dictionaries whose insertion order is observable.
- `ToolInvoker` (tool.dfy): `_call_opkg` and its retry while the opkg lock is held.
- `OutputClassifier` (classifier.dfy): classifying opkg's progress lines and counting the packages of a dry run.
- `LazyPattern` (lazy_pattern.dfy): anchored `re.match` for the dry-run patterns, with lazy `(.*?)` groups. It is proved sound and complete against a declarative `Matches`.
- `DryRunReports` (dry_run.dfy): the install and remove dry-run report parsers.
- `VersionConstraint` (version_constraint.dfy): `_get_version_info`, a leftmost `re.search` over the operator alternation.
- `ProgressMonitor` (progress.dfy): the progress state machine of `_process_with_progress`. It is a `Monitor` class whose `Step` is proved against a pure `Advance`.
- `InstallPlan` (install.dfy): the command prefix, the sorting of requests into `to_install`, `to_install_detached`, `to_reinstall` and `to_downgrade`, `_build_install_command_list`, and `_execute_install_command`.
- `InstallRun` (install_run.dfy): the rest of `install`, from running the commands to the change dictionary.
- `ChangeSets` (changes.dfy): the change dictionaries of `compare_dicts` and the dry-run corrections to the after snapshot.
- `RemovePlan` (remove.dfy): `remove` and `_execute_remove_command`.
- `FeedRefresh` (refresh.dfy): `refresh_db` and its feed-status parser.
- `InfoInstalled` (info_installed.dfy): the record parser `_process_info_installed_output` and `_convert_to_standard_attr`.
- `PackageLists` (listing.dfy): the `list-installed` and `list-upgradable` parsers (`_execute_list_pkgs`, `list_upgrades`, `latest_version`).
- `PackageQueries` (queries.dfy): `_get_state`, the `file_dict` scan and the `owner` split.
- `HoldState` (hold.dfy): `hold`, `unhold` and `_set_state`.
- `VersionCompare` (version_compare.dfy): `version_cmp`, with its epoch normalisation and three-probe loop.
- `RepoConfig` (repo.dfy): the repository-line helpers. The proofs include the round trip from `_add_new_repo`'s line back through `_create_repo`.

The source's loops are methods with loop invariants. Each method is proved equal to a specification function, and the properties below are proved about those functions. `_call_opkg`'s retry, the progress loop, the bucketing loops, `refresh_db`'s `prev_line` loop, the record parser and the `file_dict` scan with its `break` are modelled this way. State that the source updates in place is a class whose methods carry `modifies` clauses: the progress monitor (`ProgressMonitor.Monitor`) and the error and report accumulators (`InstallPlan.Accumulated`).

Where the code and its documentation disagree, the model follows the code. Four such points:

- `_get_total_packages` counts lines without the third-token guard that the package extractor applies.
- `refresh_db` runs with `redirect_stderr`, so in the source the lock marker `_call_opkg` looks for in standard error is never there; the model does not restrict the oracle this way (see "## Left out").
- The remove parser at 903-918 is overridden by the redefinition at 940-957; only the latter is modelled.
- In test mode, `unhold` writes the top-level `comment` key instead of the target's own comment (1247).

## Model

| member | source | states |
|---|---|---|
| OutputClassifier.WordOperation | salt/modules/opkg.py:465-473 | a word that is recognised is the word of the operation it maps to, and it maps to a download only when downloads are asked for |
| OutputClassifier.WordOperationOfWord | salt/modules/opkg.py:465-473 | each of Installing, Upgrading, Removing and Downgrading maps to its operation; Downloading maps to a download exactly when downloads are asked for |
| OutputClassifier.OperationOfSpec | salt/modules/opkg.py:456-475 | a line names an operation iff it has a first whitespace token, that token is the operation's word, and for a download, downloads are asked for |
| OutputClassifier.CountOperations | salt/modules/opkg.py:441-454 | the count of lines that name an operation without downloads is at most the number of lines |
| OutputClassifier.CountIgnoresDownloads | salt/modules/opkg.py:453-454 | without downloads, a line never counts as a download, and it counts iff with downloads it names one of the four changing operations |
| OutputClassifier.BlankLine | salt/modules/opkg.py:475-510 | an empty or whitespace-only line names neither an operation nor a package, with or without downloads |
| OutputClassifier.ThirdTokenGuard | salt/modules/opkg.py:477-510 | on `<Word> <w1> <w2>...` a changing operation is named, and the package is `w1` exactly when the third token `w2` starts with `(` ("Installing vim (17.0.0) on root" gives vim; "Removing any package that" gives none) |
| OutputClassifier.ShortLine | salt/modules/opkg.py:494-496 | a line with fewer than three tokens that is not a package download names no package |
| OutputClassifier.DownloadLine | salt/modules/opkg.py:488-510 | a line `Downloading <url>/<name>_<rest>.ipk.\n` gives the download operation and the package `name`, the text between the last `/` and the first `_` after it |
| OutputClassifier.DownloadOf | salt/modules/opkg.py:488-490 | a download line that ends in `.ipk.\n` names the part before the first `_` of its last `/`-separated piece |
| OutputClassifier.ThreeTokens | salt/modules/opkg.py:471-494 | `line.split()` of three space-free words joined by spaces, then text that starts with whitespace, begins with those three words |
| Dicts.Empty | salt/modules/opkg.py:1451 | the empty dictionary is well formed and has no key |
| Dicts.Put | salt/modules/opkg.py:1470-1484 | an assignment keeps the dictionary well formed, maps the key to the value, leaves every other key alone, and appends a new key at the end of the insertion order while an existing key keeps its place |
| Dicts.PutFirst | salt/modules/opkg.py:841 | the first key in insertion order is the first key ever set, whatever is assigned later |
| ChangeSets.DiffSpec | salt/modules/opkg.py:825 | a package is in the changes iff it was added, removed or changed its version, and its entry holds the version before and after, "" for a missing one (see also 1026) |
| ChangeSets.DiffSame | salt/modules/opkg.py:825 | equal snapshots give no changes (see also 1026) |
| ChangeSets.Overlay | salt/modules/opkg.py:821-823 | the dry-run after snapshot of install has the listed and the reported packages, a reported version taking precedence |
| ChangeSets.Subtract | salt/modules/opkg.py:1023-1024 | the dry-run after snapshot of remove is the listed snapshot without the reported packages, the rest unchanged |
| ChangeSets.OverlayReported | salt/modules/opkg.py:821-825 | a package a dry-run install reports is a change iff it was not installed at the reported version, and its new version is the reported one |
| ChangeSets.SubtractReported | salt/modules/opkg.py:1023-1026 | a package a dry-run remove reports that was installed shows up as removed, from its version to "" |
| ChangeSets.AddReinstalledSpec | salt/modules/opkg.py:843-847 | adding the reinstalled names adds exactly those keys, leaves every other entry alone, and gives a reinstalled name installed before (or not yet a change) its versions in both snapshots |
| ChangeSets.AddReinstalledDiff | salt/modules/opkg.py:832-847 | on top of the snapshot differences, every entry of the result holds the package's versions before and after |
| ChangeSets.AddReinstalledEntries | salt/modules/opkg.py:843-847 | the loop that updates the change dictionary in place yields the reinstalled entries added in order |
| DryRunReports.PatternGroups | salt/modules/opkg.py:421-429 | the install, internal-solver upgrade, libsolv upgrade and remove patterns have 3, 4, 5 and 3 groups (see also 948-950) |
| DryRunReports.InstallLineReportSpec | salt/modules/opkg.py:430-437 | a line reports nothing iff none of the three patterns matches it; otherwise its package and version are the named groups of a match of the first pattern, in source order, that matches |
| DryRunReports.RemoveLineReportSpec | salt/modules/opkg.py:951-955 | a line reports a removal iff the remove pattern matches it, and the package is the `package` group of that match |
| DryRunReports.StoreKeys | salt/modules/opkg.py:430-437 | the reported dictionary holds a package iff some line reports it (see also 951-955) |
| DryRunReports.StoreLastWins | salt/modules/opkg.py:437 | a stored package's value is the one of a report of it that no later report of it follows |
| DryRunReports.InstallReports | salt/modules/opkg.py:426-437 | one report per output line, each the report of its own line |
| DryRunReports.RemoveReports | salt/modules/opkg.py:951-955 | one report per output line, each the line's removed package paired with "" |
| DryRunReports.ParseReportedInstall | salt/modules/opkg.py:408-439 | the loop that updates `reported_pkgs` in place ends with the dictionary the line reports build, applied in order |
| DryRunReports.ParseReportedRemove | salt/modules/opkg.py:940-957 | the loop that updates `reported_pkgs` in place ends with the dictionary the line reports build, applied in order |
| DryRunReports.InstallReportLastWins | salt/modules/opkg.py:430-437 | the install parser stores a package iff some line reports it, with the version from the last line that reports it |
| DryRunReports.RemoveReportKeys | salt/modules/opkg.py:951-957 | the remove parser stores exactly the packages some line reports, each mapped to "" |
| DryRunReports.InstallLineExample | salt/modules/opkg.py:417-437 | `Installing <pkg> (<version>) on <target>` reports (pkg, version) when pkg has no whitespace and version no `)`: the lazy groups stop at the first possible place |
| DryRunReports.InternalUpgradeLineExample | salt/modules/opkg.py:420-437 | `Upgrading <pkg> from <old> to <version> on <target>` reports (pkg, version) for whitespace-free words |
| DryRunReports.RemoveLineExample | salt/modules/opkg.py:948-950 | `Removing <pkg> (<version>) from <target>` reports pkg when the target has three characters other than a newline, which the trailing `...` needs |
| DryRunReports.RemoveAfterVersionExample | salt/modules/opkg.py:949-950 | after `from\s`, the lazy target group is empty and the `...` takes any three characters that are not newlines |
| DryRunReports.InstallPatternOn | salt/modules/opkg.py:421-423 | the install pattern on `Installing <pkg>` followed by text gives pkg as its first group, then the groups the rest of the pattern finds |
| DryRunReports.UpgradePatternOn | salt/modules/opkg.py:424-426 | the internal-solver upgrade pattern on `Upgrading <pkg>` followed by text gives pkg as its first group, then the groups the rest finds |
| DryRunReports.RemovePatternOn | salt/modules/opkg.py:948-950 | the remove pattern on `Removing <pkg>` followed by text gives pkg as its first group, then the groups the rest finds |
| LazyPattern.Match | salt/modules/opkg.py:431-435 | a match found holds one captured text per group of the pattern (see also 953) |
| LazyPattern.MatchLazy | salt/modules/opkg.py:421-429 | a lazy group that succeeds captures a prefix of the text at least as long as what it has consumed, and the rest of the pattern matches what follows it (see also 948-950) |
| LazyPattern.MatchSound | salt/modules/opkg.py:431-435 | whatever the matcher returns is a match of the pattern at the start of the line (see also 953) |
| LazyPattern.MatchComplete | salt/modules/opkg.py:431-435 | whenever some match exists at the start of the line, the matcher finds one (see also 953) |
| LazyPattern.MatchIff | salt/modules/opkg.py:431-436 | `re.match` succeeds on the line iff the pattern matches a prefix of it (see also 953-954) |
| LazyPattern.MatchLazyEarliest | salt/modules/opkg.py:421-429 | a lazy `(.*?)` group stops at the first length at which the rest of the pattern matches (see also 948-950) |
| LazyPattern.ShortestFirstGroup | salt/modules/opkg.py:421-429 | the first group of the match found is no longer than the first group of any match (see also 948-950) |
| LazyPattern.LazyExact | salt/modules/opkg.py:421-429 | a lazy group followed by whitespace or a literal captures exactly the text of a match in which none of its characters could start what follows (see also 948-950) |
| LazyPattern.LazyThen | salt/modules/opkg.py:421-429 | a lazy group followed by whitespace or a literal takes exactly `g` when no character of `g` can start what follows and the rest matches (see also 948-950) |
| LazyPattern.LazyLast | salt/modules/opkg.py:421-429 | a final `(?P<target>.*?)` matches the empty text, so the target group is always empty |
| LazyPattern.LazyBeforeThreeAny | salt/modules/opkg.py:949-950 | `(.*?)...` at the end captures nothing when three characters other than a newline follow |
| VersionConstraint.OperatorsAreAlternatives | salt/modules/opkg.py:894 | every operator alternative of the pattern is made of operator characters only, none a digit or whitespace |
| VersionConstraint.DigitRunSpec | salt/modules/opkg.py:894 | the digit run from a position holds only digits and ends at the first non-digit |
| VersionConstraint.ClassRunSpec | salt/modules/opkg.py:894 | the run of `[a-zA-Z0-9+~.-]` characters holds only them and ends at the first other character |
| VersionConstraint.DigitRunLongest | salt/modules/opkg.py:894 | no run of digits from the position is longer than the one found (greedy `[0-9]+`) |
| VersionConstraint.ClassRunLongest | salt/modules/opkg.py:894 | no run of version characters is longer than the one found (greedy `[a-zA-Z0-9+~.-]*`) |
| VersionConstraint.TokenEnd | salt/modules/opkg.py:894 | a version found at a position ends after it and within the text |
| VersionConstraint.VersionStart | salt/modules/opkg.py:894 | the version starts right after the operator or after one whitespace character (`\s?`) |
| VersionConstraint.FirstOperator | salt/modules/opkg.py:894-895 | the operator chosen at a position is an alternative followed there by a version; none is chosen only when no alternative is |
| VersionConstraint.SearchFrom | salt/modules/opkg.py:895 | a match found lies at or after the start position, with an alternative followed by a version |
| VersionConstraint.TokenEndSound | salt/modules/opkg.py:894 | the version found has the shape `(?:[0-9]+:)?[0-9][a-zA-Z0-9+~.-]*` |
| VersionConstraint.TokenEndLongest | salt/modules/opkg.py:894 | any text of the version shape at a position is found there and ends no later than the one found |
| VersionConstraint.OperatorUnique | salt/modules/opkg.py:894 | at most one alternative can begin a match at a given position |
| VersionConstraint.StartUnique | salt/modules/opkg.py:894 | a version after an operator can start at one place only |
| VersionConstraint.FirstOperatorSpec | salt/modules/opkg.py:894-895 | the alternatives tried in order at a position find the match there with the longest version, or none exists there |
| VersionConstraint.SearchFound | salt/modules/opkg.py:895 | what the search finds is the leftmost match, with the operator and longest version there |
| VersionConstraint.SearchNone | salt/modules/opkg.py:895 | when the search finds nothing, no match begins anywhere in the condition |
| VersionConstraint.ShapeSlice | salt/modules/opkg.py:894 | a slice has the version shape iff its text has it |
| VersionConstraint.InfoWithSpec | salt/modules/opkg.py:884-900 | for any operator alternatives made of operator characters, the triple is (condition, "", False) iff nothing matches; otherwise its operator is an alternative and its version has the version shape, both from the leftmost match |
| VersionConstraint.GetVersionInfoSpec | salt/modules/opkg.py:884-900 | `_get_version_info` with the ten operators of the pattern returns the triple just described |
| VersionConstraint.PlainCondition | salt/modules/opkg.py:891-900 | a condition without operator characters, such as a bare version, comes back unchanged with no operator and False |
| ToolInvoker.AttemptsFrom | salt/modules/opkg.py:297-304 | once `k` runs were locked, the loop makes more than `k` and at most five runs |
| ToolInvoker.AttemptsFromSpec | salt/modules/opkg.py:297-304 | counting from `k`, every run before the last is locked, and the last is unlocked unless it is the fifth |
| ToolInvoker.OutcomeSpec | salt/modules/opkg.py:297-304 | `_call_opkg` runs the tool one to five times; every run before the last reported the lock marker on stderr; the result is the first unlocked one, or the fifth |
| ToolInvoker.CallOpkg | salt/modules/opkg.py:288-304 | the retry loop returns the result of its last run, having made one to five runs, all but the last locked, the last unlocked unless five were made, and slept two seconds before each retry |
| ProgressMonitor.InitialValid | salt/modules/opkg.py:518-525 | the starting values of the loop variables satisfy the progress invariant: no event, nothing sent |
| ProgressMonitor.AdvanceValid | salt/modules/opkg.py:540-574 | one iteration keeps the invariant: every event names a package, consecutive events name different packages, the last event names the last package sent, and nothing is sent before a package is current |
| ProgressMonitor.AdvanceCount | salt/modules/opkg.py:550-557 | the processed count goes up by exactly one when the line names an install, upgrade, remove or downgrade with a package, and stays put otherwise |
| ProgressMonitor.AdvanceFires | salt/modules/opkg.py:558-574 | an event is fired iff the period has passed or an update is forced, and the current package is not the last one sent; it carries the job id, operation, package, count and total, and then the package is recorded as sent, the update is no longer forced and the time is recorded; otherwise no event is fired and nothing is recorded |
| ProgressMonitor.AdvanceAppends | salt/modules/opkg.py:558-574 | an iteration keeps the events fired so far and adds at most one |
| ProgressMonitor.RunValid | salt/modules/opkg.py:540-574 | every state the loop reaches satisfies the progress invariant, so no two consecutive events repeat a package |
| ProgressMonitor.RunStdout | salt/modules/opkg.py:549-550 | the accumulated output is the lines read, concatenated |
| ProgressMonitor.RunCount | salt/modules/opkg.py:553-556 | a run in which every line names a package change counts every line |
| ProgressMonitor.RunFirstEvent | salt/modules/opkg.py:556-574 | when the first line names a package change, the first event fired names that package, since a count of one forces an update |
| ProgressMonitor.FirstLine | salt/modules/opkg.py:556-574 | a first counted line fires exactly one event, with count 1 |
| ProgressMonitor.CountedRun | salt/modules/opkg.py:553-574 | when every line names a package change and the total is the number of lines, every line is counted, the first package is announced first, and the last package is announced last, since reaching the total forces an update |
| ProgressMonitor.Monitor.constructor | salt/modules/opkg.py:518-525 | the monitor starts from the loop's initial values |
| ProgressMonitor.Monitor.Step | salt/modules/opkg.py:548-574 | one iteration updates the fields in place to the state `Advance` gives for the line and the clock reading |
| ProgressMonitor.ProcessWithProgress | salt/modules/opkg.py:513-583 | the result holds the exit code, the lines read followed by the rest of the output, and stderr; the events are those the run fires |
| InstallPlan.InstallPrefix | salt/modules/opkg.py:729-750 | the prefix starts with `opkg install` |
| InstallPlan.PrefixFlags | salt/modules/opkg.py:376-381 | the prefix has `--noaction` iff the run is a test, `--force-reinstall` iff package files are reinstalled, `--force-downgrade` iff package files are installed without only_upgrade, and `--no-install-recommends` iff repository packages are installed without recommends (see also 736-750) |
| InstallPlan.HandleBucket | salt/modules/opkg.py:869-881 | a package goes to the detached list iff it is in PACKAGES_TO_INSTALL_DETACHED, and to `to_install` otherwise |
| InstallPlan.Conditions | salt/modules/opkg.py:768 | splitting a version on `,` gives at least one condition |
| InstallPlan.Infos | salt/modules/opkg.py:769-770 | one `_get_version_info` triple per condition, in order |
| InstallPlan.ConditionPlacementsSpec | salt/modules/opkg.py:772-794 | each version condition of a request yields exactly one placement, the one its own condition decides |
| InstallPlan.Items | salt/modules/opkg.py:734-737 | a list holds at most as many items as there are placements |
| InstallPlan.ItemsAppend | salt/modules/opkg.py:734-737 | a placement appends its item to its own list only |
| InstallPlan.SortedAppend | salt/modules/opkg.py:759-794 | sorting one more placement appends its item to its list and leaves the three others alone |
| InstallPlan.SortedConcat | salt/modules/opkg.py:759-794 | the lists of requests placed one after the other are the lists of each, concatenated |
| InstallPlan.SortedTotal | salt/modules/opkg.py:759-794 | every placement lands in exactly one of the four lists |
| InstallPlan.ItemsIn | salt/modules/opkg.py:759-794 | an item is in a list exactly when it was placed there |
| InstallPlan.ItemsConcat | salt/modules/opkg.py:759-794 | a list built from two runs of placements is the list of the first run followed by that of the second |
| InstallPlan.ConditionBuckets | salt/modules/opkg.py:772-794 | through its version conditions, a package installed by a detached process never reaches `to_install`, another package never reaches the detached list, and nothing is downgraded when only upgrading (see also 869-881) |
| InstallPlan.DetachedPlacement | salt/modules/opkg.py:759-794 | the same for a whole request, and a request without a version never goes to the detached list, since 759-765 append to `to_install` directly (see also 869-881) |
| InstallPlan.ItemsNone | salt/modules/opkg.py:759-794 | a list no placement goes to stays empty |
| InstallPlan.AllPlacementsAvoid | salt/modules/opkg.py:759-794 | with only_upgrade no placement is a downgrade, and without a request for a detached package no placement is detached |
| InstallPlan.OnlyUpgradeNoDowngrade | salt/modules/opkg.py:788-794 | with only_upgrade nothing is appended to `to_downgrade` |
| InstallPlan.NoDetachedRequest | salt/modules/opkg.py:766-794 | without a request for a package in PACKAGES_TO_INSTALL_DETACHED, `to_install_detached` stays empty (see also 869-881) |
| InstallPlan.EveryConditionPlaced | salt/modules/opkg.py:759-794 | every version condition, and every request without a version, lands in exactly one of the four lists |
| InstallPlan.PlacementCount | salt/modules/opkg.py:759-794 | the number of placements is the number of version conditions plus the number of requests without a version |
| InstallPlan.NoVersionReinstall | salt/modules/opkg.py:759-765 | a request without a version goes to `to_reinstall` iff reinstall is set and the package was installed before, and to `to_install` under its bare name otherwise |
| InstallPlan.ConditionItem | salt/modules/opkg.py:773-794 | a condition with an operator goes to the solver as name, operator and version and is neither reinstalled nor downgraded; one without goes as `<name>=<version_num>` and is a downgrade iff it is not reinstalled, the installed version is neither missing nor at most the requested one, and only_upgrade is not set |
| InstallPlan.Planned | salt/modules/opkg.py:738-794 | there is no plan iff no target is given; a plan has the prefix for its options, and package files all go to `to_install`; the `version` keyword argument counts only when `UsesVersionArgument` holds of `name` given without `pkgs` and a single request |
| InstallPlan.PlanInstall | salt/modules/opkg.py:723-794 | the bucketing, appending to the four lists in place, gives the plan `Planned` describes, with the `version` keyword argument used only as `UsesVersionArgument` says |
| InstallPlan.SortRequests | salt/modules/opkg.py:759-794 | the loop over the requests fills the four lists with the placements of all requests, in order |
| InstallPlan.PlaceCondition | salt/modules/opkg.py:773-794 | the loop body puts one version condition where `ConditionPlacement` says |
| InstallPlan.SortRequest | salt/modules/opkg.py:760-794 | one request appends to the four lists exactly its placements |
| InstallPlan.SortConditions | salt/modules/opkg.py:772-794 | the loop over one request's conditions appends the placement of each, in order |
| InstallPlan.CommandList | salt/modules/opkg.py:384-405 | one command per non-empty list: `|cmds|` is the number of non-empty lists among install, downgrade and reinstall, in that order; the install command is the prefix and the packages, the downgrade one the prefix, `--force-downgrade` and the packages, the reinstall one the prefix, `--force-reinstall` and the packages; none iff all three lists are empty |
| InstallPlan.BuildInstallCommandList | salt/modules/opkg.py:384-405 | the commands built by appending to fresh copies of the prefix, without changing the prefix itself, are those `CommandList` describes: install, then `--force-downgrade`, then `--force-reinstall`, each for a non-empty list |
| InstallPlan.TotalCount | salt/modules/opkg.py:441-454 | the expected package count is -1 or more |
| InstallPlan.TotalPackages | salt/modules/opkg.py:441-454 | the count is -1 iff the dry run of the command fails, and otherwise at most the number of output lines |
| InstallPlan.InstallMode | salt/modules/opkg.py:592-607 | progress is reported iff progress notification is on and the command is neither parsed nor detached; a command runs detached iff it is detached and not parsed; a parsed command runs plainly |
| InstallPlan.DetachedResult | salt/modules/opkg.py:600-606 | a detached run keeps only its exit code, and a failed one carries a non-empty message in place of stderr |
| InstallPlan.Accumulated.constructor | salt/modules/opkg.py:812-814 | the error list and report dictionary start as given |
| InstallPlan.Accumulated.Record | salt/modules/opkg.py:608-615 | a failure appends its stderr, or its stdout when stderr is empty, to the errors; a success of a parsed command merges the reported packages in; nothing else changes |
| InstallPlan.ExecuteInstallCommand | salt/modules/opkg.py:585-615 | the command runs in the mode its options select, and its result updates the caller's errors and report in place as `Record` says |
| InstallRun.FeedError | salt/modules/opkg.py:808-811 | there is no feed message iff no feed failed; otherwise it is "Error getting repos: " followed by the failed feeds joined with ", " |
| InstallRun.FeedStatusSpec | salt/modules/opkg.py:804-811 | without a refresh there is no feed message; a message is kept only after a refresh in which some feed failed, and then every failed feed is among the feeds it names |
| InstallRun.RunAllSpec | salt/modules/opkg.py:812-817 | starting from nothing, no error is collected iff every command succeeds, each command adds at most one error, and outside test mode nothing is reported (see also 608-615) |
| InstallRun.RunInstallCommands | salt/modules/opkg.py:816-817 | the loop that runs the commands with `_execute_install_command` updates the caller's errors and report in place to what the commands, run in order, collect |
| InstallRun.CollectRuns | salt/modules/opkg.py:812-817 | the commands run from empty `errors` and `test_packages` collect what `RunAll` describes |
| InstallRun.FileNameSpec | salt/modules/opkg.py:828-835 | reading a package file's name never raises KeyError; a name read comes from a successful `opkg info`, is not empty, and is a package name of its output |
| InstallRun.FileNamesSpec | salt/modules/opkg.py:826-835 | the names read for the package files number at most one per file, none is empty, and no KeyError is raised |
| InstallRun.FileNamesStuck | salt/modules/opkg.py:826-835 | once reading one file's name raises, the loop raises that error |
| InstallRun.FileNamesStep | salt/modules/opkg.py:826-835 | one more file appends its name, if any, to the names read so far |
| InstallRun.ReadFileNames | salt/modules/opkg.py:826-835 | the loop over the package files reads the names `FileNames` describes, or raises its error |
| InstallRun.InstallFinishSpec | salt/modules/opkg.py:819-856 | the install fails iff an error was collected, with the collected errors followed by the feed message; otherwise every reinstalled name has an entry, a dry run shows a reported package with its reported version unless that version was already installed, and a real run with nothing reinstalled gives exactly the differences of the snapshots |
| InstallRun.AsWrittenTypeError | salt/modules/opkg.py:585 | as written, once the refresh succeeded, every install with a command to run fails with TypeError, and so does every install of package files (see also 816-817) |
| InstallRun.DetachedOnly | salt/modules/opkg.py:795-817 | a plan without commands gives the same result as written and as intended, and a plan with only detached packages gives the differences of the snapshots, nothing having run |
| InstallRun.NothingRun | salt/modules/opkg.py:819-847 | with nothing run and nothing to reinstall, the changes are the differences of the snapshots |
| InstallRun.IntendedErrors | salt/modules/opkg.py:812-856 | with the call as its definition asks, the install fails iff some command fails, with every command's error followed by the feed message, and a successful install lists every reinstalled name |
| InstallRun.RefreshFeeds | salt/modules/opkg.py:804-811 | the refresh runs `refresh_db` only when asked, and gives the feed message `FeedStatus` describes or the refresh error |
| InstallRun.FinishRun | salt/modules/opkg.py:819-856 | reading the reinstalled names and building the result gives what `AfterRun` describes |
| InstallRun.RunTail | salt/modules/opkg.py:795-856 | the end of install gives what `InstallTail` describes |
| InstallRun.Install | salt/modules/opkg.py:716-856 | `install` fails with the before-listing errors when there are any, returns no changes when no target is given, and otherwise plans and runs as `InstallTail` describes |
| RemovePlan.RemoveTargets | salt/modules/opkg.py:1003 | there are no more targets than requested packages |
| RemovePlan.RemoveTargetsSpec | salt/modules/opkg.py:1003-1005 | a package is a target iff it was requested and is installed, so there is no target iff no requested package is installed |
| RemovePlan.RemoveTargetsAll | salt/modules/opkg.py:1003 | when every requested package is installed, the targets are the request itself, in order |
| RemovePlan.RemoveFlags | salt/modules/opkg.py:1007-1011 | at most three flags: `--noaction` iff test mode, first when present; `--force-removal-of-dependent-packages` iff remove_dependencies; `--autoremove` iff auto_remove_deps, last when present |
| RemovePlan.RemoveCommandSpec | salt/modules/opkg.py:1003-1012 | a command runs iff some requested package is installed; it starts with `opkg remove` and the flags, and what follows them are exactly the requested packages that are installed |
| RemovePlan.ExecuteRemoveCommand | salt/modules/opkg.py:920-938 | the command runs with progress iff notification is on outside test mode; a failure appends its stderr, or its stdout when stderr is empty, to the errors; a dry run's success merges in the packages its output reports, each mapped to ""; nothing else changes |
| RemovePlan.RemoveNothing | salt/modules/opkg.py:1003-1005 | with no requested package installed, no command runs and there are no changes |
| RemovePlan.RemoveFinishSpec | salt/modules/opkg.py:1017-1038 | remove fails iff its command fails, with that command's error text; otherwise a real run reports the differences of the snapshots, and a dry run reports every installed package its output names as removed |
| RemovePlan.BuildRemoveCommand | salt/modules/opkg.py:1003-1012 | building the target list and the command by appending gives the command `RemoveCommand` describes, or none |
| RemovePlan.InstalledTargets | salt/modules/opkg.py:1003 | the comprehension keeps the requested packages that are installed, in order |
| RemovePlan.Remove | salt/modules/opkg.py:960-1038 | `remove` runs the command `RemoveCommand` gives, if any, once, and its result is what `RemoveResult` describes |
| FeedRefresh.ParseFeedsGood | salt/modules/opkg.py:340-356 | the loop keeps each feed once in `ret`, every failed feed in `ret`, a feed whose last status is a failure among `error_repos`, and `prev_line` the last line read |
| FeedRefresh.RefreshSpec | salt/modules/opkg.py:340-366 | a returned table lists each feed once and is False only for a feed that failed; with failhard every feed in it is True; a non-zero exit code is accepted only when some feed failed |
| FeedRefresh.FailedFeedsSpec | salt/modules/opkg.py:808 | a feed is listed as failed iff the table holds False for it |
| FeedRefresh.ParseFeedLines | salt/modules/opkg.py:338-356 | the loop that carries `prev_line` and appends to `error_repos` ends with what `ParseFeeds` gives, or the IndexError of the first line with too few words |
| FeedRefresh.ParseFeedsStuck | salt/modules/opkg.py:340-356 | once a line raises, the loop raises that error |
| FeedRefresh.ParseFeedsStop | salt/modules/opkg.py:341-356 | a line whose feed cannot be read raises, and so does the whole parse |
| FeedRefresh.RefreshDb | salt/modules/opkg.py:307-366 | `refresh_db` runs `opkg update` through `_call_opkg`, and with failhard raises on any failed feed, naming them in order; raises with the output on a non-zero exit code when no feed failed; and otherwise returns the feed table |
| InfoInstalled.ConvertAttrSpec | salt/modules/opkg.py:43-50 | a standard attribute name holds no capital letter; it is `name` iff the key is `Package` or lower-cases to `name` outside ATTR_MAP; a key in ATTR_MAP gets its mapped name (see also 1430-1441) |
| InfoInstalled.StepGood | salt/modules/opkg.py:1471-1481 | a `key: value` line keeps the parser invariant |
| InfoInstalled.ContinueGood | salt/modules/opkg.py:1454-1462 | a continuation line keeps the parser invariant |
| InfoInstalled.CloseGood | salt/modules/opkg.py:1464-1470 | a blank line keeps the parser invariant |
| InfoInstalled.SetAttrGood | salt/modules/opkg.py:1476-1481 | setting the name or a filtered attribute keeps the parser invariant |
| InfoInstalled.RunGood | salt/modules/opkg.py:1453-1481 | every state the loop reaches keeps the invariant: each stored record is under a non-empty name that a `Package` line set, holds no `name` attribute and, under a filter, only filtered attributes |
| InfoInstalled.ParseLinesSpec | salt/modules/opkg.py:1444-1485 | every record returned is stored under a name a `Package` line of the output set, holds no `name` attribute, and under a filter holds only filtered attributes |
| InfoInstalled.NoKeyError | salt/modules/opkg.py:1454-1462 | with a filter that leaves out `name`, as install's `[]` does, no continuation line raises KeyError |
| InfoInstalled.Closing | salt/modules/opkg.py:1464-1485 | a blank line and the end of the input both close the open record, which is stored under its name when it has one and dropped otherwise |
| InfoInstalled.Continuation | salt/modules/opkg.py:1454-1462 | a continuation line of an allowed attribute appends its stripped text to that attribute, after a newline only when the value was non-empty, and changes nothing else |
| InfoInstalled.ProcessInfoInstalledOutput | salt/modules/opkg.py:1444-1485 | the loop that updates `name`, `attrs`, `attr` and `ret` in place gives what `ParseOutput` describes, or the first exception a line raises |
| InfoInstalled.ReadLine | salt/modules/opkg.py:1453-1481 | the loop body for one line gives the new loop variables `Step` describes, or its exception |
| InfoInstalled.RunNext | salt/modules/opkg.py:1453 | one more line advances the loop by one step |
| InfoInstalled.RunStops | salt/modules/opkg.py:1453-1481 | once a line raises, the loop raises that error |
| PackageLists.InstalledEntrySpec | salt/modules/opkg.py:1385 | a line gives an entry iff it holds " - "; the name is the text before the first separator, and the line starts with the name, the separator and the version |
| PackageLists.PackageLines | salt/modules/opkg.py:1380-1381 | the lines kept are neither empty nor continuations of a description |
| PackageLists.InstalledEntriesSpec | salt/modules/opkg.py:1378-1386 | listing succeeds iff every package line holds the separator, and raises ValueError otherwise; it gives one entry per package line, in order, each the leading name and version of its line |
| PackageLists.ListInstalledErrors | salt/modules/opkg.py:1370-1377 | a failed `opkg list-installed` appends exactly one error, its stderr or else its stdout wrapped in a list, and lists nothing; a successful one appends none |
| PackageLists.InstalledStuck | salt/modules/opkg.py:1378-1386 | once a line raises, listing raises that error |
| PackageLists.ListInstalled | salt/modules/opkg.py:1349-1393 | `_execute_list_pkgs` runs `opkg list-installed` through `_call_opkg` and leaves the errors and entries `ListInstalledOutcome` describes |
| PackageLists.UpgradeFieldsSpec | salt/modules/opkg.py:257 | a line that unpacks into three fields holds the separator, and the name it offers holds none (see also 1424) |
| PackageLists.UpgradesOk | salt/modules/opkg.py:1423-1425 | the upgrade table is an error iff some line does not split into exactly three fields, and that error is ValueError |
| PackageLists.UpgradesKeys | salt/modules/opkg.py:1423-1425 | the upgrade table holds exactly the packages the lines name |
| PackageLists.UpgradesLast | salt/modules/opkg.py:1423-1425 | a package holds the new version of the last line that names it |
| PackageLists.UpgradesStuck | salt/modules/opkg.py:1423-1425 | once a line raises, the loop raises that error |
| PackageLists.ListUpgrades | salt/modules/opkg.py:1396-1427 | `list_upgrades` refreshes when asked, with the refresh error propagating, raises with stderr and stdout on a failed `opkg list-upgradable`, and otherwise returns the upgrade table |
| PackageLists.LatestTable | salt/modules/opkg.py:244-258 | the table has exactly the asked names as keys |
| PackageLists.LatestUnnamed | salt/modules/opkg.py:245-258 | an asked name that no line names stays "" |
| PackageLists.LatestLast | salt/modules/opkg.py:254-258 | an asked name holds the new version of the last line naming it; lines that do not split into three fields are skipped |
| PackageLists.ReadUpgradable | salt/modules/opkg.py:244-258 | the two loops that fill `ret` in place give the table `LatestTable` describes |
| PackageLists.LatestVersion | salt/modules/opkg.py:222-264 | `latest_version` returns "" for no name, refreshes when asked, reads `opkg list-upgradable` with one plain run, and returns the version for one name and the table otherwise |
| PackageQueries.StateFlagOk | salt/modules/opkg.py:1272-1274 | the flag is read without error iff every `Status` line has exactly four words, and a line without them raises ValueError |
| PackageQueries.StateFlagNone | salt/modules/opkg.py:1271-1276 | the flag is "" iff no line starts with `Status` |
| PackageQueries.StateFlagLast | salt/modules/opkg.py:1272-1276 | the flag is the third word of the last `Status` line |
| PackageQueries.StateFlagStuck | salt/modules/opkg.py:1272-1274 | once a line raises, the loop raises that error |
| PackageQueries.GetState | salt/modules/opkg.py:1262-1276 | `_get_state` runs `opkg status <pkg>` once and reads the flag `State` describes |
| PackageQueries.StopAt | salt/modules/opkg.py:1967-1975 | the scan stops at the first ` * ` line, or at the end when there is none |
| PackageQueries.Paths | salt/modules/opkg.py:1967-1969 | the files kept are lines of the output that start with `/` |
| PackageQueries.FileScanSpec | salt/modules/opkg.py:1967-1975 | a package's files are its path lines before the first ` * ` line, which, if present, gives the error text after its first three characters |
| PackageQueries.ScanFiles | salt/modules/opkg.py:1967-1975 | the scan loop with its `break` collects the files and the error `FileScan` describes |
| PackageQueries.FileTableSpec | salt/modules/opkg.py:1959-1977 | each package adds at most one error; a listed package was asked for, and has a non-empty list of paths each starting with `/` |
| PackageQueries.FileDict | salt/modules/opkg.py:1942-1979 | `file_dict` scans the packages asked for, or the installed ones when none is asked for, and returns the errors and file table `FileTable` describes |
| PackageQueries.PackageFiles | salt/modules/opkg.py:1962-1977 | one package's files and error come from scanning its `opkg files` output |
| PackageQueries.OwnerOfSpec | salt/modules/opkg.py:2009-2012 | an empty output gives ""; an output without " - " gives itself stripped; otherwise the owner is the stripped text before the first " - ", which never holds the separator |
| PackageQueries.OwnerTable | salt/modules/opkg.py:2003-2012 | the table has exactly the asked paths as keys, each with the owner its search output names |
| PackageQueries.OwnerSingle | salt/modules/opkg.py:2013-2015 | for at least one path, the answer is a single text iff all the paths are the same one, so asking twice for one path gives a text, not a table |
| PackageQueries.Owner | salt/modules/opkg.py:1982-2016 | `owner` returns "" for no path, the owner when the table has one entry, and the table otherwise |
| HoldState.SetStateSpec | salt/modules/opkg.py:1279-1310 | an invalid state raises SaltInvocationError "Invalid state: <state>" and runs nothing; a valid one runs exactly one `opkg flag <state> <pkg>` and reports the state read before it as the old state and the given one as the new |
| HoldState.SetState | salt/modules/opkg.py:1279-1310 | `_set_state` gives the entry and the flag runs `SetStateOf` describes, or its exception with nothing run |
| HoldState.TargetsSpec | salt/modules/opkg.py:1157-1170 | the targets are refused iff none of name, pkgs and sources is given or both pkgs and sources are; accepted targets are never empty |
| HoldState.HoldTargetSpec | salt/modules/opkg.py:1171-1194 | one target's entry is under its name; a change to `hold` is made, and `opkg flag hold` run, iff the state read is neither empty nor `hold` outside test mode; the result is True for a target that is held or newly held, and None iff it would be held in test mode |
| HoldState.HoldRunSpec | salt/modules/opkg.py:1171-1195 | every target gets an entry under its own name; in test mode no `opkg flag` runs; otherwise every flag run sets `hold` on a target |
| HoldState.UnholdTargetSpec | salt/modules/opkg.py:1234-1257 | one target's entry is under its name; a change from `hold` to `ok` is made, and `opkg flag ok` run, iff the target is held outside test mode; in test mode a held target leaves its own comment empty and sets the top-level `comment` |
| HoldState.UnholdRunSpec | salt/modules/opkg.py:1234-1258 | every target has a key; every key but `comment` is a target holding its own entry; in test mode no `opkg flag` runs; otherwise every flag run sets `ok` on a target |
| HoldState.SelectTargets | salt/modules/opkg.py:1157-1170 | the argument checks and target selection give what `Targets` describes |
| HoldState.Hold | salt/modules/opkg.py:1135-1195 | `hold` returns the entries `HoldResult` describes and runs its flags, or raises its exception |
| HoldState.HoldOne | salt/modules/opkg.py:1173-1194 | the loop body for one target gives the entry and the flag runs `HoldTarget` describes |
| HoldState.HoldStuck | salt/modules/opkg.py:1172-1195 | once a target raises, the loop raises that error |
| HoldState.Unhold | salt/modules/opkg.py:1197-1259 | `unhold` returns the dictionary `UnholdResult` describes and runs its flags, or raises its exception |
| HoldState.UnholdOne | salt/modules/opkg.py:1236-1257 | the loop body for one target gives the entry, the top-level comment and the flag runs `UnholdTarget` describes |
| HoldState.UnholdStuck | salt/modules/opkg.py:1235-1258 | once a target raises, the loop raises that error |
| RepoConfig.SetRepoOptionSpec | salt/modules/opkg.py:1623-1635 | an option `key=value` with exactly one `=` stores the key; `trusted` gets the boolean `value == "yes"`, and any other key gets the text value |
| RepoConfig.SetRepoOptionIgnored | salt/modules/opkg.py:1627-1631 | an option with no `=`, or with more than one, leaves the repository unchanged |
| RepoConfig.SetPiecesKeeps | salt/modules/opkg.py:1645-1647 | applying the pieces of one column keeps every key already present, and never turns `trusted` into text |
| RepoConfig.SetRepoOptionsKeeps | salt/modules/opkg.py:1638-1647 | applying the option columns keeps every key already present, and never turns `trusted` into text |
| RepoConfig.ApplyRepoOptions | salt/modules/opkg.py:1638-1647 | the nested loop over columns and bracket pieces gives the repository `SetRepoOptions` describes |
| RepoConfig.CreateRepoSpec | salt/modules/opkg.py:1650-1667 | parsing fails, with IndexError, iff the line has fewer than three columns; a parsed repository always holds `enabled`, `compressed`, `name`, `uri` and `file`; with exactly three columns it holds those keys only, and `enabled` is false iff the line starts with `#` |
| RepoConfig.ParsedColumns | salt/modules/opkg.py:1656-1667 | a line with known comment marker and columns parses to the base dictionary of its first three columns, with the rest applied as options |
| RepoConfig.TrustedColumn | salt/modules/opkg.py:1628-1647 | a bracketed `[trusted=value]` column sets `trusted` to `value == "yes"` and changes nothing else |
| RepoConfig.TrustedReadBack | salt/modules/opkg.py:1744-1752 | the option column `_set_trusted_option_if_needed` writes reads back as the flag it was written from |
| RepoConfig.BaseOfWords | salt/modules/opkg.py:1661 | the `src/gz` type column reads back as compressed and `src` as uncompressed, because of the substring test `cols[0] in "src"` (see also 1760) |
| RepoConfig.LineColumns | salt/modules/opkg.py:1650-1655 | a written line starts with `#` iff the repository is disabled, and its body splits into its type, name, URI and trusted column (see also 1759-1767) |
| RepoConfig.ParsedLine | salt/modules/opkg.py:1650-1667 | a line with the marker and the columns of a repository parses back into that repository |
| RepoConfig.RepoLineRoundTrip | salt/modules/opkg.py:1650-1667 | for a name and URI without whitespace, parsing the line `_add_new_repo` writes gives back the enabled flag, compression, name, URI, trusted flag and file it was written from (see also 1744-1767) |
| VersionCompare.NormalizeSpec | salt/modules/opkg.py:1589-1591 | outside the ignore-epoch mode, or without a colon, the version is unchanged; otherwise it loses exactly its epoch prefix, which holds no colon, and the colon after it |
| VersionCompare.FirstConfirmedSpec | salt/modules/opkg.py:1610-1620 | there is no answer iff no remaining question (`<<`, `=`, `>>`) is confirmed by exit code 0; otherwise the answer is the value of the first confirmed question |
| VersionCompare.VersionCmpRange | salt/modules/opkg.py:1570-1620 | `version_cmp` raises IndexError iff the `opkg --version` output has fewer than three space-separated pieces; any answer it gives is -1, 0 or 1 |
| VersionCompare.Probe | salt/modules/opkg.py:1610-1620 | the loop that runs the three compare commands returns the first confirmed question's value, or None |
| VersionCompare.VersionCmp | salt/modules/opkg.py:1570-1620 | `version_cmp` normalises both versions, picks the compare utility by opkg's version and the script's presence, and answers as `VersionCmpResult` describes |
| LazyPattern.MatchLazySound | salt/modules/opkg.py:421-429 | what a lazy group captures from a position holds no newline, and the rest of the pattern matches the text after it (see also 948-950) |
| LazyPattern.MatchLazyComplete | salt/modules/opkg.py:421-429 | whenever some newline-free stretch from the position is followed by a match of the rest of the pattern, the lazy group finds a match (see also 948-950) |
| VersionConstraint.PlainLongest | salt/modules/opkg.py:894 | a version without epoch starting at the position is found, and ends no later than what is found |
| VersionConstraint.EpochLongest | salt/modules/opkg.py:894 | a version with an epoch starting at the position is found, and ends no later than what is found |
| Text.JoinSplitOn | salt/modules/opkg.py:1596 | joining the pieces of `str.split(sep)` with `sep` gives the text back |
| Text.SplitFirst | salt/modules/opkg.py:1589 | `str.split(sep, 1)` finds the text before the first separator and the rest after it, and finds nothing iff the separator does not occur |
| Text.SplitJoinWords | salt/modules/opkg.py:1660 | words without whitespace joined by single spaces split back, under `str.split()`, into the same words (see also 1759-1767) |
| Text.Strip | salt/modules/opkg.py:1660 | `str.strip()` leaves no whitespace at either end |
| Text.SplitLines | salt/modules/opkg.py:1423 | no line of `str.splitlines()` holds a line boundary (see also 1968) |
| OutputClassifier.OperationOf | salt/modules/opkg.py:456-474 | definition of `_get_operation_from_output_line`: `WordOperation` of the first token; its properties are in `OperationOfSpec`, which relies on `WordOperationOfWord` |
| OutputClassifier.PackageOf | salt/modules/opkg.py:477-498 | definition of `_get_package_from_output_line`; `OperationAndPackage` applies it, and its properties are stated through that function in `ThirdTokenGuard`, `ShortLine` and `DownloadLine` |
| OutputClassifier.OperationAndPackage | salt/modules/opkg.py:501-510 | definition of `_get_operation_and_package_from_output_line`; its properties are in `BlankLine`, `ThirdTokenGuard` and `DownloadLine` |
| ToolInvoker.Outcome | salt/modules/opkg.py:288-304 | definition of what `_call_opkg` returns; its property is in `OutcomeSpec`, and `CallOpkg` is proved equal to it |
| ChangeSets.Diff | salt/modules/opkg.py:825 | definition of `salt.utils.data.compare_dicts(old, new)`; its properties are in `DiffSpec` and `DiffSame` |
| DryRunReports.InstallLineReport | salt/modules/opkg.py:430-437 | definition of one line of the install report parser; its property is in `InstallLineReportSpec` |
| DryRunReports.RemoveLineReport | salt/modules/opkg.py:952-955 | definition of one line of the remove report parser; its property is in `RemoveLineReportSpec` |
| DryRunReports.Store | salt/modules/opkg.py:437 | definition of the assignments into `reported_pkgs`; its properties are in `StoreKeys` and `StoreLastWins` |
| VersionConstraint.GetVersionInfo | salt/modules/opkg.py:884-900 | definition of `_get_version_info`: `InfoWith` over the ten alternatives of the pattern at 894, in its order: `<=>`, `!=`, `>=`, `<=`, `>>`, `<<`, `<>`, `>`, `<`, `=`; its properties are in `GetVersionInfoSpec`, which rests on `InfoWithSpec`, and `PlainCondition` |
| ProgressMonitor.Advance | salt/modules/opkg.py:549-574 | definition of one iteration of the progress loop; its properties are in `AdvanceValid`, `AdvanceCount`, `AdvanceFires` and `AdvanceAppends` |
| ProgressMonitor.Run | salt/modules/opkg.py:545-574 | definition of the progress loop over the output lines; its properties are in `RunValid`, `RunStdout`, `RunCount` and `RunFirstEvent` |
| InstallPlan.IsTestmode | salt/modules/opkg.py:369-373 | definition of `_is_testmode`, the `test` field of both option records; `PrefixFlags` states that `--noaction` is in the install prefix iff `test` holds, and `RemovePlan.DryRunAgrees` states the same of the remove flags |
| InstallPlan.VersionNum | salt/modules/opkg.py:751-757 | definition of the version asked for one request, chosen by `UsesVersionArgument`; `Planned` applies it, and its properties are stated through `Planned` in `VersionArgumentIgnored` and `VersionArgumentUsed` |
| InstallPlan.UsesVersionArgument | salt/modules/opkg.py:752 | definition of the test that lets the `version` keyword argument replace a request's version: `name` given, `pkgs` not, and a single request |
| InstallPlan.OwnVersions | salt/modules/opkg.py:751-757 | without the override, the `version` keyword argument has no effect on any placement |
| InstallPlan.VersionArgumentIgnored | salt/modules/opkg.py:751-757 | with several requests, or with `pkgs` given, the plan does not depend on the `version` keyword argument |
| InstallPlan.VersionArgumentUsed | salt/modules/opkg.py:751-757 | a single package named by `name` alone, with a non-empty `version` argument, is planned exactly as a request for that version |
| InstallPlan.ConditionPlacement | salt/modules/opkg.py:769-794 | definition of where one version condition goes; `ConditionPlacements` maps it over the conditions, and its properties are stated through that function in `ConditionBuckets` and `ConditionItem` |
| InstallPlan.AllPlacements | salt/modules/opkg.py:751-794 | definition of the placements of every request, in order; its properties are in `PlacementCount`, `AllPlacementsAvoid` and `OnlyUpgradeNoDowngrade` |
| InstallPlan.RunResult | salt/modules/opkg.py:585-607 | definition of what one command's run gives back in `Plain`, `WithProgress` and `InDetachedProcess` modes; `InstallMode` chooses the mode and `ExecuteInstallCommand` is proved against `RunResult` of that mode |
| InstallRun.FeedStatus | salt/modules/opkg.py:806-812 | definition of the optional refresh before the commands; its property is in `FeedStatusSpec` |
| InstallRun.FileName | salt/modules/opkg.py:831-841 | definition of the package name read from `opkg info <file>`; its property is in `FileNameSpec` |
| InstallRun.InstallFinish | salt/modules/opkg.py:819-866 | definition of the result once the commands have run; its properties are in `InstallFinishSpec` |
| InstallRun.InstallTail | salt/modules/opkg.py:796-866 | definition of the end of `install` as intended: no command gives no changes; otherwise a feed error comes first, then `AfterRun`; `AfterRun` ends in `InstallFinish`; properties in `InstallFinishSpec`, `IntendedErrors`, `DetachedOnly` and `NothingRun` |
| InstallRun.InstallTailAsWritten | salt/modules/opkg.py:796-866 | definition of the end of `install` as written, where the four-argument call at 817 fails; `AsWrittenTypeError` states, through `InstallResultAsWritten`, that any command makes it raise TypeError |
| InstallRun.InstallResult | salt/modules/opkg.py:634-867 | definition of `install` as intended; `InstallRun.Install` is proved equal to it |
| InstallRun.InstallResultAsWritten | salt/modules/opkg.py:634-867 | definition of `install` as written; its property is in `AsWrittenTypeError` |
| RemovePlan.RemoveCommand | salt/modules/opkg.py:1003-1012 | definition of the command `remove` runs, if any; its properties are in `RemoveCommandSpec` and `DryRunAgrees` |
| RemovePlan.RemoveFinish | salt/modules/opkg.py:1017-1038 | definition of what follows the command; its properties are in `RemoveFinishSpec` |
| RemovePlan.RemoveResult | salt/modules/opkg.py:960-1038 | definition of `remove`; its properties are in `RemoveNothing` and `DryRunAgrees`, and `RemovePlan.Remove` is proved equal to it |
| RemovePlan.DryRunAgrees | salt/modules/opkg.py:1003-1024 | one test mode, set iff the `test` keyword argument or the minion option is, puts `--noaction` among the command's flags and makes a successful run subtract the reported packages from the after snapshot |
| FeedRefresh.ParseFeeds | salt/modules/opkg.py:342-353 | definition of the feed-status loop with `prev_line`; its properties are in `ParseFeedsGood`, `ParseFeedsStuck` and `ParseFeedsStop` |
| FeedRefresh.RefreshOutcome | salt/modules/opkg.py:340-366 | definition of what `refresh_db` returns or raises; its property is in `RefreshSpec` |
| InfoInstalled.Run | salt/modules/opkg.py:1456-1484 | definition of the record parser's state after each line; its properties are in `RunGood`, `RunNext` and `RunStops` |
| InfoInstalled.ParseLines | salt/modules/opkg.py:1451-1485 | definition of the parsed records of a list of lines; its properties are in `ParseLinesSpec` and `Closing` |
| InfoInstalled.ParseOutput | salt/modules/opkg.py:1444-1485 | definition of `_process_info_installed_output`; `ProcessInfoInstalledOutput` is proved equal to it |
| PackageLists.InstalledEntry | salt/modules/opkg.py:1385 | definition of one `list-installed` line's name and version; its property is in `InstalledEntrySpec` |
| PackageLists.ListInstalledOutcome | salt/modules/opkg.py:1349-1393 | definition of `_execute_list_pkgs` once the tool has run: a failure is one error and no entries, a success is `InstalledEntries` of the lines; properties in `ListInstalledErrors` and `InstalledEntriesSpec` |
| PackageLists.ListUpgradesResult | salt/modules/opkg.py:1396-1427 | definition of `list_upgrades`: a refresh error first, else `ListUpgradesOutcome`, which reads the lines with `Upgrades`; the properties of `Upgrades` are in `UpgradesOk`, `UpgradesKeys` and `UpgradesLast` |
| PackageLists.LatestVersionResult | salt/modules/opkg.py:222-269 | definition of `latest_version`: "" for no names, a refresh error first, else `LatestVersionOf`, which reads the lines with `LatestTable`; the properties of `LatestTable` are in its own contract, `LatestUnnamed` and `LatestLast` |
| PackageQueries.StateFlag | salt/modules/opkg.py:1272-1276 | definition of the `_get_state` loop; its properties are in `StateFlagOk`, `StateFlagNone` and `StateFlagLast` |
| PackageQueries.FileScan | salt/modules/opkg.py:1967-1975 | definition of the `file_dict` scan with its `break`; its property is in `FileScanSpec` |
| PackageQueries.FileTable | salt/modules/opkg.py:1960-1979 | definition of the `file_dict` table; its property is in `FileTableSpec` |
| PackageQueries.OwnerOf | salt/modules/opkg.py:2009-2012 | definition of one path's owner; its property is in `OwnerOfSpec` |
| PackageQueries.OwnerResult | salt/modules/opkg.py:1982-2015 | definition of `owner`: "" for no paths, the single owner for one distinct path, else the table; properties in `OwnerSingle` and in the contract of `OwnerTable` |
| HoldState.SetStateOf | salt/modules/opkg.py:1279-1310 | definition of `_set_state`; its property is in `SetStateSpec` |
| HoldState.Targets | salt/modules/opkg.py:1157-1169 | definition of the target selection of `hold` and `unhold`; its property is in `TargetsSpec` |
| HoldState.HoldTarget | salt/modules/opkg.py:1172-1193 | definition of one target of `hold`; its property is in `HoldTargetSpec` |
| HoldState.HoldResult | salt/modules/opkg.py:1135-1195 | definition of `hold`: the target errors of `Targets`, else `HoldRun` over the targets; properties in `TargetsSpec` and `HoldRunSpec` |
| HoldState.UnholdTarget | salt/modules/opkg.py:1235-1257 | definition of one target of `unhold`; its property is in `UnholdTargetSpec` |
| HoldState.UnholdResult | salt/modules/opkg.py:1197-1259 | definition of `unhold`: the target errors of `Targets`, else `UnholdRun` over the targets; properties in `TargetsSpec` and `UnholdRunSpec` |
| VersionCompare.VersionCmpResult | salt/modules/opkg.py:1570-1620 | definition of `version_cmp`: the error of `opkg --version`, nothing without a comparison command, else `FirstConfirmed` over the three probes; properties in `VersionCmpRange` and, for `FirstConfirmed`, `FirstConfirmedSpec` |
| RepoConfig.SetRepoOption | salt/modules/opkg.py:1623-1635 | definition of `_set_repo_option`; its properties are in `SetRepoOptionSpec` and `SetRepoOptionIgnored` |
| RepoConfig.SetRepoOptions | salt/modules/opkg.py:1638-1647 | definition of `_set_repo_options`; its properties are in `SetRepoOptionsKeeps` and `TrustedColumn` |
| RepoConfig.CreateRepo | salt/modules/opkg.py:1650-1667 | definition of `_create_repo`; its properties are in `CreateRepoSpec` and `RepoLineRoundTrip` |
| RepoConfig.RepoLine | salt/modules/opkg.py:1759-1767 | definition of the line `_add_new_repo` writes; its properties are in `LineColumns` and `RepoLineRoundTrip` |
| FeedRefresh.TrailingEmptyLine | salt/modules/opkg.py:342-354 | a final empty line neither raises nor changes the feeds or the failed feeds recorded |
| PackageQueries.TrailingEmptyLine | salt/modules/opkg.py:1272-1274 | a final empty line is not a status line and leaves the flag as it was |

## Left out

- Processes: `subprocess.Popen`, non-blocking reads through `fcntl`, and `select` (531-546, 577) are not modelled. The progress loop gets the tool's output lines as a sequence, and its exit code as a value.
- `select.select` at 546 has no timeout, so the loop's sleep branch never runs. The model reads one line per iteration and leaves the branch out.
- The detached launch: `_open_detached_process` (618-631) and the 24-hour `communicate` timeout (597-606) are not modelled. A detached run contributes only its exit code (`InstallPlan.DetachedResult`).
- The event bus and the minion id (519, 527-530, 574) are not modelled. Fired events are appended to the monitor's `events` sequence.
- Clock and sleep: `time.time()` is a float, and the model's clock is an integer function the caller supplies. `time.sleep(2)` in `_call_opkg` becomes the `waited` count of seconds.
- Restart checks: NILRT restart-state fingerprinting, `restartcheck` and service restarts (60-194) are shell commands, file-system access and service side effects. `_get_restartcheck_result` can append its comment to `errors`.
- InstallRun.InstallFinish: models the errors as if `restartcheck` appended none (849).
- InstallRun.InstallFinishSpec: models the errors as if `restartcheck` appended none (849).
- RemovePlan.RemoveFinishSpec: models the errors as if `restartcheck` appended none (1028).
- RemovePlan.Remove: models the errors as if `restartcheck` appended none (1028).
- `__virtual__` and its directory bootstrap (197-219) are not modelled: they are file-system side effects.
- Configuration-file I/O is not modelled: `_read_repos`, `list_repos`, `get_repo`, `_del_repo_from_file`, `_mod_repo_in_file`, `del_repo`, `mod_repo` and the file append in `_add_new_repo` (1670-1918). These are file reads and writes around the repository-line helpers, which are modelled.
- Helpers outside this module are parameters:
  - `pkg_resource.parse_targets`: its result is the model's `Targets` value. Its MinionError, re-raised as CommandExecutionError, is not modelled.
  - `salt.utils.versions.compare`: an uninterpreted test.
  - `LooseVersion`: the `atLeast034` test.
  - `salt.utils.path.which`: a boolean.
  - `shlex.quote` and `shlex_split`: functions passed in.
- `salt.utils.itertools.split(text, "\n")` is modelled as a plain split on "\n" (`Text.SplitOn`). The two differ in one way: Salt's split does not yield a final empty piece, so "" gives no lines and "a\n" gives ["a"], where the plain split adds a last "". Every modelled loop makes nothing of an empty line, so the results agree: `InfoInstalled.Closing` shows it for the record parser, `FeedRefresh.TrailingEmptyLine` for `refresh_db` and `PackageQueries.TrailingEmptyLine` for `_get_state`; `list-installed` skips empty lines (1381), the upgradable-list loop of `latest_version` drops the ValueError of a line without a separator (254-260), and no dry-run pattern matches an empty line.
- `salt.utils.data.compare_dicts` is written out as `ChangeSets.Diff`, following its known behaviour.
- The package snapshots before and after an operation are parameters: maps from name to version. `remove` reads them through `info_installed`; `value.get("version")` could give None, and the model takes every version to be a string.
- The `__context__` cache of `list_pkgs` (819, 1020) and its pop are not modelled: a cache has no observable effect on results.
- The `info` dictionary of CommandExecutionError keeps only the errors. The `changes` part of a failed install or remove is not modelled.
- hold and unhold: test mode, read from `__opts__`, is a parameter. `sources` are given as their first keys; the `isinstance(target, dict)` conversion (1173, 1236) is not modelled, because every target is a name.
- The `if list_pkgs_errors` at 861-865 is dead code. The list was empty at 727, or `install` raised there, and `list_pkgs()` at 820 does not append to it. An error of that `list_pkgs()` call is not modelled, because the after snapshot is a parameter.
- `str.lower()` is modelled on ASCII letters only.
- Python whitespace (`str.split()`, `str.strip()`, `\s`) is the full `str.isspace` set of ASCII and Unicode spaces, as listed in `Text.IsSpace`.
- Not modelled, because they only compose modelled operations with I/O:
  - `version` (272-285) and `list_pkgs` (1313-1346);
  - `info_installed` (1488-1554): `_call_opkg` plus the modelled parser;
  - `purge` (1041-1067): a call to `remove`;
  - `upgrade` (1070-1132): `opkg upgrade` between two listings;
  - `upgrade_available` (1557-1567): `latest_version(name) != ""`;
  - `file_list` (1921-1939), `version_clean` (2018-2024) and `check_extra_requirements` (2027-2035).
- ToolInvoker.CallOpkg: the lock marker is matched only in standard error, as in the source (297-304). The `redirect_stderr=True` of `refresh_db` (338) is not modelled: the `Tool` oracle stands for the output of each call, and nothing stops it from returning the marker in standard error for `opkg update`, so the model allows retries of `opkg update` that the source cannot make.
- PackageLists.ListInstalled: the model stops at the name and version pairs `_execute_list_pkgs` hands to `pkg_resource.add_pkg`; `add_pkg`, `sort_pkglist` and `stringify` (1387-1392) are helpers whose code is not part of this model, and the early `return {}` for the `removed` and `purge_desired` keyword arguments (1359-1362) is left out because the modelled caller at 726 never passes them.
- `salt.utils.pkg.clear_rtag(__opts__)` at the start of `refresh_db` (331) removes the refresh marker file from the minion; it touches the file system only and does not change the result, so it is not part of this model.

## Findings

| source | as written | input that shows it | evidently intended | confidence | as-written member | corrected member |
|---|---|---|---|---|---|---|
| salt/modules/opkg.py:816-817 | `_execute_install_command(cmd, is_testmode, errors, test_packages)` passes four arguments; the definition at 585 takes six, with `jid` and `should_process_in_detached_mode` required | any install that builds a command, e.g. `install(name="vim")` with vim not installed: Python raises TypeError before opkg runs | pass the job id and `False` for the detached mode, so the command runs and its errors and report are collected | not executed | InstallRun.AsWrittenTypeError | InstallRun.IntendedErrors |
