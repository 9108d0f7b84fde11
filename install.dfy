/** Planning and running an `opkg install` (salt/modules/opkg.py:384-405,
    441-454, 585-615, 718-847, 869-881): the command prefix and its flags,
    the sorting of every requested package and version condition into the
    lists `to_install`, `to_install_detached`, `to_reinstall` and
    `to_downgrade`, the commands built from those lists, and the running of
    one command with its errors and dry-run report. */
module InstallPlan {
  import opened Wrappers
  import opened Text
  import opened VersionConstraint
  import opened ToolInvoker
  import opened OutputClassifier
  import opened DryRunReports
  import opened ProgressMonitor
  import opened ChangeSets

  /** The packages that are installed by a detached process. */
  const Detached: seq<string> := ["ni-sysmgmt-salt-minion-support"]

  /** The keyword arguments of `install` that shape the plan. */
  /** `_is_testmode` (369-373): the `test` keyword argument or the
      minion's `test` option, each taken for its truth value. */
  predicate IsTestmode(kwargsTest: bool, optsTest: bool) {
    kwargsTest || optsTest
  }

  datatype InstallOptions = InstallOptions(
    kwargsTest: bool,           // the `test` keyword argument
    optsTest: bool,             // the minion's `test` option
    reinstall: bool,
    onlyUpgrade: bool,          // `only_upgrade`, False when not given
    installRecommends: bool)    // `install_recommends`, True when not given
  {
    /** Whether the run is a dry run (814). */
    const test: bool := IsTestmode(kwargsTest, optsTest)
  }

  /** What `pkg_resource.parse_targets` returns: package files, or names
      each with the version asked for, if any. */
  datatype Targets =
    | PackageFiles(files: seq<string>)
    | Repository(requests: seq<(string, Option<string>)>)

  /** `salt.utils.versions.compare(ver1, oper, ver2)` with `version_cmp`,
      outside the model. */
  type VersionTest = (string, string, string) -> bool

  /** The four lists a request can be sorted into. */
  datatype Bucket = ToInstall | ToInstallDetached | ToReinstall | ToDowngrade

  /** One string appended to one list. */
  datatype Placement = Placement(bucket: Bucket, item: string)

  /** The command prefix (729-750): "opkg install", "--noaction" in test
      mode, then for package files "--force-reinstall" when reinstalling
      and "--force-downgrade" unless only upgrading, and for repository
      packages "--no-install-recommends" when recommends are not wanted. */
  function InstallPrefix(targets: Targets, opts: InstallOptions): (prefix: seq<string>)
    ensures |prefix| >= 2 && prefix[..2] == ["opkg", "install"]
  {
    var base := ["opkg", "install"] + (if opts.test then ["--noaction"] else []);
    match targets
    case PackageFiles(_) =>
      base + (if opts.reinstall then ["--force-reinstall"] else []) + (if !opts.onlyUpgrade then ["--force-downgrade"] else [])
    case Repository(_) =>
      base + (if !opts.installRecommends then ["--no-install-recommends"] else [])
  }

  /** The prefix carries each flag exactly when its option asks for it. */
  lemma PrefixFlags(targets: Targets, opts: InstallOptions)
    ensures var prefix := InstallPrefix(targets, opts);
      && ("--noaction" in prefix <==> opts.test)
      && ("--force-reinstall" in prefix <==> targets.PackageFiles? && opts.reinstall)
      && ("--force-downgrade" in prefix <==> targets.PackageFiles? && !opts.onlyUpgrade)
      && ("--no-install-recommends" in prefix <==> targets.Repository? && !opts.installRecommends)
  {
    assert |"opkg"| == 4 && |"install"| == 7 && |"--noaction"| == 10;
    assert |"--force-reinstall"| == 17 && |"--force-downgrade"| == 17 && |"--no-install-recommends"| == 23;
    assert "--force-reinstall"[8] != "--force-downgrade"[8];
  }

  /** `_handle_to_install_package`: the detached list for the packages
      installed by a detached process, `to_install` for the others. */
  function HandleBucket(name: string): (b: Bucket)
    ensures b == ToInstallDetached <==> name in Detached
    ensures b == ToInstall <==> name !in Detached
  {
    if name in Detached then ToInstallDetached else ToInstall
  }

  /** The version asked for one request (752-757): the `version` keyword
      argument when `override` (`UsesVersionArgument`) holds and the
      argument is given and not empty, else the request's own. */
  function VersionNum(request: (string, Option<string>), override: bool, version: Option<string>): Option<string> {
    if override && version.Some? && version.value != "" then version else request.1
  }

  /** The version conditions of a version: `[x.strip() for x in
      version_num.split(',')]`. */
  function Conditions(versionNum: string): (r: seq<string>)
    ensures |r| >= 1
  {
    var pieces := SplitOn(versionNum, ",");
    seq(|pieces|, i requires 0 <= i < |pieces| => Strip(pieces[i]))
  }

  /** Where one version condition goes (769-794), given what
      `_get_version_info` found in it. A condition with an operator is sent
      to the solver as "<name><operator><version>"; one without is
      "<name>=<versionNum>", with the whole version asked for, and is
      reinstalled, installed or downgraded by comparing that version with
      the installed one, `cver`. */
  function ConditionPlacement(name: string, versionNum: string, cver: string, info: VersionInfo,
                              opts: InstallOptions, compare: VersionTest): Placement
  {
    if info.specified then
      Placement(HandleBucket(name), name + info.operator + info.version)
    else
      var item := name + "=" + versionNum;
      if opts.reinstall && cver != "" && compare(versionNum, "==", cver) then Placement(ToReinstall, item)
      else if cver == "" || compare(versionNum, ">=", cver) then Placement(HandleBucket(name), item)
      else if !opts.onlyUpgrade then Placement(ToDowngrade, item)
      else Placement(HandleBucket(name), item)
  }

  /** What `_get_version_info` finds in each condition. */
  function Infos(conditions: seq<string>): (r: seq<VersionInfo>)
    ensures |r| == |conditions|
    ensures forall k :: 0 <= k < |conditions| ==> r[k] == GetVersionInfo(conditions[k])
  {
    seq(|conditions|, k requires 0 <= k < |conditions| => GetVersionInfo(conditions[k]))
  }

  /** The placements of the conditions, in order. */
  function ConditionPlacements(name: string, versionNum: string, cver: string, infos: seq<VersionInfo>,
                               opts: InstallOptions, compare: VersionTest): (r: seq<Placement>)
    decreases |infos|
  {
    if infos == [] then []
    else
      ConditionPlacements(name, versionNum, cver, infos[..|infos| - 1], opts, compare)
        + [ConditionPlacement(name, versionNum, cver, infos[|infos| - 1], opts, compare)]
  }

  lemma ConditionPlacementsPrefix(name: string, versionNum: string, cver: string, infos: seq<VersionInfo>,
                                  k: nat, opts: InstallOptions, compare: VersionTest)
    requires k < |infos|
    ensures ConditionPlacements(name, versionNum, cver, infos[..k + 1], opts, compare)
      == ConditionPlacements(name, versionNum, cver, infos[..k], opts, compare)
         + [ConditionPlacement(name, versionNum, cver, infos[k], opts, compare)]
  {
    assert infos[..k + 1][..k] == infos[..k];
  }

  /** The placement of each condition is where that condition goes. */
  lemma {:induction false} ConditionPlacementsSpec(name: string, versionNum: string, cver: string, infos: seq<VersionInfo>,
                                                   opts: InstallOptions, compare: VersionTest)
    ensures var r := ConditionPlacements(name, versionNum, cver, infos, opts, compare);
      |r| == |infos| && forall k :: 0 <= k < |infos| ==> r[k] == ConditionPlacement(name, versionNum, cver, infos[k], opts, compare)
    decreases |infos|
  {
    if infos != [] {
      ConditionPlacementsSpec(name, versionNum, cver, infos[..|infos| - 1], opts, compare);
    }
  }

  /** The placements of one request (759-794). A request without a version
      is reinstalled when reinstalling a package installed before, and
      installed otherwise, never by a detached process. */
  function RequestPlacements(name: string, versionNum: Option<string>, before: Snapshot,
                             opts: InstallOptions, compare: VersionTest): seq<Placement>
  {
    match versionNum
    case None =>
      [if opts.reinstall && name in before then Placement(ToReinstall, name) else Placement(ToInstall, name)]
    case Some(v) =>
      ConditionPlacements(name, v, Get(before, name, ""), Infos(Conditions(v)), opts, compare)
  }

  /** The placements of the requests, in order. */
  function AllPlacements(requests: seq<(string, Option<string>)>, override: bool, version: Option<string>,
                         before: Snapshot, opts: InstallOptions, compare: VersionTest): seq<Placement>
    decreases |requests|
  {
    if requests == [] then []
    else
      var last := requests[|requests| - 1];
      AllPlacements(requests[..|requests| - 1], override, version, before, opts, compare)
        + RequestPlacements(last.0, VersionNum(last, override, version), before, opts, compare)
  }

  /** The items placed in bucket `b`, in order. */
  function Items(ps: seq<Placement>, b: Bucket): (r: seq<string>)
    ensures |r| <= |ps|
    decreases |ps|
  {
    if ps == [] then []
    else Items(ps[..|ps| - 1], b) + (if ps[|ps| - 1].bucket == b then [ps[|ps| - 1].item] else [])
  }

  /** The four lists of a plan. */
  datatype Lists = Lists(toInstall: seq<string>, toInstallDetached: seq<string>, toReinstall: seq<string>, toDowngrade: seq<string>)

  /** The lists the placements `ps` fill. */
  function Sorted(ps: seq<Placement>): Lists {
    Lists(Items(ps, ToInstall), Items(ps, ToInstallDetached), Items(ps, ToReinstall), Items(ps, ToDowngrade))
  }

  /** The four lists and the prefix of an install, or nothing for an empty
      list of targets, where `install` returns no changes (738-739). */
  datatype Plan = Plan(prefix: seq<string>, lists: Lists)

  /** The number of items in all four lists. */
  function Total(l: Lists): nat {
    |l.toInstall| + |l.toInstallDetached| + |l.toReinstall| + |l.toDowngrade|
  }

  lemma ItemsAppend(ps: seq<Placement>, p: Placement, b: Bucket)
    ensures Items(ps + [p], b) == Items(ps, b) + (if p.bucket == b then [p.item] else [])
  {
    assert (ps + [p])[..|ps|] == ps;
  }

  /** The lists with one more item appended to one of them. */
  function Add(l: Lists, p: Placement): Lists {
    match p.bucket
    case ToInstall => l.(toInstall := l.toInstall + [p.item])
    case ToInstallDetached => l.(toInstallDetached := l.toInstallDetached + [p.item])
    case ToReinstall => l.(toReinstall := l.toReinstall + [p.item])
    case ToDowngrade => l.(toDowngrade := l.toDowngrade + [p.item])
  }

  /** Each list of `l` followed by the same list of `m`. */
  function Extend(l: Lists, m: Lists): Lists {
    Lists(l.toInstall + m.toInstall, l.toInstallDetached + m.toInstallDetached,
          l.toReinstall + m.toReinstall, l.toDowngrade + m.toDowngrade)
  }

  lemma SortedAppend(ps: seq<Placement>, p: Placement)
    ensures Sorted(ps + [p]) == Add(Sorted(ps), p)
  {
    ItemsAppend(ps, p, ToInstall);
    ItemsAppend(ps, p, ToInstallDetached);
    ItemsAppend(ps, p, ToReinstall);
    ItemsAppend(ps, p, ToDowngrade);
  }

  lemma SortedConcat(ps: seq<Placement>, qs: seq<Placement>)
    ensures Sorted(ps + qs) == Extend(Sorted(ps), Sorted(qs))
  {
    ItemsConcat(ps, qs, ToInstall);
    ItemsConcat(ps, qs, ToInstallDetached);
    ItemsConcat(ps, qs, ToReinstall);
    ItemsConcat(ps, qs, ToDowngrade);
  }

  /** Every placement lands in exactly one list. */
  lemma {:induction false} SortedTotal(ps: seq<Placement>)
    ensures Total(Sorted(ps)) == |ps|
    decreases |ps|
  {
    if ps != [] {
      SortedTotal(ps[..|ps| - 1]);
    }
  }

  /** An item is in a list exactly when it was placed there. */
  lemma {:induction false} ItemsIn(ps: seq<Placement>, b: Bucket, x: string)
    ensures x in Items(ps, b) <==> Placement(b, x) in ps
    decreases |ps|
  {
    if ps != [] {
      var init := ps[..|ps| - 1];
      ItemsIn(init, b, x);
      assert ps == init + [ps[|ps| - 1]];
    }
  }

  /** Sorting the placements of requests one after the other. */
  lemma {:induction false} ItemsConcat(ps: seq<Placement>, qs: seq<Placement>, b: Bucket)
    ensures Items(ps + qs, b) == Items(ps, b) + Items(qs, b)
    decreases |qs|
  {
    if qs != [] {
      var init := qs[..|qs| - 1];
      ItemsConcat(ps, init, b);
      assert (ps + qs)[..|ps + qs| - 1] == ps + init;
      assert (ps + qs)[|ps + qs| - 1] == qs[|qs| - 1];
    } else {
      assert ps + qs == ps;
    }
  }

  /** What a request's version conditions can be sorted into: a package
      installed by a detached process never reaches `to_install` through
      them, another package never reaches the detached list, and nothing is
      downgraded when only upgrading. */
  lemma {:induction false} ConditionBuckets(name: string, versionNum: string, cver: string, infos: seq<VersionInfo>,
                                            opts: InstallOptions, compare: VersionTest)
    ensures forall p :: p in ConditionPlacements(name, versionNum, cver, infos, opts, compare) ==>
      && (name in Detached ==> p.bucket != ToInstall)
      && (name !in Detached ==> p.bucket != ToInstallDetached)
      && (opts.onlyUpgrade ==> p.bucket != ToDowngrade)
    decreases |infos|
  {
    if infos != [] {
      ConditionBuckets(name, versionNum, cver, infos[..|infos| - 1], opts, compare);
    }
  }

  /** The same for a whole request: a request without a version never goes
      to the detached list, even for a package installed by a detached
      process, since 759-765 append to `to_install` directly. */
  lemma DetachedPlacement(name: string, versionNum: Option<string>, before: Snapshot,
                          opts: InstallOptions, compare: VersionTest)
    ensures name in Detached && versionNum.Some? ==>
      forall p :: p in RequestPlacements(name, versionNum, before, opts, compare) ==> p.bucket != ToInstall
    ensures versionNum.None? ==>
      forall p :: p in RequestPlacements(name, versionNum, before, opts, compare) ==> p.bucket != ToInstallDetached
    ensures name !in Detached ==>
      forall p :: p in RequestPlacements(name, versionNum, before, opts, compare) ==> p.bucket != ToInstallDetached
    ensures opts.onlyUpgrade ==>
      forall p :: p in RequestPlacements(name, versionNum, before, opts, compare) ==> p.bucket != ToDowngrade
  {
    if versionNum.Some? {
      ConditionBuckets(name, versionNum.value, Get(before, name, ""), Infos(Conditions(versionNum.value)), opts, compare);
    }
  }

  /** No placement goes to bucket `b`: the list is empty. */
  lemma {:induction false} ItemsNone(ps: seq<Placement>, b: Bucket)
    requires forall p :: p in ps ==> p.bucket != b
    ensures Items(ps, b) == []
    decreases |ps|
  {
    if ps != [] {
      ItemsNone(ps[..|ps| - 1], b);
    }
  }

  /** Whether the placements of all requests keep out of bucket `b`. */
  lemma {:induction false} AllPlacementsAvoid(requests: seq<(string, Option<string>)>, override: bool, version: Option<string>,
                                              before: Snapshot, opts: InstallOptions, compare: VersionTest, b: Bucket)
    requires b == ToDowngrade ==> opts.onlyUpgrade
    requires b == ToInstallDetached ==> forall r :: r in requests ==> r.0 !in Detached
    requires b == ToDowngrade || b == ToInstallDetached
    ensures forall p :: p in AllPlacements(requests, override, version, before, opts, compare) ==> p.bucket != b
    decreases |requests|
  {
    if requests != [] {
      var last := requests[|requests| - 1];
      assert forall r :: r in requests[..|requests| - 1] ==> r in requests;
      AllPlacementsAvoid(requests[..|requests| - 1], override, version, before, opts, compare, b);
      DetachedPlacement(last.0, VersionNum(last, override, version), before, opts, compare);
    }
  }

  /** With `only_upgrade` nothing is appended to `to_downgrade`. */
  lemma OnlyUpgradeNoDowngrade(requests: seq<(string, Option<string>)>, override: bool, version: Option<string>,
                               before: Snapshot, opts: InstallOptions, compare: VersionTest)
    requires opts.onlyUpgrade
    ensures Sorted(AllPlacements(requests, override, version, before, opts, compare)).toDowngrade == []
  {
    AllPlacementsAvoid(requests, override, version, before, opts, compare, ToDowngrade);
    ItemsNone(AllPlacements(requests, override, version, before, opts, compare), ToDowngrade);
  }

  /** Without a request for a package installed by a detached process, the
      detached list stays empty. */
  lemma NoDetachedRequest(requests: seq<(string, Option<string>)>, override: bool, version: Option<string>,
                          before: Snapshot, opts: InstallOptions, compare: VersionTest)
    requires forall r :: r in requests ==> r.0 !in Detached
    ensures Sorted(AllPlacements(requests, override, version, before, opts, compare)).toInstallDetached == []
  {
    AllPlacementsAvoid(requests, override, version, before, opts, compare, ToInstallDetached);
    ItemsNone(AllPlacements(requests, override, version, before, opts, compare), ToInstallDetached);
  }

  /** The number of version conditions of the requests, a request without
      a version counting as one. */
  function ConditionCount(requests: seq<(string, Option<string>)>, override: bool, version: Option<string>): nat
    decreases |requests|
  {
    if requests == [] then 0
    else
      var v := VersionNum(requests[|requests| - 1], override, version);
      ConditionCount(requests[..|requests| - 1], override, version) + (if v.None? then 1 else |Conditions(v.value)|)
  }

  /** Every version condition, and every request without a version, lands
      in exactly one of the four lists. */
  lemma {:induction false} EveryConditionPlaced(requests: seq<(string, Option<string>)>, override: bool, version: Option<string>,
                                                before: Snapshot, opts: InstallOptions, compare: VersionTest)
    ensures Total(Sorted(AllPlacements(requests, override, version, before, opts, compare))) == ConditionCount(requests, override, version)
    decreases |requests|
  {
    var all := AllPlacements(requests, override, version, before, opts, compare);
    SortedTotal(all);
    PlacementCount(requests, override, version, before, opts, compare);
  }

  lemma {:induction false} PlacementCount(requests: seq<(string, Option<string>)>, override: bool, version: Option<string>,
                                          before: Snapshot, opts: InstallOptions, compare: VersionTest)
    ensures |AllPlacements(requests, override, version, before, opts, compare)| == ConditionCount(requests, override, version)
    decreases |requests|
  {
    if requests != [] {
      var last := requests[|requests| - 1];
      var v := VersionNum(last, override, version);
      PlacementCount(requests[..|requests| - 1], override, version, before, opts, compare);
      if v.Some? {
        ConditionPlacementsSpec(last.0, v.value, Get(before, last.0, ""), Infos(Conditions(v.value)), opts, compare);
      }
    }
  }

  /** A request without a version is reinstalled exactly when reinstalling
      a package installed before, and is installed under its bare name
      otherwise. */
  lemma NoVersionReinstall(name: string, before: Snapshot, opts: InstallOptions, compare: VersionTest)
    ensures RequestPlacements(name, None, before, opts, compare)
      == [Placement(if opts.reinstall && name in before then ToReinstall else ToInstall, name)]
  {
  }

  /** A condition with an operator goes to the solver as the name, the
      operator and the version found in it, and is never reinstalled nor
      downgraded; one without goes as "<name>=<versionNum>" and is a
      downgrade exactly when the version asked for is neither reinstalled
      nor at least the installed one, and only upgrades are not asked for. */
  lemma ConditionItem(name: string, versionNum: string, cver: string, condition: string,
                      opts: InstallOptions, compare: VersionTest)
    ensures var info := GetVersionInfo(condition);
      var p := ConditionPlacement(name, versionNum, cver, info, opts, compare);
      && (info.specified ==>
            p.item == name + info.operator + info.version && (p.bucket == ToInstall || p.bucket == ToInstallDetached))
      && (!info.specified ==>
            && p.item == name + "=" + versionNum
            && (p.bucket == ToDowngrade <==>
                  && !(opts.reinstall && cver != "" && compare(versionNum, "==", cver))
                  && cver != "" && !compare(versionNum, ">=", cver)
                  && !opts.onlyUpgrade))
  {
  }

  /** Whether the `version` keyword argument replaces the version of the
      request (752): `nameOnly` says that `name` was given and `pkgs` was
      not, and there must be exactly one request. */
  predicate UsesVersionArgument(nameOnly: bool, requests: seq<(string, Option<string>)>) {
    nameOnly && |requests| == 1
  }

  /** The plan of 738-794: none for no targets; the package files all go
      to the install list; each repository request is placed by the
      version rules. */
  function Planned(targets: Targets, nameOnly: bool, version: Option<string>, before: Snapshot,
                   opts: InstallOptions, compare: VersionTest): (plan: Option<Plan>)
    ensures plan.None? <==> (if targets.PackageFiles? then targets.files == [] else targets.requests == [])
    ensures plan.Some? ==> plan.value.prefix == InstallPrefix(targets, opts)
    ensures plan.Some? && targets.PackageFiles? ==> plan.value.lists == Lists(targets.files, [], [], [])
  {
    match targets
    case PackageFiles(files) =>
      if files == [] then None else Some(Plan(InstallPrefix(targets, opts), Lists(files, [], [], [])))
    case Repository(requests) =>
      if requests == [] then None
      else Some(Plan(InstallPrefix(targets, opts), Sorted(AllPlacements(requests, UsesVersionArgument(nameOnly, requests), version, before, opts, compare))))
  }

  /** Without the override, the `version` keyword argument plays no part
      in the placements. */
  lemma {:induction false} OwnVersions(requests: seq<(string, Option<string>)>, version: Option<string>,
                                       before: Snapshot, opts: InstallOptions, compare: VersionTest)
    ensures AllPlacements(requests, false, version, before, opts, compare)
         == AllPlacements(requests, false, None, before, opts, compare)
    decreases |requests|
  {
    if requests != [] {
      OwnVersions(requests[..|requests| - 1], version, before, opts, compare);
    }
  }

  /** The `version` keyword argument is ignored unless `name` alone names
      a single package: several requests, or a `pkgs` list, are planned
      by their own versions. */
  lemma VersionArgumentIgnored(requests: seq<(string, Option<string>)>, nameOnly: bool, version: Option<string>,
                               before: Snapshot, opts: InstallOptions, compare: VersionTest)
    requires !nameOnly || |requests| != 1
    ensures Planned(Repository(requests), nameOnly, version, before, opts, compare)
         == Planned(Repository(requests), nameOnly, None, before, opts, compare)
  {
    OwnVersions(requests, version, before, opts, compare);
  }

  /** A single package named on its own, with a non-empty `version`
      keyword argument, is planned as a request for that version. */
  lemma VersionArgumentUsed(pkg: string, own: Option<string>, version: Option<string>,
                            before: Snapshot, opts: InstallOptions, compare: VersionTest)
    requires version.Some? && version.value != ""
    ensures Planned(Repository([(pkg, own)]), true, version, before, opts, compare)
         == Planned(Repository([(pkg, version)]), true, None, before, opts, compare)
  {
    var left: seq<(string, Option<string>)> := [(pkg, own)];
    var right: seq<(string, Option<string>)> := [(pkg, version)];
    assert left[..0] == [] && right[..0] == [];
    assert AllPlacements(left, true, version, before, opts, compare)
        == RequestPlacements(pkg, version, before, opts, compare);
    assert AllPlacements(right, true, None, before, opts, compare)
        == RequestPlacements(pkg, version, before, opts, compare);
  }

  /** The bucketing of 718-794: the prefix and its flags, then every
      target appended to its list, in order. */
  method PlanInstall(targets: Targets, nameOnly: bool, version: Option<string>, before: Snapshot,
                     opts: InstallOptions, compare: VersionTest)
    returns (plan: Option<Plan>)
    ensures plan == Planned(targets, nameOnly, version, before, opts, compare)
  {
    var prefix := ["opkg", "install"];
    if opts.test {
      prefix := prefix + ["--noaction"];
    }
    match targets
    case PackageFiles(files) =>
      if files == [] {
        return None;
      }
      if opts.reinstall {
        prefix := prefix + ["--force-reinstall"];
      }
      if !opts.onlyUpgrade {
        prefix := prefix + ["--force-downgrade"];
      }
      assert prefix == InstallPrefix(targets, opts);
      return Some(Plan(prefix, Lists(files, [], [], [])));
    case Repository(requests) =>
      if requests == [] {
        return None;
      }
      if !opts.installRecommends {
        prefix := prefix + ["--no-install-recommends"];
      }
      assert prefix == InstallPrefix(targets, opts);
      var lists := SortRequests(requests, UsesVersionArgument(nameOnly, requests), version, before, opts, compare);
      return Some(Plan(prefix, lists));
  }

  /** The loop over the requests at 759-794, appending to the four lists. */
  method SortRequests(requests: seq<(string, Option<string>)>, override: bool, version: Option<string>,
                      before: Snapshot, opts: InstallOptions, compare: VersionTest)
    returns (lists: Lists)
    ensures lists == Sorted(AllPlacements(requests, override, version, before, opts, compare))
  {
    var toInstall, toDetached, toReinstall, toDowngrade := [], [], [], [];
    for i := 0 to |requests|
      invariant Lists(toInstall, toDetached, toReinstall, toDowngrade)
        == Sorted(AllPlacements(requests[..i], override, version, before, opts, compare))
    {
      ghost var done := AllPlacements(requests[..i], override, version, before, opts, compare);
      var name := requests[i].0;
      var versionNum := VersionNum(requests[i], override, version);
      ghost var here := RequestPlacements(name, versionNum, before, opts, compare);
      assert requests[..i + 1][..i] == requests[..i];
      assert AllPlacements(requests[..i + 1], override, version, before, opts, compare) == done + here;
      SortedConcat(done, here);
      var added := SortRequest(name, versionNum, before, opts, compare);
      toInstall := toInstall + added.toInstall;
      toDetached := toDetached + added.toInstallDetached;
      toReinstall := toReinstall + added.toReinstall;
      toDowngrade := toDowngrade + added.toDowngrade;
    }
    assert requests[..|requests|] == requests;
    lists := Lists(toInstall, toDetached, toReinstall, toDowngrade);
  }

  /** Where the loop body at 769-794 puts one version condition. */
  method PlaceCondition(name: string, versionNum: string, cver: string, info: VersionInfo,
                        opts: InstallOptions, compare: VersionTest)
    returns (p: Placement)
    ensures p == ConditionPlacement(name, versionNum, cver, info, opts, compare)
  {
    if info.specified {
      p := Placement(HandleBucket(name), name + info.operator + info.version);
    } else {
      var item := name + "=" + versionNum;
      if opts.reinstall && cver != "" && compare(versionNum, "==", cver) {
        p := Placement(ToReinstall, item);
      } else if cver == "" || compare(versionNum, ">=", cver) {
        p := Placement(HandleBucket(name), item);
      } else if !opts.onlyUpgrade {
        p := Placement(ToDowngrade, item);
      } else {
        p := Placement(HandleBucket(name), item);
      }
    }
  }

  /** What one request appends to the four lists (759-794), including the
      loop over its version conditions. */
  method SortRequest(name: string, versionNum: Option<string>, before: Snapshot,
                     opts: InstallOptions, compare: VersionTest)
    returns (added: Lists)
    ensures added == Sorted(RequestPlacements(name, versionNum, before, opts, compare))
  {
    if versionNum.None? {
      var p := if opts.reinstall && name in before then Placement(ToReinstall, name) else Placement(ToInstall, name);
      SortedAppend([], p);
      assert [] + [p] == RequestPlacements(name, versionNum, before, opts, compare);
      added := Add(Lists([], [], [], []), p);
      return;
    }
    var v := versionNum.value;
    added := SortConditions(name, v, Get(before, name, ""), Conditions(v), opts, compare);
  }

  /** The loop over the version conditions of one request (768-794). */
  method SortConditions(name: string, versionNum: string, cver: string, conditions: seq<string>,
                        opts: InstallOptions, compare: VersionTest)
    returns (added: Lists)
    ensures added == Sorted(ConditionPlacements(name, versionNum, cver, Infos(conditions), opts, compare))
  {
    ghost var infos := Infos(conditions);
    added := Lists([], [], [], []);
    for k := 0 to |conditions|
      invariant added == Sorted(ConditionPlacements(name, versionNum, cver, infos[..k], opts, compare))
    {
      var info := GetVersionInfo(conditions[k]);
      var p := PlaceCondition(name, versionNum, cver, info, opts, compare);
      assert infos[k] == info;
      ConditionPlacementsPrefix(name, versionNum, cver, infos, k, opts, compare);
      SortedAppend(ConditionPlacements(name, versionNum, cver, infos[..k], opts, compare), p);
      match p.bucket
      case ToInstall => added := added.(toInstall := added.toInstall + [p.item]);
      case ToInstallDetached => added := added.(toInstallDetached := added.toInstallDetached + [p.item]);
      case ToReinstall => added := added.(toReinstall := added.toReinstall + [p.item]);
      case ToDowngrade => added := added.(toDowngrade := added.toDowngrade + [p.item]);
    }
    assert infos[..|conditions|] == infos;
  }

  /** 1 for a list that gets a command, 0 for an empty one. */
  function Present(items: seq<string>): nat {
    if items == [] then 0 else 1
  }

  /** The commands `_build_install_command_list` builds: one per non-empty
      list, so at most three and none exactly when every list is empty,
      each a copy of the prefix; the install command comes first, then the
      downgrade command with `--force-downgrade`, then the reinstall
      command with `--force-reinstall`, each followed by its list's
      items. */
  function CommandList(prefix: seq<string>, toInstall: seq<string>, toDowngrade: seq<string>,
                       toReinstall: seq<string>): (cmds: seq<seq<string>>)
    ensures |cmds| <= 3
    ensures cmds == [] <==> toInstall == [] && toDowngrade == [] && toReinstall == []
    ensures forall c :: c in cmds ==> |c| > |prefix| && c[..|prefix|] == prefix
    ensures toInstall != [] ==> cmds[0] == prefix + toInstall
    ensures |cmds| == Present(toInstall) + Present(toDowngrade) + Present(toReinstall)
    ensures toDowngrade != [] ==> cmds[Present(toInstall)] == prefix + ["--force-downgrade"] + toDowngrade
    ensures toReinstall != [] ==>
      cmds[Present(toInstall) + Present(toDowngrade)] == prefix + ["--force-reinstall"] + toReinstall
  {
    (if toInstall != [] then [prefix + toInstall] else [])
    + (if toDowngrade != [] then [prefix + ["--force-downgrade"] + toDowngrade] else [])
    + (if toReinstall != [] then [prefix + ["--force-reinstall"] + toReinstall] else [])
  }

  /** `_build_install_command_list`: a fresh copy of the prefix for each
      non-empty list, in the order install, downgrade, reinstall, the
      downgrade and reinstall ones with their force flag, each followed by
      its list's items. */
  method BuildInstallCommandList(prefix: seq<string>, toInstall: seq<string>, toDowngrade: seq<string>,
                                 toReinstall: seq<string>)
    returns (cmds: seq<seq<string>>)
    ensures cmds == CommandList(prefix, toInstall, toDowngrade, toReinstall)
  {
    cmds := [];
    if toInstall != [] {
      var cmd := prefix;
      cmd := cmd + toInstall;
      cmds := cmds + [cmd];
    }
    if toDowngrade != [] {
      var cmd := prefix;
      cmd := cmd + ["--force-downgrade"];
      cmd := cmd + toDowngrade;
      cmds := cmds + [cmd];
    }
    if toReinstall != [] {
      var cmd := prefix;
      cmd := cmd + ["--force-reinstall"];
      cmd := cmd + toReinstall;
      cmds := cmds + [cmd];
    }
  }

  /** The count `_get_total_packages` promises: -1 when the dry run of the
      command fails. */
  function TotalCount(cmd: seq<string>, tool: Tool): (n: int)
    ensures n >= -1
  {
    var out := Outcome(cmd + ["--noaction"], tool);
    if out.retcode != 0 then -1 else CountOperations(SplitOn(out.stdout, "\n"))
  }

  /** `_get_total_packages`: run the command dry and count the lines that
      announce an operation other than a download. */
  method TotalPackages(cmd: seq<string>, tool: Tool) returns (total: int)
    ensures total == TotalCount(cmd, tool)
    ensures total == -1 <==> Outcome(cmd + ["--noaction"], tool).retcode != 0
    ensures total != -1 ==> total <= |SplitOn(Outcome(cmd + ["--noaction"], tool).stdout, "\n")|
  {
    var testCmd := cmd + ["--noaction"];
    var out, _, _ := CallOpkg(testCmd, tool);
    if out.retcode != 0 {
      return -1;
    }
    var lines := SplitOn(out.stdout, "\n");
    total := CountOperations(lines);
  }

  /** How `_execute_install_command` runs a command. */
  datatype Mode = WithProgress | InDetachedProcess | Plain

  /** The mode for the options: progress is reported only for a command
      that is neither parsed nor detached, and a command is detached only
      when not parsed. */
  function InstallMode(notify: bool, parseOutput: bool, detached: bool): (m: Mode)
    ensures parseOutput ==> m == Plain
    ensures m == WithProgress <==> notify && !parseOutput && !detached
    ensures m == InDetachedProcess <==> detached && !parseOutput
  {
    if notify && !parseOutput && !detached then WithProgress
    else if detached && !parseOutput then InDetachedProcess
    else Plain
  }

  /** What is left of a detached run (602-606): only the exit code, and
      for a failure a message in place of standard error. */
  function DetachedResult(retcode: int): (r: ToolResult)
    ensures r.retcode == retcode
    ensures retcode != 0 ==> r.stderr != ""
  {
    ToolResult(retcode, "", if retcode != 0 then "Opkg installation operation failed with: " + IntToString(retcode) else "")
  }

  /** The error a failed command contributes: its standard error, or its
      standard output when standard error is empty. */
  function ErrorText(out: ToolResult): string {
    if out.stderr != "" then out.stderr else out.stdout
  }

  /** What the caller's error list and report dictionary hold after a
      command: one error more for a failure, the report merged in for a
      parsed success. */
  class Accumulated {
    var errors: seq<string>
    var reported: map<string, string>

    constructor(errors: seq<string>, reported: map<string, string>)
      ensures this.errors == errors && this.reported == reported
    {
      this.errors := errors;
      this.reported := reported;
    }

    /** 608-615: a failure appends its error text; a success of a parsed
        command merges what the install output reports. */
    method Record(out: ToolResult, parseOutput: bool)
      modifies this
      ensures out.retcode != 0 ==> errors == old(errors) + [ErrorText(out)] && reported == old(reported)
      ensures out.retcode == 0 && parseOutput ==>
        errors == old(errors) && reported == old(reported) + Store(InstallReports(SplitOn(out.stdout, "\n")))
      ensures out.retcode == 0 && !parseOutput ==> errors == old(errors) && reported == old(reported)
    {
      if out.retcode != 0 {
        if out.stderr != "" {
          errors := errors + [out.stderr];
        } else {
          errors := errors + [out.stdout];
        }
      } else if parseOutput {
        var parsed := ParseReportedInstall(out.stdout);
        reported := reported + parsed;
      }
    }
  }

  /** What running a command in each mode gives back, the tool and the
      processes being outside the model: `tool` is what the plain runs
      return, `progress` what the process run with progress produces and
      `detachedCode` the exit code of the detached process. */
  function RunResult(cmd: seq<string>, mode: Mode, jid: string, period: int, tool: Tool,
                     progress: ProcessOutput, detachedCode: int, clock: nat -> int): ToolResult
  {
    match mode
    case Plain => Outcome(cmd, tool)
    case InDetachedProcess => DetachedResult(detachedCode)
    case WithProgress =>
      var total := TotalCount(cmd, tool);
      if total == -1 then Outcome(cmd, tool)
      else
        var s := Run(Config(jid, total, period), progress.lines, clock);
        ToolResult(progress.retcode, s.stdout + progress.rest, progress.stderr)
  }

  /** `_execute_install_command` (585-615). */
  method ExecuteInstallCommand(cmd: seq<string>, parseOutput: bool, acc: Accumulated, jid: string,
                               detached: bool, notify: bool, period: int, tool: Tool,
                               progress: ProcessOutput, detachedCode: int, clock: nat -> int)
    returns (events: seq<Event>)
    modifies acc
    ensures var out := RunResult(cmd, InstallMode(notify, parseOutput, detached), jid, period, tool, progress, detachedCode, clock);
      && (out.retcode != 0 ==> acc.errors == old(acc.errors) + [ErrorText(out)] && acc.reported == old(acc.reported))
      && (out.retcode == 0 && parseOutput ==>
            acc.errors == old(acc.errors) && acc.reported == old(acc.reported) + Store(InstallReports(SplitOn(out.stdout, "\n"))))
      && (out.retcode == 0 && !parseOutput ==> acc.errors == old(acc.errors) && acc.reported == old(acc.reported))
  {
    var out: ToolResult;
    events := [];
    if notify && !parseOutput && !detached {
      var total := TotalPackages(cmd, tool);
      if total != -1 {
        out, events := ProcessWithProgress(jid, total, period, progress, clock);
      } else {
        var plain, _, _ := CallOpkg(cmd, tool);
        out := plain;
      }
    } else if detached && !parseOutput {
      out := DetachedResult(detachedCode);
    } else {
      var plain, _, _ := CallOpkg(cmd, tool);
      out := plain;
    }
    acc.Record(out, parseOutput);
  }
}
