/** The dictionaries of changes that `install` and `remove` return
    (salt/modules/opkg.py:821-847, 1021-1026): the difference between the
    package snapshot before and after the operation, in the form of
    `salt.utils.data.compare_dicts`, the dry-run corrections to the after
    snapshot, and the entries added for reinstalled packages. A snapshot
    maps a package name to its installed version. */
module ChangeSets {
  import opened Wrappers

  type Snapshot = map<string, string>

  /** One entry of a change dictionary: `{"old": ..., "new": ...}`. */
  datatype Change = Change(oldVersion: string, newVersion: string)

  type ChangeMap = map<string, Change>

  /** `compare_dicts(before, after)`: every key of either snapshot whose
      `get` differs, with its before and after version, "" standing for a
      missing one. */
  function Diff(before: Snapshot, after: Snapshot): ChangeMap {
    map k | k in before.Keys + after.Keys && Lookup(before, k) != Lookup(after, k) :: Change(Get(before, k, ""), Get(after, k, ""))
  }

  /** A package is in the difference exactly when it was added, removed or
      changed its version, and its entry holds both versions. */
  lemma DiffSpec(before: Snapshot, after: Snapshot, k: string)
    ensures k in Diff(before, after) <==>
      (k in before && k !in after) || (k !in before && k in after) || (k in before && k in after && before[k] != after[k])
    ensures k in Diff(before, after) ==> Diff(before, after)[k] == Change(Get(before, k, ""), Get(after, k, ""))
  {
  }

  /** Nothing changes between equal snapshots. */
  lemma DiffSame(m: Snapshot)
    ensures Diff(m, m) == map[]
  {
    assert forall k :: k !in Diff(m, m);
  }

  /** The dry-run after snapshot of `install` (821-823): the listed
      snapshot updated with what the install output reported. */
  function Overlay(after: Snapshot, reported: map<string, string>): (r: Snapshot)
    ensures r.Keys == after.Keys + reported.Keys
    ensures forall k :: k in r ==> r[k] == (if k in reported then reported[k] else after[k])
  {
    after + reported
  }

  /** The dry-run after snapshot of `remove` (1023-1024): the listed
      snapshot without what the remove output reported. */
  function Subtract(after: Snapshot, reported: map<string, string>): (r: Snapshot)
    ensures r.Keys == after.Keys - reported.Keys
    ensures forall k :: k in r ==> r[k] == after[k]
  {
    map k | k in after && k !in reported :: after[k]
  }

  /** A package a dry-run install reports shows up as a change unless its
      reported version is the one installed. */
  lemma OverlayReported(before: Snapshot, after: Snapshot, reported: map<string, string>, k: string)
    requires k in reported
    ensures k in Diff(before, Overlay(after, reported)) <==> !(k in before && before[k] == reported[k])
    ensures k in Diff(before, Overlay(after, reported)) ==> Diff(before, Overlay(after, reported))[k].newVersion == reported[k]
  {
  }

  /** A package a dry-run remove reports shows up as removed when it was
      installed before. */
  lemma SubtractReported(before: Snapshot, after: Snapshot, reported: map<string, string>, k: string)
    requires k in reported && k in before
    ensures k in Diff(before, Subtract(after, reported))
    ensures Diff(before, Subtract(after, reported))[k] == Change(before[k], "")
  {
  }

  /** The entry added for one reinstalled name (843-847): one is set when
      the name is not yet among the changes or was installed before. */
  function AddReinstalledOne(ret: ChangeMap, before: Snapshot, after: Snapshot, name: string): ChangeMap {
    if name !in ret || name in before then ret[name := Change(Get(before, name, ""), Get(after, name, ""))] else ret
  }

  /** The changes after the entries for the reinstalled names are added, in
      order. */
  function AddReinstalled(ret: ChangeMap, before: Snapshot, after: Snapshot, names: seq<string>): ChangeMap
    decreases |names|
  {
    if names == [] then ret
    else AddReinstalledOne(AddReinstalled(ret, before, after, names[..|names| - 1]), before, after, names[|names| - 1])
  }

  /** Adding the reinstalled names only adds entries for those names, and
      each reinstalled name ends up with an entry; one installed before, or
      one first added here, holds its versions from both snapshots. */
  lemma {:induction false} AddReinstalledSpec(ret: ChangeMap, before: Snapshot, after: Snapshot, names: seq<string>)
    ensures AddReinstalled(ret, before, after, names).Keys == ret.Keys + set n | n in names
    ensures forall k :: k in ret && k !in names ==> AddReinstalled(ret, before, after, names)[k] == ret[k]
    ensures forall k :: k in names && (k in before || k !in ret) ==>
      AddReinstalled(ret, before, after, names)[k] == Change(Get(before, k, ""), Get(after, k, ""))
    decreases |names|
  {
    if names != [] {
      var init := names[..|names| - 1];
      AddReinstalledSpec(ret, before, after, init);
      assert forall n :: n in names <==> n in init || n == names[|names| - 1];
    }
  }

  /** Added to the differences of two snapshots, the reinstalled entries
      keep every entry holding the package's version in each snapshot. */
  lemma {:induction false} AddReinstalledDiff(before: Snapshot, after: Snapshot, names: seq<string>, k: string)
    requires k in AddReinstalled(Diff(before, after), before, after, names)
    ensures AddReinstalled(Diff(before, after), before, after, names)[k] == Change(Get(before, k, ""), Get(after, k, ""))
    decreases |names|
  {
    if names != [] {
      var init := names[..|names| - 1];
      if k in AddReinstalled(Diff(before, after), before, after, init) {
        AddReinstalledDiff(before, after, init, k);
      }
    }
  }

  /** The loop at 843-847, which updates the change dictionary in place. */
  method AddReinstalledEntries(ret: ChangeMap, before: Snapshot, after: Snapshot, toReinstall: seq<string>)
    returns (r: ChangeMap)
    ensures r == AddReinstalled(ret, before, after, toReinstall)
  {
    r := ret;
    for i := 0 to |toReinstall|
      invariant r == AddReinstalled(ret, before, after, toReinstall[..i])
    {
      assert toReinstall[..i + 1][..i] == toReinstall[..i];
      var name := toReinstall[i];
      if name !in r || name in before {
        r := r[name := Change(Get(before, name, ""), Get(after, name, ""))];
      }
    }
    assert toReinstall[..|toReinstall|] == toReinstall;
  }
}
