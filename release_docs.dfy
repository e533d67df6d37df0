/**
 * The documentation release script (`docs/src/python/releaseDocs.py`): publishing a built
 * release of the documentation into the web site folder. Four steps run in order: point
 * `latest` at the release, link the release's `paradox.json` into the site, add the release
 * to `versions.json` (deduplicated and sorted newest first, by name), and link the release
 * folder into the site unless it already lies inside it. A dry run reads but writes nothing.
 */
module ReleaseDocs {
  import opened Common
  import opened Ordering

  /** An absolute, normalised path: its components below the root. */
  type Path = seq<string>

  /** A directory, a file (for `versions.json`, the list of names it holds) or a symbolic link. */
  datatype Node = Dir | File(versions: seq<string>) | Link(target: Path)

  const LatestName := "latest"
  const ParadoxName := "paradox.json"
  const VersionsName := "versions.json"
  const DryRunWarning := "dry run. no changes to the filesystem."

  /** `os.path.basename`: the last component, or nothing for the root. */
  function BaseName(p: Path): (r: string)
  {
    if p == [] then "" else p[|p| - 1]
  }

  /** `os.path.join(dir, name)`: an empty name leaves the directory itself. */
  function Join(dir: Path, name: string): (r: Path)
  {
    if name == "" then dir else dir + [name]
  }

  /**
   * `commonpath([website]) == commonpath([website, release])`: the web site folder is the
   * release folder or one of its ancestors.
   */
  predicate IsUnder(release: Path, website: Path)
  {
    |website| <= |release| && release[..|website|] == website
  }

  /** What a path leads to, following one symbolic link. */
  function Resolve(nodes: map<Path, Node>, p: Path): (r: Option<Node>)
  {
    if p !in nodes then None
    else if nodes[p].Link? then (if nodes[p].target in nodes then Some(nodes[nodes[p].target]) else None)
    else Some(nodes[p])
  }

  /** `os.path.exists`: false for a link whose target is missing. */
  predicate Exists(nodes: map<Path, Node>, p: Path)
  {
    Resolve(nodes, p).Some?
  }

  /**
   * `if exists(at): remove(at)` then `symlink(target, at)`: an existing directory cannot be
   * removed; a dangling link is not seen by `exists`, so it stays and the new link collides
   * with it.
   */
  function Relink(nodes: map<Path, Node>, at: Path, target: Path): (r: Result<map<Path, Node>>)
  {
    if at in nodes && nodes[at].Dir? then Err("IsADirectoryError")
    else if at in nodes && !Exists(nodes, at) then Err("FileExistsError")
    else Ok(nodes[at := Link(target)])
  }

  /** A relink succeeds unless a directory or a dangling link is in the way, and then changes that one entry. */
  lemma RelinkMeaning(nodes: map<Path, Node>, at: Path, target: Path, p: Path)
    ensures Relink(nodes, at, target).Ok? <==> at !in nodes || (!nodes[at].Dir? && Exists(nodes, at))
    ensures Relink(nodes, at, target).Ok? ==>
      var after := Relink(nodes, at, target).value;
      after.Keys == nodes.Keys + {at} && after[at] == Link(target) && (p != at && p in nodes ==> after[p] == nodes[p])
  {
  }

  /** `json.load` of an existing versions file: a directory cannot be opened. */
  function ReadVersions(nodes: map<Path, Node>, p: Path): (r: Result<seq<string>>)
    requires Exists(nodes, p)
  {
    var node := Resolve(nodes, p).value;
    if node.File? then Ok(node.versions) else Err("IsADirectoryError")
  }

  /** Where `open(p, "w")` writes: the target of a link at `p`, followed one step, or `p` itself. */
  function WriteTarget(nodes: map<Path, Node>, p: Path): Path
  {
    if p in nodes && nodes[p].Link? then nodes[p].target else p
  }

  /** The folder that would hold a new file at `t` exists: the root, or a directory one link step away. */
  predicate ParentIsDir(nodes: map<Path, Node>, t: Path)
  {
    |t| > 0 && (|t| == 1 || Resolve(nodes, t[..|t| - 1]) == Some(Dir))
  }

  /**
   * `open(p, "w")` and `json.dump(list)`: the file at the write target gets the list, and a
   * link at `p` stays in place. A directory there cannot be opened; a dangling link creates
   * its target, unless the target's folder is missing. The folder of `p` itself, the web
   * site, is a directory the script checks at start-up.
   */
  function WriteVersions(nodes: map<Path, Node>, p: Path, list: seq<string>): (r: Result<map<Path, Node>>)
  {
    var t := WriteTarget(nodes, p);
    if t in nodes && nodes[t].Dir? then Err("IsADirectoryError")
    else if t !in nodes && t != p && !ParentIsDir(nodes, t) then Err("FileNotFoundError")
    else Ok(nodes[t := File(list)])
  }

  /**
   * A write fails exactly on a directory at the target, or a dangling link whose target has no
   * folder; otherwise the target holds the list, a link at `p` is kept, nothing else changes,
   * and reading `p` back one link step gives the list.
   */
  lemma WriteVersionsMeaning(nodes: map<Path, Node>, p: Path, list: seq<string>, q: Path)
    ensures var t := WriteTarget(nodes, p);
      WriteVersions(nodes, p, list).Err? <==>
        (t in nodes && nodes[t].Dir?) || (t !in nodes && t != p && !ParentIsDir(nodes, t))
    ensures var t := WriteTarget(nodes, p);
      WriteVersions(nodes, p, list).Ok? ==>
        var after := WriteVersions(nodes, p, list).value;
        && after.Keys == nodes.Keys + {t} && after[t] == File(list)
        && (q != t && q in nodes ==> after[q] == nodes[q])
        && (p in nodes && nodes[p].Link? && t != p ==> after[p] == nodes[p])
        && Resolve(after, p) == Some(File(list))
  {
  }

  /** The sorted listing of the distinct names of `s`, built by insertion. */
  function SortedOf(s: seq<string>): (r: seq<string>)
    decreases |s|
  {
    if s == [] then []
    else
      var sorted := SortedOf(s[..|s| - 1]);
      var x := s[|s| - 1];
      if x in sorted then sorted else Insert(sorted, x)
  }

  lemma {:induction false} SortedOfMeaning(s: seq<string>)
    ensures Ascending(SortedOf(s))
    ensures forall y :: y in SortedOf(s) <==> y in s
    decreases |s|
  {
    if s != [] {
      var init := s[..|s| - 1];
      SortedOfMeaning(init);
      var x := s[|s| - 1];
      assert s == init + [x];
      if x !in SortedOf(init) {
        InsertAscending(SortedOf(init), x);
        InsertContents(SortedOf(init), x);
      }
    }
  }

  /**
   * The version list `update_versions` writes over an existing one: the distinct names of the
   * prior list and the release, newest (greatest) first.
   */
  function VersionsAfter(prior: seq<string>, name: string): (r: seq<string>)
  {
    Reversed(SortedOf(prior + [name]))
  }

  /**
   * The new list is strictly descending, so it holds each name once; it holds exactly the
   * prior names and the release; it grows by one exactly when the release was not listed.
   */
  lemma VersionsAfterMeaning(prior: seq<string>, name: string)
    ensures Descending(VersionsAfter(prior, name)) && Distinct(VersionsAfter(prior, name))
    ensures forall y :: y in VersionsAfter(prior, name) <==> y in prior || y == name
    ensures |VersionsAfter(prior, name)| == |Elems(prior)| + (if name in prior then 0 else 1)
  {
    var s := SortedOf(prior + [name]);
    SortedOfMeaning(prior + [name]);
    var r := VersionsAfter(prior, name);
    forall y ensures y in r <==> y in s {
      if y in s {
        var k :| 0 <= k < |s| && s[k] == y;
        assert r[|s| - 1 - k] == y;
      }
    }
    forall y ensures y in prior + [name] <==> y in prior || y == name {
    }
    forall i, j | 0 <= i < |r| && 0 <= j < |r| && r[i] == r[j] ensures i == j {
      if i < j {
        assert Before(s[|s| - 1 - j], s[|s| - 1 - i]);
        BeforeIrreflexive(r[i]);
      } else if j < i {
        assert Before(s[|s| - 1 - i], s[|s| - 1 - j]);
        BeforeIrreflexive(r[i]);
      }
    }
    EnumerationSize(r, Elems(prior) + {name});
  }

  /** Where the web site and the release are, and whether this is a dry run. */
  datatype Config = Config(website: Path, release: Path, dryRun: bool)

  function LatestPath(c: Config): Path { Join(c.website, LatestName) }
  function SiteParadoxPath(c: Config): Path { Join(c.website, ParadoxName) }
  function ReleaseParadoxPath(c: Config): Path { Join(c.release, ParadoxName) }
  function VersionsPath(c: Config): Path { Join(c.website, VersionsName) }
  function SiteReleasePath(c: Config): Path { Join(c.website, BaseName(c.release)) }

  /** `set_latest`. */
  function LatestStep(nodes: map<Path, Node>, c: Config): (r: Result<map<Path, Node>>)
  {
    if c.dryRun then Ok(nodes) else Relink(nodes, LatestPath(c), c.release)
  }

  /** `update_paradox`. */
  function ParadoxStep(nodes: map<Path, Node>, c: Config): (r: Result<map<Path, Node>>)
  {
    if c.dryRun then Ok(nodes) else Relink(nodes, SiteParadoxPath(c), ReleaseParadoxPath(c))
  }

  /** The list `update_versions` computes: the release alone when there is no versions file. */
  function VersionList(nodes: map<Path, Node>, c: Config): (r: Result<seq<string>>)
  {
    var name := BaseName(c.release);
    if !Exists(nodes, VersionsPath(c)) then Ok([name])
    else
      var read := ReadVersions(nodes, VersionsPath(c));
      if read.Err? then Err(read.error) else Ok(VersionsAfter(read.value, name))
  }

  /** `update_versions`: the file is read even in a dry run, and written only outside one. */
  function VersionsStep(nodes: map<Path, Node>, c: Config): (r: Result<map<Path, Node>>)
  {
    var list := VersionList(nodes, c);
    if list.Err? then Err(list.error)
    else if c.dryRun then Ok(nodes)
    else WriteVersions(nodes, VersionsPath(c), list.value)
  }

  /** `link_release`. */
  function LinkStep(nodes: map<Path, Node>, c: Config): (r: Result<map<Path, Node>>)
  {
    if IsUnder(c.release, c.website) || c.dryRun then Ok(nodes)
    else Relink(nodes, SiteReleasePath(c), c.release)
  }

  /** Where a run stops: the file system as left, and the error that stopped it, if any. */
  datatype Outcome = Outcome(nodes: map<Path, Node>, error: Option<string>)

  /** The four steps of `release` in order, stopping at the first that raises. */
  function ReleaseOutcome(nodes: map<Path, Node>, c: Config): (r: Outcome)
  {
    var s1 := LatestStep(nodes, c);
    if s1.Err? then Outcome(nodes, Some(s1.error))
    else
      var s2 := ParadoxStep(s1.value, c);
      if s2.Err? then Outcome(s1.value, Some(s2.error))
      else
        var s3 := VersionsStep(s2.value, c);
        if s3.Err? then Outcome(s2.value, Some(s3.error))
        else
          var s4 := LinkStep(s3.value, c);
          if s4.Err? then Outcome(s3.value, Some(s4.error))
          else Outcome(s4.value, None)
  }

  /** A dry run leaves the file system as it was, though it may still fail reading the versions file. */
  lemma DryRunWritesNothing(nodes: map<Path, Node>, c: Config)
    requires c.dryRun
    ensures ReleaseOutcome(nodes, c).nodes == nodes
    ensures ReleaseOutcome(nodes, c).error.Some? ==>
      Exists(nodes, VersionsPath(c)) && ReadVersions(nodes, VersionsPath(c)).Err?
  {
  }

  /** A release folder inside the site is not linked again. */
  lemma LinkStepUnder(nodes: map<Path, Node>, c: Config)
    requires IsUnder(c.release, c.website)
    ensures LinkStep(nodes, c) == Ok(nodes)
  {
  }

  /**
   * A run that completes, outside a dry run, leaves `latest` pointing at the release, the
   * site's `paradox.json` at the release's, and a link to the release folder in the site
   * unless it already lies inside. A link at `versions.json` stays in place and the file it
   * leads to lists the release, so reading `versions.json` gives that list, unless the link
   * step has just replaced that very file with the release link.
   */
  lemma ReleasePublishes(nodes: map<Path, Node>, c: Config)
    requires !c.dryRun && ReleaseOutcome(nodes, c).error.None?
    requires c.website != [] && LatestName != BaseName(c.release) && ParadoxName != BaseName(c.release) &&
      VersionsName != BaseName(c.release)
    ensures var after := ReleaseOutcome(nodes, c).nodes;
      && LatestPath(c) in after && after[LatestPath(c)] == Link(c.release)
      && SiteParadoxPath(c) in after && after[SiteParadoxPath(c)] == Link(ReleaseParadoxPath(c))
      && (!IsUnder(c.release, c.website) ==> SiteReleasePath(c) in after && after[SiteReleasePath(c)] == Link(c.release))
    ensures var after := ReleaseOutcome(nodes, c).nodes;
      var vp := VersionsPath(c);
      var t := WriteTarget(nodes, vp);
      && vp in after
      && (vp in nodes && nodes[vp].Link? ==> after[vp] == nodes[vp])
      && (IsUnder(c.release, c.website) || t != SiteReleasePath(c) ==>
            && t in after && after[t].File? && BaseName(c.release) in after[t].versions
            && Resolve(after, vp) == Some(after[t]))
  {
    var name := BaseName(c.release);
    var vp := VersionsPath(c);
    var t := WriteTarget(nodes, vp);
    var s1 := LatestStep(nodes, c).value;
    var s2 := ParadoxStep(s1, c).value;
    var list := VersionList(s2, c).value;
    if Exists(s2, vp) {
      VersionsAfterMeaning(ReadVersions(s2, vp).value, name);
    }
    assert LatestPath(c) != SiteParadoxPath(c) && LatestPath(c) != vp && SiteParadoxPath(c) != vp;
    assert vp in s2 <==> vp in nodes;
    assert vp in nodes ==> s2[vp] == nodes[vp];
    assert t == WriteTarget(s2, vp);
    // a link from `versions.json` to itself, `latest` or `paradox.json` reads a link, which fails
    assert t != vp ==> t != LatestPath(c) && t != SiteParadoxPath(c);
    var s3 := VersionsStep(s2, c).value;
    assert s3 == s2[t := File(list)];
    if !IsUnder(c.release, c.website) {
      assert name != "" ==> SiteReleasePath(c)[|c.website|] == name;
      assert name == "" ==> SiteReleasePath(c) == c.website;
      assert LatestPath(c)[|c.website|] == LatestName;
      assert SiteParadoxPath(c)[|c.website|] == ParadoxName;
      assert VersionsPath(c)[|c.website|] == VersionsName;
    }
  }

  /** The file system the script works on. */
  class FileSystem {
    var nodes: map<Path, Node>

    constructor (nodes: map<Path, Node>)
      ensures this.nodes == nodes
    {
      this.nodes := nodes;
    }
  }

  class DocReleaseManager {
    const website: Path
    const release: Path
    const dryRun: bool
    const fs: FileSystem

    constructor (website: Path, release: Path, dryRun: bool, fs: FileSystem)
      ensures this.website == website && this.release == release && this.dryRun == dryRun && this.fs == fs
    {
      this.website := website;
      this.release := release;
      this.dryRun := dryRun;
      this.fs := fs;
    }

    function Cfg(): Config
    {
      Config(website, release, dryRun)
    }

    /** Removes what is at `at`, if `exists` sees it, then puts a link to `target` there. */
    method ReplaceWithLink(at: Path, target: Path) returns (r: Result<()>)
      modifies fs
      ensures var out := Relink(old(fs.nodes), at, target);
        && (out.Err? ==> r == Err(out.error) && fs.nodes == old(fs.nodes))
        && (out.Ok? ==> r == Ok(()) && fs.nodes == out.value)
    {
      if Exists(fs.nodes, at) {
        if fs.nodes[at].Dir? {
          return Err("IsADirectoryError");
        }
        fs.nodes := map p | p in fs.nodes && p != at :: fs.nodes[p];
      }
      if at in fs.nodes {
        return Err("FileExistsError");
      }
      fs.nodes := fs.nodes[at := Link(target)];
      r := Ok(());
      assert fs.nodes == Relink(old(fs.nodes), at, target).value;
    }

    /** `set_latest()`. */
    method SetLatest() returns (r: Result<()>)
      modifies fs
      ensures var out := LatestStep(old(fs.nodes), Cfg());
        && (out.Err? ==> r == Err(out.error) && fs.nodes == old(fs.nodes))
        && (out.Ok? ==> r == Ok(()) && fs.nodes == out.value)
    {
      r := Ok(());
      if !dryRun {
        r := ReplaceWithLink(LatestPath(Cfg()), release);
      }
    }

    /** `update_paradox()`. */
    method UpdateParadox() returns (r: Result<()>)
      modifies fs
      ensures var out := ParadoxStep(old(fs.nodes), Cfg());
        && (out.Err? ==> r == Err(out.error) && fs.nodes == old(fs.nodes))
        && (out.Ok? ==> r == Ok(()) && fs.nodes == out.value)
    {
      r := Ok(());
      if !dryRun {
        r := ReplaceWithLink(SiteParadoxPath(Cfg()), ReleaseParadoxPath(Cfg()));
      }
    }

    /**
     * `update_versions()`: the old list is deduplicated, the release added when missing,
     * and the list sorted in reverse.
     */
    method UpdateVersions() returns (r: Result<()>)
      modifies fs
      ensures var out := VersionsStep(old(fs.nodes), Cfg());
        && (out.Err? ==> r == Err(out.error) && fs.nodes == old(fs.nodes))
        && (out.Ok? ==> r == Ok(()) && fs.nodes == out.value)
    {
      var name := BaseName(release);
      var path := VersionsPath(Cfg());
      var list: seq<string>;
      if Exists(fs.nodes, path) {
        var read := ReadVersions(fs.nodes, path);
        if read.Err? {
          return Err(read.error);
        }
        var unique := SortedNames(Elems(read.value));
        if name !in unique {
          unique := unique + [name];
        }
        var sorted := SortedNames(Elems(unique));
        list := Reversed(sorted);
        SortedOfMeaning(read.value + [name]);
        forall y ensures y in sorted <==> y in SortedOf(read.value + [name]) {
          assert y in read.value + [name] <==> y in read.value || y == name;
        }
        AscendingUnique(sorted, SortedOf(read.value + [name]));
      } else {
        list := [name];
      }
      if !dryRun {
        var target := path;
        if path in fs.nodes && fs.nodes[path].Link? {
          target := fs.nodes[path].target;
        }
        if target in fs.nodes && fs.nodes[target].Dir? {
          return Err("IsADirectoryError");
        }
        if target !in fs.nodes && target != path && !ParentIsDir(fs.nodes, target) {
          return Err("FileNotFoundError");
        }
        fs.nodes := fs.nodes[target := File(list)];
      }
      r := Ok(());
    }

    /** `link_release()`. */
    method LinkRelease() returns (r: Result<()>)
      modifies fs
      ensures var out := LinkStep(old(fs.nodes), Cfg());
        && (out.Err? ==> r == Err(out.error) && fs.nodes == old(fs.nodes))
        && (out.Ok? ==> r == Ok(()) && fs.nodes == out.value)
    {
      if IsUnder(release, website) {
        return Ok(());
      }
      r := Ok(());
      if !dryRun {
        r := ReplaceWithLink(SiteReleasePath(Cfg()), release);
      }
    }

    /**
     * `release(dry_run)`: the argument only adds a warning; the steps obey the dry-run flag
     * given to the constructor. The first step that raises ends the run.
     */
    method Release(dryRunArgument: bool) returns (r: Result<()>, warnings: seq<string>)
      modifies fs
      ensures warnings == if dryRunArgument then [DryRunWarning] else []
      ensures var out := ReleaseOutcome(old(fs.nodes), Cfg());
        fs.nodes == out.nodes && (out.error.None? <==> r.Ok?) && (out.error.Some? ==> r == Err(out.error.value))
    {
      warnings := if dryRunArgument then [DryRunWarning] else [];
      r := SetLatest();
      if r.Err? {
        return;
      }
      r := UpdateParadox();
      if r.Err? {
        return;
      }
      r := UpdateVersions();
      if r.Err? {
        return;
      }
      r := LinkRelease();
    }
  }
}
