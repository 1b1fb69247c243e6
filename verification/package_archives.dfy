/**
 * Scripts/package_app.py, `create_archives`: the `.zip` of a platform package, and on
 * Linux and macOS also a `.tar.gz`, written next to the platform directory.
 *
 * An archive is modelled by its image, a map from the path of an entry inside the
 * archive to the entry; compression and the on-disk formats are not modelled.
 */
module PackageArchives {
  import opened Wrappers
  import opened FileTree
  import opened Workspaces
  import opened PackageTemplates
  import opened PackageApp

  /** `Jumperless-{Platform}.zip` */
  function ZipName(pl: Platform): string {
    ArchiveStem(pl) + ".zip"
  }

  /** `Jumperless-{Platform}.tar.gz` */
  function TarName(pl: Platform): string {
    ArchiveStem(pl) + ".tar.gz"
  }

  /** What the `os.walk` loop puts in the zip: every file below `dir`, under its path
      relative to `dir`. Directories get no entry of their own. */
  function ZipEntries(t: Tree, dir: Path): (entries: map<Path, Node>)
    ensures forall rel :: rel in entries <==> rel != [] && IsFile(t, dir + rel)
    ensures forall rel :: rel in entries ==> dir + rel in t && entries[rel] == t[dir + rel]
  {
    map rel | rel in FilesBelow(t, dir) && rel != [] :: t[dir + rel]
  }

  /** `tar.add(dir, arcname=stem)`: `dir` and everything below it, stored below the
      top-level name `stem`. */
  function TarOf(t: Tree, dir: Path, pl: Platform): Content {
    TarImage(ArchiveStem(pl), Subtree(t, dir))
  }

  /** The archives written when the platform directory exists. */
  function Archived(t: Tree, out: Path, pl: Platform): FsResult<Tree> {
    var dir := PlatformDir(out, pl);
    if dir !in t then Success(t)
    else
      var zipped :- WriteFile(t, out + [ZipName(pl)], ZipImage(ZipEntries(t, dir)));
      if IsUnix(pl) then WriteFile(zipped, out + [TarName(pl)], TarOf(zipped, dir, pl))
      else Success(zipped)
  }

  /** The warning printed when there is no platform directory to archive. */
  function ArchiveWarnings(t: Tree, out: Path, pl: Platform): seq<Warning> {
    if PlatformDir(out, pl) in t then [] else [PackageDirNotFound(PlatformDir(out, pl))]
  }

  /** The nested `os.walk` loops, adding one file to the zip at a time. */
  method CollectZipEntries(t: Tree, dir: Path) returns (entries: map<Path, Node>)
    ensures entries == ZipEntries(t, dir)
  {
    var files := FilesBelow(t, dir) - {[]};
    var left := files;
    entries := map[];
    while left != {}
      invariant left <= files
      invariant entries.Keys == files - left
      invariant forall rel :: rel in entries ==> dir + rel in t && entries[rel] == t[dir + rel]
      decreases |left|
    {
      var rel :| rel in left;
      entries := entries[rel := t[dir + rel]];
      left := left - {rel};
    }
  }

  method CreateArchives(ws: Workspace, out: Path, pl: Platform) returns (st: Status)
    modifies ws
    ensures st == StatusOf(Archived(old(ws.tree), out, pl))
    ensures st.Done? ==> ws.tree == Archived(old(ws.tree), out, pl).value
    ensures ws.warnings == old(ws.warnings) + ArchiveWarnings(old(ws.tree), out, pl)
  {
    var dir := PlatformDir(out, pl);
    if dir !in ws.tree {
      ws.Warn(PackageDirNotFound(dir));
      return Done;
    }
    var entries := CollectZipEntries(ws.tree, dir);
    st := ws.WriteFile(out + [ZipName(pl)], ZipImage(entries));
    if st.Crashed? {
      return;
    }
    if IsUnix(pl) {
      st := ws.WriteFile(out + [TarName(pl)], TarOf(ws.tree, dir, pl));
    }
  }

  // ---------------------------------------------------------------------------
  // What the archives hold

  /** The archives are not inside the platform directory. */
  lemma ArchivesOutsidePackage(out: Path, pl: Platform, rel: Path)
    ensures PlatformDir(out, pl) + rel != out + [ZipName(pl)]
    ensures PlatformDir(out, pl) + rel != out + [TarName(pl)]
    ensures out + [ZipName(pl)] != out + [TarName(pl)]
  {
    assert (PlatformDir(out, pl) + rel)[|out|] == PlatformName(pl);
    assert (out + [ZipName(pl)])[|out|] == ZipName(pl);
    assert (out + [TarName(pl)])[|out|] == TarName(pl);
    assert |ZipName(pl)| > |PlatformName(pl)| && |TarName(pl)| > |ZipName(pl)|;
  }

  /** The two writes of `Archived` on an existing platform directory: `zipped` is the
      tree after the zip is written. */
  lemma ArchivedSteps(t: Tree, out: Path, pl: Platform) returns (zipped: Tree)
    requires PlatformDir(out, pl) in t && Archived(t, out, pl).Success?
    ensures var zip := out + [ZipName(pl)];
      zipped == t[zip := File(ZipImage(ZipEntries(t, PlatformDir(out, pl))),
                              if zip in t && t[zip].File? then t[zip].mode else NewFileMode)]
    ensures var tar := out + [TarName(pl)];
      Archived(t, out, pl).value ==
        if IsUnix(pl) then
          zipped[tar := File(TarOf(zipped, PlatformDir(out, pl), pl),
                             if tar in zipped && zipped[tar].File? then zipped[tar].mode else NewFileMode)]
        else zipped
  {
    var dir := PlatformDir(out, pl);
    var zip := out + [ZipName(pl)];
    assert WriteFile(t, zip, ZipImage(ZipEntries(t, dir))).Success?;
    WriteFileValue(t, zip, ZipImage(ZipEntries(t, dir)));
    zipped := WriteFile(t, zip, ZipImage(ZipEntries(t, dir))).value;
    if IsUnix(pl) {
      WriteFileValue(zipped, out + [TarName(pl)], TarOf(zipped, dir, pl));
    }
  }

  /** Without a platform directory nothing is written and a warning is printed. */
  lemma NoPackageNoArchives(t: Tree, out: Path, pl: Platform)
    requires PlatformDir(out, pl) !in t
    ensures Archived(t, out, pl) == Success(t)
    ensures ArchiveWarnings(t, out, pl) == [PackageDirNotFound(PlatformDir(out, pl))]
  {
  }

  /** The zip and the tar are written at their own paths, so the tree after both
      differs from `t` only there. */
  lemma ArchivesFrame(t: Tree, out: Path, pl: Platform)
    requires Archived(t, out, pl).Success?
    ensures var u := Archived(t, out, pl).value;
      && (forall q :: q != out + [ZipName(pl)] && q != out + [TarName(pl)] ==> SameAt(t, u, q))
      && (!IsUnix(pl) ==> SameAt(t, u, out + [TarName(pl)]))
  {
    ArchivesOutsidePackage(out, pl, []);
    if PlatformDir(out, pl) in t {
      var zip := out + [ZipName(pl)];
      var tar := out + [TarName(pl)];
      var zipped := ArchivedSteps(t, out, pl);
      var u := Archived(t, out, pl).value;
      if IsUnix(pl) {
        WrittenFrame(t, zipped, u, zip, tar, zipped[zip], u[tar], true);
      } else {
        WrittenFrame(t, zipped, u, zip, tar, zipped[zip], zipped[zip], false);
      }
    }
  }

  /** One write at `p`, then one at `r` exactly when `second`: nothing else changes. */
  lemma WrittenFrame(t: Tree, mid: Tree, u: Tree, p: Path, r: Path, a: Node, b: Node, second: bool)
    requires mid == t[p := a]
    requires second ==> u == mid[r := b]
    requires !second ==> u == mid
    ensures forall q :: q != p && q != r ==> SameAt(t, u, q)
    ensures !second && r != p ==> SameAt(t, u, r)
  {
  }

  /** With a platform directory, the zip holds exactly its files, under their paths
      relative to it. */
  lemma ZipContents(t: Tree, out: Path, pl: Platform)
    requires PlatformDir(out, pl) in t && Archived(t, out, pl).Success?
    ensures var u := Archived(t, out, pl).value; var dir := PlatformDir(out, pl);
      var zip := out + [ZipName(pl)];
      && ArchiveWarnings(t, out, pl) == []
      && IsFile(u, zip) && u[zip].content.ZipImage?
      && (forall rel :: rel in u[zip].content.zipEntries <==> rel != [] && IsFile(t, dir + rel))
      && (forall rel :: rel in u[zip].content.zipEntries ==> u[zip].content.zipEntries[rel] == t[dir + rel])
  {
    ArchivesOutsidePackage(out, pl, []);
    var zipped := ArchivedSteps(t, out, pl);
  }

  /** With a platform directory, on Linux and macOS the tar holds the directory and
      everything in it, below the top-level name `Jumperless-{Platform}`. */
  lemma TarContents(t: Tree, out: Path, pl: Platform)
    requires PlatformDir(out, pl) in t && Archived(t, out, pl).Success? && IsUnix(pl)
    ensures var u := Archived(t, out, pl).value; var dir := PlatformDir(out, pl);
      var tar := out + [TarName(pl)];
      && IsFile(u, tar) && u[tar].content.TarImage? && u[tar].content.tarRoot == ArchiveStem(pl)
      && (forall rel :: rel in u[tar].content.tarEntries <==> dir + rel in t)
      && (forall rel :: rel in u[tar].content.tarEntries ==> u[tar].content.tarEntries[rel] == t[dir + rel])
  {
    var dir := PlatformDir(out, pl);
    var zip := out + [ZipName(pl)];
    var zipped := WriteFile(t, zip, ZipImage(ZipEntries(t, dir))).value;
    forall rel ensures SameAt(t, zipped, dir + rel) {
      ArchivesOutsidePackage(out, pl, rel);
    }
    SubtreeKept(t, zipped, dir);
  }

  /** The platform directory is left as it was. */
  lemma ArchivesKeepPackage(t: Tree, out: Path, pl: Platform)
    requires Archived(t, out, pl).Success?
    ensures forall rel :: SameAt(t, Archived(t, out, pl).value, PlatformDir(out, pl) + rel)
  {
    ArchivesFrame(t, out, pl);
    forall rel ensures SameAt(t, Archived(t, out, pl).value, PlatformDir(out, pl) + rel) {
      ArchivesOutsidePackage(out, pl, rel);
    }
  }

  /** Writing the archives keeps a well-formed tree well-formed. */
  lemma ArchivedWellFormed(t: Tree, out: Path, pl: Platform)
    requires WellFormed(t) && Archived(t, out, pl).Success?
    ensures WellFormed(Archived(t, out, pl).value)
  {
    var dir := PlatformDir(out, pl);
    if dir in t {
      var zip := out + [ZipName(pl)];
      WriteFileWellFormed(t, zip, ZipImage(ZipEntries(t, dir)));
      if IsUnix(pl) {
        var zipped := WriteFile(t, zip, ZipImage(ZipEntries(t, dir))).value;
        WriteFileWellFormed(zipped, out + [TarName(pl)], TarOf(zipped, dir, pl));
      }
    }
  }

  /** The archives next to the package directory of `u` hold that directory as it is
      in `u`: the zip its files, the tar on Linux and macOS all of it. */
  ghost predicate ArchivesHold(u: Tree, out: Path, pl: Platform) {
    var dir := PlatformDir(out, pl);
    var zip := out + [ZipName(pl)];
    var tar := out + [TarName(pl)];
    && IsFile(u, zip) && u[zip].content == ZipImage(ZipEntries(u, dir))
    && (IsUnix(pl) ==> IsFile(u, tar) && u[tar].content == TarImage(ArchiveStem(pl), Subtree(u, dir)))
  }

  /** After `create_archives` on an existing package directory the archives hold it. */
  lemma ArchivesHoldAfter(t: Tree, out: Path, pl: Platform)
    requires PlatformDir(out, pl) in t && Archived(t, out, pl).Success?
    ensures ArchivesHold(Archived(t, out, pl).value, out, pl)
  {
    var zipped := ArchivedSteps(t, out, pl);
    var zip := out + [ZipName(pl)];
    var tar := out + [TarName(pl)];
    var mz := if zip in t && t[zip].File? then t[zip].mode else NewFileMode;
    var mt := if tar in zipped && zipped[tar].File? then zipped[tar].mode else NewFileMode;
    forall rel ensures PlatformDir(out, pl) + rel != zip && PlatformDir(out, pl) + rel != tar {
      ArchivesOutsidePackage(out, pl, rel);
    }
    ArchivesOutsidePackage(out, pl, []);
    ArchivesWritten(t, zipped, Archived(t, out, pl).value, out, pl, mz, mt);
  }

  /** The two writes, as map updates, give the facts `ArchivesHoldFrom` needs. */
  lemma ArchivesWritten(t: Tree, zipped: Tree, u: Tree, out: Path, pl: Platform, mz: nat, mt: nat)
    requires forall rel :: PlatformDir(out, pl) + rel != out + [ZipName(pl)]
    requires forall rel :: PlatformDir(out, pl) + rel != out + [TarName(pl)]
    requires out + [ZipName(pl)] != out + [TarName(pl)]
    requires zipped == t[out + [ZipName(pl)] := File(ZipImage(ZipEntries(t, PlatformDir(out, pl))), mz)]
    requires IsUnix(pl) ==>
      u == zipped[out + [TarName(pl)] := File(TarOf(zipped, PlatformDir(out, pl), pl), mt)]
    requires !IsUnix(pl) ==> u == zipped
    ensures ArchivesHold(u, out, pl)
  {
    var dir := PlatformDir(out, pl);
    var zip := out + [ZipName(pl)];
    var tar := out + [TarName(pl)];
    forall rel ensures SameAt(t, zipped, dir + rel) {
      assert dir + rel != zip;
    }
    forall rel ensures SameAt(zipped, u, dir + rel) {
      assert dir + rel != tar;
    }
    assert zip in zipped && zipped[zip] == File(ZipImage(ZipEntries(t, dir)), mz);
    assert zip in u && u[zip] == zipped[zip];
    if IsUnix(pl) {
      assert tar in u && u[tar] == File(TarOf(zipped, dir, pl), mt);
    }
    ArchivesHoldFrom(t, zipped, u, out, pl);
  }

  /** The step from the two writes to `ArchivesHold`, for any trees with their effect. */
  lemma ArchivesHoldFrom(t: Tree, zipped: Tree, u: Tree, out: Path, pl: Platform)
    requires forall rel :: SameAt(t, zipped, PlatformDir(out, pl) + rel)
    requires forall rel :: SameAt(zipped, u, PlatformDir(out, pl) + rel)
    requires IsFile(u, out + [ZipName(pl)])
    requires u[out + [ZipName(pl)]].content == ZipImage(ZipEntries(t, PlatformDir(out, pl)))
    requires IsUnix(pl) ==> IsFile(u, out + [TarName(pl)])
    requires IsUnix(pl) ==>
      u[out + [TarName(pl)]].content == TarImage(ArchiveStem(pl), Subtree(zipped, PlatformDir(out, pl)))
    ensures ArchivesHold(u, out, pl)
  {
    var dir := PlatformDir(out, pl);
    forall rel ensures SameAt(t, u, dir + rel) {
      assert SameAt(t, zipped, dir + rel) && SameAt(zipped, u, dir + rel);
    }
    ZipEntriesKept(t, u, dir);
    SubtreeKept(zipped, u, dir);
  }

  /** Trees that agree at and below `dir` give the same zip entries for it. */
  lemma ZipEntriesKept(t: Tree, u: Tree, dir: Path)
    requires forall rel :: SameAt(t, u, dir + rel)
    ensures ZipEntries(t, dir) == ZipEntries(u, dir)
  {
    var x := ZipEntries(t, dir);
    var y := ZipEntries(u, dir);
    assert forall rel :: rel in x <==> rel in y;
  }

  /** `create_archives` writes both archives when the package directory exists, the
      output directory is a folder and neither archive place is a folder. */
  lemma ArchivedSucceeds(t: Tree, out: Path, pl: Platform)
    requires PlatformDir(out, pl) in t && IsDir(t, out)
    requires !IsDir(t, out + [ZipName(pl)]) && !IsDir(t, out + [TarName(pl)])
    ensures Archived(t, out, pl).Success?
  {
    ArchivedOutcome(t, out, pl);
  }

  /** How `create_archives` ends, read off the tree: without a package directory it
      only warns; otherwise the zip fails on a folder in its place or a missing output
      directory, and on Linux and macOS the tar fails on a folder in its place. */
  function ArchiveOutcome(t: Tree, out: Path, pl: Platform): Status {
    var zip := out + [ZipName(pl)];
    var tar := out + [TarName(pl)];
    if PlatformDir(out, pl) !in t then Done
    else if IsDir(t, zip) then Crashed(IsADirectory(zip))
    else if out != [] && !IsDir(t, out) then Crashed(FileNotFound(zip))
    else if IsUnix(pl) && IsDir(t, tar) then Crashed(IsADirectory(tar))
    else Done
  }

  /** `Archived` ends as `ArchiveOutcome` says. */
  lemma ArchivedOutcome(t: Tree, out: Path, pl: Platform)
    ensures StatusOf(Archived(t, out, pl)) == ArchiveOutcome(t, out, pl)
  {
    var dir := PlatformDir(out, pl);
    var zip := out + [ZipName(pl)];
    var tar := out + [TarName(pl)];
    if dir in t {
      var c := ZipImage(ZipEntries(t, dir));
      var w := WriteFile(t, zip, c);
      WriteStatus(t, out, ZipName(pl), c);
      if w.Success? {
        var zipped := w.value;
        ArchivesOutsidePackage(out, pl, []);
        assert out != zip by {
          assert |out| < |zip|;
        }
        WriteKeeps(t, zip, c, out);
        WriteKeeps(t, zip, c, tar);
        if IsUnix(pl) {
          var d := TarOf(zipped, dir, pl);
          WriteStatus(zipped, out, TarName(pl), d);
          assert Archived(t, out, pl) == WriteFile(zipped, tar, d);
        } else {
          assert Archived(t, out, pl) == Success(zipped);
        }
      } else {
        assert Archived(t, out, pl) == Failure(w.error);
      }
    }
  }

  /** `create_archives` reads only the package directory, the output directory and the
      two archive places: trees that agree there give the same outcome. */
  lemma ArchivedAgree(t: Tree, u: Tree, out: Path, pl: Platform)
    requires out != []
    requires SameAt(t, u, out) && SameAt(t, u, PlatformDir(out, pl))
    requires SameAt(t, u, out + [ZipName(pl)]) && SameAt(t, u, out + [TarName(pl)])
    ensures StatusOf(Archived(t, out, pl)) == StatusOf(Archived(u, out, pl))
  {
    ArchivedOutcome(t, out, pl);
    ArchivedOutcome(u, out, pl);
  }
}
