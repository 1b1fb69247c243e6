/**
 * Scripts/package_app.py, `package_platform` and `main`: the platform package is
 * assembled in `builds/{platform}`, on macOS a disk image is attempted, and the
 * archives are written next to the package. The script exits 0 when every step
 * returns and 1 when an `OSError` escapes.
 *
 * The command line (`--platform`, `--arch`) becomes the parameters `pl` and `a`; the
 * document texts are passed as `docs` (`DocumentsFor(pl, a)` in the script) and the
 * `create-dmg` installation as the oracle `tool`.
 */
module PackageMain {
  import opened Wrappers
  import opened FileTree
  import opened Workspaces
  import opened PackageTemplates
  import opened PackageApp
  import opened PackageArchives
  import opened PackageDmg

  /** `package_platform(platform, arch, output_dir)`. */
  method PackagePlatform(ws: Workspace, out: Path, pl: Platform, a: Arch, docs: Documents, tool: DmgTool)
    returns (st: Status, image: map<Path, Node>)
    requires WellFormed(ws.tree)
    requires PlatformDir(out, pl)[0] != TempDmgName(a) && PlatformDir(out, pl)[0] != DmgName(a)
    modifies ws
    ensures Assembled(old(ws.tree), out, pl, docs).Failure? ==>
      st == Crashed(Assembled(old(ws.tree), out, pl, docs).error)
    ensures Assembled(old(ws.tree), out, pl, docs).Success? ==>
      var u := Assembled(old(ws.tree), out, pl, docs).value;
      var w := old(ws.warnings) + AssemblyWarnings(old(ws.tree), out, pl);
      && (pl != MacOS ==> st == Done && ws.tree == u && ws.warnings == w)
      && (pl == MacOS && !tool.Installed? ==>
            st == Done && ws.tree == u && ws.warnings == w + [DmgToolUnavailable])
      && (pl == MacOS && tool.Installed? ==>
            DmgEffect(u, w, ws.tree, ws.warnings, st, image, PlatformDir(out, pl), a, tool.builds))
    ensures st.Done? ==> Assembled(old(ws.tree), out, pl, docs).Success?
    ensures st.Done? ==>
      forall rel :: SameAt(Assembled(old(ws.tree), out, pl, docs).value, ws.tree, PlatformDir(out, pl) + rel)
  {
    ghost var t := ws.tree;
    image := map[];
    st := AssemblePlatform(ws, out, pl, docs);
    if st.Crashed? || pl != MacOS {
      return;
    }
    AssembledWellFormed(t, out, pl, docs);
    if [TempDmgName(a)] !in ws.tree {
      FreshFromWellFormed(ws.tree, [TempDmgName(a)]);
    }
    ghost var u := ws.tree;
    ghost var w := ws.warnings;
    st, image := TryCreateMacosDmg(ws, PlatformDir(out, pl), a, tool);
    if st.Done? && tool.Installed? {
      forall rel ensures SameAt(u, ws.tree, PlatformDir(out, pl) + rel) {
        PackageApartFromDmg(PlatformDir(out, pl), a, rel);
        DmgDoneKeeps(u, w, ws.tree, ws.warnings, st, image, PlatformDir(out, pl), a, tool.builds,
                     PlatformDir(out, pl) + rel);
      }
    }
  }

  /** A package directory whose first segment is neither the staging directory nor the
      `.dmg` has everything in it outside both. */
  lemma PackageApartFromDmg(dir: Path, a: Arch, rel: Path)
    requires dir != [] && dir[0] != TempDmgName(a) && dir[0] != DmgName(a)
    ensures !IsPrefix(StagingDir(a), dir + rel) && dir + rel != DmgFile(a)
  {
    assert (dir + rel)[0] == dir[0];
    BelowSingle(TempDmgName(a), dir + rel);
  }

  /** `builds` is neither the staging directory nor the `.dmg`. */
  lemma BuildsApartFromDmg(pl: Platform, a: Arch)
    ensures PlatformDir(BuildsDir, pl)[0] != TempDmgName(a)
    ensures PlatformDir(BuildsDir, pl)[0] != DmgName(a)
  {
    assert PlatformDir(BuildsDir, pl)[0] == "builds";
    assert "builds"[0] == 'b' && TempDmgName(a)[0] == 't' && DmgName(a)[0] == 'J';
  }

  /** A disk-image step that ends `Done` leaves everything outside the staging
      directory and the `.dmg` as it was. */
  lemma DmgDoneKeeps(t: Tree, w0: seq<Warning>, u: Tree, w1: seq<Warning>, st: Status,
                     image: map<Path, Node>, dir: Path, a: Arch, builds: bool, q: Path)
    requires DmgEffect(t, w0, u, w1, st, image, dir, a, builds) && st.Done?
    requires !IsPrefix(StagingDir(a), q) && q != DmgFile(a)
    ensures SameAt(t, u, q)
  {
    DmgKeepsOthers(t, a, builds, image, q);
  }

  /** The run got through: `builds` exists, the package was assembled in it, and the
      final tree `u` holds the package as assembled and archives of it. */
  ghost predicate Packaged(t: Tree, u: Tree, pl: Platform, docs: Documents) {
    var made := MakeDir(t, BuildsDir, true);
    && made.Success?
    && Assembled(made.value, BuildsDir, pl, docs).Success?
    && (forall rel :: SameAt(Assembled(made.value, BuildsDir, pl, docs).value, u,
                             PlatformDir(BuildsDir, pl) + rel))
    && ArchivesHold(u, BuildsDir, pl)
  }

  /** The disk-image step ends without an error on the assembled tree `u`: it is not
      attempted, or the staging directory can be made and no two children of the package
      get the same name in it. */
  predicate DmgStepPasses(u: Tree, pl: Platform, a: Arch, tool: DmgTool) {
    var dir := PlatformDir(BuildsDir, pl);
    pl == MacOS && tool.Installed? ==>
      !IsFile(u, StagingDir(a)) && NoCollision(u, dir, Children(u, dir))
  }

  /** `package_platform` and `create_archives` in an existing `builds` end without an
      error: the package is assembled, the disk-image step passes and the archives can
      be written next to the assembled package. */
  predicate PackagingPasses(t: Tree, pl: Platform, a: Arch, docs: Documents, tool: DmgTool) {
    var assembled := Assembled(t, BuildsDir, pl, docs);
    && assembled.Success?
    && DmgStepPasses(assembled.value, pl, a, tool)
    && Archived(assembled.value, BuildsDir, pl).Success?
  }

  /** `main` returns 0: `builds` can be made and the packaging in it passes. */
  predicate ReleasePasses(t: Tree, pl: Platform, a: Arch, docs: Documents, tool: DmgTool) {
    var made := MakeDir(t, BuildsDir, true);
    made.Success? && PackagingPasses(made.value, pl, a, docs, tool)
  }

  /** `package_platform` followed by `create_archives`, in `builds`. */
  method PackageAndArchive(ws: Workspace, pl: Platform, a: Arch, docs: Documents, tool: DmgTool)
    returns (st: Status)
    requires WellFormed(ws.tree)
    modifies ws
    ensures st.Done? <==> PackagingPasses(old(ws.tree), pl, a, docs, tool)
    ensures Assembled(old(ws.tree), BuildsDir, pl, docs).Failure? ==>
      st == Crashed(Assembled(old(ws.tree), BuildsDir, pl, docs).error)
    ensures Assembled(old(ws.tree), BuildsDir, pl, docs).Success? &&
            DmgStepPasses(Assembled(old(ws.tree), BuildsDir, pl, docs).value, pl, a, tool) ==>
      st == StatusOf(Archived(Assembled(old(ws.tree), BuildsDir, pl, docs).value, BuildsDir, pl))
    ensures st.Done? ==> Assembled(old(ws.tree), BuildsDir, pl, docs).Success?
    ensures st.Done? ==>
      forall rel :: SameAt(Assembled(old(ws.tree), BuildsDir, pl, docs).value, ws.tree,
                           PlatformDir(BuildsDir, pl) + rel)
    ensures st.Done? ==> ArchivesHold(ws.tree, BuildsDir, pl)
  {
    ghost var made := ws.tree;
    ghost var w := ws.warnings + AssemblyWarnings(ws.tree, BuildsDir, pl);
    BuildsApartFromDmg(pl, a);
    var image;
    st, image := PackagePlatform(ws, BuildsDir, pl, a, docs, tool);
    if st.Crashed? {
      return;
    }
    var dir := PlatformDir(BuildsDir, pl);
    ghost var dmgDone := ws.tree;
    KeptPackageExists(made, dmgDone, pl, docs);
    DmgKeepsArchivePlaces(Assembled(made, BuildsDir, pl, docs).value, dmgDone, w, ws.warnings,
                          pl, a, tool, image);
    st := CreateArchives(ws, BuildsDir, pl);
    if st.Crashed? {
      return;
    }
    ArchivesHoldAfter(dmgDone, BuildsDir, pl);
    ArchivesKeepPackage(dmgDone, BuildsDir, pl);
    forall rel ensures SameAt(Assembled(made, BuildsDir, pl, docs).value, ws.tree, dir + rel) {
      assert SameAt(Assembled(made, BuildsDir, pl, docs).value, dmgDone, dir + rel);
      assert SameAt(dmgDone, ws.tree, dir + rel);
    }
  }

  /** A disk-image step that ends `Done` leaves the package directory, `builds` and the
      archive places as the assembly left them in `v`, so the archives succeed or fail
      as they would on `v`. */
  lemma DmgKeepsArchivePlaces(v: Tree, u: Tree, w0: seq<Warning>, w1: seq<Warning>,
                              pl: Platform, a: Arch, tool: DmgTool, image: map<Path, Node>)
    requires pl == MacOS && tool.Installed? ==>
      DmgEffect(v, w0, u, w1, Done, image, PlatformDir(BuildsDir, pl), a, tool.builds)
    requires !(pl == MacOS && tool.Installed?) ==> u == v
    ensures DmgStepPasses(v, pl, a, tool)
    ensures StatusOf(Archived(u, BuildsDir, pl)) == StatusOf(Archived(v, BuildsDir, pl))
  {
    if pl == MacOS && tool.Installed? {
      BuildsApartFromDmg(pl, a);
      assert PlatformDir(BuildsDir, pl)[0] == BuildsDir[0];
      PackageApartFromDmg(BuildsDir, a, []);
      PackageApartFromDmg(BuildsDir, a, [PlatformName(pl)]);
      PackageApartFromDmg(BuildsDir, a, [ZipName(pl)]);
      PackageApartFromDmg(BuildsDir, a, [TarName(pl)]);
      assert BuildsDir + [] == BuildsDir && BuildsDir + [PlatformName(pl)] == PlatformDir(BuildsDir, pl);
      DmgKeepsOthers(v, a, tool.builds, image, BuildsDir);
      DmgKeepsOthers(v, a, tool.builds, image, PlatformDir(BuildsDir, pl));
      DmgKeepsOthers(v, a, tool.builds, image, BuildsDir + [ZipName(pl)]);
      DmgKeepsOthers(v, a, tool.builds, image, BuildsDir + [TarName(pl)]);
      ArchivedAgree(v, u, BuildsDir, pl);
    }
  }

  /** The package directory made by the assembly is still there when the tree agrees
      with the assembled one at and below it. */
  lemma KeptPackageExists(made: Tree, u: Tree, pl: Platform, docs: Documents)
    requires Assembled(made, BuildsDir, pl, docs).Success?
    requires forall rel :: SameAt(Assembled(made, BuildsDir, pl, docs).value, u, PlatformDir(BuildsDir, pl) + rel)
    ensures PlatformDir(BuildsDir, pl) in u
  {
    AssembledHasDir(made, BuildsDir, pl, docs);
    var dir := PlatformDir(BuildsDir, pl);
    assert dir + [] == dir;
    assert SameAt(Assembled(made, BuildsDir, pl, docs).value, u, dir + []);
  }

  /** `sys.exit(main())`: `main` returns 0, and an `OSError` escaping from a step ends
      the interpreter with exit status 1; `st` is how the last step ended. */
  method PackageRelease(ws: Workspace, pl: Platform, a: Arch, docs: Documents, tool: DmgTool)
    returns (exitCode: int, st: Status)
    requires WellFormed(ws.tree)
    modifies ws
    ensures exitCode == (if st.Crashed? then 1 else 0)
    ensures exitCode == 0 <==> ReleasePasses(old(ws.tree), pl, a, docs, tool)
    ensures MakeDir(old(ws.tree), BuildsDir, true).Failure? ==>
      st == Crashed(FileExists(BuildsDir)) && ws.tree == old(ws.tree)
    ensures st.Done? ==> Packaged(old(ws.tree), ws.tree, pl, docs)
  {
    ghost var t := ws.tree;
    st := ws.Perform(MakeDir(ws.tree, BuildsDir, true));
    if st.Crashed? {
      return 1, st;
    }
    MakeDirWellFormed(t, BuildsDir, true);
    st := PackageAndArchive(ws, pl, a, docs, tool);
    exitCode := if st.Crashed? then 1 else 0;
  }

  /** Children named only the executable, the fallback folder or `README.md` cannot
      collide in the staging directory: their staged names have different lengths. */
  lemma PackageChildrenApart(u: Tree, pl: Platform)
    requires forall n :: PlatformDir(BuildsDir, pl) + [n] in u ==>
      n == ExecutableName(pl) || n == PythonDirName || n == ReadmeName
    ensures var dir := PlatformDir(BuildsDir, pl); NoCollision(u, dir, Children(u, dir))
  {
    var dir := PlatformDir(BuildsDir, pl);
    forall x, y | x in Children(u, dir) && y in Children(u, dir) && StagedName(u, dir, x) == StagedName(u, dir, y)
      ensures x == y
    {
      StagedNameLength(u, dir, x);
      StagedNameLength(u, dir, y);
      PackageNamesApart(pl, x, y);
    }
  }

  /** The staged name of a child is as long as its name. */
  lemma StagedNameLength(u: Tree, dir: Path, n: string)
    ensures |StagedName(u, dir, n)| == |n|
  {
  }

  /** The executable, the fallback folder and `README.md` have names of different
      lengths. */
  lemma PackageNamesApart(pl: Platform, x: string, y: string)
    requires x == ExecutableName(pl) || x == PythonDirName || x == ReadmeName
    requires y == ExecutableName(pl) || y == PythonDirName || y == ReadmeName
    requires |x| == |y|
    ensures x == y
  {
    assert |ExecutableName(pl)| == 10 || |ExecutableName(pl)| == 14;
    assert |PythonDirName| == 17 && |ReadmeName| == 9;
  }

  /** `main` exits 0 on a well-formed working directory where `builds` is a folder or
      absent and holds no package of the platform yet, the sources have the kind their
      copy calls expect, neither archive place is a folder, and on macOS with
      `create-dmg` installed no file stands where the staging directory goes. Whether
      the build left an executable does not matter: a missing one is only a warning. */
  lemma ReleaseSucceeds(t: Tree, pl: Platform, a: Arch, docs: Documents, tool: DmgTool)
    requires WellFormed(t) && !IsFile(t, BuildsDir) && PlatformDir(BuildsDir, pl) !in t
    requires SourcesOfKind(t, pl)
    requires !IsDir(t, BuildsDir + [ZipName(pl)]) && !IsDir(t, BuildsDir + [TarName(pl)])
    requires pl == MacOS && tool.Installed? ==> !IsFile(t, StagingDir(a))
    ensures ReleasePasses(t, pl, a, docs, tool)
  {
    var made := MakeDir(t, BuildsDir, true).value;
    MakeDirWellFormed(t, BuildsDir, true);
    MadeKeepsOthers(t, pl, a);
    PackagingSucceeds(made, pl, a, docs, tool);
  }

  /** The packaging passes in a well-formed tree where `builds` is a folder without a
      package of the platform, under the conditions of `ReleaseSucceeds`. */
  lemma PackagingSucceeds(t: Tree, pl: Platform, a: Arch, docs: Documents, tool: DmgTool)
    requires WellFormed(t) && IsDir(t, BuildsDir) && PlatformDir(BuildsDir, pl) !in t
    requires SourcesOfKind(t, pl)
    requires !IsDir(t, BuildsDir + [ZipName(pl)]) && !IsDir(t, BuildsDir + [TarName(pl)])
    requires pl == MacOS && tool.Installed? ==> !IsFile(t, StagingDir(a))
    ensures PackagingPasses(t, pl, a, docs, tool)
  {
    var dir := PlatformDir(BuildsDir, pl);
    assert BuildsDir + [PlatformName(pl)] == dir;
    AssembledSucceeds(t, BuildsDir, pl, docs);
    var u := Assembled(t, BuildsDir, pl, docs).value;
    FreshFromWellFormed(t, dir);
    PackageLayout(t, BuildsDir, pl, docs);
    AssembledChildren(t, BuildsDir, pl, docs);
    PackageChildrenApart(u, pl);
    StagingKept(t, u, pl, a);
    AssembledWellFormed(t, BuildsDir, pl, docs);
    AssembledHasDir(t, BuildsDir, pl, docs);
    ArchivesWritable(t, u, pl, a);
  }

  /** The staging place is outside the package directory, so the assembly keeps it. */
  lemma StagingKept(t: Tree, u: Tree, pl: Platform, a: Arch)
    requires Confined(t, u, PlatformDir(BuildsDir, pl))
    ensures SameAt(t, u, StagingDir(a))
  {
    BuildsApartFromDmg(pl, a);
    assert StagingDir(a)[0] == TempDmgName(a);
    assert |PlatformDir(BuildsDir, pl)| == 2;
  }

  /** `mkdir("builds", exist_ok=True)` changes nothing but `builds`: the package place,
      the archive places, the sources and the staging directory keep their entries. */
  lemma MadeKeepsOthers(t: Tree, pl: Platform, a: Arch)
    requires !IsFile(t, BuildsDir)
    ensures MakeDir(t, BuildsDir, true).Success?
    ensures var made := MakeDir(t, BuildsDir, true).value;
      && IsDir(made, BuildsDir)
      && SameAt(t, made, PlatformDir(BuildsDir, pl))
      && SameAt(t, made, BuildsDir + [ZipName(pl)]) && SameAt(t, made, BuildsDir + [TarName(pl)])
      && SameAt(t, made, StagingDir(a))
      && SourcesOfKind(t, pl) == SourcesOfKind(made, pl)
  {
    BuildsApartFromDmg(pl, a);
    assert PlatformDir(BuildsDir, pl)[0] == "builds";
    assert BuiltExecutable(pl)[0] == "dist";
    MadeKeeps(t, PlatformDir(BuildsDir, pl));
    MadeKeeps(t, BuildsDir + [ZipName(pl)]);
    MadeKeeps(t, BuildsDir + [TarName(pl)]);
    MadeKeeps(t, StagingDir(a));
    MadeKeeps(t, BuiltExecutable(pl));
    MadeKeeps(t, BridgeSource);
    MadeKeeps(t, RequirementsSource);
    MadeKeeps(t, AssetsSource);
  }

  /** `mkdir("builds", exist_ok=True)` keeps every other path. */
  lemma MadeKeeps(t: Tree, q: Path)
    requires !IsFile(t, BuildsDir)
    ensures MakeDir(t, BuildsDir, true).Success?
    ensures q != BuildsDir ==> SameAt(t, MakeDir(t, BuildsDir, true).value, q)
  {
  }

  /** On the assembled tree `u` the archives can be written: `builds` is a folder and the
      archive places are as they were before the assembly, not folders. */
  lemma ArchivesWritable(made: Tree, u: Tree, pl: Platform, a: Arch)
    requires WellFormed(u) && IsDir(u, PlatformDir(BuildsDir, pl))
    requires Confined(made, u, PlatformDir(BuildsDir, pl))
    requires !IsDir(made, BuildsDir + [ZipName(pl)]) && !IsDir(made, BuildsDir + [TarName(pl)])
    ensures Archived(u, BuildsDir, pl).Success?
  {
    var dir := PlatformDir(BuildsDir, pl);
    var zip := BuildsDir + [ZipName(pl)];
    var tar := BuildsDir + [TarName(pl)];
    AncestorIsDir(u, BuildsDir, dir);
    ArchivesOutsidePackage(BuildsDir, pl, []);
    assert dir + [] == dir;
    assert !IsPrefix(zip, dir) && !IsPrefix(dir, zip) && !IsPrefix(tar, dir) && !IsPrefix(dir, tar);
    assert SameAt(made, u, zip) && SameAt(made, u, tar);
    ArchivedSucceeds(u, BuildsDir, pl);
  }
}
