/**
 * Scripts/package_app.py, `create_macos_dmg` and `try_create_macos_dmg`: the macOS
 * package is copied into a staging directory `temp_dmg_{arch}` in the working
 * directory, with spaces in the names of its top-level folders replaced by
 * underscores, `create-dmg` makes `Jumperless-macOS-{arch}.dmg` from it, and the
 * staging directory is removed again.
 *
 * `create-dmg` is an oracle: `DmgTool` says whether it is installed and whether
 * making the image exits 0. The disk image is modelled by what it holds, a map from the
 * path inside the image to the entry, and the window settings passed on the command line.
 */
module PackageDmg {
  import opened Wrappers
  import opened PyStr
  import opened FileTree
  import opened Workspaces
  import opened PackageTemplates

  /** What running `create-dmg` does on this machine. */
  datatype DmgTool =
    | NotInstalled            // `create-dmg --version` raises FileNotFoundError
    | Broken                  // `create-dmg --version` exits non-zero
    | Installed(builds: bool) // the version check passes; `builds`: making the image exits 0

  const VolumeName: string := "Jumperless"
  const WindowWidth: nat := 600
  const WindowHeight: nat := 400
  const IconSize: nat := 100

  /** `temp_dmg_{arch}`, in the working directory. */
  function StagingDir(a: Arch): Path {
    [TempDmgName(a)]
  }

  /** `Jumperless-macOS-{arch}.dmg`, in the working directory. */
  function DmgFile(a: Arch): Path {
    [DmgName(a)]
  }

  /** What `create-dmg` writes for the staged entries `image`. */
  function DmgContent(image: map<Path, Node>): Content {
    DiskImage(VolumeName, WindowWidth, WindowHeight, IconSize, image)
  }

  /** `item.name.replace(" ", "_")` */
  function SafeName(n: string): string {
    ReplaceChar(n, ' ', '_')
  }

  /** The names `dir.iterdir()` yields. */
  function Children(t: Tree, dir: Path): (names: set<string>)
    ensures forall n :: n in names <==> dir + [n] in t
  {
    var names := set p | p in t && |p| == |dir| + 1 && IsPrefix(dir, p) :: p[|dir|];
    assert forall p :: p in t && |p| == |dir| + 1 && IsPrefix(dir, p) ==> p == dir + [p[|dir|]];
    assert forall n :: dir + [n] in t ==> (dir + [n])[|dir|] == n;
    names
  }

  /** The name a child gets in the staging directory: a folder's name with spaces
      replaced, a file's own name. */
  function StagedName(t: Tree, dir: Path, n: string): string {
    if IsDir(t, dir + [n]) then SafeName(n) else n
  }

  /** The names the children `names` get in the staging directory. */
  function Targets(t: Tree, dir: Path, names: set<string>): set<string> {
    set n | n in names :: StagedName(t, dir, n)
  }

  /** No two of the children `names` get the same name in the staging directory. */
  predicate NoCollision(t: Tree, dir: Path, names: set<string>) {
    forall a, b :: a in names && b in names && StagedName(t, dir, a) == StagedName(t, dir, b) ==> a == b
  }

  /** `rel` below the child `n` of `dir` is copied: the child itself, and if it is a
      folder everything in it (`copytree`); a file is copied alone (`copy2`). */
  ghost predicate Copied(t: Tree, dir: Path, n: string, rel: Path) {
    dir + [n] + rel in t && (rel == [] || IsDir(t, dir + [n]))
  }

  /** `image` holds, under the staged name of each child in `names`, exactly what is
      copied of it, and nothing under any other name. */
  ghost predicate ImageHolds(image: map<Path, Node>, t: Tree, dir: Path, names: set<string>) {
    && [] !in image
    && (forall n, rel :: n in names ==> ([StagedName(t, dir, n)] + rel in image <==> Copied(t, dir, n, rel)))
    && (forall n, rel :: n in names && Copied(t, dir, n, rel) ==>
          image[[StagedName(t, dir, n)] + rel] == t[dir + [n] + rel])
    && (forall k, rel :: k !in Targets(t, dir, names) ==> [k] + rel !in image)
  }

  /** The staging tree `s` after the children `names` have been copied: outside the
      staging directory it is `t`; inside it holds what `ImageHolds` says. */
  ghost predicate Staging(s: Tree, t: Tree, tmp: string, dir: Path, names: set<string>) {
    && (forall q :: q == [] || q[0] != tmp ==> SameAt(t, s, q))
    && IsDir(s, [tmp])
    && NoCollision(t, dir, names)
    && (forall n, rel :: n in names ==> ([tmp, StagedName(t, dir, n)] + rel in s <==> Copied(t, dir, n, rel)))
    && (forall n, rel :: n in names && Copied(t, dir, n, rel) ==>
          s[[tmp, StagedName(t, dir, n)] + rel] == t[dir + [n] + rel])
    && (forall k, rel :: k !in Targets(t, dir, names) ==> [tmp, k] + rel !in s)
  }

  /** One turn of the copy loop: `copytree(item, tmp / safe_name)` for a folder,
      `copy2(item, tmp)` for a file. */
  function CopyChild(s: Tree, dir: Path, tmp: string, n: string): FsResult<Tree> {
    if IsDir(s, dir + [n]) then CopyTree(s, dir + [n], [tmp, SafeName(n)], false)
    else CopyFile(s, dir + [n], [tmp])
  }

  // ---------------------------------------------------------------------------
  // One turn of the copy loop

  /** A path starting with the package directory is outside the staging directory. */
  lemma PackageOutsideStaging(dir: Path, tmp: string, n: string, rel: Path)
    requires dir != [] && dir[0] != tmp
    ensures (dir + [n] + rel)[0] != tmp
  {
    assert (dir + [n] + rel)[0] == dir[0];
  }

  /** Staged paths under two different names are different. */
  lemma StagedApart(tmp: string, k: string, rel: Path, k2: string, rel2: Path)
    requires k != k2
    ensures [tmp, k] + rel != [tmp, k2] + rel2
  {
    assert ([tmp, k] + rel)[1] == k;
    assert ([tmp, k2] + rel2)[1] == k2;
  }

  /** Adding a child keeps the names apart exactly when its staged name is new. */
  lemma NoCollisionGrow(t: Tree, dir: Path, names: set<string>, n: string)
    requires n !in names
    ensures NoCollision(t, dir, names + {n}) <==>
              NoCollision(t, dir, names) && StagedName(t, dir, n) !in Targets(t, dir, names)
  {
    if StagedName(t, dir, n) in Targets(t, dir, names) {
      var m :| m in names && StagedName(t, dir, m) == StagedName(t, dir, n);
      assert m != n;
    }
  }

  /** `copy2(item, tmp)` of a file whose name is not taken yet. */
  lemma FileChildCopied(s: Tree, t: Tree, tmp: string, dir: Path, names: set<string>, n: string)
    requires Staging(s, t, tmp, dir, names) && dir != [] && dir[0] != tmp
    requires dir + [n] in t && !IsDir(t, dir + [n]) && n !in names
    requires StagedName(t, dir, n) !in Targets(t, dir, names)
    ensures CopyChild(s, dir, tmp, n).Success?
    ensures Staging(CopyChild(s, dir, tmp, n).value, t, tmp, dir, names + {n})
  {
    var src := dir + [n];
    PackageOutsideStaging(dir, tmp, n, []);
    assert dir + [n] + [] == src;
    assert SameAt(t, s, src);
    assert [tmp, n] + [] == [tmp, n] && [tmp] + [n] == [tmp, n];
    assert Name(src) == n && Parent([tmp, n]) == [tmp];
    assert StagedName(t, dir, n) == n;
    assert [tmp, n] + [] !in s;
    assert CopyTarget(s, src, [tmp]) == [tmp, n];
    var u := s[[tmp, n] := s[src]];
    assert CopyChild(s, dir, tmp, n) == Success(u);
    NoCollisionGrow(t, dir, names, n);
    var all := names + {n};
    forall q | q == [] || q[0] != tmp ensures SameAt(t, u, q) {
      assert q != [tmp, n];
      assert SameAt(t, s, q);
    }
    forall m, rel | m in all
      ensures [tmp, StagedName(t, dir, m)] + rel in u <==> Copied(t, dir, m, rel)
      ensures Copied(t, dir, m, rel) ==> u[[tmp, StagedName(t, dir, m)] + rel] == t[dir + [m] + rel]
    {
      if m == n {
        if rel == [] {
        } else {
          assert |[tmp, n] + rel| != |[tmp, n]|;
        }
      } else {
        StagedApart(tmp, StagedName(t, dir, m), rel, n, []);
      }
    }
    forall k, rel | k !in Targets(t, dir, all) ensures [tmp, k] + rel !in u {
      StagedApart(tmp, k, rel, n, []);
    }
  }

  /** A staged path under another name is neither below nor above the folder `[tmp, k2]`. */
  lemma StagedOffFolder(tmp: string, k: string, rel: Path, k2: string)
    requires k != k2
    ensures !IsPrefix([tmp, k2], [tmp, k] + rel) && !IsPrefix([tmp, k] + rel, [tmp, k2])
  {
    assert ([tmp, k] + rel)[1] == k;
  }

  /** The folder `[tmp, k]` made by `copytree` before it copies anything. */
  lemma StagingFolderMade(s: Tree, t: Tree, tmp: string, dir: Path, names: set<string>, k: string)
    requires Staging(s, t, tmp, dir, names) && k !in Targets(t, dir, names)
    ensures MakeDirs(s, [tmp, k], false).Success?
    ensures var made := MakeDirs(s, [tmp, k], false).value;
      && IsDir(made, [tmp]) && IsDir(made, [tmp, k])
      && (forall q :: q != [tmp] && q != [tmp, k] ==> SameAt(s, made, q))
  {
    var dst := [tmp, k];
    assert dst + [] == dst && dst[..1] == [tmp] && dst[..2] == dst;
    assert dst + [] !in s;
    MakeDirsEffect(s, dst, false);
    var made := MakeDirs(s, dst, false).value;
    forall q | q != [tmp] && q != [tmp, k] ensures SameAt(s, made, q) {
      PrefixesOfPair(q, tmp, k);
    }
  }

  /** The nonempty prefixes of a two-segment path are its first segment and itself. */
  lemma PrefixesOfPair(q: Path, a: string, b: string)
    ensures q != [] && IsPrefix(q, [a, b]) ==> q == [a] || q == [a, b]
  {
    if q != [] && IsPrefix(q, [a, b]) {
      assert q == [a, b][..|q|];
    }
  }

  /** The paths below a one-segment path are those that start with its segment. */
  lemma BelowSingle(tmp: string, q: Path)
    ensures IsPrefix([tmp], q) <==> q != [] && q[0] == tmp
  {
    if q != [] && q[0] == tmp {
      assert q[..1] == [tmp];
    }
  }

  /** A path whose first segment differs from `dst`'s is not below `dst`. */
  lemma NotBelow(dst: Path, q: Path)
    requires dst != [] && (q == [] || q[0] != dst[0])
    ensures !IsPrefix(dst, q)
  {
    if |dst| <= |q| {
      assert q[..|dst|][0] == q[0];
    }
  }

  /** `copytree(item, tmp / safe_name)` of a folder whose staged name is not taken yet
      succeeds: it makes the folder and grafts the folder's subtree there. */
  lemma FolderCopyResult(s: Tree, t: Tree, tmp: string, dir: Path, names: set<string>, n: string)
    requires Staging(s, t, tmp, dir, names) && dir != [] && dir[0] != tmp
    requires IsDir(t, dir + [n]) && SafeName(n) !in Targets(t, dir, names)
    ensures var dst := [tmp, SafeName(n)];
      && MakeDirs(s, dst, false).Success?
      && CopyChild(s, dir, tmp, n) ==
           Success(MakeDirs(s, dst, false).value + Graft(dst, Subtree(s, dir + [n])))
  {
    var src := dir + [n];
    var k := SafeName(n);
    var dst := [tmp, k];
    PackageOutsideStaging(dir, tmp, n, []);
    assert dir + [n] + [] == src;
    assert SameAt(t, s, src);
    StagingFolderMade(s, t, tmp, dir, names, k);
    var made := MakeDirs(s, dst, false).value;
    var sub := Subtree(s, src);
    assert [] in sub;
    forall rel | rel != [] ensures dst + rel !in made {
      assert dst + rel != dst && dst + rel != [tmp] by {
        assert |dst + rel| > 2;
      }
      assert dst + rel !in s;
    }
    assert dst + [] == dst;
    assert !KindClash(made, dst, sub);
  }

  /** The grafted copy of a folder of the package holds what the folder holds in `t`. */
  lemma FolderGraft(s: Tree, t: Tree, tmp: string, dir: Path, names: set<string>, n: string)
    requires Staging(s, t, tmp, dir, names) && dir != [] && dir[0] != tmp
    ensures var dst := [tmp, SafeName(n)]; var g := Graft(dst, Subtree(s, dir + [n]));
      && (forall q :: q in g ==> IsPrefix(dst, q))
      && (forall rel :: dst + rel in g <==> dir + [n] + rel in t)
      && (forall rel :: dst + rel in g ==> g[dst + rel] == t[dir + [n] + rel])
  {
    var dst := [tmp, SafeName(n)];
    var sub := Subtree(s, dir + [n]);
    forall rel ensures SameAt(t, s, dir + [n] + rel) && (dst + rel)[|dst|..] == rel {
      PackageOutsideStaging(dir, tmp, n, rel);
    }
  }

  /** The staging invariant after a folder copy, for any tree `made` that `makedirs`
      could give and any graft `g` holding the folder. */
  lemma FolderStaged(s: Tree, t: Tree, tmp: string, dir: Path, names: set<string>, n: string,
                     made: Tree, g: Tree)
    requires Staging(s, t, tmp, dir, names) && dir != [] && dir[0] != tmp
    requires IsDir(t, dir + [n]) && n !in names && SafeName(n) !in Targets(t, dir, names)
    requires IsDir(made, [tmp]) && IsDir(made, [tmp, SafeName(n)])
    requires forall q :: q != [tmp] && q != [tmp, SafeName(n)] ==> SameAt(s, made, q)
    requires forall q :: q in g ==> IsPrefix([tmp, SafeName(n)], q)
    requires forall rel :: [tmp, SafeName(n)] + rel in g <==> dir + [n] + rel in t
    requires forall rel :: [tmp, SafeName(n)] + rel in g ==> g[[tmp, SafeName(n)] + rel] == t[dir + [n] + rel]
    ensures Staging(made + g, t, tmp, dir, names + {n})
  {
    var k := SafeName(n);
    var dst := [tmp, k];
    var u := made + g;
    assert StagedName(t, dir, n) == k;
    NoCollisionGrow(t, dir, names, n);
    var all := names + {n};
    forall q | q == [] || q[0] != tmp ensures SameAt(t, u, q) {
      NotBelow(dst, q);
      assert q !in g;
      assert q != [tmp] && q != dst;
      assert SameAt(s, made, q);
      assert SameAt(t, s, q);
    }
    assert !IsPrefix(dst, [tmp]);
    forall m, rel | m in all
      ensures [tmp, StagedName(t, dir, m)] + rel in u <==> Copied(t, dir, m, rel)
      ensures Copied(t, dir, m, rel) ==> u[[tmp, StagedName(t, dir, m)] + rel] == t[dir + [m] + rel]
    {
      var p := [tmp, StagedName(t, dir, m)] + rel;
      if m == n {
        assert p == dst + rel;
        assert p in g <==> dir + [n] + rel in t;
        if rel == [] {
          assert dir + [n] + [] == dir + [n];
        } else {
          assert |p| > 2;
          assert SameAt(s, made, p);
          assert p !in s;
        }
      } else {
        StagedOffFolder(tmp, StagedName(t, dir, m), rel, k);
        assert p != [tmp] && p != dst by {
          assert |p| >= 2;
        }
        assert p !in g;
        assert SameAt(s, made, p);
      }
    }
    forall k2, rel | k2 !in Targets(t, dir, all) ensures [tmp, k2] + rel !in u {
      StagedOffFolder(tmp, k2, rel, k);
      var p := [tmp, k2] + rel;
      assert p != [tmp] && p != dst by {
        assert |p| >= 2;
      }
      assert p !in g;
      assert SameAt(s, made, p);
    }
  }

  /** `copytree(item, tmp / safe_name)` of a folder whose staged name is not taken yet. */
  lemma FolderChildCopied(s: Tree, t: Tree, tmp: string, dir: Path, names: set<string>, n: string)
    requires Staging(s, t, tmp, dir, names) && dir != [] && dir[0] != tmp
    requires IsDir(t, dir + [n]) && n !in names
    requires StagedName(t, dir, n) !in Targets(t, dir, names)
    ensures CopyChild(s, dir, tmp, n).Success?
    ensures Staging(CopyChild(s, dir, tmp, n).value, t, tmp, dir, names + {n})
  {
    var dst := [tmp, SafeName(n)];
    FolderCopyResult(s, t, tmp, dir, names, n);
    StagingFolderMade(s, t, tmp, dir, names, SafeName(n));
    FolderGraft(s, t, tmp, dir, names, n);
    FolderStaged(s, t, tmp, dir, names, n, MakeDirs(s, dst, false).value,
                 Graft(dst, Subtree(s, dir + [n])));
  }

  /** The copy of a child whose staged name is taken fails: `copytree` finds its target
      already there, `copy2` finds a staged folder where the file would go. */
  lemma ChildClash(s: Tree, t: Tree, tmp: string, dir: Path, names: set<string>, n: string)
    requires Staging(s, t, tmp, dir, names) && dir != [] && dir[0] != tmp
    requires (forall m :: m in names ==> dir + [m] in t) && dir + [n] in t && n !in names
    requires StagedName(t, dir, n) in Targets(t, dir, names)
    ensures CopyChild(s, dir, tmp, n).Failure?
    ensures CopyChild(s, dir, tmp, n).error.FileExists? || CopyChild(s, dir, tmp, n).error.IsADirectory?
  {
    var m :| m in names && StagedName(t, dir, m) == StagedName(t, dir, n);
    assert dir + [m] + [] == dir + [m];
    var taken := [tmp, StagedName(t, dir, m)];
    assert taken + [] == taken;
    assert taken in s && s[taken] == t[dir + [m]];
    PackageOutsideStaging(dir, tmp, n, []);
    assert dir + [n] + [] == dir + [n];
    assert SameAt(t, s, dir + [n]);
    if IsDir(t, dir + [n]) {
      assert MakeDirs(s, taken, false).Failure?;
    } else {
      assert Name(dir + [n]) == n && [tmp] + [n] == taken;
      assert IsDir(t, dir + [m]);
    }
  }

  /** Names that collide keep colliding when more children are added. */
  lemma CollisionGrows(t: Tree, dir: Path, some: set<string>, all: set<string>)
    requires some <= all && !NoCollision(t, dir, some)
    ensures !NoCollision(t, dir, all)
  {
  }

  /** `rmtree(temp_dir)` when it exists, then `temp_dir.mkdir()`: the staging directory
      starts empty. */
  function FreshStaging(t: Tree, tmp: string): FsResult<Tree> {
    var cleared :- if [tmp] in t then RemoveTree(t, [tmp]) else Success(t);
    MakeDir(cleared, [tmp], false)
  }

  /** The staging directory can be made unless a file is in its place; then nothing has
      been copied yet. */
  lemma StagingStart(t: Tree, tmp: string, dir: Path)
    requires [tmp] in t || FreshBelow(t, [tmp])
    ensures FreshStaging(t, tmp).Success? <==> !IsFile(t, [tmp])
    ensures FreshStaging(t, tmp).Failure? ==> FreshStaging(t, tmp) == Failure(NotADirectory([tmp]))
    ensures FreshStaging(t, tmp).Success? ==> Staging(FreshStaging(t, tmp).value, t, tmp, dir, {})
  {
    if !IsFile(t, [tmp]) {
      var cleared := if [tmp] in t then Without(t, [tmp]) else t;
      assert IsPrefix([tmp], [tmp]);
      assert [tmp] !in cleared;
      var s := cleared[[tmp] := Dir];
      assert FreshStaging(t, tmp) == Success(s);
      forall q | q == [] || q[0] != tmp ensures SameAt(t, s, q) {
        NotBelow([tmp], q);
      }
      forall k, rel ensures [tmp, k] + rel !in s {
        BelowSingle(tmp, [tmp, k] + rel);
        assert [tmp, k] + rel != [tmp];
      }
    }
  }

  /** The staging directory holds the image: the entries below it, relative to it. */
  function StagedImage(s: Tree, tmp: string): map<Path, Node> {
    Subtree(s, [tmp]) - {[]}
  }

  lemma StagingImage(s: Tree, t: Tree, tmp: string, dir: Path, names: set<string>)
    requires Staging(s, t, tmp, dir, names)
    ensures ImageHolds(StagedImage(s, tmp), t, dir, names)
  {
    var image := StagedImage(s, tmp);
    forall k, rel ensures [k] + rel in image <==> [tmp, k] + rel in s
      ensures [k] + rel in image ==> image[[k] + rel] == s[[tmp, k] + rel]
    {
      assert [tmp] + ([k] + rel) == [tmp, k] + rel;
    }
  }

  /** After `rmtree(temp_dir)` only what lies outside the staging directory is left,
      and that is `t`'s. */
  lemma StagingRemoved(s: Tree, t: Tree, tmp: string, dir: Path, names: set<string>)
    requires Staging(s, t, tmp, dir, names)
    ensures RemoveTree(s, [tmp]) == Success(Without(t, [tmp]))
  {
    var a := Without(s, [tmp]);
    var b := Without(t, [tmp]);
    forall q ensures (q in a <==> q in b) && (q in a ==> a[q] == b[q]) {
      BelowSingle(tmp, q);
      if !IsPrefix([tmp], q) {
        assert SameAt(t, s, q);
      }
    }
    assert a == b;
  }

  // ---------------------------------------------------------------------------
  // `create-dmg` and the clean-up

  /** The working directory after `create-dmg` ran on `base`: the image is written when
      the tool exits 0, which it does when `builds` and the `.dmg` path is not a folder. */
  function DmgBuilt(base: Tree, a: Arch, builds: bool, image: map<Path, Node>): Tree {
    var written := WriteFile(base, DmgFile(a), DmgContent(image));
    if builds && written.Success? then written.value else base
  }

  /** `Warning: DMG creation failed` when `create-dmg` exits non-zero. */
  function DmgWarnings(base: Tree, a: Arch, builds: bool, image: map<Path, Node>): seq<Warning> {
    if builds && WriteFile(base, DmgFile(a), DmgContent(image)).Success? then []
    else [DmgCreationFailed]
  }

  lemma DmgNamesApart(a: Arch)
    ensures DmgName(a) != TempDmgName(a)
  {
    assert DmgName(a)[0] == 'J';
    assert TempDmgName(a)[0] == 't';
  }

  /** Writing the image while the staging directory exists and removing that directory
      afterwards is writing the image on the tree without it. */
  lemma BuildThenRemove(s: Tree, t: Tree, a: Arch, dir: Path, names: set<string>, c: Content)
    requires Staging(s, t, TempDmgName(a), dir, names)
    ensures var tmp := TempDmgName(a); var base := Without(t, [tmp]);
      var w := WriteFile(s, DmgFile(a), c);
      && (w.Success? <==> WriteFile(base, DmgFile(a), c).Success?)
      && (w.Success? ==> RemoveTree(w.value, [tmp]) == Success(WriteFile(base, DmgFile(a), c).value))
  {
    var tmp := TempDmgName(a);
    var d := DmgFile(a);
    StagingRemoved(s, t, tmp, dir, names);
    DmgNamesApart(a);
    BelowSingle(tmp, d);
    assert SameAt(s, Without(s, [tmp]), d);
    var w := WriteFile(s, d, c);
    if w.Success? {
      var base := Without(t, [tmp]);
      var x := Without(w.value, [tmp]);
      var y := WriteFile(base, d, c).value;
      forall q ensures (q in x <==> q in y) && (q in x ==> x[q] == y[q]) {
        if q != d {
          assert SameAt(Without(s, [tmp]), base, q);
        }
      }
      assert x == y;
    }
  }

  /** What `create_macos_dmg` leaves behind, for the tree `t` and warnings `w0` it starts
      from:
      - a file in the place of the staging directory stops the run in `rmtree`;
      - two children staged under the same name stop the run in `copytree` or `copy2`
        (an uncaught `FileExistsError` or `IsADirectoryError`), after the `finally`
        clause has removed the staging directory;
      - otherwise the image holds the package with its folders renamed, `create-dmg`
        has written it or warned, and the staging directory is gone. */
  ghost predicate DmgEffect(t: Tree, w0: seq<Warning>, u: Tree, w1: seq<Warning>, st: Status,
                            image: map<Path, Node>, dir: Path, a: Arch, builds: bool)
  {
    var tmp := TempDmgName(a);
    var names := Children(t, dir);
    if IsFile(t, [tmp]) then
      st == Crashed(NotADirectory([tmp])) && u == t && w1 == w0
    else if !NoCollision(t, dir, names) then
      && st.Crashed? && (st.error.FileExists? || st.error.IsADirectory?)
      && u == Without(t, [tmp]) && w1 == w0
    else
      && st == Done && ImageHolds(image, t, dir, names)
      && u == DmgBuilt(Without(t, [tmp]), a, builds, image)
      && w1 == w0 + DmgWarnings(Without(t, [tmp]), a, builds, image)
  }

  /** One turn of the copy loop either extends the staging invariant by the child `n`
      or fails because `n`'s staged name is taken, which means the children collide. */
  lemma CopyStep(s: Tree, t: Tree, tmp: string, dir: Path, done: set<string>,
                 names: set<string>, n: string)
    requires Staging(s, t, tmp, dir, done) && dir != [] && dir[0] != tmp
    requires (forall m :: m in names ==> dir + [m] in t) && done <= names && n in names && n !in done
    ensures CopyChild(s, dir, tmp, n).Success? ==>
              Staging(CopyChild(s, dir, tmp, n).value, t, tmp, dir, done + {n})
    ensures CopyChild(s, dir, tmp, n).Failure? ==>
              && (CopyChild(s, dir, tmp, n).error.FileExists? || CopyChild(s, dir, tmp, n).error.IsADirectory?)
              && !NoCollision(t, dir, names)
  {
    if StagedName(t, dir, n) in Targets(t, dir, done) {
      ChildClash(s, t, tmp, dir, done, n);
      NoCollisionGrow(t, dir, done, n);
      CollisionGrows(t, dir, done + {n}, names);
    } else if IsDir(t, dir + [n]) {
      FolderChildCopied(s, t, tmp, dir, done, n);
    } else {
      FileChildCopied(s, t, tmp, dir, done, n);
    }
  }

  /** Staging leaves the package directory's children as they were. */
  lemma ChildrenKept(s: Tree, t: Tree, tmp: string, dir: Path)
    requires Staging(s, t, tmp, dir, {}) && dir != [] && dir[0] != tmp
    ensures Children(s, dir) == Children(t, dir)
  {
    forall n ensures dir + [n] in s <==> dir + [n] in t {
      PackageOutsideStaging(dir, tmp, n, []);
      assert dir + [n] + [] == dir + [n];
      assert SameAt(t, s, dir + [n]);
    }
  }

  /** The `for item in macos_dir.iterdir()` loop over the children `names` of `dir`. It
      stops at the first copy that fails; the staging directory is left for the
      `finally` clause to remove. */
  method StageChildren(ws: Workspace, ghost t: Tree, tmp: string, dir: Path, names: set<string>)
    returns (st: Status)
    requires Staging(ws.tree, t, tmp, dir, {}) && dir != [] && dir[0] != tmp
    requires forall n :: n in names ==> dir + [n] in t
    modifies ws
    ensures ws.warnings == old(ws.warnings)
    ensures st.Done? <==> NoCollision(t, dir, names)
    ensures st.Done? ==> Staging(ws.tree, t, tmp, dir, names)
    ensures st.Crashed? ==> (st.error.FileExists? || st.error.IsADirectory?)
    ensures RemoveTree(ws.tree, [tmp]) == Success(Without(t, [tmp]))
  {
    var left := names;
    ghost var done: set<string> := {};
    st := Done;
    while left != {} && st.Done?
      invariant left + done == names && left !! done
      invariant Staging(ws.tree, t, tmp, dir, done)
      invariant st.Crashed? ==>
        (st.error.FileExists? || st.error.IsADirectory?) && !NoCollision(t, dir, names)
      invariant ws.warnings == old(ws.warnings)
      decreases |left| + (if st.Done? then 1 else 0)
    {
      var n :| n in left;
      st := StageChild(ws, t, tmp, dir, done, names, n);
      if st.Done? {
        done := done + {n};
        left := left - {n};
      }
    }
    StagingRemoved(ws.tree, t, tmp, dir, done);
  }

  /** One turn of the loop: the child `n` copied into the staging directory. */
  method StageChild(ws: Workspace, ghost t: Tree, tmp: string, dir: Path, ghost done: set<string>,
                    ghost names: set<string>, n: string)
    returns (st: Status)
    requires Staging(ws.tree, t, tmp, dir, done) && dir != [] && dir[0] != tmp
    requires (forall m :: m in names ==> dir + [m] in t) && done <= names && n in names && n !in done
    modifies ws
    ensures ws.warnings == old(ws.warnings)
    ensures st.Done? ==> Staging(ws.tree, t, tmp, dir, done + {n})
    ensures st.Crashed? ==>
      && (st.error.FileExists? || st.error.IsADirectory?) && !NoCollision(t, dir, names)
      && ws.tree == old(ws.tree)
  {
    CopyStep(ws.tree, t, tmp, dir, done, names, n);
    st := ws.Perform(CopyChild(ws.tree, dir, tmp, n));
  }

  /** `create-dmg` run on the staged copy, then the `finally` clause. */
  method BuildAndClean(ws: Workspace, ghost t: Tree, dir: Path, a: Arch, builds: bool,
                       ghost names: set<string>)
    returns (image: map<Path, Node>)
    requires Staging(ws.tree, t, TempDmgName(a), dir, names)
    modifies ws
    ensures ImageHolds(image, t, dir, names)
    ensures ws.tree == DmgBuilt(Without(t, [TempDmgName(a)]), a, builds, image)
    ensures ws.warnings == old(ws.warnings) + DmgWarnings(Without(t, [TempDmgName(a)]), a, builds, image)
  {
    var tmp := TempDmgName(a);
    StagingImage(ws.tree, t, tmp, dir, names);
    image := StagedImage(ws.tree, tmp);
    var made := WriteFile(ws.tree, DmgFile(a), DmgContent(image));
    BuildThenRemove(ws.tree, t, a, dir, names, DmgContent(image));
    StagingRemoved(ws.tree, t, tmp, dir, names);
    if builds && made.Success? {
      var _ := ws.Perform(made);
    } else {
      ws.Warn(DmgCreationFailed);
    }
    var _ := ws.Perform(RemoveTree(ws.tree, [tmp]));
  }

  /** `create_macos_dmg(macos_dir, arch)` with `create-dmg` present; `builds` says
      whether making the image exits 0. */
  method CreateMacosDmg(ws: Workspace, dir: Path, a: Arch, builds: bool)
    returns (st: Status, image: map<Path, Node>)
    requires [TempDmgName(a)] in ws.tree || FreshBelow(ws.tree, [TempDmgName(a)])
    requires dir != [] && dir[0] != TempDmgName(a)
    modifies ws
    ensures DmgEffect(old(ws.tree), old(ws.warnings), ws.tree, ws.warnings, st, image, dir, a, builds)
  {
    var t := ws.tree;
    var tmp := TempDmgName(a);
    image := map[];
    StagingStart(t, tmp, dir);
    st := ws.Perform(FreshStaging(ws.tree, tmp));
    if st.Crashed? {
      return;
    }
    ChildrenKept(ws.tree, t, tmp, dir);
    var names := Children(ws.tree, dir);
    st := StageChildren(ws, t, tmp, dir, names);
    if st.Done? {
      image := BuildAndClean(ws, t, dir, a, builds, names);
    } else {
      var _ := ws.Perform(RemoveTree(ws.tree, [tmp]));
    }
  }

  /** `try_create_macos_dmg(macos_dir, arch)`: `create-dmg --version` is run first; when
      it is missing or fails, a warning is printed and nothing else happens. */
  method TryCreateMacosDmg(ws: Workspace, dir: Path, a: Arch, tool: DmgTool)
    returns (st: Status, image: map<Path, Node>)
    requires [TempDmgName(a)] in ws.tree || FreshBelow(ws.tree, [TempDmgName(a)])
    requires dir != [] && dir[0] != TempDmgName(a)
    modifies ws
    ensures !tool.Installed? ==>
      && st == Done && image == map[]
      && ws.tree == old(ws.tree) && ws.warnings == old(ws.warnings) + [DmgToolUnavailable]
    ensures tool.Installed? ==>
      DmgEffect(old(ws.tree), old(ws.warnings), ws.tree, ws.warnings, st, image, dir, a, tool.builds)
  {
    if !tool.Installed? {
      ws.Warn(DmgToolUnavailable);
      return Done, map[];
    }
    st, image := CreateMacosDmg(ws, dir, a, tool.builds);
  }

  // ---------------------------------------------------------------------------
  // What the image and the working directory hold afterwards

  /** Two images that both hold what `ImageHolds` asks are the same image: with no
      collision the contract determines the image completely. */
  lemma ImageUnique(x: map<Path, Node>, y: map<Path, Node>, t: Tree, dir: Path, names: set<string>)
    requires NoCollision(t, dir, names)
    requires ImageHolds(x, t, dir, names) && ImageHolds(y, t, dir, names)
    ensures x == y
  {
    forall p ensures (p in x <==> p in y) && (p in x ==> x[p] == y[p]) {
      if p != [] {
        var k := p[0];
        var rel := p[1..];
        assert p == [k] + rel;
        if k in Targets(t, dir, names) {
          var n :| n in names && StagedName(t, dir, n) == k;
        }
      }
    }
  }

  /** Every top-level folder of the image has a name without spaces. */
  lemma ImageFolderNames(image: map<Path, Node>, t: Tree, dir: Path, names: set<string>, k: string)
    requires ImageHolds(image, t, dir, names)
    requires [k] in image && image[[k]].Dir?
    ensures ' ' !in k
  {
    assert [k] + [] == [k];
    var n :| n in names && StagedName(t, dir, n) == k;
    assert dir + [n] + [] == dir + [n];
    ReplaceCharEffect(n, ' ', '_');
  }

  /** Every top-level file of the image is the package's file of the same name,
      unchanged. */
  lemma ImageTopFiles(image: map<Path, Node>, t: Tree, dir: Path, names: set<string>, k: string)
    requires ImageHolds(image, t, dir, names)
    requires [k] in image && image[[k]].File?
    ensures k in names && dir + [k] in t && image[[k]] == t[dir + [k]]
  {
    assert [k] + [] == [k];
    var n :| n in names && StagedName(t, dir, n) == k;
    assert dir + [n] + [] == dir + [n];
  }

  /** Every entry below a folder `n` of the package is in the image below the folder's
      safe name, unchanged. */
  lemma ImageFolderContents(image: map<Path, Node>, t: Tree, dir: Path, names: set<string>,
                            n: string, rel: Path)
    requires ImageHolds(image, t, dir, names)
    requires n in names && IsDir(t, dir + [n]) && dir + [n] + rel in t
    ensures [SafeName(n)] + rel in image && image[[SafeName(n)] + rel] == t[dir + [n] + rel]
  {
    assert StagedName(t, dir, n) == SafeName(n);
  }

  /** Afterwards nothing is left at or below the staging directory. */
  lemma DmgLeavesNoStaging(t: Tree, a: Arch, builds: bool, image: map<Path, Node>, q: Path)
    requires IsPrefix(StagingDir(a), q)
    ensures q !in DmgBuilt(Without(t, StagingDir(a)), a, builds, image)
  {
    DmgNamesApart(a);
    BelowSingle(TempDmgName(a), q);
    BelowSingle(TempDmgName(a), DmgFile(a));
  }

  /** Apart from the staging directory and the `.dmg`, the working directory is as it
      was, the package directory included. */
  lemma DmgKeepsOthers(t: Tree, a: Arch, builds: bool, image: map<Path, Node>, q: Path)
    requires !IsPrefix(StagingDir(a), q) && q != DmgFile(a)
    ensures SameAt(t, DmgBuilt(Without(t, StagingDir(a)), a, builds, image), q)
  {
  }

  /** The `.dmg` holds the image with the volume name and window settings, and no
      warning is printed, exactly when the tool builds and the `.dmg` path is not a
      folder; otherwise the `.dmg` path is as it was. */
  lemma DmgWrittenIff(t: Tree, a: Arch, builds: bool, image: map<Path, Node>)
    ensures var u := DmgBuilt(Without(t, StagingDir(a)), a, builds, image);
      var warned := DmgWarnings(Without(t, StagingDir(a)), a, builds, image);
      && (builds && !IsDir(t, DmgFile(a)) <==> warned == [])
      && (builds && !IsDir(t, DmgFile(a)) ==>
            IsFile(u, DmgFile(a)) && u[DmgFile(a)].content == DmgContent(image)
            && u[DmgFile(a)].content.volume == "Jumperless"
            && u[DmgFile(a)].content.windowWidth == 600 && u[DmgFile(a)].content.windowHeight == 400
            && u[DmgFile(a)].content.iconSize == 100)
      && (!(builds && !IsDir(t, DmgFile(a))) ==> warned == [DmgCreationFailed] && SameAt(t, u, DmgFile(a)))
  {
    DmgNamesApart(a);
    BelowSingle(TempDmgName(a), DmgFile(a));
  }
}
