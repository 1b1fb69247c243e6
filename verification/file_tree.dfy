/**
 * The filesystem the packaging scripts work on, abstracted as a finite map from a
 * path (a sequence of name segments relative to the working directory) to a node.
 *
 * Each filesystem call the scripts make (`Path.mkdir`, `open(..., 'w')`, `os.chmod`,
 * `shutil.copy2`, `shutil.copytree`, `shutil.move`, `shutil.rmtree`, `Path.unlink`) is a
 * function from a tree to `Result<Tree, OsError>`, where `Failure` is the `OSError` Python
 * would raise. The scripts never catch those errors, so a `Failure` ends the run.
 * Module `Workspaces` holds the mutable filesystem whose methods perform one call each.
 */
module FileTree {
  import opened Wrappers

  /** A path relative to the working directory; `[]` is the working directory itself. */
  type Path = seq<string>

  /** What `open(path, 'w')` gives a new file under a umask of 0o022: 0o644. */
  const NewFileMode: nat := 420

  /** What the scripts `chmod` executables to: 0o755. */
  const ExecutableMode: nat := 493

  /** The owner-execute bit, 0o100. */
  predicate OwnerExecutable(mode: nat) {
    (mode / 64) % 2 == 1
  }

  /** What a file holds: text, or the image of an archive as a map from the entry path
      inside the archive to the entry. A tar holds its entries below one top-level name,
      `tarRoot`: the entry for `rel` is stored as `[tarRoot] + rel`. */
  datatype Content =
    | Text(text: string)
    | ZipImage(zipEntries: map<Path, Node>)
    | TarImage(tarRoot: string, tarEntries: map<Path, Node>)
    | DiskImage(volume: string, windowWidth: nat, windowHeight: nat, iconSize: nat,
                imageEntries: map<Path, Node>)

  /** A directory, or a file with its content and permission bits. */
  datatype Node = Dir | File(content: Content, mode: nat)

  type Tree = map<Path, Node>

  /** The `OSError` subclasses the filesystem calls raise. */
  datatype OsError =
    | FileNotFound(path: Path)
    | FileExists(path: Path)
    | IsADirectory(path: Path)
    | NotADirectory(path: Path)

  type FsResult<T> = Result<T, OsError>

  /** The non-fatal conditions the scripts print as warnings before carrying on. */
  datatype Warning =
    | ExecutableNotFound(path: Path)
    | DmgToolUnavailable
    | DmgCreationFailed
    | PackageDirNotFound(path: Path)
    | AppBundleNotFound(path: Path)
    | OriginalExecutableNotFound(path: Path)

  /** `os.access(path, os.X_OK)` for the owner: a directory is searchable (directories
      are created 0o755), a file needs its owner-execute bit. */
  predicate Executable(n: Node) {
    n.Dir? || OwnerExecutable(n.mode)
  }

  predicate IsPrefix(a: Path, b: Path) {
    |a| <= |b| && b[..|a|] == a
  }

  predicate IsDir(t: Tree, p: Path) {
    p in t && t[p].Dir?
  }

  predicate IsFile(t: Tree, p: Path) {
    p in t && t[p].File?
  }

  /** `p` has the same entry (or the same absence of one) in `t` and `u`. */
  predicate SameAt(t: Tree, u: Tree, p: Path) {
    (p in t <==> p in u) && (p in t ==> t[p] == u[p])
  }

  /** The parent directory of a path, `Path.parent`. */
  function Parent(p: Path): Path
    requires p != []
  {
    p[..|p| - 1]
  }

  /** The last segment of a path, `Path.name`. */
  function Name(p: Path): string
    requires p != []
  {
    p[|p| - 1]
  }

  /** The directory a new entry at `p` goes into exists: the working directory, or a
      directory entry of the tree. */
  predicate ParentIsDir(t: Tree, p: Path)
    requires p != []
  {
    |p| == 1 || IsDir(t, Parent(p))
  }

  /** The nonempty prefixes of `p`: the directories `os.makedirs(p)` makes. */
  function Prefixes(p: Path): (s: set<Path>)
    ensures forall q :: q in s <==> q != [] && IsPrefix(q, p)
  {
    var s := set k | 1 <= k <= |p| :: p[..k];
    assert forall q :: q != [] && IsPrefix(q, p) ==> q == p[..|q|];
    s
  }

  // ---------------------------------------------------------------------------
  // Subtrees

  lemma PrefixSplit(root: Path, p: Path)
    requires IsPrefix(root, p)
    ensures root + p[|root|..] == p
  {
  }

  /** The entries at or below `root`, keyed by their path relative to `root`
      (`[]` for `root` itself). */
  function Subtree(t: Tree, root: Path): (sub: map<Path, Node>)
    ensures forall rel :: rel in sub <==> root + rel in t
    ensures forall rel :: rel in sub ==> sub[rel] == t[root + rel]
  {
    var keys := set p | p in t && IsPrefix(root, p) :: p[|root|..];
    assert forall p :: p in t && IsPrefix(root, p) ==> root + p[|root|..] == p;
    assert forall rel :: root + rel in t ==> (root + rel)[|root|..] == rel;
    map rel | rel in keys :: t[root + rel]
  }

  /** Trees that agree at and below `root` have the same subtree there. */
  lemma SubtreeKept(t: Tree, u: Tree, root: Path)
    requires forall rel :: SameAt(t, u, root + rel)
    ensures Subtree(t, root) == Subtree(u, root)
  {
    var a := Subtree(t, root);
    var b := Subtree(u, root);
    assert forall rel :: rel in a <==> rel in b;
    assert forall rel :: rel in a ==> a[rel] == b[rel];
  }

  /** `sub` placed at `dst`: the entry for `rel` goes to `dst + rel`. */
  function Graft(dst: Path, sub: map<Path, Node>): (g: Tree)
    ensures forall rel :: rel in sub ==> dst + rel in g && g[dst + rel] == sub[rel]
    ensures forall q :: q in g ==> IsPrefix(dst, q) && q[|dst|..] in sub
  {
    var keys := set rel | rel in sub :: dst + rel;
    assert forall rel :: rel in sub ==> (dst + rel)[|dst|..] == rel;
    map q | q in keys :: sub[q[|dst|..]]
  }

  /** `t` with every entry at or below `root` removed. */
  function Without(t: Tree, root: Path): (u: Tree)
    ensures forall p :: p in u <==> p in t && !IsPrefix(root, p)
    ensures forall p :: p in u ==> u[p] == t[p]
  {
    map p | p in t && !IsPrefix(root, p) :: t[p]
  }

  /** The paths below `root` that are files, relative to `root`: what `os.walk(root)`
      reports in its `files` lists. */
  function FilesBelow(t: Tree, root: Path): (files: set<Path>)
    ensures forall rel :: rel in files <==> IsFile(t, root + rel)
  {
    var sub := Subtree(t, root);
    set rel | rel in sub && sub[rel].File?
  }

  // ---------------------------------------------------------------------------
  // Filesystem calls

  /** `Path(p).mkdir(parents=True, exist_ok=existOk)`, also `os.makedirs(p, exist_ok)`:
      every missing prefix becomes a directory; a file on the way is an error. */
  function MakeDirs(t: Tree, p: Path, existOk: bool): FsResult<Tree> {
    if exists q :: q in Prefixes(p) && IsFile(t, q) then Failure(FileExists(p))
    else if !existOk && p in t then Failure(FileExists(p))
    else Success(t + map q | q in Prefixes(p) :: Dir)
  }

  /** `Path(p).mkdir(exist_ok=existOk)`: the parent must already be a directory. */
  function MakeDir(t: Tree, p: Path, existOk: bool): FsResult<Tree> {
    if p == [] then (if existOk then Success(t) else Failure(FileExists(p)))
    else if !ParentIsDir(t, p) then Failure(FileNotFound(p))
    else if p in t then (if existOk && t[p].Dir? then Success(t) else Failure(FileExists(p)))
    else Success(t[p := Dir])
  }

  /** `open(p, 'w').write(...)`: creates or truncates a file; an existing file keeps its
      permission bits, a new one gets `NewFileMode`. */
  function WriteFile(t: Tree, p: Path, c: Content): FsResult<Tree> {
    if p == [] || IsDir(t, p) then Failure(IsADirectory(p))
    else if !ParentIsDir(t, p) then Failure(FileNotFound(p))
    else Success(t[p := File(c, if p in t then t[p].mode else NewFileMode)])
  }

  function WriteText(t: Tree, p: Path, text: string): FsResult<Tree> {
    WriteFile(t, p, Text(text))
  }

  /** `os.chmod(p, mode)`; directory permissions are not modelled. */
  function Chmod(t: Tree, p: Path, mode: nat): FsResult<Tree> {
    if p !in t then Failure(FileNotFound(p))
    else if t[p].Dir? then Success(t)
    else Success(t[p := File(t[p].content, mode)])
  }

  /** Where `shutil.copy2(src, dst)` writes: into `dst` when that is a directory. */
  function CopyTarget(t: Tree, src: Path, dst: Path): Path
    requires src != []
  {
    if IsDir(t, dst) then dst + [Name(src)] else dst
  }

  /** `shutil.copy2(src, dst)`: content and permission bits are copied. */
  function CopyFile(t: Tree, src: Path, dst: Path): FsResult<Tree> {
    if src == [] || IsDir(t, src) then Failure(IsADirectory(src))
    else if src !in t then Failure(FileNotFound(src))
    else
      var target := CopyTarget(t, src, dst);
      if target == [] || IsDir(t, target) then Failure(IsADirectory(target))
      else if !ParentIsDir(t, target) then Failure(FileNotFound(target))
      else Success(t[target := t[src]])
  }

  /** Some entry of `sub` would land at `dst + rel` on an entry of the other kind. */
  predicate KindClash(t: Tree, dst: Path, sub: map<Path, Node>) {
    exists rel :: rel in sub && dst + rel in t && t[dst + rel].Dir? != sub[rel].Dir?
  }

  /** `shutil.copytree(src, dst, dirs_exist_ok=dirsExistOk)`: `dst` and its parents are
      made, then every entry below `src` is copied to the same place below `dst`. */
  function CopyTree(t: Tree, src: Path, dst: Path, dirsExistOk: bool): FsResult<Tree> {
    if src !in t then Failure(FileNotFound(src))
    else if t[src].File? then Failure(NotADirectory(src))
    else
      var made :- MakeDirs(t, dst, dirsExistOk);
      var sub := Subtree(t, src);
      if KindClash(made, dst, sub) then Failure(FileExists(dst))
      else Success(made + Graft(dst, sub))
  }

  /** `Path(p).unlink()` */
  function Unlink(t: Tree, p: Path): FsResult<Tree> {
    if p !in t then Failure(FileNotFound(p))
    else if t[p].Dir? then Failure(IsADirectory(p))
    else Success(t - {p})
  }

  /** `shutil.move(src, dst)` onto a path that has no entry: a rename of `src` and of
      everything below it. */
  function Move(t: Tree, src: Path, dst: Path): FsResult<Tree>
    requires dst !in t
  {
    if src !in t then Failure(FileNotFound(src))
    else Success(Without(t, src) + Graft(dst, Subtree(t, src)))
  }

  /** `shutil.rmtree(p)` */
  function RemoveTree(t: Tree, p: Path): FsResult<Tree> {
    if p !in t then Failure(FileNotFound(p))
    else if t[p].File? then Failure(NotADirectory(p))
    else Success(Without(t, p))
  }

  // ---------------------------------------------------------------------------
  // Facts about the calls

  /** `makedirs` succeeds exactly when no prefix is a file (and, without `exist_ok`,
      the target is new); afterwards every prefix is a directory and nothing else changed. */
  lemma MakeDirsEffect(t: Tree, p: Path, existOk: bool)
    ensures MakeDirs(t, p, existOk).Success? <==>
              (forall k :: 1 <= k <= |p| ==> !IsFile(t, p[..k])) && (existOk || p !in t)
    ensures MakeDirs(t, p, existOk).Success? ==>
              var u := MakeDirs(t, p, existOk).value;
              && (forall k :: 1 <= k <= |p| ==> IsDir(u, p[..k]))
              && (forall q :: !(q != [] && IsPrefix(q, p)) ==> SameAt(t, u, q))
              && (forall q :: q in t && t[q].Dir? ==> IsDir(u, q))
  {
    if MakeDirs(t, p, existOk).Success? {
      var u := MakeDirs(t, p, existOk).value;
      forall k | 1 <= k <= |p| ensures IsDir(u, p[..k]) {
        assert p[..k] in Prefixes(p);
      }
    }
    if (forall k :: 1 <= k <= |p| ==> !IsFile(t, p[..k])) {
      forall q | q in Prefixes(p) ensures !IsFile(t, q) {
        assert q == p[..|q|];
      }
    }
  }

  /** `copytree` leaves every path outside `dst`'s ancestors and descendants unchanged. */
  lemma CopyTreeFrame(t: Tree, src: Path, dst: Path, dirsExistOk: bool)
    requires CopyTree(t, src, dst, dirsExistOk).Success?
    ensures var u := CopyTree(t, src, dst, dirsExistOk).value;
      forall q :: !IsPrefix(q, dst) && !IsPrefix(dst, q) ==> SameAt(t, u, q)
  {
    MakeDirsEffect(t, dst, dirsExistOk);
  }

  /** After `copytree`, `dst` holds a copy of every entry below `src`. */
  lemma CopyTreeCopies(t: Tree, src: Path, dst: Path, dirsExistOk: bool)
    requires CopyTree(t, src, dst, dirsExistOk).Success?
    ensures var u := CopyTree(t, src, dst, dirsExistOk).value;
      forall rel :: src + rel in t ==> dst + rel in u && u[dst + rel] == t[src + rel]
  {
  }

  // ---------------------------------------------------------------------------
  // Well-formed trees

  /** The map is a directory tree: the parent of every entry is a directory. */
  predicate WellFormed(t: Tree) {
    forall p :: p in t && |p| > 1 ==> IsDir(t, Parent(p))
  }

  /** In a well-formed tree every proper ancestor of an entry is a directory. */
  lemma {:induction false} AncestorIsDir(t: Tree, a: Path, q: Path)
    requires WellFormed(t) && q in t && a != [] && |a| < |q| && IsPrefix(a, q)
    ensures IsDir(t, a)
    decreases |q|
  {
    var up := Parent(q);
    assert IsDir(t, up);
    if a != up {
      assert IsPrefix(a, up);
      AncestorIsDir(t, a, up);
    }
  }

  /** A file of a well-formed tree has nothing below it. */
  lemma FileIsLeaf(t: Tree, f: Path, q: Path)
    requires WellFormed(t) && IsFile(t, f) && f != [] && IsPrefix(f, q) && q != f
    ensures q !in t
  {
    if q in t {
      AncestorIsDir(t, f, q);
    }
  }

  /** Nothing is at or below `dir`. */
  ghost predicate FreshBelow(t: Tree, dir: Path) {
    forall q :: IsPrefix(dir, q) ==> q !in t
  }

  /** In a well-formed tree, a missing directory has nothing below it. */
  lemma FreshFromWellFormed(t: Tree, dir: Path)
    requires WellFormed(t) && dir != [] && dir !in t
    ensures FreshBelow(t, dir)
  {
    forall q | IsPrefix(dir, q) ensures q !in t {
      if q in t && q != dir {
        AncestorIsDir(t, dir, q);
      }
    }
  }

  lemma MakeDirsWellFormed(t: Tree, p: Path, existOk: bool)
    requires WellFormed(t) && MakeDirs(t, p, existOk).Success?
    ensures WellFormed(MakeDirs(t, p, existOk).value)
  {
    var u := MakeDirs(t, p, existOk).value;
    MakeDirsEffect(t, p, existOk);
    forall q | q in u && |q| > 1 ensures IsDir(u, Parent(q)) {
      if q in Prefixes(p) {
        assert Parent(q) == p[..|q| - 1];
      }
    }
  }

  lemma MakeDirWellFormed(t: Tree, p: Path, existOk: bool)
    requires WellFormed(t) && MakeDir(t, p, existOk).Success?
    ensures WellFormed(MakeDir(t, p, existOk).value)
  {
  }

  /** The tree a successful write leaves. */
  lemma WriteFileValue(t: Tree, p: Path, c: Content)
    requires WriteFile(t, p, c).Success?
    ensures WriteFile(t, p, c).value == t[p := File(c, if p in t && t[p].File? then t[p].mode else NewFileMode)]
  {
  }

  /** A write succeeds or fails alike on trees that agree at the path and its parent. */
  lemma WriteAgrees(t: Tree, u: Tree, p: Path, c: Content, d: Content)
    requires p != [] && SameAt(t, u, p) && (|p| > 1 ==> SameAt(t, u, Parent(p)))
    ensures WriteFile(t, p, c).Success? == WriteFile(u, p, d).Success?
    ensures WriteFile(t, p, c).Failure? ==> WriteFile(t, p, c).error == WriteFile(u, p, d).error
  {
  }

  /** Writing a file into `dir` succeeds unless a folder is in its place or `dir` is not
      a folder. */
  lemma WriteStatus(t: Tree, dir: Path, x: string, c: Content)
    ensures WriteFile(t, dir + [x], c).Success? <==> !IsDir(t, dir + [x]) && (dir == [] || IsDir(t, dir))
    ensures WriteFile(t, dir + [x], c).Failure? ==>
      WriteFile(t, dir + [x], c).error ==
        if IsDir(t, dir + [x]) then IsADirectory(dir + [x]) else FileNotFound(dir + [x])
  {
    assert Parent(dir + [x]) == dir;
  }

  /** A write leaves every other path as it was. */
  lemma WriteKeeps(t: Tree, p: Path, c: Content, q: Path)
    requires WriteFile(t, p, c).Success? && q != p
    ensures SameAt(t, WriteFile(t, p, c).value, q)
  {
  }

  lemma WriteFileWellFormed(t: Tree, p: Path, c: Content)
    requires WellFormed(t) && WriteFile(t, p, c).Success?
    ensures WellFormed(WriteFile(t, p, c).value)
  {
  }

  lemma ChmodWellFormed(t: Tree, p: Path, mode: nat)
    requires WellFormed(t) && Chmod(t, p, mode).Success?
    ensures WellFormed(Chmod(t, p, mode).value)
  {
  }

  lemma CopyFileWellFormed(t: Tree, src: Path, dst: Path)
    requires WellFormed(t) && CopyFile(t, src, dst).Success?
    ensures WellFormed(CopyFile(t, src, dst).value)
  {
  }

  lemma CopyTreeWellFormed(t: Tree, src: Path, dst: Path, dirsExistOk: bool)
    requires WellFormed(t) && CopyTree(t, src, dst, dirsExistOk).Success?
    ensures WellFormed(CopyTree(t, src, dst, dirsExistOk).value)
  {
    MakeDirsWellFormed(t, dst, dirsExistOk);
    if dst != [] {
      MakeDirsMakes(t, dst, dirsExistOk);
    }
    GraftKeepsWellFormed(t, src, MakeDirs(t, dst, dirsExistOk).value, dst);
  }

  lemma MakeDirsMakes(t: Tree, p: Path, existOk: bool)
    requires MakeDirs(t, p, existOk).Success? && p != []
    ensures IsDir(MakeDirs(t, p, existOk).value, p)
  {
    assert p[..|p|] == p;
    assert p in Prefixes(p);
  }

  /** Copying a directory's subtree to a directory without a clash of kinds keeps the
      tree well formed. */
  lemma GraftKeepsWellFormed(t: Tree, src: Path, made: Tree, dst: Path)
    requires WellFormed(t) && IsDir(t, src) && WellFormed(made)
    requires dst != [] ==> IsDir(made, dst)
    requires !KindClash(made, dst, Subtree(t, src))
    ensures WellFormed(made + Graft(dst, Subtree(t, src)))
  {
    var u := made + Graft(dst, Subtree(t, src));
    forall q | q in u && |q| > 1 ensures IsDir(u, Parent(q)) {
      if q in Graft(dst, Subtree(t, src)) {
        GraftedParent(t, src, made, dst, q);
      } else {
        KeptParent(made, dst, Subtree(t, src), q);
      }
    }
  }

  /** A directory that `copytree` copies over stays a directory, as it may not clash. */
  lemma KeptParent(made: Tree, dst: Path, sub: map<Path, Node>, q: Path)
    requires WellFormed(made) && !KindClash(made, dst, sub)
    requires q in made && |q| > 1
    ensures IsDir(made + Graft(dst, sub), Parent(q))
  {
    var g := Graft(dst, sub);
    if Parent(q) in g {
      var rel := Parent(q)[|dst|..];
      assert dst + rel == Parent(q);
      assert rel in sub;
    }
  }

  /** The parent of a copied entry is a directory after `copytree`. */
  lemma GraftedParent(t: Tree, src: Path, made: Tree, dst: Path, q: Path)
    requires WellFormed(t) && IsDir(t, src) && WellFormed(made) && (dst != [] ==> IsDir(made, dst))
    requires q in Graft(dst, Subtree(t, src)) && |q| > 1
    ensures IsDir(made + Graft(dst, Subtree(t, src)), Parent(q))
  {
    var g := Graft(dst, Subtree(t, src));
    assert IsPrefix(dst, q);
    if |q| == |dst| {
      assert q == dst;
      assert IsDir(made, Parent(dst));
      GraftedAreBelow(dst, Subtree(t, src), Parent(dst));
    } else {
      var rel := q[|dst|..];
      assert rel in Subtree(t, src);
      GraftedParentBelow(t, src, dst, rel);
      assert Parent(q) == dst + rel[..|rel| - 1];
    }
  }

  lemma GraftedAreBelow(dst: Path, sub: map<Path, Node>, p: Path)
    requires |p| < |dst|
    ensures p !in Graft(dst, sub)
  {
  }

  /** Below `dst`, the parent of a copied entry is a copied directory. */
  lemma GraftedParentBelow(t: Tree, src: Path, dst: Path, rel: Path)
    requires WellFormed(t) && IsDir(t, src) && rel in Subtree(t, src) && rel != []
    ensures var up := rel[..|rel| - 1];
      dst + up in Graft(dst, Subtree(t, src)) && Graft(dst, Subtree(t, src))[dst + up].Dir?
  {
    var up := rel[..|rel| - 1];
    if up == [] {
      assert src + up == src;
    } else {
      assert src + rel in t;
      assert Parent(src + rel) == src + up;
    }
    assert IsDir(t, src + up);
    assert up in Subtree(t, src);
  }

  lemma RemoveTreeWellFormed(t: Tree, p: Path)
    requires WellFormed(t) && RemoveTree(t, p).Success?
    ensures WellFormed(RemoveTree(t, p).value)
  {
    var u := RemoveTree(t, p).value;
    forall q | q in u && |q| > 1 ensures IsDir(u, Parent(q)) {
      assert !IsPrefix(p, Parent(q)) by {
        assert !IsPrefix(p, q);
      }
    }
  }
}
